/** What the far side of one connection has been told, read off the messages written on it. */
module Connection {
  import opened Common
  import opened Revision
  import opened Wire
  import I = Interaction

  /** The part of a message that every event and every row carries. */
  datatype Basics = Basics(provider: string, project: string, status: Status)

  function BasicsOf(s: Snapshot): Basics {
    Basics(s.provider, s.project, s.status)
  }

  /** What the last message about a session says; a snapshot without it says that it has stopped. */
  function SaidBasics(wire: seq<Item>, id: Id): Option<Basics> {
    if wire == [] then None
    else
      var before := SaidBasics(wire[..|wire| - 1], id);
      match wire[|wire| - 1]
      case Connected => None
      case Event(s, _, _, _) => if s.id == id then Some(BasicsOf(s)) else before
      case Rows(rows) => if id in rows then Some(BasicsOf(rows[id].info)) else None
      case _ => before
  }

  function PayloadAfter(before: Option<Payload>, item: Item, id: Id): Option<Payload> {
    match item
    case Connected => None
    case Event(s, _, _, inter) => if s.id == id && inter.Some? then inter else before
    case Rows(rows) => if id in rows then Some(rows[id].inter) else before
    case _ => before
  }

  /** The interaction last sent about a session. */
  function SaidPayload(wire: seq<Item>, id: Id): Option<Payload> {
    if wire == [] then None else PayloadAfter(SaidPayload(wire[..|wire| - 1], id), wire[|wire| - 1], id)
  }

  function MadeAfter(before: Option<Snapshot>, item: Item, id: Id): Option<Snapshot> {
    match item
    case Connected => None
    case Event(s, _, _, _) => if s.id == id then Some(s) else before
    case Rows(rows) => if id in rows then Some(rows[id].info) else None
    case _ => before
  }

  /** The session state from which the last message about a session was made. */
  function MadeFrom(wire: seq<Item>, id: Id): Option<Snapshot> {
    if wire == [] then None else MadeAfter(MadeFrom(wire[..|wire| - 1], id), wire[|wire| - 1], id)
  }

  lemma {:induction false} BasicsAreMade(wire: seq<Item>, id: Id)
    ensures SaidBasics(wire, id) == if MadeFrom(wire, id).None? then None else Some(BasicsOf(MadeFrom(wire, id).value))
  {
    if wire != [] {
      BasicsAreMade(wire[..|wire| - 1], id);
    }
  }

  lemma Snoc(wire: seq<Item>, item: Item, id: Id)
    ensures MadeFrom(wire + [item], id) == MadeAfter(MadeFrom(wire, id), item, id)
    ensures SaidPayload(wire + [item], id) == PayloadAfter(SaidPayload(wire, id), item, id)
  {
    WireSnoc(wire, item);
  }

  /** The interaction last sent and the bookkeeping agree with the last message. */
  ghost predicate OnLine(p: Pub, id: Id, content: nat -> I.Content) {
    var said, made := SaidPayload(p.wire, id), MadeFrom(p.wire, id);
    && (said.Some? ==> said.value.content == content(said.value.local))
    && (said.Some? && id in p.lastLocal ==> p.lastLocal[id] == said.value.local)
    && (said.Some? && made.Some? ==> said.value.local == made.value.interaction.revision)
    && (made.Some? ==> I.ContentOf(made.value.interaction) == content(made.value.interaction.revision))
  }

  /** The interaction content of the last message is known to the far side. */
  ghost predicate ContentKnown(wire: seq<Item>, id: Id) {
    && SaidPayload(wire, id).Some? && MadeFrom(wire, id).Some?
    && SaidPayload(wire, id).value.content == I.ContentOf(MadeFrom(wire, id).value.interaction)
  }

  lemma KnownIffPlaced(p: Pub, id: Id, content: nat -> I.Content)
    requires OnLine(p, id, content) && MadeFrom(p.wire, id).Some?
    ensures ContentKnown(p.wire, id) <==> SaidPayload(p.wire, id).Some?
  {
  }

  // ---------------------------------------------------------------------
  // Each operation
  // ---------------------------------------------------------------------

  lemma ConnectFresh(p: Pub, id: Id)
    ensures MadeFrom(Do(p, Connect).wire, id) == None && SaidPayload(Do(p, Connect).wire, id) == None
    ensures Do(p, Connect).lastLocal == p.lastLocal
  {
    Snoc(p.wire, Connected, id);
  }

  ghost predicate SameSaid(p: Pub, p': Pub, id: Id) {
    MadeFrom(p'.wire, id) == MadeFrom(p.wire, id) && SaidPayload(p'.wire, id) == SaidPayload(p.wire, id)
  }

  lemma ForgetSaid(p: Pub, i: Id, diskOk: bool, id: Id)
    ensures SameSaid(p, ForgetSession(p, i, diskOk), id) && ForgetSession(p, i, diskOk).lastLocal == p.lastLocal - {i}
  {
    Snoc(p.wire, Forgot(i), id);
  }

  /** Forgetting sessions says nothing, and drops no other bookkeeping. */
  lemma {:induction false} ForgetAllSaid(p: Pub, ids: seq<Id>, diskOk: bool, id: Id)
    ensures var p' := ForgetAll(p, ids, diskOk);
            && SameSaid(p, p', id) && p'.lastLocal.Keys <= p.lastLocal.Keys
            && (id in p'.lastLocal ==> p'.lastLocal[id] == p.lastLocal[id])
            && (id in p.lastLocal && id !in ids ==> id in p'.lastLocal)
  {
    if ids != [] {
      ForgetAllSaid(p, ids[..|ids| - 1], diskOk, id);
      ForgetSaid(ForgetAll(p, ids[..|ids| - 1], diskOk), ids[|ids| - 1], diskOk, id);
    }
  }

  /** What an event made from `s` does to what is known about a session. */
  ghost predicate EventSaid(p: Pub, p': Pub, s: Snapshot, id: Id) {
    && (s.id != id ==> SameSaid(p, p', id) && (id in p'.lastLocal <==> id in p.lastLocal))
    && (s.id == id ==> MadeFrom(p'.wire, id) == Some(s))
    && (s.id == id ==> (SaidPayload(p'.wire, id).Some? <==> SaidPayload(p.wire, id).Some? || InterChanged(p.lastLocal, s)))
    && p'.lastLocal.Keys <= p.lastLocal.Keys + {s.id} && (!Terminal(s.status) ==> s.id in p'.lastLocal)
  }

  lemma PlainSaid(p: Pub, s: Snapshot, diskOk: bool, writeOk: bool, id: Id)
    ensures var p' := PlainEvent(p, s, diskOk, writeOk);
            && MadeFrom(p'.wire, id) == (if s.id == id then Some(s) else MadeFrom(p.wire, id))
            && SaidPayload(p'.wire, id) == (if s.id == id && InterChanged(p.lastLocal, s) then Some(PayloadOf(p, s))
                                            else SaidPayload(p.wire, id))
            && p'.lastLocal == p.lastLocal[s.id := s.interaction.revision]
  {
    EventItem(p, s, diskOk, writeOk);
    Snoc(p.wire, PlainEvent(p, s, diskOk, writeOk).wire[|p.wire|], id);
  }

  lemma EventIsSaid(p: Pub, s: Snapshot, diskOk: bool, writeOk: bool, id: Id)
    ensures EventSaid(p, SendEvent(p, s, diskOk, writeOk), s, id)
  {
    PlainSaid(p, s, diskOk, writeOk, id);
    ForgetSaid(PlainEvent(p, s, diskOk, writeOk), s.id, diskOk, id);
  }

  lemma EventOnLine(p: Pub, s: Snapshot, diskOk: bool, writeOk: bool, id: Id, content: nat -> I.Content)
    requires OnLine(p, id, content) && (s.id == id ==> I.ContentOf(s.interaction) == content(s.interaction.revision))
    ensures OnLine(SendEvent(p, s, diskOk, writeOk), id, content)
  {
    PlainSaid(p, s, diskOk, writeOk, id);
    ForgetSaid(PlainEvent(p, s, diskOk, writeOk), s.id, diskOk, id);
  }

  /** An event: the content is known afterwards exactly when it was sent with it or earlier on this connection. */
  lemma ContentKnownIff(p: Pub, s: Snapshot, diskOk: bool, writeOk: bool, content: nat -> I.Content)
    requires OnLine(p, s.id, content) && I.ContentOf(s.interaction) == content(s.interaction.revision)
    ensures ContentKnown(SendEvent(p, s, diskOk, writeOk).wire, s.id) <==>
              SaidPayload(p.wire, s.id).Some? || InterChanged(p.lastLocal, s)
  {
    EventOnLine(p, s, diskOk, writeOk, s.id, content);
    EventIsSaid(p, s, diskOk, writeOk, s.id);
    KnownIffPlaced(SendEvent(p, s, diskOk, writeOk), s.id, content);
  }

  /** What a snapshot of `snaps` does to what is known about a session. */
  ghost predicate SnapshotSaid(p: Pub, p': Pub, snaps: map<Id, Snapshot>, id: Id) {
    && MadeFrom(p'.wire, id) == (if id in snaps then Some(snaps[id]) else None)
    && (SaidPayload(p'.wire, id).Some? <==> SaidPayload(p.wire, id).Some? || id in snaps)
    && p'.lastLocal.Keys == p.lastLocal.Keys + snaps.Keys
  }

  lemma LocalsKeys(p: Pub, snaps: map<Id, Snapshot>)
    ensures (p.lastLocal + LocalsOf(RowMap(p, snaps))).Keys == p.lastLocal.Keys + snaps.Keys
  {
    assert RowMap(p, snaps).Keys == snaps.Keys;
    assert LocalsOf(RowMap(p, snaps)).Keys == snaps.Keys;
  }

  /** What the rows of a snapshot say about one session. */
  lemma RowsSaid(p: Pub, snaps: map<Id, Snapshot>, id: Id)
    ensures var wire := p.wire + [Rows(RowMap(p, snaps))];
            && MadeFrom(wire, id) == (if id in snaps then Some(snaps[id]) else None)
            && SaidPayload(wire, id) == (if id in snaps then Some(RowOf(p, snaps[id]).inter) else SaidPayload(p.wire, id))
  {
    Snoc(p.wire, Rows(RowMap(p, snaps)), id);
  }

  lemma SnapshotIsSaid(p: Pub, snaps: map<Id, Snapshot>, diskOk: bool, writeOk: bool, id: Id)
    ensures SnapshotSaid(p, SendSnapshot(p, snaps, diskOk, writeOk), snaps, id)
  {
    RowsSaid(p, snaps, id);
    LocalsKeys(p, snaps);
  }

  lemma SnapshotOnLine(p: Pub, snaps: map<Id, Snapshot>, diskOk: bool, writeOk: bool, id: Id, content: nat -> I.Content)
    requires OnLine(p, id, content)
    requires id in snaps ==> snaps[id].id == id && I.ContentOf(snaps[id].interaction) == content(snaps[id].interaction.revision)
    ensures OnLine(SendSnapshot(p, snaps, diskOk, writeOk), id, content)
  {
    RowsSaid(p, snaps, id);
  }

  /** A snapshot of the session itself, whose interaction is what its local revision stands for. */
  ghost predicate Fine(m: Id -> nat -> I.Content, id: Id, s: Snapshot) {
    s.id == id && I.ContentOf(s.interaction) == m(id)(s.interaction.revision)
  }

  ghost predicate AllFine(m: Id -> nat -> I.Content, snaps: map<Id, Snapshot>) {
    forall id :: id in snaps ==> Fine(m, id, snaps[id])
  }

  ghost predicate AllOnLine(m: Id -> nat -> I.Content, p: Pub) {
    forall id :: OnLine(p, id, m(id))
  }

  lemma SnapshotEverywhere(m: Id -> nat -> I.Content, p: Pub, snaps: map<Id, Snapshot>, diskOk: bool, writeOk: bool)
    requires AllOnLine(m, p) && AllFine(m, snaps)
    ensures AllOnLine(m, SendSnapshot(p, snaps, diskOk, writeOk))
  {
    forall id ensures OnLine(SendSnapshot(p, snaps, diskOk, writeOk), id, m(id)) {
      assert OnLine(p, id, m(id)) && (id in snaps ==> Fine(m, id, snaps[id]));
      SnapshotOnLine(p, snaps, diskOk, writeOk, id, m(id));
    }
  }

  lemma EventEverywhere(m: Id -> nat -> I.Content, p: Pub, s: Snapshot, diskOk: bool, writeOk: bool)
    requires AllOnLine(m, p) && Fine(m, s.id, s)
    ensures AllOnLine(m, SendEvent(p, s, diskOk, writeOk))
  {
    forall id ensures OnLine(SendEvent(p, s, diskOk, writeOk), id, m(id)) {
      assert OnLine(p, id, m(id));
      EventOnLine(p, s, diskOk, writeOk, id, m(id));
    }
  }

  lemma ForgetEverywhere(m: Id -> nat -> I.Content, p: Pub, ids: seq<Id>, diskOk: bool)
    requires AllOnLine(m, p)
    ensures AllOnLine(m, ForgetAll(p, ids, diskOk))
  {
    forall id ensures OnLine(ForgetAll(p, ids, diskOk), id, m(id)) {
      assert OnLine(p, id, m(id));
      ForgetAllSaid(p, ids, diskOk, id);
    }
  }

  // ---------------------------------------------------------------------
  // Activity times
  // ---------------------------------------------------------------------

  /**
   * The comment on `UpdateInteraction` promises that a repeated report forwards
   * a fresh activity time. It reaches the far side exactly when the report
   * changes the content, or when the time is the one already sent.
   */
  lemma ActivityTimeForwardedIff(p: Pub, cur: Snapshot, report: I.Interaction, now: int, diskOk: bool, writeOk: bool)
    requires cur.id in p.lastLocal && p.lastLocal[cur.id] == cur.interaction.revision
    requires SaidPayload(p.wire, cur.id).Some?
    requires SaidPayload(p.wire, cur.id).value.lastActivityAt == cur.interaction.lastActivityAt
    ensures var next := cur.(interaction := I.Updated(cur.interaction, report, now));
            var said := SaidPayload(PlainEvent(p, next, diskOk, writeOk).wire, cur.id);
            && said.Some?
            && (said.value.lastActivityAt == next.interaction.lastActivityAt <==>
                I.Changed(cur.interaction, report) || cur.interaction.lastActivityAt == now)
  {
    var next := cur.(interaction := I.Updated(cur.interaction, report, now));
    EventItem(p, next, diskOk, writeOk);
    Snoc(p.wire, PlainEvent(p, next, diskOk, writeOk).wire[|p.wire|], cur.id);
  }

  function Announced(cur: Snapshot): Pub {
    Do(Do(NewPub, Connect), DoEvent(cur, true, true))
  }

  /** The first event about a session carries its interaction. */
  lemma FirstEvent(cur: Snapshot)
    ensures var p := Announced(cur);
            && cur.id in p.lastLocal && p.lastLocal[cur.id] == cur.interaction.revision && Current(p.revs, cur.id) == 1
            && SaidPayload(p.wire, cur.id).Some?
            && SaidPayload(p.wire, cur.id).value.lastActivityAt == cur.interaction.lastActivityAt
  {
    var p0 := Do(NewPub, Connect);
    FirstIsPlain(p0, cur);
    PlainSaid(p0, cur, true, true, cur.id);
  }

  lemma FirstIsPlain(p: Pub, cur: Snapshot)
    requires p.revs == p.inters == Counters(map[], map[]) && p.lastLocal == map[]
    ensures SendEvent(p, cur, true, true) == PlainEvent(p, cur, true, true)
    ensures Current(PlainEvent(p, cur, true, true).revs, cur.id) == 1 && InterChanged(p.lastLocal, cur)
  {
  }

  /** A session is announced, then reports the same interaction again a second later: the event leaves the new time out. */
  lemma RepeatedReportIsNotForwarded(cur: Snapshot, next: Snapshot)
    requires next == cur.(interaction := I.Updated(cur.interaction, cur.interaction, cur.interaction.lastActivityAt + 1))
    ensures next.interaction.lastActivityAt == cur.interaction.lastActivityAt + 1
    ensures InterPart(Announced(cur), next, false) == None
    ensures TimeSaid(PlainEvent(Announced(cur), next, true, true), cur.id) == Some(cur.interaction.lastActivityAt)
  {
    FirstEvent(cur);
    PlainSaid(Announced(cur), next, true, true, cur.id);
  }

  /** The activity time the far side has for a session. */
  function TimeSaid(p: Pub, id: Id): Option<int> {
    var said := SaidPayload(p.wire, id);
    if said.None? then None else Some(said.value.lastActivityAt)
  }
}
