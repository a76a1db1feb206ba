/**
 * What the control client puts on the wire: lifecycle revisions and
 * interaction payloads, over any mix of events, snapshots, discarded
 * notifications, failed writes, reconnects and restarts.
 */
module Wire {
  import opened Common
  import opened Revision
  import I = Interaction

  datatype Status = Starting | Running | Attached | Stopping | Stopped | Failed | Unknown

  predicate Terminal(s: Status) {
    s == Stopped || s == Failed
  }

  /** The session metadata the supervisor hands over; `version` numbers the states of a session and is never sent. */
  datatype Snapshot = Snapshot(id: Id, provider: string, project: string, status: Status, interaction: I.Interaction, version: nat)

  datatype MessageKind = SessionStarted | SessionUpdated | SessionStopped

  /** An interaction on the wire; `local` is the local revision it was made from and is not sent. */
  datatype Payload = Payload(rev: int, content: I.Content, source: string, updatedAt: int, lastActivityAt: int, local: nat)

  datatype Row = Row(rev: int, info: Snapshot, inter: Payload)

  /** Messages in the order they were written, and the events in between that matter to them. */
  datatype Item =
    | Connected
    | Restarted
    | Forgot(id: Id)
    | Event(info: Snapshot, kind: MessageKind, rev: int, inter: Option<Payload>)
    | Rows(rows: map<Id, Row>)

  datatype Pub = Pub(revs: Counters, inters: Counters, lastLocal: map<Id, int>, wire: seq<Item>, up: bool)

  const NewPub := Pub(Counters(map[], map[]), Counters(map[], map[]), map[], [], false)

  // ---------------------------------------------------------------------
  // Sending
  // ---------------------------------------------------------------------

  /** The local revision differs from the one last placed in a message, or none was. */
  predicate InterChanged(lastLocal: map<Id, int>, s: Snapshot) {
    s.id !in lastLocal || lastLocal[s.id] != s.interaction.revision
  }

  function InterRev(inters: Counters, lastLocal: map<Id, int>, s: Snapshot): int {
    if Current(inters, s.id) <= 0 || InterChanged(lastLocal, s) then Current(inters, s.id) + 1 else Current(inters, s.id)
  }

  function PayloadOf(p: Pub, s: Snapshot): Payload {
    Payload(InterRev(p.inters, p.lastLocal, s), I.ContentOf(s.interaction), s.interaction.source,
            s.interaction.updatedAt, s.interaction.lastActivityAt, s.interaction.revision)
  }

  /** The interaction part of a message about `s`; an event leaves it out when nothing changed. */
  function InterPart(p: Pub, s: Snapshot, force: bool): Option<Payload> {
    if force || InterChanged(p.lastLocal, s) then Some(PayloadOf(p, s)) else None
  }

  /** The bookkeeping that goes with it. */
  function NoteInter(p: Pub, s: Snapshot, force: bool, diskOk: bool): Pub {
    if InterPart(p, s, force).None? then p
    else p.(lastLocal := p.lastLocal[s.id := s.interaction.revision],
            inters := if InterRev(p.inters, p.lastLocal, s) == Current(p.inters, s.id) then p.inters
                      else Bump(p.inters, s.id, diskOk))
  }

  function KindOf(p: Pub, s: Snapshot): MessageKind {
    if Current(p.revs, s.id) <= 0 then SessionStarted
    else if Terminal(s.status) then SessionStopped
    else SessionUpdated
  }

  function ForgetSession(p: Pub, id: Id, diskOk: bool): Pub {
    p.(revs := Drop(p.revs, id, diskOk), inters := Drop(p.inters, id, diskOk), lastLocal := p.lastLocal - {id},
       wire := p.wire + [Forgot(id)])
  }

  /** One incremental event, before any forgetting. */
  function PlainEvent(p: Pub, s: Snapshot, diskOk: bool, writeOk: bool): Pub {
    var item := Event(s, KindOf(p, s), Current(p.revs, s.id) + 1, InterPart(p, s, false));
    NoteInter(p.(revs := Bump(p.revs, s.id, diskOk)), s, false, diskOk).(wire := p.wire + [item], up := writeOk)
  }

  /** A failed write ends the connection, but the revision is spent. */
  function SendEvent(p: Pub, s: Snapshot, diskOk: bool, writeOk: bool): Pub {
    var sent := PlainEvent(p, s, diskOk, writeOk);
    if writeOk && KindOf(p, s) == SessionStopped then ForgetSession(sent, s.id, diskOk) else sent
  }

  /** Forgetting several sessions, one after another. */
  function ForgetAll(p: Pub, ids: seq<Id>, diskOk: bool): Pub {
    if ids == [] then p else ForgetSession(ForgetAll(p, ids[..|ids| - 1], diskOk), ids[|ids| - 1], diskOk)
  }

  function RowRev(p: Pub, id: Id): int {
    if Current(p.revs, id) <= 0 then Current(p.revs, id) + 1 else Current(p.revs, id)
  }

  function RowOf(p: Pub, s: Snapshot): Row {
    Row(RowRev(p, s.id), s, PayloadOf(p, s))
  }

  function Settle(c: Counters, mem: map<Id, int>, ok: bool): Counters {
    if mem != c.mem && ok then Counters(mem, mem) else c.(mem := mem)
  }

  function RowMap(p: Pub, snaps: map<Id, Snapshot>): map<Id, Row> {
    map id | id in snaps :: RowOf(p, snaps[id])
  }

  function RevsOf(rows: map<Id, Row>): map<Id, int> {
    map id | id in rows :: rows[id].rev
  }

  function IntersOf(rows: map<Id, Row>): map<Id, int> {
    map id | id in rows :: rows[id].inter.rev
  }

  function LocalsOf(rows: map<Id, Row>): map<Id, int> {
    map id | id in rows :: rows[id].inter.local as int
  }

  /** One authoritative snapshot of the given sessions. */
  function SendSnapshot(p: Pub, snaps: map<Id, Snapshot>, diskOk: bool, writeOk: bool): Pub {
    var rows := RowMap(p, snaps);
    p.(revs := Settle(p.revs, p.revs.mem + RevsOf(rows), diskOk),
       inters := Settle(p.inters, p.inters.mem + IntersOf(rows), diskOk),
       lastLocal := p.lastLocal + LocalsOf(rows),
       wire := p.wire + [Rows(rows)], up := writeOk)
  }

  datatype Op =
    | Connect
    | Lose
    | Restart
    | DoEvent(info: Snapshot, diskOk: bool, writeOk: bool)
    | DoSnapshot(snaps: map<Id, Snapshot>, diskOk: bool, writeOk: bool)
    | DoForget(id: Id, diskOk: bool)

  function Do(p: Pub, op: Op): Pub {
    match op
    case Connect => p.(up := true, wire := p.wire + [Connected])
    case Lose => p.(up := false)
    case Restart => Pub(Reload(p.revs), Reload(p.inters), map[], p.wire + [Restarted], false)
    case DoEvent(s, diskOk, writeOk) => SendEvent(p, s, diskOk, writeOk)
    case DoSnapshot(snaps, diskOk, writeOk) => SendSnapshot(p, snaps, diskOk, writeOk)
    case DoForget(id, diskOk) => ForgetSession(p, id, diskOk)
  }

  function DoAll(p: Pub, ops: seq<Op>): Pub {
    if ops == [] then p else Do(DoAll(p, ops[..|ops| - 1]), ops[|ops| - 1])
  }

  /** The counter on disk is the one in memory. */
  predicate SavedAt(c: Counters, id: Id) {
    Current(Reload(c), id) == Current(c, id)
  }

  /**
   * A session's row is about that session, and at a restart both of its
   * counters are on disk. Any counter write may fail before that.
   */
  predicate StepOk(p: Pub, op: Op, id: Id) {
    match op
    case DoSnapshot(snaps, _, _) => id in snaps ==> snaps[id].id == id
    case Restart => SavedAt(p.revs, id) && SavedAt(p.inters, id)
    case _ => true
  }

  predicate RunOk(p: Pub, ops: seq<Op>, id: Id) {
    ops == [] || (RunOk(p, ops[..|ops| - 1], id) && StepOk(DoAll(p, ops[..|ops| - 1]), ops[|ops| - 1], id))
  }

  // ---------------------------------------------------------------------
  // Reading the wire
  // ---------------------------------------------------------------------

  /** The revision last placed in a message about a session since it was last forgotten. */
  function LastRev(wire: seq<Item>, id: Id): Option<int> {
    if wire == [] then None
    else
      var before := LastRev(wire[..|wire| - 1], id);
      match wire[|wire| - 1]
      case Forgot(i) => if i == id then None else before
      case Event(s, _, rev, _) => if s.id == id then Some(rev) else before
      case Rows(rows) => if id in rows then Some(rows[id].rev) else before
      case _ => before
  }

  /** The interaction payload last placed in a message, likewise. */
  function LastInter(wire: seq<Item>, id: Id): Option<Payload> {
    if wire == [] then None
    else
      var before := LastInter(wire[..|wire| - 1], id);
      match wire[|wire| - 1]
      case Forgot(i) => if i == id then None else before
      case Event(s, _, _, inter) => if s.id == id && inter.Some? then inter else before
      case Rows(rows) => if id in rows then Some(rows[id].inter) else before
      case _ => before
  }

  /** The same, but only looking back to the start of this process. */
  function LastInterHere(wire: seq<Item>, id: Id): Option<Payload> {
    if wire == [] then None
    else
      var before := LastInterHere(wire[..|wire| - 1], id);
      match wire[|wire| - 1]
      case Restarted => None
      case Forgot(i) => if i == id then None else before
      case Event(s, _, _, inter) => if s.id == id && inter.Some? then inter else before
      case Rows(rows) => if id in rows then Some(rows[id].inter) else before
      case _ => before
  }

  /** What the next payload about `s` must carry, given what came before it. */
  ghost predicate InterFollows(before: seq<Item>, s: Snapshot, q: Payload) {
    && q.local == s.interaction.revision && q.content == I.ContentOf(s.interaction) && q.source == s.interaction.source
    && q.updatedAt == s.interaction.updatedAt && q.lastActivityAt == s.interaction.lastActivityAt
    && var last, here := LastInter(before, s.id), LastInterHere(before, s.id);
       q.rev == if last.None? then 1
                else if here.Some? && here.value.local == q.local then last.value.rev
                else last.value.rev + 1
  }

  function NextRev(before: seq<Item>, id: Id): int {
    if LastRev(before, id).None? then 1 else LastRev(before, id).value + 1
  }

  /** A message about a session carries exactly the revisions that the messages before it call for. */
  ghost predicate ItemFollows(before: seq<Item>, item: Item, id: Id) {
    match item
    case Event(s, kind, rev, inter) =>
      s.id == id ==>
        && rev == NextRev(before, id)
        && (kind == SessionStarted <==> LastRev(before, id).None?)
        && (kind == SessionStopped <==> LastRev(before, id).Some? && Terminal(s.status))
        && (if inter.Some? then InterFollows(before, s, inter.value)
            else LastInterHere(before, id).Some? && LastInterHere(before, id).value.local == s.interaction.revision)
    case Rows(rows) => id in rows ==> RowFollows(before, id, rows[id])
    case _ => true
  }

  ghost predicate RowFollows(before: seq<Item>, id: Id, row: Row) {
    && row.info.id == id
    && row.rev == (if LastRev(before, id).None? then 1 else LastRev(before, id).value)
    && InterFollows(before, row.info, row.inter)
  }

  ghost predicate Continuous(wire: seq<Item>, id: Id) {
    forall k :: 0 <= k < |wire| ==> ItemFollows(wire[..k], wire[k], id)
  }

  // ---------------------------------------------------------------------
  // The invariant
  // ---------------------------------------------------------------------

  /** The counters in memory are exactly what the wire says. */
  ghost predicate Agrees(p: Pub, id: Id) {
    var rev, inter, here := LastRev(p.wire, id), LastInter(p.wire, id), LastInterHere(p.wire, id);
    && Current(p.revs, id) == (if rev.None? then 0 else rev.value) && (rev.Some? ==> rev.value >= 1)
    && Current(p.inters, id) == (if inter.None? then 0 else inter.value.rev) && (inter.Some? ==> inter.value.rev >= 1)
    && (here.Some? <==> id in p.lastLocal) && (here.Some? ==> inter == here && p.lastLocal[id] == here.value.local)
  }

  lemma WireSnoc(wire: seq<Item>, item: Item)
    ensures (wire + [item])[..|wire|] == wire && (wire + [item])[|wire|] == item
  {
  }

  lemma ConnectKeeps(p: Pub, op: Op, id: Id)
    requires Agrees(p, id) && (op == Connect || op == Lose || op == Restart) && StepOk(p, op, id)
    ensures Agrees(Do(p, op), id)
  {
    WireSnoc(p.wire, Connected);
    WireSnoc(p.wire, Restarted);
  }

  lemma ForgetKeeps(p: Pub, i: Id, diskOk: bool, id: Id)
    requires Agrees(p, id)
    ensures Agrees(ForgetSession(p, i, diskOk), id)
  {
    WireSnoc(p.wire, Forgot(i));
  }

  lemma OtherEventKeeps(p: Pub, s: Snapshot, diskOk: bool, writeOk: bool, id: Id)
    requires Agrees(p, id) && s.id != id
    ensures Agrees(PlainEvent(p, s, diskOk, writeOk), id)
  {
    var p' := PlainEvent(p, s, diskOk, writeOk);
    WireSnoc(p.wire, p'.wire[|p.wire|]);
    assert LastRev(p'.wire, id) == LastRev(p.wire, id);
    assert LastInter(p'.wire, id) == LastInter(p.wire, id) && LastInterHere(p'.wire, id) == LastInterHere(p.wire, id);
  }

  lemma EventKeeps(p: Pub, s: Snapshot, diskOk: bool, writeOk: bool)
    requires Agrees(p, s.id)
    ensures Agrees(PlainEvent(p, s, diskOk, writeOk), s.id)
    ensures ItemFollows(p.wire, PlainEvent(p, s, diskOk, writeOk).wire[|p.wire|], s.id)
  {
    WireSnoc(p.wire, PlainEvent(p, s, diskOk, writeOk).wire[|p.wire|]);
  }

  lemma SettledAt(c: Counters, moved: map<Id, int>, diskOk: bool, id: Id)
    ensures Current(Settle(c, c.mem + moved, diskOk), id) == if id in moved then moved[id] else Current(c, id)
  {
  }

  lemma RowsOnWire(wire: seq<Item>, rows: map<Id, Row>, id: Id)
    ensures var wire' := wire + [Rows(rows)];
            && LastRev(wire', id) == (if id in rows then Some(rows[id].rev) else LastRev(wire, id))
            && LastInter(wire', id) == (if id in rows then Some(rows[id].inter) else LastInter(wire, id))
            && LastInterHere(wire', id) == (if id in rows then Some(rows[id].inter) else LastInterHere(wire, id))
  {
    WireSnoc(wire, Rows(rows));
  }

  lemma SnapshotKeeps(p: Pub, snaps: map<Id, Snapshot>, diskOk: bool, writeOk: bool, id: Id)
    requires Agrees(p, id) && (id in snaps ==> snaps[id].id == id)
    ensures Agrees(SendSnapshot(p, snaps, diskOk, writeOk), id)
    ensures ItemFollows(p.wire, Rows(RowMap(p, snaps)), id)
  {
    var rows := RowMap(p, snaps);
    SettledAt(p.revs, RevsOf(rows), diskOk, id);
    SettledAt(p.inters, IntersOf(rows), diskOk, id);
    RowsOnWire(p.wire, rows, id);
    RowAgrees(p, SendSnapshot(p, snaps, diskOk, writeOk), rows, id);
  }

  lemma RowAgrees(p: Pub, p': Pub, rows: map<Id, Row>, id: Id)
    requires Agrees(p, id) && (id in rows ==> rows[id].info.id == id && rows[id] == RowOf(p, rows[id].info))
    requires Current(p'.revs, id) == (if id in rows then rows[id].rev else Current(p.revs, id))
    requires Current(p'.inters, id) == (if id in rows then rows[id].inter.rev else Current(p.inters, id))
    requires p'.lastLocal == p.lastLocal + LocalsOf(rows)
    requires LastRev(p'.wire, id) == if id in rows then Some(rows[id].rev) else LastRev(p.wire, id)
    requires LastInter(p'.wire, id) == if id in rows then Some(rows[id].inter) else LastInter(p.wire, id)
    requires LastInterHere(p'.wire, id) == if id in rows then Some(rows[id].inter) else LastInterHere(p.wire, id)
    ensures Agrees(p', id) && (id in rows ==> RowFollows(p.wire, id, rows[id]))
  {
  }

  lemma ContinuousSnoc(wire: seq<Item>, item: Item, id: Id)
    requires Continuous(wire, id) && ItemFollows(wire, item, id)
    ensures Continuous(wire + [item], id)
  {
    var wire' := wire + [item];
    forall k | 0 <= k < |wire'| ensures ItemFollows(wire'[..k], wire'[k], id) {
      if k < |wire| {
        assert wire'[..k] == wire[..k];
      } else {
        assert wire'[..k] == wire;
      }
    }
  }

  /** The message an event puts on the wire, and what may follow it. */
  lemma EventItem(p: Pub, s: Snapshot, diskOk: bool, writeOk: bool)
    ensures var sent := PlainEvent(p, s, diskOk, writeOk);
            && sent.wire == p.wire + [Event(s, KindOf(p, s), Current(p.revs, s.id) + 1, InterPart(p, s, false))]
            && SendEvent(p, s, diskOk, writeOk).wire
               == if writeOk && KindOf(p, s) == SessionStopped then sent.wire + [Forgot(s.id)] else sent.wire
  {
  }

  lemma DoEventKeeps(p: Pub, s: Snapshot, diskOk: bool, writeOk: bool, id: Id)
    requires Agrees(p, id) && Continuous(p.wire, id)
    ensures Agrees(SendEvent(p, s, diskOk, writeOk), id) && Continuous(SendEvent(p, s, diskOk, writeOk).wire, id)
  {
    var sent := PlainEvent(p, s, diskOk, writeOk);
    if s.id == id {
      EventKeeps(p, s, diskOk, writeOk);
    } else {
      OtherEventKeeps(p, s, diskOk, writeOk, id);
    }
    ContinuousSnoc(p.wire, sent.wire[|p.wire|], id);
    ForgetKeeps(sent, s.id, diskOk, id);
    ContinuousSnoc(sent.wire, Forgot(s.id), id);
  }

  lemma DoKeeps(p: Pub, op: Op, id: Id)
    requires Agrees(p, id) && Continuous(p.wire, id) && StepOk(p, op, id)
    ensures Agrees(Do(p, op), id) && Continuous(Do(p, op).wire, id)
  {
    match op
    case Connect => ConnectKeeps(p, op, id); ContinuousSnoc(p.wire, Connected, id);
    case Lose => ConnectKeeps(p, op, id);
    case Restart => ConnectKeeps(p, op, id); ContinuousSnoc(p.wire, Restarted, id);
    case DoForget(i, diskOk) => ForgetKeeps(p, i, diskOk, id); ContinuousSnoc(p.wire, Forgot(i), id);
    case DoSnapshot(snaps, diskOk, writeOk) =>
      SnapshotKeeps(p, snaps, diskOk, writeOk, id);
      ContinuousSnoc(p.wire, Rows(RowMap(p, snaps)), id);
    case DoEvent(s, diskOk, writeOk) => DoEventKeeps(p, s, diskOk, writeOk, id);
  }

  /**
   * Over every run in which a session's counters are on disk whenever the
   * process restarts: an event of the session carries its previous revision
   * plus one, a snapshot row repeats it, and a first message carries 1, where
   * "previous" reaches back over reconnects, failed writes and restarts to the
   * last time the session was forgotten. Interaction revisions move exactly
   * when the local revision differs or the process is new. Counter writes may
   * fail as long as a later one succeeds before the restart.
   */
  lemma {:induction false} RevisionContinuity(ops: seq<Op>, id: Id)
    requires RunOk(NewPub, ops, id)
    ensures Agrees(DoAll(NewPub, ops), id) && Continuous(DoAll(NewPub, ops).wire, id)
  {
    if ops != [] {
      RevisionContinuity(ops[..|ops| - 1], id);
      DoKeeps(DoAll(NewPub, ops[..|ops| - 1]), ops[|ops| - 1], id);
    }
  }

  // ---------------------------------------------------------------------
  // Consequences for a reader of the wire
  // ---------------------------------------------------------------------

  /** The revision an item carries for a session, if it is about that session. */
  function RevAt(item: Item, id: Id): Option<int> {
    match item
    case Event(s, _, rev, _) => if s.id == id then Some(rev) else None
    case Rows(rows) => if id in rows then Some(rows[id].rev) else None
    case _ => None
  }

  function InterAt(item: Item, id: Id): Option<Payload> {
    match item
    case Event(s, _, _, inter) => if s.id == id then inter else None
    case Rows(rows) => if id in rows then Some(rows[id].inter) else None
    case _ => None
  }

  ghost predicate NotForgotten(wire: seq<Item>, i: nat, j: nat, id: Id) {
    forall k :: i <= k < j && k < |wire| ==> wire[k] != Forgot(id)
  }

  lemma {:induction false} LastRevAtLeast(wire: seq<Item>, i: nat, j: nat, id: Id)
    requires Continuous(wire, id) && i < j <= |wire| && RevAt(wire[i], id).Some? && NotForgotten(wire, i, j, id)
    ensures LastRev(wire[..j], id).Some? && LastRev(wire[..j], id).value >= RevAt(wire[i], id).value
  {
    assert wire[..j][..j - 1] == wire[..j - 1];
    if j > i + 1 {
      LastRevAtLeast(wire, i, j - 1, id);
      assert ItemFollows(wire[..j - 1], wire[j - 1], id);
      if wire[j - 1].Rows? && id in wire[j - 1].rows {
        assert RowFollows(wire[..j - 1], id, wire[j - 1].rows[id]);
      }
    }
  }

  /** Until a session is forgotten its revision never falls, and every later event exceeds it. */
  lemma RevisionNeverFalls(wire: seq<Item>, i: nat, j: nat, id: Id)
    requires Continuous(wire, id) && i < j < |wire| && NotForgotten(wire, i, j, id)
    requires RevAt(wire[i], id).Some? && RevAt(wire[j], id).Some?
    ensures RevAt(wire[i], id).value <= RevAt(wire[j], id).value
    ensures wire[j].Event? ==> RevAt(wire[i], id).value < RevAt(wire[j], id).value
  {
    LastRevAtLeast(wire, i, j, id);
    assert ItemFollows(wire[..j], wire[j], id);
    if wire[j].Rows? {
      assert RowFollows(wire[..j], id, wire[j].rows[id]);
    }
  }

  lemma {:induction false} HereIsLast(wire: seq<Item>, id: Id)
    ensures LastInterHere(wire, id).Some? ==> LastInter(wire, id) == LastInterHere(wire, id)
  {
    if wire != [] {
      HereIsLast(wire[..|wire| - 1], id);
    }
  }

  /** What a payload placed at `k` says, given what the wire before it called for. */
  lemma InterAtFollows(wire: seq<Item>, k: nat, id: Id)
    requires Continuous(wire, id) && k < |wire| && InterAt(wire[k], id).Some?
    ensures var q, last, here := InterAt(wire[k], id).value, LastInter(wire[..k], id), LastInterHere(wire[..k], id);
            q.rev == if last.None? then 1
                     else if here.Some? && here.value.local == q.local then last.value.rev
                     else last.value.rev + 1
  {
    assert ItemFollows(wire[..k], wire[k], id);
    if wire[k].Rows? {
      assert RowFollows(wire[..k], id, wire[k].rows[id]);
    }
  }

  lemma {:induction false} LastInterAtLeast(wire: seq<Item>, i: nat, j: nat, id: Id)
    requires Continuous(wire, id) && i < j <= |wire| && InterAt(wire[i], id).Some? && NotForgotten(wire, i, j, id)
    ensures LastInter(wire[..j], id).Some?
    ensures var a, q := InterAt(wire[i], id).value, LastInter(wire[..j], id).value;
            q.rev >= a.rev && (q.rev == a.rev ==> q.local == a.local)
  {
    assert wire[..j][..j - 1] == wire[..j - 1];
    if j > i + 1 {
      LastInterAtLeast(wire, i, j - 1, id);
      HereIsLast(wire[..j - 1], id);
      if InterAt(wire[j - 1], id).Some? {
        InterAtFollows(wire, j - 1, id);
      }
    }
  }

  ghost predicate RestartedBetween(wire: seq<Item>, i: nat, j: nat) {
    exists k :: i < k < j && k < |wire| && wire[k] == Restarted
  }

  /** What one more item does to the payload last placed. */
  lemma LastInterStep(wire: seq<Item>, j: nat, id: Id)
    requires 0 < j <= |wire|
    ensures var item := wire[j - 1];
            && LastInter(wire[..j], id) == (if item == Forgot(id) then None
                                            else if InterAt(item, id).Some? then InterAt(item, id)
                                            else LastInter(wire[..j - 1], id))
            && LastInterHere(wire[..j], id) == (if item == Forgot(id) || item == Restarted then None
                                                else if InterAt(item, id).Some? then InterAt(item, id)
                                                else LastInterHere(wire[..j - 1], id))
  {
    assert wire[..j][..j - 1] == wire[..j - 1];
  }

  /** A payload of this process that comes after a restart is above everything from before it. */
  lemma {:induction false} RestartRaises(wire: seq<Item>, i: nat, j: nat, id: Id)
    requires Continuous(wire, id) && i < j <= |wire| && InterAt(wire[i], id).Some? && NotForgotten(wire, i, j, id)
    requires RestartedBetween(wire, i, j) && LastInterHere(wire[..j], id).Some?
    ensures LastInter(wire[..j], id).Some? && LastInter(wire[..j], id).value.rev > InterAt(wire[i], id).value.rev
  {
    LastInterStep(wire, j, id);
    if LastInterHere(wire[..j - 1], id).Some? {
      RestartRaises(wire, i, j - 1, id);
      HereIsLast(wire[..j - 1], id);
    } else {
      LastInterAtLeast(wire, i, j - 1, id);
    }
    if InterAt(wire[j - 1], id).Some? {
      InterAtFollows(wire, j - 1, id);
    }
  }

  /** The interaction revision never falls, and rises whenever the local revision differs or the process restarted. */
  lemma InteractionRevisionRises(wire: seq<Item>, i: nat, j: nat, id: Id)
    requires Continuous(wire, id) && i < j < |wire| && NotForgotten(wire, i, j, id)
    requires InterAt(wire[i], id).Some? && InterAt(wire[j], id).Some?
    ensures var a, b := InterAt(wire[i], id).value, InterAt(wire[j], id).value;
            a.rev <= b.rev && (a.local != b.local || RestartedBetween(wire, i, j) ==> a.rev < b.rev)
  {
    LastInterAtLeast(wire, i, j, id);
    HereIsLast(wire[..j], id);
    InterAtFollows(wire, j, id);
    if RestartedBetween(wire, i, j) && LastInterHere(wire[..j], id).Some? {
      RestartRaises(wire, i, j, id);
    }
  }

  // ---------------------------------------------------------------------
  // Omitted interactions
  // ---------------------------------------------------------------------

  /** Within one process, a session's local revision determines the content (`Interaction.SameRevisionSameContent`). */
  ghost predicate Coherent(op: Op, id: Id, content: nat -> I.Content) {
    match op
    case DoEvent(s, _, _) => s.id == id ==> I.ContentOf(s.interaction) == content(s.interaction.revision)
    case DoSnapshot(snaps, _, _) =>
      id in snaps ==> snaps[id].id == id && I.ContentOf(snaps[id].interaction) == content(snaps[id].interaction.revision)
    case Restart => false
    case _ => true
  }

  /** The payload last placed says what its local revision stands for. */
  ghost predicate Told(wire: seq<Item>, id: Id, content: nat -> I.Content) {
    LastInterHere(wire, id).Some? ==>
      LastInterHere(wire, id).value.content == content(LastInterHere(wire, id).value.local)
  }

  /** An event that leaves the interaction out leaves out what the last payload of the session already said. */
  ghost predicate OmitsKnown(before: seq<Item>, item: Item, id: Id) {
    item.Event? && item.info.id == id && item.inter.None? ==>
      LastInterHere(before, id).Some? && LastInterHere(before, id).value.content == I.ContentOf(item.info.interaction)
  }

  lemma ToldSnoc(wire: seq<Item>, item: Item, id: Id, content: nat -> I.Content)
    requires Told(wire, id, content)
    requires InterAt(item, id).Some? ==> InterAt(item, id).value.content == content(InterAt(item, id).value.local)
    ensures Told(wire + [item], id, content)
  {
    WireSnoc(wire, item);
  }

  lemma EventTells(p: Pub, s: Snapshot, diskOk: bool, writeOk: bool, id: Id, content: nat -> I.Content)
    requires Agrees(p, id) && Told(p.wire, id, content) && Coherent(DoEvent(s, diskOk, writeOk), id, content)
    ensures Told(SendEvent(p, s, diskOk, writeOk).wire, id, content)
    ensures OmitsKnown(p.wire, SendEvent(p, s, diskOk, writeOk).wire[|p.wire|], id)
  {
    var sent := PlainEvent(p, s, diskOk, writeOk);
    EventItem(p, s, diskOk, writeOk);
    ToldSnoc(p.wire, sent.wire[|p.wire|], id, content);
    ToldSnoc(sent.wire, Forgot(s.id), id, content);
  }

  /** Every event from position `from` on that omits the interaction omits a known one. */
  ghost predicate OmitsFrom(wire: seq<Item>, from: nat, id: Id) {
    forall k :: from <= k < |wire| ==> OmitsKnown(wire[..k], wire[k], id)
  }

  lemma OmitsSnoc(wire: seq<Item>, item: Item, from: nat, id: Id)
    requires from <= |wire| && OmitsFrom(wire, from, id) && OmitsKnown(wire, item, id)
    ensures OmitsFrom(wire + [item], from, id)
  {
    var wire' := wire + [item];
    forall k | from <= k < |wire'| ensures OmitsKnown(wire'[..k], wire'[k], id) {
      if k < |wire| {
        assert wire'[..k] == wire[..k];
      } else {
        assert wire'[..k] == wire;
      }
    }
  }

  lemma EventOmits(p: Pub, s: Snapshot, diskOk: bool, writeOk: bool, from: nat, id: Id)
    requires from <= |p.wire| && OmitsFrom(p.wire, from, id) && |SendEvent(p, s, diskOk, writeOk).wire| > |p.wire|
    requires OmitsKnown(p.wire, SendEvent(p, s, diskOk, writeOk).wire[|p.wire|], id)
    ensures p.wire <= SendEvent(p, s, diskOk, writeOk).wire && OmitsFrom(SendEvent(p, s, diskOk, writeOk).wire, from, id)
  {
    EventItem(p, s, diskOk, writeOk);
    var sent := PlainEvent(p, s, diskOk, writeOk).wire;
    OmitsSnoc(p.wire, sent[|p.wire|], from, id);
    OmitsSnoc(sent, Forgot(s.id), from, id);
  }

  lemma DoTells(p: Pub, op: Op, from: nat, id: Id, content: nat -> I.Content)
    requires Agrees(p, id) && Told(p.wire, id, content) && Coherent(op, id, content)
    requires from <= |p.wire| && OmitsFrom(p.wire, from, id)
    ensures Told(Do(p, op).wire, id, content) && p.wire <= Do(p, op).wire && OmitsFrom(Do(p, op).wire, from, id)
  {
    match op
    case Connect => ToldSnoc(p.wire, Connected, id, content); OmitsSnoc(p.wire, Connected, from, id);
    case Lose =>
    case DoForget(i, _) => ToldSnoc(p.wire, Forgot(i), id, content); OmitsSnoc(p.wire, Forgot(i), from, id);
    case DoSnapshot(snaps, _, _) =>
      ToldSnoc(p.wire, Rows(RowMap(p, snaps)), id, content);
      OmitsSnoc(p.wire, Rows(RowMap(p, snaps)), from, id);
    case DoEvent(s, diskOk, writeOk) =>
      EventTells(p, s, diskOk, writeOk, id, content);
      EventOmits(p, s, diskOk, writeOk, from, id);
  }

  /** From the start of a process on, every event that omits the interaction omits one already placed in a message. */
  lemma {:induction false} OmittedPayloadIsKnown(p: Pub, ops: seq<Op>, id: Id, content: nat -> I.Content)
    requires Agrees(p, id) && Continuous(p.wire, id) && p.lastLocal == map[]
    requires forall i :: 0 <= i < |ops| ==> Coherent(ops[i], id, content)
    ensures var p' := DoAll(p, ops);
            && Agrees(p', id) && Continuous(p'.wire, id) && p.wire <= p'.wire && Told(p'.wire, id, content)
            && OmitsFrom(p'.wire, |p.wire|, id)
  {
    if ops != [] {
      var init, op := ops[..|ops| - 1], ops[|ops| - 1];
      OmittedPayloadIsKnown(p, init, id, content);
      var q := DoAll(p, init);
      assert Coherent(op, id, content);
      DoKeeps(q, op, id);
      DoTells(q, op, |p.wire|, id, content);
    }
  }

  /** What is published about the session are states from its history of reports. */
  ghost predicate FromHistory(op: Op, id: Id, h: seq<I.Interaction>) {
    match op
    case DoEvent(s, _, _) => s.id == id ==> s.interaction in h
    case DoSnapshot(snaps, _, _) => id in snaps ==> snaps[id].id == id && snaps[id].interaction in h
    case Restart => false
    case _ => true
  }

  /** The content that a revision of a history stands for. */
  ghost function ContentAt(h: seq<I.Interaction>, r: nat): I.Content
    requires h != []
  {
    if exists i :: 0 <= i < |h| && h[i].revision == r then
      var i :| 0 <= i < |h| && h[i].revision == r; I.ContentOf(h[i])
    else I.ContentOf(h[0])
  }

  lemma HistoryIsCoherent(h: seq<I.Interaction>, x: I.Interaction)
    requires I.IsHistory(h) && x in h
    ensures ContentAt(h, x.revision) == I.ContentOf(x)
  {
    var j :| 0 <= j < |h| && h[j] == x;
    assert exists i :: 0 <= i < |h| && h[i].revision == x.revision;
    forall i | 0 <= i < |h| && h[i].revision == x.revision ensures I.ContentOf(h[i]) == I.ContentOf(x) {
      I.SameRevisionSameContent(h, if i < j then i else j, if i < j then j else i);
    }
  }

  /** Whatever a session reports within a process, an event that omits its interaction omits one already placed in a message. */
  lemma OmissionIsKnown(p: Pub, ops: seq<Op>, id: Id, h: seq<I.Interaction>)
    requires Agrees(p, id) && Continuous(p.wire, id) && p.lastLocal == map[] && h != [] && I.IsHistory(h)
    requires forall i :: 0 <= i < |ops| ==> FromHistory(ops[i], id, h)
    ensures p.wire <= DoAll(p, ops).wire && OmitsFrom(DoAll(p, ops).wire, |p.wire|, id)
  {
    var content := (r: nat) => ContentAt(h, r);
    forall i | 0 <= i < |ops| ensures Coherent(ops[i], id, content) {
      OpIsCoherent(ops[i], id, h, content);
    }
    OmittedPayloadIsKnown(p, ops, id, content);
  }

  lemma OpIsCoherent(op: Op, id: Id, h: seq<I.Interaction>, content: nat -> I.Content)
    requires h != [] && I.IsHistory(h) && FromHistory(op, id, h) && forall r: nat :: content(r) == ContentAt(h, r)
    ensures Coherent(op, id, content)
  {
    match op
    case DoEvent(s, _, _) => if s.id == id { HistoryIsCoherent(h, s.interaction); }
    case DoSnapshot(snaps, _, _) => if id in snaps { HistoryIsCoherent(h, snaps[id].interaction); }
    case _ =>
  }

  /** A stop that was written drops the counters and the bookkeeping of its session, and nothing else does. */
  lemma StopForgetsIff(p: Pub, s: Snapshot, diskOk: bool, writeOk: bool, id: Id)
    ensures var p' := SendEvent(p, s, diskOk, writeOk);
            var forgets := id == s.id && writeOk && Terminal(s.status) && Current(p.revs, id) > 0;
            && (id in p'.revs.mem <==> !forgets && (id == s.id || id in p.revs.mem))
            && (id in p'.lastLocal <==> !forgets && (id == s.id || id in p.lastLocal))
            && (id in p'.inters.mem <==> !forgets && ((id == s.id && InterChanged(p.lastLocal, s)) || id in p.inters.mem))
  {
    PlainKeeps(p, s, diskOk, writeOk);
    ForgetDrops(PlainEvent(p, s, diskOk, writeOk), s.id, diskOk);
    assert KindOf(p, s) == SessionStopped <==> Current(p.revs, s.id) > 0 && Terminal(s.status);
  }

  lemma ForgetDrops(p: Pub, id: Id, diskOk: bool)
    ensures var p' := ForgetSession(p, id, diskOk);
            && p'.revs.mem.Keys == p.revs.mem.Keys - {id} && p'.inters.mem.Keys == p.inters.mem.Keys - {id}
            && p'.lastLocal.Keys == p.lastLocal.Keys - {id}
  {
  }

  /** Before any forgetting, an event enters its session everywhere. */
  lemma PlainKeeps(p: Pub, s: Snapshot, diskOk: bool, writeOk: bool)
    ensures var p' := PlainEvent(p, s, diskOk, writeOk);
            && p'.revs.mem.Keys == p.revs.mem.Keys + {s.id} && p'.lastLocal.Keys == p.lastLocal.Keys + {s.id}
            && p'.inters.mem.Keys == p.inters.mem.Keys + (if InterChanged(p.lastLocal, s) then {s.id} else {})
  {
  }

  // ---------------------------------------------------------------------
  // Failed counter writes
  // ---------------------------------------------------------------------

  /**
   * At any point of such a run, a restart followed by an event of the session
   * continues its revisions if and only if the counter on disk is the one in
   * memory, on either axis.
   */
  lemma CounterWriteDecides(ops: seq<Op>, s: Snapshot, diskOk: bool, writeOk: bool)
    requires RunOk(NewPub, ops, s.id)
    ensures var p := DoAll(NewPub, ops);
            var wire := Do(Do(p, Restart), DoEvent(s, diskOk, writeOk)).wire;
            && |wire| > |p.wire| + 1 && wire[|p.wire| + 1].Event? && wire[|p.wire| + 1].inter.Some?
            && (wire[|p.wire| + 1].rev == NextRev(p.wire, s.id) <==> SavedAt(p.revs, s.id))
            && (InterFollows(p.wire + [Restarted], s, wire[|p.wire| + 1].inter.value) <==> SavedAt(p.inters, s.id))
  {
    RunAgrees(ops, s.id);
    FirstAfterRestart(DoAll(NewPub, ops), s, diskOk, writeOk);
  }

  lemma RunAgrees(ops: seq<Op>, id: Id)
    requires RunOk(NewPub, ops, id)
    ensures Agrees(DoAll(NewPub, ops), id)
  {
    RevisionContinuity(ops, id);
  }

  /** A restart keeps the last revisions sent, empties the bookkeeping and reads the counters from disk. */
  lemma AfterRestart(p: Pub, id: Id)
    ensures var q := Do(p, Restart);
            && q.wire == p.wire + [Restarted] && LastRev(q.wire, id) == LastRev(p.wire, id)
            && LastInter(q.wire, id) == LastInter(p.wire, id) && LastInterHere(q.wire, id).None?
            && q.lastLocal == map[] && q.revs == Reload(p.revs) && q.inters == Reload(p.inters)
  {
    WireSnoc(p.wire, Restarted);
  }

  /** The message an event places, on the wire it found. */
  lemma EventPlaced(q: Pub, s: Snapshot, diskOk: bool, writeOk: bool)
    ensures var wire := Do(q, DoEvent(s, diskOk, writeOk)).wire;
            && |wire| > |q.wire|
            && wire[|q.wire|] == Event(s, KindOf(q, s), Current(q.revs, s.id) + 1, InterPart(q, s, false))
  {
    EventItem(q, s, diskOk, writeOk);
  }

  lemma FirstAfterRestart(p: Pub, s: Snapshot, diskOk: bool, writeOk: bool)
    requires Agrees(p, s.id)
    ensures var wire := Do(Do(p, Restart), DoEvent(s, diskOk, writeOk)).wire;
            && |wire| > |p.wire| + 1 && wire[|p.wire| + 1].Event? && wire[|p.wire| + 1].inter.Some?
            && (wire[|p.wire| + 1].rev == NextRev(p.wire, s.id) <==> SavedAt(p.revs, s.id))
            && (InterFollows(p.wire + [Restarted], s, wire[|p.wire| + 1].inter.value) <==> SavedAt(p.inters, s.id))
  {
    AfterRestart(p, s.id);
    EventPlaced(Do(p, Restart), s, diskOk, writeOk);
  }

  /**
   * An event whose counter writes succeed leaves the lifecycle counter of every
   * session on disk. It leaves the interaction counters there exactly when it
   * writes them, by carrying an interaction or by forgetting the session, or when
   * they were there before.
   */
  lemma LaterWriteSaves(p: Pub, s: Snapshot, writeOk: bool, id: Id)
    ensures SavedAt(Do(p, DoEvent(s, true, writeOk)).revs, id)
    ensures SavedAt(Do(p, DoEvent(s, true, writeOk)).inters, id) <==>
              || InterChanged(p.lastLocal, s) || SavedAt(p.inters, id)
              || (writeOk && KindOf(p, s) == SessionStopped && s.id in p.inters.mem)
  {
  }

  /**
   * A snapshot whose counter writes succeed leaves the lifecycle counters on disk
   * exactly when it gives a session its first revision, or they were there before.
   */
  lemma SnapshotSavesIff(p: Pub, snaps: map<Id, Snapshot>, writeOk: bool, id: Id)
    requires forall i :: i in snaps ==> snaps[i].id == i
    ensures SavedAt(Do(p, DoSnapshot(snaps, true, writeOk)).revs, id) <==>
              SavedAt(p.revs, id) || exists i :: i in snaps && Current(p.revs, i) <= 0
  {
    var mem := p.revs.mem + RevsOf(RowMap(p, snaps));
    if i :| i in snaps && Current(p.revs, i) <= 0 {
      assert mem[i] == Current(p.revs, i) + 1;
    } else {
      assert mem == p.revs.mem;
    }
  }

  /** An event whose counter write fails and the first event after a restart both carry revision 1. */
  lemma RevisionIsRepeated(s: Snapshot)
    ensures var wire := Do(Do(Do(NewPub, DoEvent(s, false, true)), Restart), DoEvent(s, true, true)).wire;
            |wire| > 2 && wire[0].Event? && wire[1] == Restarted && wire[2].Event? && wire[0].rev == 1 && wire[2].rev == 1
  {
    var p := Do(NewPub, DoEvent(s, false, true));
    EventItem(NewPub, s, false, true);
    assert |p.wire| == 1 && p.revs.disk == map[];
    EventPlaced(Do(p, Restart), s, true, true);
    EventItem(Do(p, Restart), s, true, true);
  }
}
