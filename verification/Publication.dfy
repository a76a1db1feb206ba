/**
 * The control client's notification queue and serve loop as steps: nothing a
 * session last reported is lost, whatever is evicted, drained or disconnected,
 * and what exactly the far side knows when nothing is left to do.
 */
module Publication {
  import opened Common
  import opened Wire
  import opened Revision
  import opened Connection
  import I = Interaction

  const QUEUE_SIZE := 64
  const MAX_ROWS := 500

  datatype Queued = Queued(info: Snapshot, at: int)

  /** At most one entry per session, their order by age, and the two wake-up tokens. */
  datatype Queue = Queue(pending: map<Id, Queued>, order: seq<Id>, dirty: bool, reconcile: bool)

  const EmptyQueue := Queue(map[], [], false, false)

  /** The order list without the ids that leave. */
  function Keep(order: seq<Id>, ids: set<Id>): seq<Id> {
    if order == [] then []
    else Keep(order[..|order| - 1], ids) + if order[|order| - 1] in ids then [order[|order| - 1]] else []
  }

  /** Makes room for a new session by dropping the oldest one and asking for a snapshot. */
  function Evict(q: Queue): Queue {
    if q.order == [] then q
    else
      var rest := q.pending - {q.order[0]};
      q.(pending := rest, order := Keep(q.order, rest.Keys), reconcile := true)
  }

  function Notify(q: Queue, info: Snapshot, now: int): Queue {
    var q1 := MakeRoom(q, info.id);
    Queue(q1.pending[info.id := Queued(info, now)], Keep(q1.order, q1.pending.Keys - {info.id}) + [info.id], true, q1.reconcile)
  }

  /** Everything pending leaves at once. */
  function DrainAll(q: Queue): Queue {
    q.(pending := map[], order := [])
  }

  /** Entries from strictly before the cutoff leave. */
  function DrainStale(q: Queue, cutoff: int): Queue {
    var kept := map id | id in q.pending && q.pending[id].at >= cutoff :: q.pending[id];
    q.(pending := kept, order := Keep(q.order, kept.Keys))
  }

  // ---------------------------------------------------------------------
  // The order list
  // ---------------------------------------------------------------------

  /** No duplicates, oldest first. */
  ghost predicate ByAge(order: seq<Id>, pending: map<Id, Queued>) {
    order == [] ||
    var init, x := order[..|order| - 1], order[|order| - 1];
    && ByAge(init, pending) && x in pending && x !in init
    && forall y :: y in init && y in pending ==> pending[y].at <= pending[x].at
  }

  /** The list is the map's keys, each once, oldest first, and there are at most 64. */
  ghost predicate ListOk(order: seq<Id>, pending: map<Id, Queued>) {
    && ByAge(order, pending) && (forall id :: id in order <==> id in pending)
    && |order| == |pending| <= QUEUE_SIZE
    && forall id :: id in pending ==> pending[id].info.id == id
  }

  ghost predicate QueueOk(q: Queue) {
    ListOk(q.order, q.pending)
  }

  lemma {:induction false} KeepMembers(order: seq<Id>, ids: set<Id>)
    ensures forall id :: id in Keep(order, ids) <==> id in order && id in ids
  {
    if order != [] {
      KeepMembers(order[..|order| - 1], ids);
      assert order == order[..|order| - 1] + [order[|order| - 1]];
    }
  }

  lemma {:induction false} KeepEverything(order: seq<Id>, ids: set<Id>)
    requires forall id :: id in order ==> id in ids
    ensures Keep(order, ids) == order
  {
    if order != [] {
      KeepEverything(order[..|order| - 1], ids);
      assert order == order[..|order| - 1] + [order[|order| - 1]];
    }
  }

  lemma {:induction false} KeepByAge(order: seq<Id>, ids: set<Id>, pending: map<Id, Queued>, pending': map<Id, Queued>)
    requires ByAge(order, pending) && forall id :: id in order ==> id in pending
    requires forall id :: id in ids && id in order ==> id in pending' && pending'[id] == pending[id]
    ensures ByAge(Keep(order, ids), pending')
  {
    if order != [] {
      var init, x := order[..|order| - 1], order[|order| - 1];
      assert order == init + [x];
      KeepByAge(init, ids, pending, pending');
      KeepMembers(init, ids);
      var kept := Keep(init, ids);
      if x in ids {
        assert (kept + [x])[..|kept|] == kept;
      } else {
        assert Keep(order, ids) == kept;
      }
    }
  }

  lemma {:induction false} ByAgeDistinct(order: seq<Id>, pending: map<Id, Queued>)
    requires ByAge(order, pending)
    ensures |order| == |set id | id in order|
  {
    if order != [] {
      var init, x := order[..|order| - 1], order[|order| - 1];
      ByAgeDistinct(init, pending);
      assert (set id | id in order) == (set id | id in init) + {x} by {
        assert order == init + [x];
      }
    }
  }

  /** Keeping some of the entries keeps the list in order. */
  lemma KeepOk(order: seq<Id>, pending: map<Id, Queued>, kept: map<Id, Queued>)
    requires ListOk(order, pending)
    requires kept.Keys <= pending.Keys && forall id :: id in kept ==> kept[id] == pending[id]
    ensures ListOk(Keep(order, kept.Keys), kept)
  {
    KeepMembers(order, kept.Keys);
    KeepByAge(order, kept.Keys, pending, kept);
    SameLength(Keep(order, kept.Keys), kept);
    SubsetSize(kept.Keys, pending.Keys);
    assert |kept| == |kept.Keys| <= |pending.Keys| == |pending|;
  }

  lemma SameLength(order: seq<Id>, pending: map<Id, Queued>)
    requires ByAge(order, pending) && forall id :: id in order <==> id in pending
    ensures |order| == |pending|
  {
    ByAgeDistinct(order, pending);
    assert (set id | id in order) == pending.Keys;
  }

  lemma AppendOk(order: seq<Id>, pending: map<Id, Queued>, info: Snapshot, now: int)
    requires ListOk(order, pending) && info.id !in pending && |pending| < QUEUE_SIZE
    requires forall id :: id in pending ==> pending[id].at <= now
    ensures ListOk(order + [info.id], pending[info.id := Queued(info, now)])
  {
    var pending' := pending[info.id := Queued(info, now)];
    AppendByAge(order, pending, info.id, Queued(info, now));
    assert pending'.Keys == pending.Keys + {info.id};
    assert |pending'.Keys| == |pending.Keys| + 1;
  }

  lemma AppendByAge(order: seq<Id>, pending: map<Id, Queued>, x: Id, item: Queued)
    requires ByAge(order, pending) && x !in order
    requires forall id :: id in order ==> id in pending && pending[id].at <= item.at
    ensures ByAge(order + [x], pending[x := item])
  {
    SameByAge(order, pending, pending[x := item]);
    assert (order + [x])[..|order|] == order;
  }

  lemma {:induction false} SameByAge(order: seq<Id>, pending: map<Id, Queued>, pending': map<Id, Queued>)
    requires ByAge(order, pending)
    requires forall id :: id in order ==> id in pending && id in pending' && pending'[id] == pending[id]
    ensures ByAge(order, pending')
  {
    if order != [] {
      assert order == order[..|order| - 1] + [order[|order| - 1]];
      SameByAge(order[..|order| - 1], pending, pending');
    }
  }

  lemma EvictOk(q: Queue)
    requires QueueOk(q)
    ensures QueueOk(Evict(q)) && (q.order != [] ==> |Evict(q).pending| < |q.pending|)
  {
    if q.order != [] {
      var rest := q.pending - {q.order[0]};
      KeepOk(q.order, q.pending, rest);
      assert q.order[0] in q.pending;
      assert rest.Keys == q.pending.Keys - {q.order[0]};
    }
  }

  /** The queue after any eviction: there is room, or the session is already in it. */
  function MakeRoom(q: Queue, id: Id): Queue {
    if id !in q.pending && |q.pending| >= QUEUE_SIZE then Evict(q) else q
  }

  lemma MakeRoomOk(q: Queue, id: Id)
    requires QueueOk(q)
    ensures QueueOk(MakeRoom(q, id)) && MakeRoom(q, id).pending.Keys <= q.pending.Keys
    ensures id in MakeRoom(q, id).pending || |MakeRoom(q, id).pending| < QUEUE_SIZE
    ensures forall i :: i in MakeRoom(q, id).pending ==> MakeRoom(q, id).pending[i] == q.pending[i]
  {
    EvictOk(q);
  }

  lemma SizeWithout(pending: map<Id, Queued>, id: Id)
    ensures |pending - {id}| == if id in pending then |pending| - 1 else |pending|
  {
    var without := pending - {id};
    assert without.Keys == pending.Keys - {id} && |without| == |without.Keys| && |pending| == |pending.Keys|;
  }

  lemma WithoutOk(order: seq<Id>, pending: map<Id, Queued>, id: Id)
    requires ListOk(order, pending) && (id in pending || |pending| < QUEUE_SIZE)
    ensures ListOk(Keep(order, pending.Keys - {id}), pending - {id}) && |pending - {id}| < QUEUE_SIZE
  {
    SizeWithout(pending, id);
    assert (pending - {id}).Keys == pending.Keys - {id};
    KeepOk(order, pending, pending - {id});
  }

  /** Every notification leaves the queue in order. */
  lemma NotifyOk(q: Queue, info: Snapshot, now: int)
    requires QueueOk(q) && forall id :: id in q.pending ==> q.pending[id].at <= now
    ensures QueueOk(Notify(q, info, now))
  {
    var q1 := MakeRoom(q, info.id);
    MakeRoomOk(q, info.id);
    NotifyWithRoom(q1, info, now);
  }

  /** A notification of a new session takes the oldest one out of a full queue. */
  predicate Overflows(q: Queue, id: Id) {
    id !in q.pending && |q.pending| >= QUEUE_SIZE && q.order != []
  }

  /**
   * After a notification the queue holds its session with it, last in order, and
   * the others as they were, except for the oldest when the queue was full; only
   * then is a snapshot asked for.
   */
  lemma NotifyIff(q: Queue, info: Snapshot, now: int, id: Id)
    requires QueueOk(q)
    ensures var q' := Notify(q, info, now);
            && q'.dirty && (q'.reconcile <==> q.reconcile || Overflows(q, info.id))
            && q'.order != [] && q'.order[|q'.order| - 1] == info.id
            && (id in q'.pending <==> id == info.id || (id in q.pending && !(Overflows(q, info.id) && id == q.order[0])))
            && (id in q'.pending ==> q'.pending[id] == if id == info.id then Queued(info, now) else q.pending[id])
  {
    MakeRoomOk(q, info.id);
  }

  lemma PutBack(pending: map<Id, Queued>, id: Id, item: Queued)
    ensures (pending - {id})[id := item] == pending[id := item]
  {
  }

  lemma NotifyWithRoom(q1: Queue, info: Snapshot, now: int)
    requires QueueOk(q1) && (info.id in q1.pending || |q1.pending| < QUEUE_SIZE)
    requires forall id :: id in q1.pending ==> q1.pending[id].at <= now
    ensures QueueOk(Queue(q1.pending[info.id := Queued(info, now)],
                          Keep(q1.order, q1.pending.Keys - {info.id}) + [info.id], true, q1.reconcile))
  {
    var without := q1.pending - {info.id};
    WithoutOk(q1.order, q1.pending, info.id);
    AppendOk(Keep(q1.order, q1.pending.Keys - {info.id}), without, info, now);
    PutBack(q1.pending, info.id, Queued(info, now));
  }

  lemma DrainStaleOk(q: Queue, cutoff: int)
    requires QueueOk(q)
    ensures QueueOk(DrainStale(q, cutoff)) && DrainStale(q, cutoff).dirty == q.dirty && DrainStale(q, cutoff).reconcile == q.reconcile
    ensures forall id :: id in DrainStale(q, cutoff).pending <==> id in q.pending && q.pending[id].at >= cutoff
    ensures forall id :: id in DrainStale(q, cutoff).pending ==> DrainStale(q, cutoff).pending[id] == q.pending[id]
  {
    KeepOk(q.order, q.pending, DrainStale(q, cutoff).pending);
  }

  /** The entry is older than the snapshot and its session has ended. */
  ghost predicate Redundant(pending: map<Id, Queued>, id: Id, cutoff: int) {
    id in pending && pending[id].at < cutoff && Terminal(pending[id].info.status)
  }

  // ---------------------------------------------------------------------
  // The sessions
  // ---------------------------------------------------------------------

  predicate Ended(s: Snapshot) {
    Terminal(s.status)
  }

  /**
   * The state every session is in, the version of the last ended state of those
   * that have ended, and whether one that had ended became active again.
   */
  datatype World = World(live: map<Id, Snapshot>, ended: map<Id, nat>, revived: bool)

  /** A session enters a state. */
  function Put(w: World, x: Snapshot): World {
    World(w.live[x.id := x], if Ended(x) then w.ended[x.id := x.version] else w.ended,
          w.revived || (x.id in w.live && Ended(w.live[x.id]) && !Ended(x)))
  }

  function EndedIn(live: map<Id, Snapshot>): map<Id, nat> {
    map id | id in live && Ended(live[id]) :: live[id].version
  }

  /** The next state of a session: new basics, and the interaction as it was or as a report turns it into. */
  function Moved(cur: Snapshot, to: Snapshot, report: Option<I.Interaction>, at: int): Snapshot {
    to.(version := cur.version + 1,
        interaction := if report.None? then cur.interaction else I.Updated(cur.interaction, report.value, at))
  }

  ghost predicate LifeOk(w: World, id: Id)
    requires id in w.live
  {
    && w.live[id].id == id
    && (Ended(w.live[id]) <==> id in w.ended && w.ended[id] == w.live[id].version)
    && (id in w.ended ==> w.ended[id] <= w.live[id].version)
    && (id in w.ended && !Ended(w.live[id]) ==> w.revived)
  }

  ghost predicate WorldOk(w: World) {
    w.ended.Keys <= w.live.Keys && forall id :: id in w.live ==> LifeOk(w, id)
  }

  /** A state the session has been in: the one it is in now if the versions agree. */
  ghost predicate Stamped(w: World, x: Snapshot) {
    && x.id in w.live && x.version <= w.live[x.id].version
    && (x.version == w.live[x.id].version ==> x == w.live[x.id])
    && (Ended(x) ==> x.id in w.ended && x.version <= w.ended[x.id])
    && x.interaction.revision <= w.live[x.id].interaction.revision
  }

  ghost predicate AllStamped(w: World, snaps: map<Id, Snapshot>) {
    forall id :: id in snaps ==> snaps[id].id == id && Stamped(w, snaps[id])
  }

  /** The session is new, or moves on. */
  ghost predicate Later(w: World, x: Snapshot) {
    x.id in w.live ==> x.version > w.live[x.id].version && x.interaction.revision >= w.live[x.id].interaction.revision
  }

  lemma PutOk(w: World, x: Snapshot)
    requires WorldOk(w) && Later(w, x)
    ensures WorldOk(Put(w, x))
  {
    var w' := Put(w, x);
    forall id | id in w'.live ensures LifeOk(w', id) {
      assert id in w.live ==> LifeOk(w, id);
    }
  }

  lemma PutStamped(w: World, x: Snapshot, y: Snapshot)
    requires WorldOk(w) && Later(w, x) && Stamped(w, y)
    ensures Stamped(Put(w, x), y)
  {
    assert LifeOk(w, y.id);
  }

  lemma PutAllStamped(w: World, x: Snapshot, snaps: map<Id, Snapshot>)
    requires WorldOk(w) && Later(w, x) && AllStamped(w, snaps)
    ensures AllStamped(Put(w, x), snaps)
  {
    forall id | id in snaps ensures snaps[id].id == id && Stamped(Put(w, x), snaps[id]) {
      PutStamped(w, x, snaps[id]);
    }
  }

  // ---------------------------------------------------------------------
  // The system: supervisor, queue, serve loop and connection
  // ---------------------------------------------------------------------

  /** Where the serve goroutine is. */
  datatype Phase =
    | Down                                                          // no connection
    | Cut(cutoff: int)                                              // snapshot begun, sessions not listed yet
    | Reading(cutoff: int, todo: set<Id>, found: map<Id, Snapshot>) // listed, being read one at a time
    | Read(cutoff: int, rows: map<Id, Snapshot>)                    // read, snapshot not written yet
    | Written(cutoff: int)                                          // snapshot written, stale entries not dropped yet
    | Idle
    | Woken                                                         // token taken, queue not drained yet
    | Sending(batch: map<Id, Snapshot>)

  /**
   * `copies` are states copied for a notification that has not been delivered
   * yet, `reported` is what was last delivered about each session, `ringing` counts
   * notifications that are queued but have not set the token yet, and `pub` holds
   * the messages and their bookkeeping.
   */
  datatype System = System(world: World, copies: multiset<Snapshot>, reported: map<Id, Snapshot>,
                           q: Queue, ringing: nat, phase: Phase, pub: Pub, clock: int)

  const NewWorld := World(map[], map[], false)
  const NewSystem := System(NewWorld, multiset{}, map[], EmptyQueue, 0, Down, NewPub, 0)

  datatype Step =
    | Start(info: Snapshot)
    | Change(to: Snapshot, report: Option<I.Interaction>, at: int)
    | Copy(id: Id)
    | Report(info: Snapshot, now: int)
    | Ring
    | Dial(now: int)
    | ListSessions
    | ReadSession(id: Id)
    | CutRows(rows: map<Id, Snapshot>)
    | WriteSnapshot(diskOk: bool, ok: bool)
    | DropStale(forgotten: seq<Id>, diskOk: bool)
    | TakeToken
    | Drain
    | SendOne(id: Id, diskOk: bool, ok: bool)
    | FinishBatch
    | AskReconcile
    | BeginReconcile(now: int)
    | Disconnect
    | Reboot(live: map<Id, Snapshot>)

  /** The snapshot keeps at most 500 of the active sessions found. */
  predicate ValidRows(found: map<Id, Snapshot>, rows: map<Id, Snapshot>) {
    && (forall id :: id in rows ==> id in found && rows[id] == found[id])
    && |rows| == Min(MAX_ROWS, |found|)
  }

  /** Between taking the token and draining the queue the loop does not look at the connection. */
  ghost predicate Enabled(s: System, e: Step) {
    match e
    case Start(info) => info.id !in s.world.live
    case Change(to, _, _) => to.id in s.world.live
    case Copy(id) => id in s.world.live
    case Report(info, now) => info in s.copies && now >= s.clock
    case Ring => s.ringing > 0
    case Dial(now) => s.phase.Down? && now >= s.clock
    case ListSessions => s.phase.Cut?
    case ReadSession(id) => s.phase.Reading? && id in s.phase.todo && id in s.world.live
    case CutRows(rows) => s.phase.Reading? && s.phase.todo == {} && ValidRows(s.phase.found, rows)
    case WriteSnapshot(_, _) => s.phase.Read?
    case DropStale(forgotten, _) =>
      s.phase.Written? && forall id :: id in forgotten <==> Redundant(s.q.pending, id, s.phase.cutoff)
    case TakeToken => s.phase.Idle? && s.q.dirty
    case Drain => s.phase.Woken?
    case SendOne(id, _, _) => s.phase.Sending? && id in s.phase.batch
    case FinishBatch => s.phase.Sending? && s.phase.batch == map[]
    case AskReconcile => true
    case BeginReconcile(now) => s.phase.Idle? && s.q.reconcile && now >= s.clock
    case Disconnect => !s.phase.Woken?
    case Reboot(live) => forall id :: id in live ==> live[id].id == id
  }

  function Infos(pending: map<Id, Queued>): map<Id, Snapshot> {
    map id | id in pending :: pending[id].info
  }

  /** The state a session enters with a step. */
  function Entered(s: System, e: Step): Snapshot
    requires e.Start? || (e.Change? && e.to.id in s.world.live)
  {
    if e.Start? then e.info else Moved(s.world.live[e.to.id], e.to, e.report, e.at)
  }

  ghost function Take(s: System, e: Step): System
    requires Enabled(s, e)
  {
    match e
    case Start(_) => s.(world := Put(s.world, Entered(s, e)))
    case Change(_, _, _) => s.(world := Put(s.world, Entered(s, e)))
    case Copy(id) => s.(copies := s.copies + multiset{s.world.live[id]})
    case Report(info, now) =>
      s.(copies := s.copies - multiset{info}, reported := s.reported[info.id := info],
         q := Notify(s.q, info, now).(dirty := s.q.dirty), ringing := s.ringing + 1, clock := now)
    case Ring => s.(q := s.q.(dirty := true), ringing := s.ringing - 1)
    case Dial(now) => s.(phase := Cut(now), clock := now, pub := Do(s.pub, Connect))
    case ListSessions => s.(phase := Reading(s.phase.cutoff, s.world.live.Keys, map[]))
    case ReadSession(id) =>
      var x := s.world.live[id];
      s.(phase := Reading(s.phase.cutoff, s.phase.todo - {id}, if Ended(x) then s.phase.found else s.phase.found[id := x]))
    case CutRows(rows) => s.(phase := Read(s.phase.cutoff, rows))
    case WriteSnapshot(diskOk, ok) =>
      s.(phase := if ok then Written(s.phase.cutoff) else Down, pub := SendSnapshot(s.pub, s.phase.rows, diskOk, ok))
    case DropStale(forgotten, diskOk) =>
      s.(phase := Idle, q := DrainStale(s.q, s.phase.cutoff), pub := ForgetAll(s.pub, forgotten, diskOk))
    case TakeToken => s.(phase := Woken, q := s.q.(dirty := false))
    case Drain => s.(phase := Sending(Infos(s.q.pending)), q := DrainAll(s.q))
    case SendOne(id, diskOk, ok) =>
      s.(phase := if ok then Sending(s.phase.batch - {id}) else Down, pub := SendEvent(s.pub, s.phase.batch[id], diskOk, ok))
    case FinishBatch => s.(phase := Idle)
    case AskReconcile => s.(q := s.q.(reconcile := true))
    case BeginReconcile(now) => s.(phase := Cut(now), clock := now, q := s.q.(reconcile := false))
    case Disconnect => s.(phase := Down, pub := Do(s.pub, Lose))
    case Reboot(live) =>
      System(World(live, EndedIn(live), false), multiset{}, map[], EmptyQueue, 0, Down, Do(s.pub, Restart), s.clock)
  }

  // ---------------------------------------------------------------------
  // Nothing is lost
  // ---------------------------------------------------------------------

  /** A message made from `made`, or that leaves the session out, is no older than what was reported. */
  ghost predicate AtLeast(w: World, made: Option<Snapshot>, last: Snapshot) {
    if made.Some? then last.version <= made.value.version else last.id in w.ended && last.version <= w.ended[last.id]
  }

  function RowAt(rows: map<Id, Snapshot>, id: Id): Option<Snapshot> {
    if id in rows then Some(rows[id]) else None
  }

  function Heard(s: System, id: Id): Option<Snapshot> {
    MadeFrom(s.pub.wire, id)
  }

  ghost predicate HeardSince(s: System, id: Id)
    requires id in s.reported
  {
    AtLeast(s.world, Heard(s, id), s.reported[id])
  }

  /** A message about the session is in flight and will replace what was said before. */
  ghost predicate BeingSaid(s: System, id: Id) {
    s.phase.Reading? || s.phase.Read? || (s.phase.Sending? && id in s.phase.batch)
  }

  /** The snapshot in progress says, or will read, at least what was last reported. */
  ghost predicate InSnapshot(s: System, id: Id)
    requires id in s.reported
  {
    match s.phase
    case Reading(_, todo, found) => id in todo || AtLeast(s.world, RowAt(found, id), s.reported[id])
    case Read(_, rows) => AtLeast(s.world, RowAt(rows, id), s.reported[id])
    case Written(_) => HeardSince(s, id)
    case _ => false
  }

  /** The loop has been woken or will be. */
  ghost predicate Due(s: System) {
    s.q.dirty || s.phase.Woken? || s.ringing > 0
  }

  /** Every way in which the last report about a session is not lost. */
  ghost predicate Covered(s: System, id: Id)
    requires id in s.reported
  {
    || s.phase.Down?                                                  // the next connection begins with a snapshot
    || s.phase.Cut?                                                   // a snapshot is about to read it
    || InSnapshot(s, id)                                              // the snapshot in progress holds it
    || s.q.reconcile                                                  // a snapshot is scheduled
    || (id in s.q.pending && Due(s))                                  // it is queued and the loop will wake
    || (s.phase.Sending? && id in s.phase.batch && s.reported[id].version <= s.phase.batch[id].version)
    || (!BeingSaid(s, id) && HeardSince(s, id))                       // it was sent, or a later state was
  }

  /** The entry will be dropped once the snapshot in progress is written. */
  ghost predicate Stale(s: System, id: Id)
    requires id in s.q.pending
  {
    (s.phase.Reading? || s.phase.Read? || s.phase.Written?) && s.q.pending[id].at < s.phase.cutoff
  }

  /** Every entry is what was last reported, and one the snapshot will drop is in the snapshot. */
  ghost predicate EntriesOk(s: System) {
    && (forall id :: id in s.q.pending ==> EntryOk(s, id))
    && (s.q.pending != map[] ==> Due(s))
    && (s.phase.Cut? || s.phase.Reading? || s.phase.Read? || s.phase.Written? ==> s.phase.cutoff <= s.clock)
    && (s.phase.Reading? ==> s.phase.todo <= s.world.live.Keys && s.phase.todo !! s.phase.found.Keys)
  }

  ghost predicate EntryOk(s: System, id: Id)
    requires id in s.q.pending
  {
    && id in s.reported && s.q.pending[id].info == s.reported[id] && s.q.pending[id].at <= s.clock
    && (Stale(s, id) ==> InSnapshot(s, id))
  }

  ghost predicate AllCovered(s: System) {
    forall id :: id in s.reported ==> Covered(s, id)
  }

  // ---------------------------------------------------------------------
  // Whatever is on its way was once the state of its session
  // ---------------------------------------------------------------------

  ghost predicate HeldStamped(s: System) {
    && (forall x :: x in s.copies ==> Stamped(s.world, x)) && AllStamped(s.world, s.reported)
    && (s.phase.Reading? ==> AllStamped(s.world, s.phase.found)) && (s.phase.Read? ==> AllStamped(s.world, s.phase.rows))
    && (s.phase.Sending? ==> AllStamped(s.world, s.phase.batch))
  }

  /** What was said about a session was made from a state of it. */
  ghost predicate SaidStamped(w: World, wire: seq<Item>, id: Id) {
    && (MadeFrom(wire, id).Some? ==> MadeFrom(wire, id).value.id == id && Stamped(w, MadeFrom(wire, id).value))
    && (SaidPayload(wire, id).Some? ==>
          id in w.live && SaidPayload(wire, id).value.local <= w.live[id].interaction.revision)
  }

  ghost predicate StampsOk(s: System) {
    WorldOk(s.world) && HeldStamped(s) && (!s.phase.Down? ==> forall id :: SaidStamped(s.world, s.pub.wire, id))
  }

  // ---------------------------------------------------------------------
  // Interactions
  // ---------------------------------------------------------------------

  /** The next message about the session carries its interaction, or one on this connection did. */
  ghost predicate Ready(s: System, id: Id) {
    SaidPayload(s.pub.wire, id).Some? || id !in s.pub.lastLocal
  }

  ghost predicate ReadyAt(s: System, id: Id) {
    match s.phase
    case Down => true
    case Cut(_) => true
    case Reading(_, todo, found) => id in todo || id in found || Ready(s, id)
    case Read(_, rows) => id in rows || Ready(s, id)
    case _ => Ready(s, id)
  }

  /** An active session that was spoken of has had its interaction sent, or bookkeeping remembers it. */
  ghost predicate Noted(s: System, id: Id) {
    && (!s.phase.Down? && Heard(s, id).Some? && !Ended(Heard(s, id).value) ==>
          SaidPayload(s.pub.wire, id).Some? || id in s.pub.lastLocal)
    && (s.phase.Written? && Heard(s, id).Some? ==> SaidPayload(s.pub.wire, id).Some?)
  }

  /** As long as no session was revived, the interaction of every active one is known or will be sent. */
  ghost predicate AllReady(s: System) {
    !s.world.revived ==> forall id :: id in s.world.live && !Ended(s.world.live[id]) ==> ReadyAt(s, id)
  }

  ghost predicate PlacedOk(s: System) {
    s.pub.lastLocal.Keys <= s.world.live.Keys && (forall id :: Noted(s, id)) && AllReady(s)
  }

  /** What every step keeps. */
  ghost predicate Invariant(s: System) {
    QueueOk(s.q) && EntriesOk(s) && AllCovered(s) && StampsOk(s) && PlacedOk(s)
  }

  lemma NewSystemOk()
    ensures Invariant(NewSystem)
  {
  }

  // ---------------------------------------------------------------------
  // Sessions start and change
  // ---------------------------------------------------------------------

  predicate IsMove(e: Step) {
    e.Start? || e.Change?
  }

  lemma MoveIsLater(s: System, e: Step)
    requires Enabled(s, e) && IsMove(e) && WorldOk(s.world)
    ensures Later(s.world, Entered(s, e)) && Take(s, e) == s.(world := Put(s.world, Entered(s, e)))
  {
    if e.Change? {
      assert LifeOk(s.world, e.to.id);
      if e.report.Some? {
        I.UpdatedMeaning(s.world.live[e.to.id].interaction, e.report.value, e.at);
      }
    }
  }

  lemma PutAtLeast(w: World, x: Snapshot, made: Option<Snapshot>, last: Snapshot)
    requires WorldOk(w) && Later(w, x) && AtLeast(w, made, last)
    ensures AtLeast(Put(w, x), made, last)
  {
    if made.None? && x.id == last.id {
      assert LifeOk(w, last.id);
    }
  }

  lemma PutInSnapshot(s: System, x: Snapshot, id: Id)
    requires WorldOk(s.world) && Later(s.world, x) && id in s.reported && InSnapshot(s, id)
    ensures InSnapshot(s.(world := Put(s.world, x)), id)
  {
    match s.phase
    case Reading(_, _, found) => if id !in s.phase.todo { PutAtLeast(s.world, x, RowAt(found, id), s.reported[id]); }
    case Read(_, rows) => PutAtLeast(s.world, x, RowAt(rows, id), s.reported[id]);
    case Written(_) => PutAtLeast(s.world, x, Heard(s, id), s.reported[id]);
  }

  lemma PutCovers(s: System, x: Snapshot, id: Id)
    requires WorldOk(s.world) && Later(s.world, x) && id in s.reported && Covered(s, id)
    ensures Covered(s.(world := Put(s.world, x)), id)
  {
    if InSnapshot(s, id) {
      PutInSnapshot(s, x, id);
    } else if HeardSince(s, id) {
      PutAtLeast(s.world, x, Heard(s, id), s.reported[id]);
    }
  }

  lemma MoveKeepsEntries(s: System, x: Snapshot)
    requires EntriesOk(s) && AllCovered(s) && WorldOk(s.world) && Later(s.world, x)
    ensures var s' := s.(world := Put(s.world, x)); EntriesOk(s') && AllCovered(s')
  {
    var s' := s.(world := Put(s.world, x));
    forall id | id in s'.reported ensures Covered(s', id) {
      PutCovers(s, x, id);
    }
    forall id | id in s'.q.pending ensures EntryOk(s', id) {
      assert EntryOk(s, id);
      if Stale(s, id) {
        PutInSnapshot(s, x, id);
      }
    }
  }

  lemma MoveKeepsHeld(s: System, x: Snapshot)
    requires WorldOk(s.world) && Later(s.world, x) && HeldStamped(s)
    ensures HeldStamped(s.(world := Put(s.world, x)))
  {
    forall y | y in s.copies ensures Stamped(Put(s.world, x), y) {
      PutStamped(s.world, x, y);
    }
    PutAllStamped(s.world, x, s.reported);
    match s.phase
    case Reading(_, _, found) => PutAllStamped(s.world, x, found);
    case Read(_, rows) => PutAllStamped(s.world, x, rows);
    case Sending(batch) => PutAllStamped(s.world, x, batch);
    case _ =>
  }

  lemma MoveKeepsStamps(s: System, x: Snapshot)
    requires StampsOk(s) && Later(s.world, x)
    ensures StampsOk(s.(world := Put(s.world, x)))
  {
    PutOk(s.world, x);
    MoveKeepsHeld(s, x);
    if !s.phase.Down? {
      forall id ensures SaidStamped(Put(s.world, x), s.pub.wire, id) {
        assert SaidStamped(s.world, s.pub.wire, id);
        if Heard(s, id).Some? {
          PutStamped(s.world, x, Heard(s, id).value);
        }
      }
    }
  }

  lemma MoveKeepsPlaced(s: System, x: Snapshot)
    requires PlacedOk(s) && StampsOk(s)
    ensures PlacedOk(s.(world := Put(s.world, x)))
  {
    var s' := s.(world := Put(s.world, x));
    forall id ensures Noted(s', id) {
      assert Noted(s, id);
    }
    if !s'.world.revived {
      forall id | id in s'.world.live && !Ended(s'.world.live[id]) ensures ReadyAt(s', id) {
        if id in s.world.live {
          assert ReadyAt(s, id);
        }
      }
    }
  }

  lemma MoveKeeps(s: System, e: Step)
    requires Invariant(s) && Enabled(s, e) && IsMove(e)
    ensures Invariant(Take(s, e))
  {
    MoveIsLater(s, e);
    MoveKeepsEntries(s, Entered(s, e));
    MoveKeepsStamps(s, Entered(s, e));
    MoveKeepsPlaced(s, Entered(s, e));
  }

  // ---------------------------------------------------------------------
  // Reports
  // ---------------------------------------------------------------------

  lemma CopyKeepsEntries(s: System, id: Id)
    requires EntriesOk(s) && AllCovered(s) && id in s.world.live
    ensures EntriesOk(Take(s, Copy(id))) && AllCovered(Take(s, Copy(id)))
  {
    var s' := Take(s, Copy(id));
    forall i | i in s'.reported ensures Covered(s', i) {
      assert Covered(s, i);
    }
    forall i | i in s'.q.pending ensures EntryOk(s', i) {
      assert EntryOk(s, i);
    }
  }

  lemma CopyKeeps(s: System, id: Id)
    requires Invariant(s) && id in s.world.live
    ensures Invariant(Take(s, Copy(id)))
  {
    var s' := Take(s, Copy(id));
    CopyKeepsEntries(s, id);
    assert HeldStamped(s') by {
      assert LifeOk(s.world, id) && Stamped(s.world, s.world.live[id]);
    }
    SameSaidStamped(s, s');
    SameLine(s, s');
  }

  lemma SameSaidStamped(s: System, s': System)
    requires StampsOk(s) && HeldStamped(s') && s'.world == s.world && s'.pub == s.pub && s'.phase == s.phase
    ensures StampsOk(s')
  {
    if !s.phase.Down? {
      forall id ensures SaidStamped(s'.world, s'.pub.wire, id) {
        assert SaidStamped(s.world, s.pub.wire, id);
      }
    }
  }

  /** Bookkeeping and messages did not change. */
  lemma SameLine(s: System, s': System)
    requires PlacedOk(s) && s'.world == s.world && s'.pub == s.pub && s'.phase == s.phase
    ensures PlacedOk(s')
  {
    forall id ensures Noted(s', id) {
      assert Noted(s, id);
    }
    if !s'.world.revived {
      forall id | id in s'.world.live && !Ended(s'.world.live[id]) ensures ReadyAt(s', id) {
        assert ReadyAt(s, id);
      }
    }
  }

  /** A notification changes one session's entry, and takes another out only by scheduling a snapshot. */
  lemma NotifyEntries(q: Queue, info: Snapshot, now: int, id: Id)
    requires QueueOk(q)
    ensures var q' := Notify(q, info, now);
            && (q.reconcile ==> q'.reconcile)
            && info.id in q'.pending && q'.pending[info.id] == Queued(info, now)
            && (id != info.id && id in q'.pending ==> id in q.pending && q'.pending[id] == q.pending[id])
            && (id in q.pending ==> id in q'.pending || q'.reconcile)
  {
    MakeRoomOk(q, info.id);
  }

  lemma ReportCovers(s: System, info: Snapshot, now: int, id: Id)
    requires QueueOk(s.q) && Enabled(s, Report(info, now))
    requires (id in s.reported ==> Covered(s, id)) && (id in s.reported || id == info.id)
    ensures Covered(Take(s, Report(info, now)), id)
  {
    NotifyEntries(s.q, info, now, id);
  }

  lemma ReportEntry(s: System, info: Snapshot, now: int, id: Id)
    requires QueueOk(s.q) && EntriesOk(s) && Enabled(s, Report(info, now)) && id in Notify(s.q, info, now).pending
    ensures EntryOk(Take(s, Report(info, now)), id)
  {
    NotifyEntries(s.q, info, now, id);
    if id != info.id {
      assert EntryOk(s, id);
    }
  }

  lemma ReportKeepsQueue(s: System, info: Snapshot, now: int)
    requires QueueOk(s.q) && EntriesOk(s) && AllCovered(s) && Enabled(s, Report(info, now))
    ensures var s' := Take(s, Report(info, now)); QueueOk(s'.q) && EntriesOk(s') && AllCovered(s')
  {
    var s' := Take(s, Report(info, now));
    assert QueueOk(s'.q) by {
      assert forall id :: id in s.q.pending ==> EntryOk(s, id);
      NotifyOk(s.q, info, now);
    }
    forall id | id in s'.reported ensures Covered(s', id) {
      ReportCovers(s, info, now, id);
    }
    forall id | id in s'.q.pending ensures EntryOk(s', id) {
      ReportEntry(s, info, now, id);
    }
  }

  lemma ReportKeepsHeld(s: System, info: Snapshot, now: int)
    requires HeldStamped(s) && Enabled(s, Report(info, now))
    ensures HeldStamped(Take(s, Report(info, now)))
  {
    assert Stamped(s.world, info);
  }

  lemma ReportKeeps(s: System, info: Snapshot, now: int)
    requires Invariant(s) && Enabled(s, Report(info, now))
    ensures Invariant(Take(s, Report(info, now)))
  {
    var s' := Take(s, Report(info, now));
    ReportKeepsQueue(s, info, now);
    ReportKeepsHeld(s, info, now);
    SameSaidStamped(s, s');
    SameLine(s, s');
  }

  // ---------------------------------------------------------------------
  // Snapshots
  // ---------------------------------------------------------------------

  lemma DialKeeps(s: System, now: int)
    requires Invariant(s) && Enabled(s, Dial(now))
    ensures Invariant(Take(s, Dial(now)))
  {
    var s' := Take(s, Dial(now));
    forall id ensures Noted(s', id) && SaidStamped(s'.world, s'.pub.wire, id) {
      ConnectFresh(s.pub, id);
    }
    forall id | id in s'.q.pending ensures EntryOk(s', id) {
      assert EntryOk(s, id);
    }
  }

  /** What is read now is no older than what was reported before. */
  lemma ReadsSince(w: World, last: Snapshot)
    requires WorldOk(w) && Stamped(w, last)
    ensures AtLeast(w, if Ended(w.live[last.id]) then None else Some(w.live[last.id]), last)
  {
    assert LifeOk(w, last.id);
  }

  lemma ReadInSnapshot(s: System, read: Id, id: Id)
    requires EntriesOk(s) && StampsOk(s) && Enabled(s, ReadSession(read)) && id in s.reported && InSnapshot(s, id)
    ensures InSnapshot(Take(s, ReadSession(read)), id)
  {
    if read == id {
      assert s.reported[id].id == id && Stamped(s.world, s.reported[id]);
      ReadsSince(s.world, s.reported[id]);
    }
  }

  /** Listing does not touch queue, messages or bookkeeping. */
  lemma ListKeepsEntries(s: System)
    requires EntriesOk(s) && StampsOk(s) && s.phase.Cut?
    ensures EntriesOk(Take(s, ListSessions)) && AllCovered(Take(s, ListSessions))
  {
    var s' := Take(s, ListSessions);
    forall id | id in s'.reported ensures InSnapshot(s', id) {
      assert s.reported[id].id == id && Stamped(s.world, s.reported[id]);
    }
    forall id | id in s'.q.pending ensures EntryOk(s', id) {
      assert EntryOk(s, id);
    }
  }

  lemma ReadKeepsEntries(s: System, read: Id)
    requires EntriesOk(s) && AllCovered(s) && StampsOk(s) && Enabled(s, ReadSession(read))
    ensures EntriesOk(Take(s, ReadSession(read))) && AllCovered(Take(s, ReadSession(read)))
  {
    var s' := Take(s, ReadSession(read));
    forall id | id in s'.q.pending ensures EntryOk(s', id) {
      assert EntryOk(s, id);
      if Stale(s, id) {
        ReadInSnapshot(s, read, id);
      }
    }
    forall id | id in s'.reported ensures Covered(s', id) {
      assert Covered(s, id);
      if InSnapshot(s, id) {
        ReadInSnapshot(s, read, id);
      }
    }
  }

  lemma ReadKeepsPlaced(s: System, e: Step)
    requires EntriesOk(s) && PlacedOk(s) && Enabled(s, e) && (e.ListSessions? || e.ReadSession?)
    ensures PlacedOk(Take(s, e))
  {
    var s' := Take(s, e);
    forall id ensures Noted(s', id) {
      assert Noted(s, id);
    }
    if !s'.world.revived {
      forall id | id in s'.world.live && !Ended(s'.world.live[id]) ensures ReadyAt(s', id) {
        assert ReadyAt(s, id);
      }
    }
  }

  lemma ReadKeepsStamps(s: System, e: Step)
    requires StampsOk(s) && Enabled(s, e) && (e.ListSessions? || e.ReadSession?)
    ensures StampsOk(Take(s, e))
  {
    if e.ReadSession? {
      assert LifeOk(s.world, e.id) && Stamped(s.world, s.world.live[e.id]);
    }
    var s' := Take(s, e);
    forall id ensures SaidStamped(s'.world, s'.pub.wire, id) {
      assert SaidStamped(s.world, s.pub.wire, id);
    }
  }

  lemma ReadKeeps(s: System, e: Step)
    requires Invariant(s) && Enabled(s, e) && (e.ListSessions? || e.ReadSession?)
    ensures Invariant(Take(s, e))
  {
    match e {
      case ListSessions => ListKeepsEntries(s);
      case ReadSession(id) => ReadKeepsEntries(s, id);
    }
    ReadKeepsStamps(s, e);
    ReadKeepsPlaced(s, e);
  }

  lemma RowsAreAll(found: map<Id, Snapshot>, rows: map<Id, Snapshot>)
    requires ValidRows(found, rows) && |found| <= MAX_ROWS
    ensures rows == found
  {
    assert rows.Keys <= found.Keys;
    SubsetSize(rows.Keys, found.Keys);
  }

  lemma CutKeeps(s: System, rows: map<Id, Snapshot>)
    requires Invariant(s) && Enabled(s, CutRows(rows)) && |s.phase.found| <= MAX_ROWS
    ensures Invariant(Take(s, CutRows(rows)))
  {
    RowsAreAll(s.phase.found, rows);
    CutKeepsEntries(s, rows);
    CutKeepsPlaced(s, rows);
    forall id ensures SaidStamped(s.world, s.pub.wire, id) {
    }
  }

  lemma CutKeepsEntries(s: System, rows: map<Id, Snapshot>)
    requires EntriesOk(s) && AllCovered(s) && Enabled(s, CutRows(rows)) && rows == s.phase.found
    ensures EntriesOk(Take(s, CutRows(rows))) && AllCovered(Take(s, CutRows(rows)))
  {
    var s' := Take(s, CutRows(rows));
    forall id | id in s'.q.pending ensures EntryOk(s', id) {
      assert EntryOk(s, id);
    }
    forall id | id in s'.reported ensures Covered(s', id) {
      assert Covered(s, id);
    }
  }

  lemma CutKeepsPlaced(s: System, rows: map<Id, Snapshot>)
    requires PlacedOk(s) && Enabled(s, CutRows(rows)) && rows == s.phase.found
    ensures PlacedOk(Take(s, CutRows(rows)))
  {
    var s' := Take(s, CutRows(rows));
    forall id ensures Noted(s', id) {
      assert Noted(s, id);
    }
    if !s'.world.revived {
      forall id | id in s'.world.live && !Ended(s'.world.live[id]) ensures ReadyAt(s', id) {
        assert ReadyAt(s, id);
      }
    }
  }

  ghost predicate WroteSnapshot(s: System, s': System) {
    && s.phase.Read? && (s'.phase == Down || s'.phase == Written(s.phase.cutoff))
    && s' == s.(phase := s'.phase, pub := s'.pub)
    && forall id :: SnapshotSaid(s.pub, s'.pub, s.phase.rows, id)
  }

  lemma WriteKeepsEntries(s: System, s': System)
    requires EntriesOk(s) && AllCovered(s) && WroteSnapshot(s, s')
    ensures EntriesOk(s') && AllCovered(s')
  {
    forall id | id in s'.q.pending ensures EntryOk(s', id) {
      assert EntryOk(s, id) && SnapshotSaid(s.pub, s'.pub, s.phase.rows, id);
    }
    forall id | id in s'.reported ensures Covered(s', id) {
      assert Covered(s, id) && SnapshotSaid(s.pub, s'.pub, s.phase.rows, id);
    }
  }

  lemma WriteKeepsPlaced(s: System, s': System)
    requires PlacedOk(s) && HeldStamped(s) && WroteSnapshot(s, s')
    ensures PlacedOk(s')
  {
    assert SnapshotSaid(s.pub, s'.pub, s.phase.rows, "");
    forall id ensures Noted(s', id) {
      assert SnapshotSaid(s.pub, s'.pub, s.phase.rows, id);
    }
    if !s'.world.revived {
      forall id | id in s'.world.live && !Ended(s'.world.live[id]) ensures ReadyAt(s', id) {
        assert ReadyAt(s, id) && SnapshotSaid(s.pub, s'.pub, s.phase.rows, id);
      }
    }
  }

  lemma WriteKeepsStamps(s: System, diskOk: bool, ok: bool)
    requires StampsOk(s) && s.phase.Read?
    ensures StampsOk(Take(s, WriteSnapshot(diskOk, ok)))
  {
    var s' := Take(s, WriteSnapshot(diskOk, ok));
    forall id ensures SaidStamped(s'.world, s'.pub.wire, id) {
      assert SaidStamped(s.world, s.pub.wire, id);
      RowsSaid(s.pub, s.phase.rows, id);
    }
  }

  lemma WriteKeeps(s: System, diskOk: bool, ok: bool)
    requires Invariant(s) && s.phase.Read?
    ensures Invariant(Take(s, WriteSnapshot(diskOk, ok)))
  {
    var s' := Take(s, WriteSnapshot(diskOk, ok));
    forall id ensures SnapshotSaid(s.pub, s'.pub, s.phase.rows, id) {
      SnapshotIsSaid(s.pub, s.phase.rows, diskOk, ok, id);
    }
    WriteKeepsEntries(s, s');
    WriteKeepsPlaced(s, s');
    WriteKeepsStamps(s, diskOk, ok);
  }

  lemma DropCovers(s: System, s': System, id: Id)
    requires s.phase.Written? && id in s.reported && Covered(s, id) && (id in s.q.pending ==> EntryOk(s, id))
    requires s' == s.(phase := Idle, q := DrainStale(s.q, s.phase.cutoff), pub := s'.pub) && SameSaid(s.pub, s'.pub, id)
    ensures Covered(s', id)
  {
  }

  /** Entries older than the snapshot can go, because the snapshot says at least what they say. */
  lemma DropKeepsEntries(s: System, forgotten: seq<Id>, diskOk: bool)
    requires EntriesOk(s) && AllCovered(s) && Enabled(s, DropStale(forgotten, diskOk))
    ensures var s' := Take(s, DropStale(forgotten, diskOk)); EntriesOk(s') && AllCovered(s')
  {
    var s' := Take(s, DropStale(forgotten, diskOk));
    forall id | id in s'.q.pending ensures EntryOk(s', id) {
      assert EntryOk(s, id);
    }
    forall id | id in s'.reported ensures Covered(s', id) {
      assert Covered(s, id);
      ForgetAllSaid(s.pub, forgotten, diskOk, id);
      DropCovers(s, s', id);
    }
  }

  lemma DropKeepsPlaced(s: System, forgotten: seq<Id>, diskOk: bool)
    requires PlacedOk(s) && Enabled(s, DropStale(forgotten, diskOk))
    ensures PlacedOk(Take(s, DropStale(forgotten, diskOk)))
  {
    var s' := Take(s, DropStale(forgotten, diskOk));
    ForgetAllSaid(s.pub, forgotten, diskOk, "");
    forall id ensures Noted(s', id) {
      assert Noted(s, id);
      ForgetAllSaid(s.pub, forgotten, diskOk, id);
    }
    if !s'.world.revived {
      forall id | id in s'.world.live && !Ended(s'.world.live[id]) ensures ReadyAt(s', id) {
        assert ReadyAt(s, id);
        ForgetAllSaid(s.pub, forgotten, diskOk, id);
      }
    }
  }

  lemma DropKeepsStamps(s: System, forgotten: seq<Id>, diskOk: bool)
    requires StampsOk(s) && Enabled(s, DropStale(forgotten, diskOk))
    ensures StampsOk(Take(s, DropStale(forgotten, diskOk)))
  {
    var s' := Take(s, DropStale(forgotten, diskOk));
    forall id ensures SaidStamped(s'.world, s'.pub.wire, id) {
      assert SaidStamped(s.world, s.pub.wire, id);
      ForgetAllSaid(s.pub, forgotten, diskOk, id);
    }
  }

  lemma DropKeeps(s: System, forgotten: seq<Id>, diskOk: bool)
    requires Invariant(s) && Enabled(s, DropStale(forgotten, diskOk))
    ensures Invariant(Take(s, DropStale(forgotten, diskOk)))
  {
    DrainStaleOk(s.q, s.phase.cutoff);
    DropKeepsEntries(s, forgotten, diskOk);
    DropKeepsPlaced(s, forgotten, diskOk);
    DropKeepsStamps(s, forgotten, diskOk);
  }

  // ---------------------------------------------------------------------
  // Events
  // ---------------------------------------------------------------------

  lemma DrainKeepsEntries(s: System)
    requires QueueOk(s.q) && EntriesOk(s) && AllCovered(s) && s.phase.Woken?
    ensures EntriesOk(Take(s, Drain)) && AllCovered(Take(s, Drain))
  {
    var s' := Take(s, Drain);
    forall id | id in s'.reported ensures Covered(s', id) {
      assert Covered(s, id) && (id in s.q.pending ==> EntryOk(s, id));
    }
  }

  lemma DrainKeepsPlaced(s: System)
    requires PlacedOk(s) && s.phase.Woken?
    ensures PlacedOk(Take(s, Drain))
  {
    var s' := Take(s, Drain);
    forall id ensures Noted(s', id) {
      assert Noted(s, id);
    }
    if !s'.world.revived {
      forall id | id in s'.world.live && !Ended(s'.world.live[id]) ensures ReadyAt(s', id) {
        assert ReadyAt(s, id);
      }
    }
  }

  lemma DrainKeepsStamps(s: System)
    requires EntriesOk(s) && StampsOk(s) && s.phase.Woken?
    ensures StampsOk(Take(s, Drain))
  {
    var s' := Take(s, Drain);
    forall id | id in s'.phase.batch ensures s'.phase.batch[id].id == id && Stamped(s.world, s'.phase.batch[id]) {
      assert EntryOk(s, id);
    }
    forall id ensures SaidStamped(s'.world, s'.pub.wire, id) {
      assert SaidStamped(s.world, s.pub.wire, id);
    }
  }

  lemma DrainKeeps(s: System)
    requires Invariant(s) && s.phase.Woken?
    ensures Invariant(Take(s, Drain))
  {
    DrainKeepsEntries(s);
    DrainKeepsPlaced(s);
    DrainKeepsStamps(s);
    assert QueueOk(DrainAll(s.q));
  }

  ghost predicate SentEvent(s: System, s': System, sent: Id) {
    && s.phase.Sending? && sent in s.phase.batch && (s'.phase == Down || s'.phase == Sending(s.phase.batch - {sent}))
    && s' == s.(phase := s'.phase, pub := s'.pub) && s.phase.batch[sent].id == sent
    && forall id :: EventSaid(s.pub, s'.pub, s.phase.batch[sent], id)
  }

  lemma SendKeepsEntries(s: System, s': System, sent: Id)
    requires EntriesOk(s) && AllCovered(s) && SentEvent(s, s', sent)
    ensures EntriesOk(s') && AllCovered(s')
  {
    forall id | id in s'.q.pending ensures EntryOk(s', id) {
      assert EntryOk(s, id);
    }
    forall id | id in s'.reported ensures Covered(s', id) {
      assert Covered(s, id) && EventSaid(s.pub, s'.pub, s.phase.batch[sent], id);
    }
  }

  lemma SendKeepsPlaced(s: System, s': System, sent: Id)
    requires PlacedOk(s) && HeldStamped(s) && SentEvent(s, s', sent)
    ensures PlacedOk(s')
  {
    assert EventSaid(s.pub, s'.pub, s.phase.batch[sent], sent);
    assert Stamped(s.world, s.phase.batch[sent]);
    forall id ensures Noted(s', id) {
      assert Noted(s, id) && EventSaid(s.pub, s'.pub, s.phase.batch[sent], id);
    }
    if !s'.world.revived {
      forall id | id in s'.world.live && !Ended(s'.world.live[id]) ensures ReadyAt(s', id) {
        assert ReadyAt(s, id) && EventSaid(s.pub, s'.pub, s.phase.batch[sent], id);
      }
    }
  }

  lemma EventStamped(w: World, p: Pub, x: Snapshot, diskOk: bool, ok: bool, id: Id)
    requires SaidStamped(w, p.wire, id) && Stamped(w, x)
    ensures SaidStamped(w, SendEvent(p, x, diskOk, ok).wire, id)
  {
    var sent := PlainEvent(p, x, diskOk, ok);
    PlainSaid(p, x, diskOk, ok, id);
    assert SaidStamped(w, sent.wire, id);
    ForgetSaid(sent, x.id, diskOk, id);
  }

  lemma SendKeepsStamps(s: System, sent: Id, diskOk: bool, ok: bool)
    requires StampsOk(s) && Enabled(s, SendOne(sent, diskOk, ok))
    ensures StampsOk(Take(s, SendOne(sent, diskOk, ok)))
  {
    var s', x := Take(s, SendOne(sent, diskOk, ok)), s.phase.batch[sent];
    assert x.id == sent && Stamped(s.world, x);
    forall id ensures SaidStamped(s'.world, s'.pub.wire, id) {
      EventStamped(s.world, s.pub, x, diskOk, ok, id);
    }
  }

  lemma SendKeeps(s: System, sent: Id, diskOk: bool, ok: bool)
    requires Invariant(s) && Enabled(s, SendOne(sent, diskOk, ok))
    ensures Invariant(Take(s, SendOne(sent, diskOk, ok)))
  {
    var s' := Take(s, SendOne(sent, diskOk, ok));
    assert s.phase.batch[sent].id == sent;
    forall id ensures EventSaid(s.pub, s'.pub, s.phase.batch[sent], id) {
      EventIsSaid(s.pub, s.phase.batch[sent], diskOk, ok, id);
    }
    SendKeepsEntries(s, s', sent);
    SendKeepsPlaced(s, s', sent);
    SendKeepsStamps(s, sent, diskOk, ok);
  }

  // ---------------------------------------------------------------------
  // The connection and the tokens
  // ---------------------------------------------------------------------

  predicate IsControl(e: Step) {
    e.Ring? || e.TakeToken? || e.FinishBatch? || e.AskReconcile? || e.BeginReconcile? || e.Disconnect?
  }

  lemma ControlKeepsEntries(s: System, e: Step)
    requires EntriesOk(s) && AllCovered(s) && Enabled(s, e) && IsControl(e)
    ensures EntriesOk(Take(s, e)) && AllCovered(Take(s, e))
  {
    var s' := Take(s, e);
    forall id | id in s'.q.pending ensures EntryOk(s', id) {
      assert EntryOk(s, id);
    }
    forall id | id in s'.reported ensures Covered(s', id) {
      assert Covered(s, id);
    }
  }

  lemma ControlKeepsPlaced(s: System, e: Step)
    requires PlacedOk(s) && Enabled(s, e) && IsControl(e)
    ensures PlacedOk(Take(s, e))
  {
    var s' := Take(s, e);
    forall id ensures Noted(s', id) {
      assert Noted(s, id);
    }
    if !s'.world.revived {
      forall id | id in s'.world.live && !Ended(s'.world.live[id]) ensures ReadyAt(s', id) {
        assert ReadyAt(s, id);
      }
    }
  }

  lemma ControlKeepsStamps(s: System, e: Step)
    requires StampsOk(s) && Enabled(s, e) && IsControl(e)
    ensures StampsOk(Take(s, e))
  {
    var s' := Take(s, e);
    if !s'.phase.Down? && !s.phase.Down? {
      forall id ensures SaidStamped(s'.world, s'.pub.wire, id) {
        assert SaidStamped(s.world, s.pub.wire, id);
      }
    }
  }

  lemma ControlKeeps(s: System, e: Step)
    requires Invariant(s) && Enabled(s, e) && IsControl(e)
    ensures Invariant(Take(s, e))
  {
    ControlKeepsEntries(s, e);
    ControlKeepsPlaced(s, e);
    ControlKeepsStamps(s, e);
  }

  lemma RebootKeeps(s: System, live: map<Id, Snapshot>)
    requires Invariant(s) && Enabled(s, Reboot(live))
    ensures Invariant(Take(s, Reboot(live)))
  {
    var s' := Take(s, Reboot(live));
    forall id | id in live ensures LifeOk(s'.world, id) {
    }
  }

  /** At most 500 active sessions are found whenever a snapshot is made. */
  ghost predicate Fits(s: System, e: Step) {
    e.CutRows? && s.phase.Reading? ==> |s.phase.found| <= MAX_ROWS
  }

  /** Steps of the supervisor. */
  predicate IsOutside(e: Step) {
    IsMove(e) || e.Copy? || e.Report? || e.Reboot?
  }

  lemma OutsideKeeps(s: System, e: Step)
    requires Invariant(s) && Enabled(s, e) && IsOutside(e)
    ensures Invariant(Take(s, e))
  {
    if e.Copy? {
      CopyKeeps(s, e.id);
    } else if e.Report? {
      ReportKeeps(s, e.info, e.now);
    } else if e.Reboot? {
      RebootKeeps(s, e.live);
    } else {
      MoveKeeps(s, e);
    }
  }

  /** Steps that make a snapshot. */
  predicate IsSnapshot(e: Step) {
    e.Dial? || e.ListSessions? || e.ReadSession? || e.CutRows? || e.WriteSnapshot? || e.DropStale?
  }

  lemma MakingKeeps(s: System, e: Step)
    requires Invariant(s) && Enabled(s, e) && Fits(s, e) && IsSnapshot(e)
    ensures Invariant(Take(s, e))
  {
    if e.Dial? {
      DialKeeps(s, e.now);
    } else if e.CutRows? {
      CutKeeps(s, e.rows);
    } else if e.WriteSnapshot? {
      WriteKeeps(s, e.diskOk, e.ok);
    } else if e.DropStale? {
      DropKeeps(s, e.forgotten, e.diskOk);
    } else {
      ReadKeeps(s, e);
    }
  }

  lemma StepKeeps(s: System, e: Step)
    requires Invariant(s) && Enabled(s, e) && Fits(s, e)
    ensures Invariant(Take(s, e))
  {
    if IsOutside(e) {
      OutsideKeeps(s, e);
    } else if IsSnapshot(e) {
      MakingKeeps(s, e);
    } else if e.Drain? {
      DrainKeeps(s);
    } else if e.SendOne? {
      SendKeeps(s, e.id, e.diskOk, e.ok);
    } else {
      ControlKeeps(s, e);
    }
  }

  // ---------------------------------------------------------------------
  // Whole runs
  // ---------------------------------------------------------------------

  /** The state after a run, if every step of it was possible. */
  ghost function After(steps: seq<Step>): Option<System> {
    if steps == [] then Some(NewSystem)
    else
      var before := After(steps[..|steps| - 1]);
      if before.Some? && Enabled(before.value, steps[|steps| - 1]) && Fits(before.value, steps[|steps| - 1])
      then Some(Take(before.value, steps[|steps| - 1])) else None
  }

  /**
   * After every run, what was last reported about each session, or a later state
   * of it, is queued with the loop due to wake, was sent, is held by a snapshot,
   * or is due one; and the order list is the queue's keys, each once, oldest
   * first, at most 64.
   */
  lemma {:induction false} NoLostUpdate(steps: seq<Step>)
    requires After(steps).Some?
    ensures Invariant(After(steps).value)
    ensures forall id :: id in After(steps).value.reported ==> Covered(After(steps).value, id)
    ensures QueueOk(After(steps).value.q)
  {
    if steps == [] {
      NewSystemOk();
    } else {
      NoLostUpdate(steps[..|steps| - 1]);
      StepKeeps(After(steps[..|steps| - 1]).value, steps[|steps| - 1]);
    }
  }

  /** Nothing outstanding: connected, no token set or about to be, no snapshot in flight or scheduled, no batch. */
  ghost predicate Quiet(s: System) {
    s.phase.Idle? && !s.q.dirty && !s.q.reconcile && s.ringing == 0
  }

  /** The last message gives the basics of a state of the session that is no older than the last report. */
  ghost predicate ToldSince(s: System, id: Id)
    requires id in s.reported
  {
    && HeardSince(s, id) && (Heard(s, id).Some? ==> Heard(s, id).value.id == id && Stamped(s.world, Heard(s, id).value))
    && SaidBasics(s.pub.wire, id) == if Heard(s, id).None? then None else Some(BasicsOf(Heard(s, id).value))
  }

  /**
   * When the client has nothing left to do, the last message of the connection
   * about every reported session gives the provider, project and status of a
   * state it was in at or after the last report; and a session no message speaks
   * of had ended by then or later.
   */
  lemma QuietMeansTold(steps: seq<Step>)
    requires After(steps).Some? && Quiet(After(steps).value)
    ensures var s := After(steps).value;
            && s.q.pending == map[]
            && forall id :: id in s.reported ==> ToldSince(s, id)
  {
    NoLostUpdate(steps);
    var s := After(steps).value;
    forall id | id in s.reported ensures ToldSince(s, id) {
      assert Covered(s, id) && SaidStamped(s.world, s.pub.wire, id);
      BasicsAreMade(s.pub.wire, id);
    }
  }

  // ---------------------------------------------------------------------
  // What the far side has of the current state
  // ---------------------------------------------------------------------

  /** The message speaks of the state the session is in; leaving it out says that it has ended. */
  ghost predicate Says(made: Option<Snapshot>, cur: Snapshot) {
    if made.Some? then made.value == cur else Ended(cur)
  }

  /** How often a session has changed between two points of a run. */
  ghost function Changes(steps: seq<Step>, id: Id): nat {
    if steps == [] then 0
    else Changes(steps[..|steps| - 1], id) + if steps[|steps| - 1].Change? && steps[|steps| - 1].to.id == id then 1 else 0
  }

  lemma StepVersion(s: System, e: Step, id: Id)
    requires Enabled(s, e) && !e.Reboot? && id in s.world.live
    ensures var w' := Take(s, e).world;
            id in w'.live && w'.live[id].version == s.world.live[id].version + if e.Change? && e.to.id == id then 1 else 0
  {
  }

  lemma AfterLast(steps: seq<Step>, e: Step)
    requires After(steps + [e]).Some?
    ensures After(steps).Some? && Enabled(After(steps).value, e) && After(steps + [e]).value == Take(After(steps).value, e)
  {
    assert (steps + [e])[..|steps|] == steps;
  }

  /** Versions count the changes of a session within one process. */
  lemma {:induction false} VersionsCount(before: seq<Step>, more: seq<Step>, id: Id)
    requires After(before).Some? && After(before + more).Some? && id in After(before).value.world.live
    requires forall e :: e in more ==> !e.Reboot?
    ensures var w, w' := After(before).value.world, After(before + more).value.world;
            id in w'.live && w'.live[id].version == w.live[id].version + Changes(more, id)
  {
    if more == [] {
      assert before + more == before;
    } else {
      var init, e := more[..|more| - 1], more[|more| - 1];
      assert before + more == (before + init) + [e];
      AfterLast(before + init, e);
      VersionsCount(before, init, id);
      StepVersion(After(before + init).value, e, id);
    }
  }

  /**
   * On any connection, the last message about a session was made from the state
   * the session is in if and only if the session has not changed since that
   * message's state; leaving it out is right if and only if it has ended.
   */
  lemma CurrentIff(steps: seq<Step>, id: Id)
    requires After(steps).Some? && !After(steps).value.phase.Down? && id in After(steps).value.world.live
    ensures var s := After(steps).value; var cur := s.world.live[id];
            && (Says(Heard(s, id), cur) <==>
                 if Heard(s, id).Some? then Heard(s, id).value.version == cur.version
                 else id in s.world.ended && s.world.ended[id] == cur.version)
            && (Says(Heard(s, id), cur) ==>
                 SaidBasics(s.pub.wire, id) == if Heard(s, id).None? then None else Some(BasicsOf(cur)))
  {
    NoLostUpdate(steps);
    var s := After(steps).value;
    assert SaidStamped(s.world, s.pub.wire, id) && LifeOk(s.world, id);
    BasicsAreMade(s.pub.wire, id);
  }

  /** When nothing is left to do, a session whose newest state was the last one reported is told as it is. */
  lemma ReportedIsCurrent(steps: seq<Step>, id: Id)
    requires After(steps).Some? && Quiet(After(steps).value)
    requires id in After(steps).value.reported && id in After(steps).value.world.live
    requires After(steps).value.reported[id].version == After(steps).value.world.live[id].version
    ensures var s := After(steps).value; var cur := s.world.live[id];
            && Says(Heard(s, id), cur)
            && SaidBasics(s.pub.wire, id) == if Heard(s, id).None? then None else Some(BasicsOf(cur))
  {
    NoLostUpdate(steps);
    QuietMeansTold(steps);
    var s := After(steps).value;
    assert ToldSince(s, id) && LifeOk(s.world, id);
    CurrentIff(steps, id);
  }

  // ---------------------------------------------------------------------
  // More than 500 active sessions
  // ---------------------------------------------------------------------

  function Active(live: map<Id, Snapshot>): map<Id, Snapshot> {
    map id | id in live && !Ended(live[id]) :: live[id]
  }

  lemma {:induction false} SubmapOfSize(m: map<Id, Snapshot>, n: nat) returns (sub: map<Id, Snapshot>)
    requires n <= |m|
    ensures |sub| == n && sub.Keys <= m.Keys && forall id :: id in sub ==> sub[id] == m[id]
    decreases |m|
  {
    if n == |m| {
      sub := m;
    } else {
      var x :| x in m;
      var rest := m - {x};
      assert rest.Keys == m.Keys - {x};
      assert |rest.Keys| == |m.Keys| - 1;
      sub := SubmapOfSize(rest, n);
    }
  }

  ghost predicate Complete(live: map<Id, Snapshot>, rows: map<Id, Snapshot>) {
    forall id :: id in live ==> Says(RowAt(rows, id), live[id])
  }

  /** A snapshot of sessions that do not change meanwhile is right, whichever rows are kept, exactly when they all fit. */
  lemma SnapshotIsCompleteIffFits(live: map<Id, Snapshot>)
    ensures (forall rows :: ValidRows(Active(live), rows) ==> Complete(live, rows)) <==> |Active(live)| <= MAX_ROWS
  {
    if |Active(live)| <= MAX_ROWS {
      forall rows | ValidRows(Active(live), rows) ensures Complete(live, rows) {
        RowsAreAll(Active(live), rows);
      }
    } else {
      var rows := SubmapOfSize(Active(live), MAX_ROWS);
      assert ValidRows(Active(live), rows);
      assert |rows.Keys| == |rows| && |Active(live).Keys| == |Active(live)|;
      assert rows.Keys != Active(live).Keys;
      var id :| id in Active(live) && id !in rows;
      assert !Says(RowAt(rows, id), live[id]);
    }
  }
}
