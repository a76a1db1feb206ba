/** Runs of the publication system that end quiet with the far side behind. */
module Behind {
  import opened Common
  import opened Revision
  import opened Wire
  import opened Connection
  import opened Publication
  import A = Attachments

  lemma AfterSnoc(steps: seq<Step>, s: System, e: Step)
    requires After(steps) == Some(s) && Enabled(s, e) && Fits(s, e)
    ensures After(steps + [e]) == Some(Take(s, e))
  {
    assert (steps + [e])[..|steps|] == steps;
  }

  /** A snapshot is written with nothing pending. */
  lemma Writes(before: seq<Step>, s0: System) returns (steps: seq<Step>, s: System)
    requires After(before) == Some(s0) && s0.phase.Read? && s0.q == EmptyQueue
    ensures After(steps) == Some(s) && s == s0.(phase := Idle, pub := SendSnapshot(s0.pub, s0.phase.rows, true, true))
  {
    steps, s := before, s0;
    AfterSnoc(steps, s, WriteSnapshot(true, true));
    steps, s := steps + [WriteSnapshot(true, true)], Take(s, WriteSnapshot(true, true));
    AfterSnoc(steps, s, DropStale([], true));
    steps, s := steps + [DropStale([], true)], Take(s, DropStale([], true));
    assert s.q.pending == map[];
  }

  /** Connected with no session yet. */
  lemma Connects() returns (steps: seq<Step>, s: System)
    ensures After(steps) == Some(s) && s == System(NewWorld, multiset{}, map[], EmptyQueue, 0, Idle, s.pub, 0)
    ensures s.pub.lastLocal == map[]
  {
    steps, s := [], NewSystem;
    AfterSnoc(steps, s, Dial(0));
    steps, s := steps + [Dial(0)], Take(s, Dial(0));
    AfterSnoc(steps, s, ListSessions);
    steps, s := steps + [ListSessions], Take(s, ListSessions);
    AfterSnoc(steps, s, CutRows(map[]));
    steps, s := steps + [CutRows(map[])], Take(s, CutRows(map[]));
    SnapshotIsSaid(s.pub, map[], true, true, "");
    steps, s := Writes(steps, s);
  }

  /** A session starts and its state is copied for a notification. */
  lemma StartsSession(info: Snapshot) returns (steps: seq<Step>, s: System)
    requires !Ended(info)
    ensures After(steps) == Some(s) && s.pub.lastLocal == map[]
    ensures s == System(World(map[info.id := info], map[], false), multiset{info}, map[], EmptyQueue, 0, Idle, s.pub, 0)
  {
    steps, s := Connects();
    AfterSnoc(steps, s, Start(info));
    steps, s := steps + [Start(info)], Take(s, Start(info));
    AfterSnoc(steps, s, Copy(info.id));
    steps, s := steps + [Copy(info.id)], Take(s, Copy(info.id));
  }

  /** The loop takes up the only entry. */
  lemma TakesUp(before: seq<Step>, s0: System, info: Snapshot) returns (steps: seq<Step>, s: System)
    requires After(before) == Some(s0) && s0.phase.Idle? && s0.q.dirty && !s0.q.reconcile
    requires s0.q.pending.Keys == {info.id} && s0.q.pending[info.id].info == info
    ensures After(steps) == Some(s) && s == s0.(q := EmptyQueue, phase := Sending(map[info.id := info]))
  {
    steps, s := before, s0;
    AfterSnoc(steps, s, TakeToken);
    steps, s := steps + [TakeToken], Take(s, TakeToken);
    AfterSnoc(steps, s, Drain);
    steps, s := steps + [Drain], Take(s, Drain);
    assert s.phase.batch == map[info.id := info];
  }

  /** A copy is delivered, and the loop takes it up. */
  lemma Batches(before: seq<Step>, s0: System, info: Snapshot) returns (steps: seq<Step>, s: System)
    requires After(before) == Some(s0) && s0.phase.Idle? && s0.q == EmptyQueue && info in s0.copies
    ensures After(steps) == Some(s)
    ensures s == s0.(copies := s0.copies - multiset{info}, reported := s0.reported[info.id := info],
                     phase := Sending(map[info.id := info]))
  {
    steps, s := before, s0;
    AfterSnoc(steps, s, Report(info, s0.clock));
    steps, s := steps + [Report(info, s0.clock)], Take(s, Report(info, s0.clock));
    AfterSnoc(steps, s, Ring);
    steps, s := steps + [Ring], Take(s, Ring);
    steps, s := TakesUp(steps, s, info);
  }

  lemma SendsLast(before: seq<Step>, s0: System, info: Snapshot) returns (steps: seq<Step>, s: System)
    requires After(before) == Some(s0) && s0.phase == Sending(map[info.id := info])
    ensures After(steps) == Some(s) && s == s0.(phase := Idle, pub := SendEvent(s0.pub, info, true, true))
  {
    steps, s := before, s0;
    AfterSnoc(steps, s, SendOne(info.id, true, true));
    steps, s := steps + [SendOne(info.id, true, true)], Take(s, SendOne(info.id, true, true));
    assert s.phase.batch == map[];
    AfterSnoc(steps, s, FinishBatch);
    steps, s := steps + [FinishBatch], Take(s, FinishBatch);
  }

  /** The only session ends, and its state is copied for a notification. */
  lemma StopsSession(before: seq<Step>, s0: System, info: Snapshot, stop: Snapshot) returns (steps: seq<Step>, s: System)
    requires After(before) == Some(s0) && s0.world.live == map[info.id := info]
    requires stop == info.(version := info.version + 1, status := stop.status)
    ensures After(steps) == Some(s) && s.world.live == map[info.id := stop]
    ensures s == s0.(world := s.world, copies := s0.copies + multiset{stop})
  {
    steps, s := before, s0;
    AfterSnoc(steps, s, Change(stop, None, 0));
    steps, s := steps + [Change(stop, None, 0)], Take(s, Change(stop, None, 0));
    assert s.world.live == map[info.id := stop];
    AfterSnoc(steps, s, Copy(stop.id));
    steps, s := steps + [Copy(stop.id)], Take(s, Copy(stop.id));
  }

  /** A copy is delivered and its event sent. */
  lemma Delivers(before: seq<Step>, s0: System, info: Snapshot) returns (steps: seq<Step>, s: System)
    requires After(before) == Some(s0) && s0.phase.Idle? && s0.q == EmptyQueue && info in s0.copies
    ensures After(steps) == Some(s) && Heard(s, info.id) == Some(info)
    ensures s == s0.(copies := s0.copies - multiset{info}, reported := s0.reported[info.id := info], pub := s.pub)
  {
    steps, s := Batches(before, s0, info);
    EventIsSaid(s.pub, info, true, true, info.id);
    steps, s := SendsLast(steps, s, info);
  }

  // ---------------------------------------------------------------------
  // Changes that are not reported, and reports that overtake each other
  // ---------------------------------------------------------------------

  function StatusOf(state: A.LifeState): Status {
    match state
    case Starting => Status.Starting
    case Running => Status.Running
    case Attached => Status.Attached
    case Stopping => Status.Stopping
    case Stopped => Status.Stopped
    case Failed => Status.Failed
  }

  /** A session is reported and then changes without a report: quiet, with the far side left at the old state. */
  lemma UnreportedIsNotTold(info: Snapshot, to: Snapshot) returns (steps: seq<Step>, s: System)
    requires !Ended(info) && to == info.(version := info.version + 1, status := to.status)
    ensures After(steps) == Some(s) && Quiet(s) && s.copies == multiset{}
    ensures s.world.live == map[info.id := to] && s.reported == map[info.id := info] && s.q == EmptyQueue && s.clock == 0
    ensures Heard(s, info.id) == Some(info) && !Says(Heard(s, info.id), to)
  {
    steps, s := StartsSession(info);
    steps, s := Delivers(steps, s, info);
    AfterSnoc(steps, s, Change(to, None, 0));
    steps, s := steps + [Change(to, None, 0)], Take(s, Change(to, None, 0));
    assert s.copies == multiset{};
  }

  /** The sessions are listed and the only one, which is active, is read. */
  lemma ReadsOne(before: seq<Step>, s0: System, x: Snapshot) returns (steps: seq<Step>, s: System)
    requires After(before) == Some(s0) && s0.phase == Cut(0) && s0.world.live == map[x.id := x] && !Ended(x)
    ensures After(steps) == Some(s) && s == s0.(phase := Read(0, map[x.id := x]))
  {
    steps, s := before, s0;
    AfterSnoc(steps, s, ListSessions);
    steps, s := steps + [ListSessions], Take(s, ListSessions);
    AfterSnoc(steps, s, ReadSession(x.id));
    steps, s := steps + [ReadSession(x.id)], Take(s, ReadSession(x.id));
    assert s.phase.todo == {} && s.phase.found == map[x.id := x];
    assert |s.phase.found| == 1;
    AfterSnoc(steps, s, CutRows(map[x.id := x]));
    steps, s := steps + [CutRows(map[x.id := x])], Take(s, CutRows(map[x.id := x]));
  }

  /** A snapshot of the only session, with nothing pending. */
  lemma Reconciles(before: seq<Step>, s0: System, x: Snapshot) returns (steps: seq<Step>, s: System)
    requires After(before) == Some(s0) && s0.phase.Idle? && s0.q == EmptyQueue && s0.clock == 0
    requires s0.world.live == map[x.id := x] && !Ended(x)
    ensures After(steps) == Some(s) && s == s0.(pub := s.pub) && Heard(s, x.id) == Some(x)
  {
    steps, s := before, s0;
    AfterSnoc(steps, s, AskReconcile);
    steps, s := steps + [AskReconcile], Take(s, AskReconcile);
    AfterSnoc(steps, s, BeginReconcile(0));
    steps, s := steps + [BeginReconcile(0)], Take(s, BeginReconcile(0));
    steps, s := ReadsOne(steps, s, x);
    SnapshotIsSaid(s.pub, s.phase.rows, true, true, x.id);
    steps, s := Writes(steps, s);
  }

  /**
   * A client claims the writer slot of a running session: the session is attached,
   * and the far side is left with running although nothing is left to do. The
   * next snapshot tells it a state that was never reported.
   */
  lemma ClaimIsNotTold(slot: A.Slot, client: A.ClientId, info: Snapshot, to: Snapshot) returns (steps: seq<Step>, later: seq<Step>)
    requires slot.state == A.Running && slot.writer == "" && client != "" && client in slot.observers
    requires info.status == Status.Running && to == info.(version := info.version + 1, status := to.status)
    requires to.status == StatusOf(A.Claim(slot, client, false).value.state)
    ensures After(steps).Some? && Quiet(After(steps).value) && After(steps).value.world.live == map[info.id := to]
    ensures SaidBasics(After(steps).value.pub.wire, info.id) == Some(BasicsOf(info)) && BasicsOf(to) != BasicsOf(info)
    ensures After(later).Some? && Quiet(After(later).value) && After(later).value.reported == map[info.id := info]
    ensures SaidBasics(After(later).value.pub.wire, info.id) == Some(BasicsOf(to))
  {
    var s;
    steps, s := UnreportedIsNotTold(info, to);
    BasicsAreMade(s.pub.wire, info.id);
    later, s := Reconciles(steps, s, to);
    BasicsAreMade(s.pub.wire, info.id);
  }

  /**
   * The state is copied under the lock and delivered after it: a report can be
   * overtaken by a later one. Every change of the session is reported, and the
   * far side is left with the older state, here of a session that has ended.
   */
  lemma OvertakenReportWins(info: Snapshot, stop: Snapshot) returns (steps: seq<Step>, s: System)
    requires !Ended(info) && Ended(stop) && stop == info.(version := info.version + 1, status := stop.status)
    ensures After(steps) == Some(s) && Quiet(s) && s.copies == multiset{} && s.world.live == map[info.id := stop]
    ensures Heard(s, info.id) == Some(info) && SaidBasics(s.pub.wire, info.id) == Some(BasicsOf(info))
  {
    steps, s := StartsSession(info);
    steps, s := StopsSession(steps, s, info, stop);
    steps, s := Delivers(steps, s, stop);
    assert s.copies == multiset{info};
    steps, s := Delivers(steps, s, info);
    BasicsAreMade(s.pub.wire, info.id);
  }

  // ---------------------------------------------------------------------
  // An interaction that is never delivered
  // ---------------------------------------------------------------------

  /** The first event about a session fails, and the connection with it. */
  lemma FailsToSend(info: Snapshot) returns (steps: seq<Step>, s: System)
    requires !Ended(info)
    ensures After(steps) == Some(s) && s.pub.lastLocal == map[info.id := info.interaction.revision as int]
    ensures s == System(World(map[info.id := info], map[], false), multiset{}, map[info.id := info], EmptyQueue, 0, Down, s.pub, 0)
  {
    steps, s := StartsSession(info);
    steps, s := Batches(steps, s, info);
    AfterSnoc(steps, s, SendOne(info.id, true, false));
    PlainSaid(s.pub, info, true, false, info.id);
    steps, s := steps + [SendOne(info.id, true, false)], Take(s, SendOne(info.id, true, false));
    assert s.copies == multiset{};
  }

  /** The session ends after the next connection's cutoff and before it is read. */
  lemma EndsUnread(info: Snapshot, stop: Snapshot) returns (steps: seq<Step>, s: System)
    requires !Ended(info) && Ended(stop) && stop == info.(version := info.version + 1, status := stop.status)
    ensures After(steps) == Some(s) && s.phase == Sending(map[stop.id := stop]) && s.reported == map[stop.id := stop]
    ensures s.q == EmptyQueue && s.ringing == 0 && s.pub.lastLocal == map[info.id := info.interaction.revision as int]
    ensures SaidPayload(s.pub.wire, info.id) == None
  {
    steps, s := FailsToSend(info);
    AfterSnoc(steps, s, Dial(0));
    ConnectFresh(s.pub, info.id);
    steps, s := steps + [Dial(0)], Take(s, Dial(0));
    steps, s := EndsReported(steps, s, info, stop);
    steps, s := SnapshotWithout(steps, s, stop);
    steps, s := TakesUp(steps, s, stop);
  }

  lemma EndsReported(before: seq<Step>, s0: System, info: Snapshot, stop: Snapshot) returns (steps: seq<Step>, s: System)
    requires After(before) == Some(s0) && s0.phase == Cut(0) && s0.world.live == map[info.id := info]
    requires s0.q == EmptyQueue && s0.ringing == 0 && s0.clock == 0 && s0.reported == map[info.id := info]
    requires Ended(stop) && stop == info.(version := info.version + 1, status := stop.status)
    ensures After(steps) == Some(s) && s.phase == s0.phase && s.pub == s0.pub
    ensures s.world.live == map[stop.id := stop] && s.reported == map[stop.id := stop]
    ensures s.q.pending == map[stop.id := Queued(stop, 0)] && s.q.order == [stop.id] && s.q.dirty && !s.q.reconcile && s.ringing == 0
  {
    steps, s := StopsSession(before, s0, info, stop);
    AfterSnoc(steps, s, Report(stop, 0));
    steps, s := steps + [Report(stop, 0)], Take(s, Report(stop, 0));
    AfterSnoc(steps, s, Ring);
    steps, s := steps + [Ring], Take(s, Ring);
  }

  lemma ReadsNothing(before: seq<Step>, s0: System, stop: Snapshot) returns (steps: seq<Step>, s: System)
    requires After(before) == Some(s0) && s0.phase == Cut(0) && s0.world.live == map[stop.id := stop] && Ended(stop)
    ensures After(steps) == Some(s) && s == s0.(phase := Read(0, map[]))
  {
    steps, s := before, s0;
    AfterSnoc(steps, s, ListSessions);
    steps, s := steps + [ListSessions], Take(s, ListSessions);
    AfterSnoc(steps, s, ReadSession(stop.id));
    steps, s := steps + [ReadSession(stop.id)], Take(s, ReadSession(stop.id));
    assert s.phase.todo == {};
    AfterSnoc(steps, s, CutRows(map[]));
    steps, s := steps + [CutRows(map[])], Take(s, CutRows(map[]));
  }

  lemma NothingAdded(a: map<Id, int>, b: map<Id, int>)
    requires b.Keys == {}
    ensures a + b == a
  {
  }

  lemma EmptySnapshot(p: Pub, none: map<Id, Snapshot>, id: Id)
    requires none == map[]
    ensures var p' := SendSnapshot(p, none, true, true);
            p'.lastLocal == p.lastLocal && SaidPayload(p'.wire, id) == SaidPayload(p.wire, id)
  {
    Snoc(p.wire, Rows(RowMap(p, none)), id);
    var locals := LocalsOf(RowMap(p, none));
    assert locals.Keys == {};
    NothingAdded(p.lastLocal, locals);
  }

  lemma KeepsRecent(q: Queue, stop: Snapshot)
    requires q.pending == map[stop.id := Queued(stop, 0)] && q.order == [stop.id]
    ensures DrainStale(q, 0) == q
  {
    assert DrainStale(q, 0).pending == q.pending;
    KeepEverything(q.order, q.pending.Keys);
  }

  lemma SnapshotWithout(before: seq<Step>, s0: System, stop: Snapshot) returns (steps: seq<Step>, s: System)
    requires After(before) == Some(s0) && s0.phase == Cut(0) && s0.world.live == map[stop.id := stop] && Ended(stop)
    requires s0.q.pending == map[stop.id := Queued(stop, 0)] && s0.q.order == [stop.id]
    ensures After(steps) == Some(s) && s == s0.(phase := Idle, pub := s.pub)
    ensures s.pub.lastLocal == s0.pub.lastLocal && SaidPayload(s.pub.wire, stop.id) == SaidPayload(s0.pub.wire, stop.id)
  {
    steps, s := ReadsNothing(before, s0, stop);
    AfterSnoc(steps, s, WriteSnapshot(true, true));
    EmptySnapshot(s.pub, s.phase.rows, stop.id);
    KeepsRecent(s.q, stop);
    steps, s := steps + [WriteSnapshot(true, true)], Take(s, WriteSnapshot(true, true));
    AfterSnoc(steps, s, DropStale([], true));
    steps, s := steps + [DropStale([], true)], Take(s, DropStale([], true));
  }

  /**
   * A run that ends quiet without the far side ever receiving the interaction: its
   * event fails after the bookkeeping, and the session ends between the cutoff of
   * the next snapshot and its reading, so the stop event leaves it out.
   */
  lemma ContentCanBeLost(info: Snapshot, stop: Snapshot) returns (steps: seq<Step>)
    requires !Ended(info) && Ended(stop) && stop == info.(version := info.version + 1, status := stop.status)
    ensures After(steps).Some? && Quiet(After(steps).value) && After(steps).value.reported == map[stop.id := stop]
    ensures Heard(After(steps).value, info.id) == Some(stop) && SaidPayload(After(steps).value.pub.wire, info.id) == None
  {
    var s;
    steps, s := EndsUnread(info, stop);
    EventIsSaid(s.pub, stop, true, true, info.id);
    steps, s := SendsLast(steps, s, stop);
  }
}
