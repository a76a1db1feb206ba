/** What the far side of a connection knows of the interactions of the sessions, over every run of the publication system. */
module Contents {
  import opened Common
  import opened Revision
  import opened Wire
  import opened Connection
  import opened Publication
  import I = Interaction

  /** What the local interaction revisions of each session stand for in this process. */
  type Meaning = Id -> nat -> I.Content

  const NoContent := I.Content("", I.Capability(false, false, false, false, false), None)

  /** What a step adds to it. */
  ghost function Learned(m: Meaning, s: System, e: Step): Meaning
    requires Enabled(s, e)
  {
    match e
    case Start(info) => (id: Id) => (r: nat) => if id == info.id then I.ContentOf(info.interaction) else m(id)(r)
    case Change(_, _, _) =>
      var x := Entered(s, e);
      (id: Id) => (r: nat) => if id == x.id && r == x.interaction.revision then I.ContentOf(x.interaction) else m(id)(r)
    case Reboot(live) => (id: Id) => (r: nat) => if id in live then I.ContentOf(live[id].interaction) else m(id)(r)
    case _ => m
  }

  ghost function MeaningOf(steps: seq<Step>): Meaning
    requires After(steps).Some?
  {
    if steps == [] then (id: Id) => (r: nat) => NoContent
    else Learned(MeaningOf(steps[..|steps| - 1]), After(steps[..|steps| - 1]).value, steps[|steps| - 1])
  }

  ghost predicate HeldFine(m: Meaning, s: System) {
    && AllFine(m, s.world.live) && AllFine(m, s.reported) && (forall x :: x in s.copies ==> Fine(m, x.id, x))
    && (s.phase.Reading? ==> AllFine(m, s.phase.found)) && (s.phase.Read? ==> AllFine(m, s.phase.rows))
    && (s.phase.Sending? ==> AllFine(m, s.phase.batch))
  }

  ghost predicate LineOk(m: Meaning, s: System) {
    s.phase.Down? || AllOnLine(m, s.pub)
  }

  /** The two agree on every revision a session has reached. */
  ghost predicate AgreeOn(m: Meaning, m': Meaning, w: World) {
    forall id, r: nat :: id in w.live && r <= w.live[id].interaction.revision ==> m'(id)(r) == m(id)(r)
  }

  lemma FineStays(m: Meaning, m': Meaning, w: World, x: Snapshot)
    requires AgreeOn(m, m', w) && Stamped(w, x) && Fine(m, x.id, x)
    ensures Fine(m', x.id, x)
  {
  }

  lemma AllFineStays(m: Meaning, m': Meaning, w: World, snaps: map<Id, Snapshot>)
    requires AgreeOn(m, m', w) && AllStamped(w, snaps) && AllFine(m, snaps)
    ensures AllFine(m', snaps)
  {
    forall id | id in snaps ensures Fine(m', id, snaps[id]) {
      assert Fine(m, id, snaps[id]);
      FineStays(m, m', w, snaps[id]);
    }
  }

  lemma LiveStamped(w: World)
    requires WorldOk(w)
    ensures AllStamped(w, w.live)
  {
    forall id | id in w.live ensures w.live[id].id == id && Stamped(w, w.live[id]) {
      assert LifeOk(w, id);
    }
  }

  lemma HeldStays(m: Meaning, m': Meaning, s: System)
    requires AgreeOn(m, m', s.world) && WorldOk(s.world) && HeldStamped(s) && HeldFine(m, s)
    ensures HeldFine(m', s)
  {
    LiveStamped(s.world);
    AllFineStays(m, m', s.world, s.world.live);
    AllFineStays(m, m', s.world, s.reported);
    forall x | x in s.copies ensures Fine(m', x.id, x) {
      FineStays(m, m', s.world, x);
    }
    match s.phase
    case Reading(_, _, found) => AllFineStays(m, m', s.world, found);
    case Read(_, rows) => AllFineStays(m, m', s.world, rows);
    case Sending(batch) => AllFineStays(m, m', s.world, batch);
    case _ =>
  }

  lemma LineStays(m: Meaning, m': Meaning, s: System)
    requires AgreeOn(m, m', s.world) && StampsOk(s) && LineOk(m, s)
    ensures LineOk(m', s)
  {
    if !s.phase.Down? {
      forall id ensures OnLine(s.pub, id, m'(id)) {
        assert OnLine(s.pub, id, m(id)) && SaidStamped(s.world, s.pub.wire, id);
      }
    }
  }

  /** A report that keeps the revision keeps the content, so nothing already learned changes. */
  lemma LearnedAgrees(m: Meaning, s: System, e: Step)
    requires WorldOk(s.world) && HeldFine(m, s) && Enabled(s, e) && !e.Reboot?
    ensures AgreeOn(m, Learned(m, s, e), s.world)
  {
    if e.Change? {
      var cur := s.world.live[e.to.id];
      assert LifeOk(s.world, e.to.id) && Fine(m, e.to.id, cur);
      if e.report.Some? {
        I.UpdatedMeaning(cur.interaction, e.report.value, e.at);
      }
    }
  }

  lemma EnteredIsFine(m: Meaning, s: System, e: Step)
    requires Enabled(s, e) && IsMove(e)
    ensures Fine(Learned(m, s, e), Entered(s, e).id, Entered(s, e))
  {
  }

  // --- each step ---------------------------------------------------------

  lemma MoveHolds(m: Meaning, s: System, e: Step)
    requires HeldFine(m, s) && Enabled(s, e) && IsMove(e) && Fine(m, Entered(s, e).id, Entered(s, e))
    ensures HeldFine(m, Take(s, e))
  {
  }

  lemma CopyHolds(m: Meaning, s: System, id: Id)
    requires HeldFine(m, s) && WorldOk(s.world) && id in s.world.live
    ensures HeldFine(m, Take(s, Copy(id)))
  {
    assert Fine(m, id, s.world.live[id]) && LifeOk(s.world, id);
  }

  lemma DrainHolds(m: Meaning, s: System)
    requires EntriesOk(s) && HeldFine(m, s) && s.phase.Woken?
    ensures HeldFine(m, Take(s, Drain))
  {
    forall id | id in s.q.pending ensures Fine(m, id, s.q.pending[id].info) {
      assert EntryOk(s, id);
    }
  }

  lemma ReadHolds(m: Meaning, s: System, id: Id)
    requires HeldFine(m, s) && Enabled(s, ReadSession(id))
    ensures HeldFine(m, Take(s, ReadSession(id)))
  {
    assert Fine(m, id, s.world.live[id]);
  }

  lemma CutHolds(m: Meaning, s: System, rows: map<Id, Snapshot>)
    requires HeldFine(m, s) && Enabled(s, CutRows(rows))
    ensures HeldFine(m, Take(s, CutRows(rows)))
  {
    forall id | id in rows ensures Fine(m, id, rows[id]) {
      assert Fine(m, id, s.phase.found[id]);
    }
  }

  lemma ReportHolds(m: Meaning, s: System, info: Snapshot, now: int)
    requires HeldFine(m, s) && Enabled(s, Report(info, now))
    ensures HeldFine(m, Take(s, Report(info, now)))
  {
    assert Fine(m, info.id, info);
  }

  lemma SendHolds(m: Meaning, s: System, id: Id, diskOk: bool, ok: bool)
    requires HeldFine(m, s) && Enabled(s, SendOne(id, diskOk, ok))
    ensures HeldFine(m, Take(s, SendOne(id, diskOk, ok)))
  {
  }

  /** Steps that take up no state of a session. */
  lemma LessHeld(m: Meaning, s: System, s': System)
    requires HeldFine(m, s) && s'.world == s.world && s'.reported == s.reported && s'.copies == s.copies
    requires s'.phase == s.phase || (!s'.phase.Reading? && !s'.phase.Read? && !s'.phase.Sending?)
    ensures HeldFine(m, s')
  {
  }

  lemma OutsideHolds(m: Meaning, s: System, e: Step)
    requires WorldOk(s.world) && HeldFine(m, s) && Enabled(s, e) && IsOutside(e) && !e.Reboot?
    requires IsMove(e) ==> Fine(m, Entered(s, e).id, Entered(s, e))
    ensures HeldFine(m, Take(s, e))
  {
    if e.Copy? {
      CopyHolds(m, s, e.id);
    } else if e.Report? {
      ReportHolds(m, s, e.info, e.now);
    } else {
      MoveHolds(m, s, e);
    }
  }

  lemma HeldKeeps(m: Meaning, s: System, e: Step)
    requires EntriesOk(s) && WorldOk(s.world) && HeldFine(m, s) && Enabled(s, e) && !e.Reboot?
    requires IsMove(e) ==> Fine(m, Entered(s, e).id, Entered(s, e))
    ensures HeldFine(m, Take(s, e))
  {
    if IsOutside(e) {
      OutsideHolds(m, s, e);
    } else if e.ReadSession? {
      ReadHolds(m, s, e.id);
    } else if e.CutRows? {
      CutHolds(m, s, e.rows);
    } else if e.Drain? {
      DrainHolds(m, s);
    } else if e.SendOne? {
      SendHolds(m, s, e.id, e.diskOk, e.ok);
    } else if !e.ListSessions? {
      LessHeld(m, s, Take(s, e));
    }
  }

  lemma DialLine(m: Meaning, s: System, now: int)
    requires Enabled(s, Dial(now))
    ensures LineOk(m, Take(s, Dial(now)))
  {
    forall id ensures OnLine(Do(s.pub, Connect), id, m(id)) {
      ConnectFresh(s.pub, id);
    }
  }

  lemma SendLine(m: Meaning, s: System, id: Id, diskOk: bool, ok: bool)
    requires HeldFine(m, s) && LineOk(m, s) && Enabled(s, SendOne(id, diskOk, ok))
    ensures LineOk(m, Take(s, SendOne(id, diskOk, ok)))
  {
    assert Fine(m, id, s.phase.batch[id]);
    EventEverywhere(m, s.pub, s.phase.batch[id], diskOk, ok);
  }

  /** Steps that write nothing. */
  lemma SilentLine(m: Meaning, s: System, e: Step)
    requires LineOk(m, s) && Enabled(s, e)
    requires !e.Dial? && !e.WriteSnapshot? && !e.DropStale? && !e.SendOne? && !e.Reboot?
    ensures LineOk(m, Take(s, e))
  {
    assert Take(s, e).phase.Down? || (!s.phase.Down? && Take(s, e).pub == s.pub);
  }

  lemma LineKeeps(m: Meaning, s: System, e: Step)
    requires HeldFine(m, s) && LineOk(m, s) && Enabled(s, e) && !e.Reboot?
    ensures LineOk(m, Take(s, e))
  {
    if e.Dial? {
      DialLine(m, s, e.now);
    } else if e.WriteSnapshot? {
      SnapshotEverywhere(m, s.pub, s.phase.rows, e.diskOk, e.ok);
    } else if e.DropStale? {
      ForgetEverywhere(m, s.pub, e.forgotten, e.diskOk);
    } else if e.SendOne? {
      SendLine(m, s, e.id, e.diskOk, e.ok);
    } else {
      SilentLine(m, s, e);
    }
  }

  lemma RebootHolds(m: Meaning, s: System, live: map<Id, Snapshot>)
    requires Enabled(s, Reboot(live))
    ensures HeldFine(Learned(m, s, Reboot(live)), Take(s, Reboot(live)))
  {
  }

  /** Over every run, a local revision of a session stands for one content within a process. */
  lemma {:induction false} MeaningHolds(steps: seq<Step>)
    requires After(steps).Some?
    ensures HeldFine(MeaningOf(steps), After(steps).value) && LineOk(MeaningOf(steps), After(steps).value)
  {
    if steps != [] {
      var init, e := steps[..|steps| - 1], steps[|steps| - 1];
      MeaningHolds(init);
      NoLostUpdate(init);
      StepMeans(MeaningOf(init), After(init).value, e);
    }
  }

  lemma StepMeans(m: Meaning, s: System, e: Step)
    requires EntriesOk(s) && StampsOk(s) && HeldFine(m, s) && LineOk(m, s) && Enabled(s, e)
    ensures HeldFine(Learned(m, s, e), Take(s, e)) && LineOk(Learned(m, s, e), Take(s, e))
  {
    if e.Reboot? {
      RebootHolds(m, s, e.live);
    } else {
      LearnedAgrees(m, s, e);
      HeldStays(m, Learned(m, s, e), s);
      LineStays(m, Learned(m, s, e), s);
      if IsMove(e) {
        EnteredIsFine(m, s, e);
      }
      HeldKeeps(Learned(m, s, e), s, e);
      LineKeeps(Learned(m, s, e), s, e);
    }
  }

  // --- results -----------------------------------------------------------

  /**
   * At every point of a connection, the interaction of the state that the last
   * message about a session was made from is known if and only if some message
   * on this connection carried one for it.
   */
  lemma ContentToldIff(steps: seq<Step>, id: Id)
    requires After(steps).Some? && !After(steps).value.phase.Down? && Heard(After(steps).value, id).Some?
    ensures var wire := After(steps).value.pub.wire;
            ContentKnown(wire, id) <==> SaidPayload(wire, id).Some?
  {
    MeaningHolds(steps);
    KnownIffPlaced(After(steps).value.pub, id, MeaningOf(steps)(id));
  }

  /**
   * When nothing is left to do, and unless an ended session was revived, the
   * interaction of every active session that was reported is known, as of a
   * state no older than the last report.
   */
  lemma ActiveIsTold(steps: seq<Step>, id: Id)
    requires After(steps).Some? && Quiet(After(steps).value) && !After(steps).value.world.revived
    requires id in After(steps).value.reported
    requires id in After(steps).value.world.live && !Ended(After(steps).value.world.live[id])
    ensures ContentKnown(After(steps).value.pub.wire, id) && ToldSince(After(steps).value, id)
  {
    var s := After(steps).value;
    NoLostUpdate(steps);
    QuietMeansTold(steps);
    assert s.reported[id].id == id;
    assert LifeOk(s.world, id) && ToldSince(s, id) && ReadyAt(s, id) && Noted(s, id);
    ContentToldIff(steps, id);
  }

  /**
   * Sending one event makes the content known exactly when the event carries it or
   * one was sent before on this connection. The remaining case is a session whose
   * last payload was written on an earlier connection that failed.
   */
  lemma EventTellsIff(steps: seq<Step>, id: Id, diskOk: bool)
    requires After(steps).Some? && Enabled(After(steps).value, SendOne(id, diskOk, true))
    ensures var s := After(steps).value;
            ContentKnown(Take(s, SendOne(id, diskOk, true)).pub.wire, id) <==>
              SaidPayload(s.pub.wire, id).Some? || InterChanged(s.pub.lastLocal, s.phase.batch[id])
  {
    var s, m := After(steps).value, MeaningOf(steps);
    MeaningHolds(steps);
    assert OnLine(s.pub, id, m(id)) && Fine(m, id, s.phase.batch[id]);
    ContentKnownIff(s.pub, s.phase.batch[id], diskOk, true, m(id));
  }
}
