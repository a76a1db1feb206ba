/** The control client object, each method proved against the queue of `Publication` and the log of `Wire`. */
module ControlClient {
  import opened Common
  import opened Revision
  import opened Wire
  import opened Publication
  import I = Interaction

  // ---------------------------------------------------------------------
  // The linked list that keeps the order
  // ---------------------------------------------------------------------

  /** The list without one element. */
  function Unlink(order: seq<Id>, id: Id): seq<Id> {
    if order == [] then []
    else
      var init, x := order[..|order| - 1], order[|order| - 1];
      if x == id then init else Unlink(init, id) + [x]
  }

  lemma {:induction false} KeepTwice(order: seq<Id>, a: set<Id>, b: set<Id>)
    requires b <= a
    ensures Keep(Keep(order, a), b) == Keep(order, b)
  {
    if order != [] {
      var init, x := order[..|order| - 1], order[|order| - 1];
      KeepTwice(init, a, b);
      if x in a {
        assert (Keep(init, a) + [x])[..|Keep(init, a)|] == Keep(init, a);
      } else {
        assert Keep(order, a) == Keep(init, a) && Keep(order, b) == Keep(init, b) + [];
      }
    }
  }

  /** Unlinking one element keeps exactly the others, in order. */
  lemma {:induction false} UnlinkKeeps(order: seq<Id>, pending: map<Id, Queued>, ids: set<Id>, id: Id)
    requires ByAge(order, pending) && id !in ids && forall i :: i in order && i != id ==> i in ids
    ensures Unlink(order, id) == Keep(order, ids)
  {
    if order != [] {
      var init, x := order[..|order| - 1], order[|order| - 1];
      assert order == init + [x];
      if x == id {
        KeepEverything(init, ids);
      } else {
        UnlinkKeeps(init, pending, ids, id);
      }
    }
  }

  lemma {:induction false} UnlinkFront(order: seq<Id>, pending: map<Id, Queued>)
    requires ByAge(order, pending) && order != []
    ensures Unlink(order, order[0]) == order[1..]
  {
    if |order| > 1 {
      UnlinkFront(order[..|order| - 1], pending);
      assert order[..|order| - 1][1..] + [order[|order| - 1]] == order[1..];
    }
  }

  lemma MovedToBack(order: seq<Id>, pending: map<Id, Queued>, id: Id)
    requires ListOk(order, pending)
    ensures (if id in pending then Unlink(order, id) else order) == Keep(order, pending.Keys - {id})
  {
    if id in pending {
      UnlinkKeeps(order, pending, pending.Keys - {id}, id);
    } else {
      KeepEverything(order, pending.Keys - {id});
    }
  }

  lemma ForgetAllAppend(p: Pub, ids: seq<Id>, gone: seq<Id>, diskOk: bool)
    requires |gone| <= 1
    ensures ForgetAll(p, ids + gone, diskOk) == ForgetAll(ForgetAll(p, ids, diskOk), gone, diskOk)
  {
    if gone == [] {
      assert ids + gone == ids;
    } else {
      assert (ids + gone)[..|ids|] == ids && gone[..0] == [];
    }
  }

  /** The entries outside `left` are swept: only those from the cutoff on remain. */
  ghost predicate Swept(all: map<Id, Queued>, now: map<Id, Queued>, left: set<Id>, cutoff: int) {
    && (forall id :: id in now <==> id in all && (id in left || all[id].at >= cutoff))
    && forall id :: id in now ==> now[id] == all[id]
  }

  ghost predicate Lists(forgotten: seq<Id>, all: map<Id, Queued>, left: set<Id>, cutoff: int) {
    forall id :: id in forgotten <==> Redundant(all, id, cutoff) && id !in left
  }

  /** Where the sweep stands: `left` is still to be visited, `done` has been forgotten. */
  ghost predicate Sweeping(q: Queue, order: seq<Id>, pending: map<Id, Queued>, cutoff: int, left: set<Id>, done: seq<Id>) {
    && ListOk(order, pending) && left <= pending.Keys && order == Keep(q.order, pending.Keys)
    && Swept(q.pending, pending, left, cutoff) && Lists(done, q.pending, left, cutoff)
  }

  lemma SweepSets(all: map<Id, Queued>, before: map<Id, Queued>, left: set<Id>, cutoff: int, id: Id, done: seq<Id>, gone: seq<Id>)
    requires Swept(all, before, left, cutoff) && id in left && left <= before.Keys && Lists(done, all, left, cutoff)
    requires gone == if Redundant(before, id, cutoff) then [id] else []
    ensures var after := if before[id].at < cutoff then before - {id} else before;
            left - {id} <= after.Keys && Swept(all, after, left - {id}, cutoff) && Lists(done + gone, all, left - {id}, cutoff)
  {
  }

  lemma SweepStep(q: Queue, order: seq<Id>, before: map<Id, Queued>, order': seq<Id>, after: map<Id, Queued>,
                  cutoff: int, left: set<Id>, id: Id, done: seq<Id>, gone: seq<Id>)
    requires Sweeping(q, order, before, cutoff, left, done) && id in left
    requires after == if before[id].at < cutoff then before - {id} else before
    requires ListOk(order', after) && order' == Keep(order, after.Keys)
    requires gone == if Redundant(before, id, cutoff) then [id] else []
    ensures Sweeping(q, order', after, cutoff, left - {id}, done + gone)
  {
    SweepSets(q.pending, before, left, cutoff, id, done, gone);
    KeepTwice(q.order, before.Keys, after.Keys);
  }

  lemma SweepBegins(q: Queue, cutoff: int)
    requires QueueOk(q)
    ensures Sweeping(q, q.order, q.pending, cutoff, q.pending.Keys, [])
  {
    KeepEverything(q.order, q.pending.Keys);
  }

  lemma SweepEnds(q: Queue, order: seq<Id>, pending: map<Id, Queued>, cutoff: int, forgotten: seq<Id>)
    requires Sweeping(q, order, pending, cutoff, {}, forgotten)
    ensures ListOk(order, pending) && pending == DrainStale(q, cutoff).pending && order == DrainStale(q, cutoff).order
    ensures forall id :: id in forgotten <==> Redundant(q.pending, id, cutoff)
  {
    assert pending == DrainStale(q, cutoff).pending;
  }

  lemma EventInTwoSteps(p: Pub, info: Snapshot, diskOk: bool, writeOk: bool)
    ensures var p1 := p.(revs := Bump(p.revs, info.id, diskOk));
            var item := Event(info, KindOf(p, info), Current(p.revs, info.id) + 1, InterPart(p1, info, false));
            PlainEvent(p, info, diskOk, writeOk) == NoteInter(p1, info, false, diskOk).(wire := p.wire + [item], up := writeOk)
  {
  }

  // ---------------------------------------------------------------------
  // A snapshot is built row by row
  // ---------------------------------------------------------------------

  ghost predicate OncePerSession(snaps: seq<Snapshot>) {
    forall i, j :: 0 <= i < j < |snaps| ==> snaps[i].id != snaps[j].id
  }

  /** The first `n` sessions, by id. */
  function RowsOf(snaps: seq<Snapshot>, n: nat): map<Id, Snapshot>
    requires n <= |snaps|
  {
    if n == 0 then map[] else RowsOf(snaps, n - 1)[snaps[n - 1].id := snaps[n - 1]]
  }

  lemma {:induction false} RowsOfFresh(snaps: seq<Snapshot>, n: nat, s: Snapshot)
    requires n <= |snaps| && forall i :: 0 <= i < n ==> snaps[i].id != s.id
    ensures s.id !in RowsOf(snaps, n)
  {
    if n > 0 {
      RowsOfFresh(snaps, n - 1, s);
    }
  }

  /** The bookkeeping of one row. */
  function RowStep(p: Pub, s: Snapshot, diskOk: bool): Pub {
    NoteInter(p.(revs := if Current(p.revs, s.id) <= 0 then Bump(p.revs, s.id, diskOk) else p.revs), s, true, diskOk)
  }

  /** The bookkeeping of several rows at once. */
  function Counted(p: Pub, rows: map<Id, Row>, diskOk: bool): Pub {
    p.(revs := Settle(p.revs, p.revs.mem + RevsOf(rows), diskOk),
       inters := Settle(p.inters, p.inters.mem + IntersOf(rows), diskOk),
       lastLocal := p.lastLocal + LocalsOf(rows))
  }

  /** A counter that moves for one more session, which has not moved yet. */
  lemma SettleStep(c: Counters, moved: map<Id, int>, id: Id, diskOk: bool)
    requires id !in moved
    ensures var settled := Settle(c, c.mem + moved, diskOk);
            && Current(settled, id) == Current(c, id)
            && Settle(c, c.mem + moved[id := Current(c, id) + 1], diskOk) == Bump(settled, id, diskOk)
            && (id in c.mem ==> Settle(c, c.mem + moved[id := c.mem[id]], diskOk) == settled)
  {
    var mem := c.mem + moved;
    assert c.mem + moved[id := Current(c, id) + 1] == mem[id := Current(c, id) + 1];
    if id in c.mem {
      assert c.mem + moved[id := c.mem[id]] == mem;
    }
    var mem' := mem[id := Current(c, id) + 1];
    assert id in mem' && (id in c.mem ==> mem'[id] != c.mem[id]);
  }

  lemma OneMoreRow(rows: map<Id, Row>, id: Id, row: Row)
    ensures RevsOf(rows[id := row]) == RevsOf(rows)[id := row.rev]
    ensures IntersOf(rows[id := row]) == IntersOf(rows)[id := row.inter.rev]
    ensures LocalsOf(rows[id := row]) == LocalsOf(rows)[id := row.inter.local]
  {
  }

  lemma RowRevs(c: Counters, moved: map<Id, int>, id: Id, rev: int, diskOk: bool)
    requires id !in moved && (rev == Current(c, id) + 1 || (rev == Current(c, id) && id in c.mem))
    ensures var settled := Settle(c, c.mem + moved, diskOk);
            Settle(c, c.mem + moved[id := rev], diskOk) == if rev == Current(settled, id) then settled else Bump(settled, id, diskOk)
  {
    SettleStep(c, moved, id, diskOk);
  }

  /** A row reads and writes only its own session's bookkeeping. */
  lemma RowIsLocal(p: Pub, q: Pub, s: Snapshot, diskOk: bool)
    requires Current(q.revs, s.id) == Current(p.revs, s.id) && Current(q.inters, s.id) == Current(p.inters, s.id)
    requires (s.id in q.lastLocal <==> s.id in p.lastLocal) && (s.id in p.lastLocal ==> q.lastLocal[s.id] == p.lastLocal[s.id])
    ensures RowOf(q, s) == RowOf(p, s)
    ensures var row := RowOf(p, s);
            RowStep(q, s, diskOk) == q.(revs := if row.rev == Current(q.revs, s.id) then q.revs else Bump(q.revs, s.id, diskOk),
                                        inters := if row.inter.rev == Current(q.inters, s.id) then q.inters else Bump(q.inters, s.id, diskOk),
                                        lastLocal := q.lastLocal[s.id := row.inter.local])
  {
  }

  lemma RowCounters(p: Pub, s: Snapshot)
    ensures var row := RowOf(p, s);
            && (row.rev == Current(p.revs, s.id) + 1 || (row.rev == Current(p.revs, s.id) && s.id in p.revs.mem))
            && (row.inter.rev == Current(p.inters, s.id) + 1 || (row.inter.rev == Current(p.inters, s.id) && s.id in p.inters.mem))
  {
  }

  lemma LocalsSnoc(a: map<Id, int>, b: map<Id, int>, id: Id, n: int)
    ensures a + b[id := n] == (a + b)[id := n]
  {
  }

  lemma CountedOneMore(p: Pub, rows: map<Id, Row>, id: Id, row: Row, diskOk: bool)
    requires id !in rows
    requires row.rev == Current(p.revs, id) + 1 || (row.rev == Current(p.revs, id) && id in p.revs.mem)
    requires row.inter.rev == Current(p.inters, id) + 1 || (row.inter.rev == Current(p.inters, id) && id in p.inters.mem)
    ensures var q := Counted(p, rows, diskOk);
            Counted(p, rows[id := row], diskOk)
            == q.(revs := if row.rev == Current(q.revs, id) then q.revs else Bump(q.revs, id, diskOk),
                  inters := if row.inter.rev == Current(q.inters, id) then q.inters else Bump(q.inters, id, diskOk),
                  lastLocal := q.lastLocal[id := row.inter.local])
  {
    OneMoreRow(rows, id, row);
    RowRevs(p.revs, RevsOf(rows), id, row.rev, diskOk);
    RowRevs(p.inters, IntersOf(rows), id, row.inter.rev, diskOk);
    LocalsSnoc(p.lastLocal, LocalsOf(rows), id, row.inter.local);
  }

  /** One row more: its bookkeeping and its contents are those of the snapshot as a whole. */
  lemma RowStepCounts(p: Pub, rows: map<Id, Row>, s: Snapshot, diskOk: bool)
    requires s.id !in rows
    ensures RowOf(Counted(p, rows, diskOk), s) == RowOf(p, s)
    ensures RowStep(Counted(p, rows, diskOk), s, diskOk) == Counted(p, rows[s.id := RowOf(p, s)], diskOk)
  {
    var q := Counted(p, rows, diskOk);
    SettleStep(p.revs, RevsOf(rows), s.id, diskOk);
    SettleStep(p.inters, IntersOf(rows), s.id, diskOk);
    RowIsLocal(p, q, s, diskOk);
    RowCounters(p, s);
    CountedOneMore(p, rows, s.id, RowOf(p, s), diskOk);
  }

  lemma RowMapSnoc(p: Pub, snaps: seq<Snapshot>, n: nat)
    requires n < |snaps|
    ensures RowMap(p, RowsOf(snaps, n + 1)) == RowMap(p, RowsOf(snaps, n))[snaps[n].id := RowOf(p, snaps[n])]
  {
  }

  lemma NextRow(p: Pub, snaps: seq<Snapshot>, n: nat, diskOk: bool)
    requires OncePerSession(snaps) && n < |snaps|
    ensures var rows, row := RowMap(p, RowsOf(snaps, n)), RowOf(p, snaps[n]);
            && RowOf(Counted(p, rows, diskOk), snaps[n]) == row
            && RowStep(Counted(p, rows, diskOk), snaps[n], diskOk) == Counted(p, rows[snaps[n].id := row], diskOk)
            && rows[snaps[n].id := row] == RowMap(p, RowsOf(snaps, n + 1))
  {
    RowsOfFresh(snaps, n, snaps[n]);
    RowStepCounts(p, RowMap(p, RowsOf(snaps, n)), snaps[n], diskOk);
    RowMapSnoc(p, snaps, n);
  }

  lemma NothingCounted(p: Pub, diskOk: bool)
    ensures Counted(p, map[], diskOk) == p
  {
    var none: map<Id, Row> := map[];
    assert p.revs.mem + RevsOf(none) == p.revs.mem && p.inters.mem + IntersOf(none) == p.inters.mem
        && p.lastLocal + LocalsOf(none) == p.lastLocal;
  }

  class Client {
    const revisions: Store
    const interactions: Store
    var lastLocal: map<Id, int>
    var pending: map<Id, Queued>
    var order: seq<Id>
    var dirty: bool
    var reconcile: bool
    ghost var wire: seq<Item>
    ghost var up: bool

    constructor (path: string, loaded: Option<map<Id, int>>, loadedInteractions: Option<map<Id, int>>)
      ensures Valid() && fresh(revisions) && fresh(interactions)
      ensures Queued() == EmptyQueue && Published().wire == [] && Published().lastLocal == map[]
      ensures path != "" && loaded.Some? ==> Published().revs == Reload(Counters(map[], loaded.value))
    {
      revisions := new Store(path, loaded);
      interactions := new Store(if path == "" then "" else path + ".interaction", loadedInteractions);
      lastLocal, pending, order, dirty, reconcile, wire, up := map[], map[], [], false, false, [], false;
    }

    ghost predicate Valid()
      reads this
    {
      Wired() && QueueOk(Queued())
    }

    /** Two separate counters, persisted or not together. */
    ghost predicate Wired() {
      revisions != interactions && (revisions.path == "" <==> interactions.path == "")
    }

    ghost function Queued(): Queue
      reads this
    {
      Queue(pending, order, dirty, reconcile)
    }

    ghost function Published(): Pub
      reads this, revisions, interactions
    {
      Pub(revisions.Value(), interactions.Value(), lastLocal, wire, up)
    }

    ghost predicate Persists(diskOk: bool) {
      revisions.path != "" && diskOk
    }

    method ScheduleReconcile()
      modifies this`reconcile
      ensures Queued() == old(Queued()).(reconcile := true)
    {
      reconcile := true;
    }

    method MakeRoomFor(id: Id)
      requires Valid()
      modifies this`pending, this`order, this`reconcile
      ensures Queued() == MakeRoom(old(Queued()), id)
    {
      if id !in pending && |pending| >= QUEUE_SIZE {
        ghost var rest := pending - {order[0]};
        UnlinkKeeps(order, pending, rest.Keys, order[0]);
        UnlinkFront(order, pending);
        pending := pending - {order[0]};
        order := order[1..];
        ScheduleReconcile();
      }
    }

    method Enqueue(info: Snapshot, now: int)
      requires ListOk(order, pending)
      modifies this`pending, this`order, this`dirty
      ensures pending == old(pending)[info.id := Publication.Queued(info, now)] && dirty
      ensures order == Keep(old(order), old(pending).Keys - {info.id}) + [info.id]
    {
      MovedToBack(order, pending, info.id);
      order := (if info.id in pending then Unlink(order, info.id) else order) + [info.id];
      pending := pending[info.id := Publication.Queued(info, now)];
      dirty := true;
    }

    method Notify(info: Snapshot, now: int)
      requires Valid() && forall id :: id in pending ==> pending[id].at <= now
      modifies this`pending, this`order, this`dirty, this`reconcile
      ensures Valid() && Queued() == Publication.Notify(old(Queued()), info, now)
    {
      NotifyOk(Queued(), info, now);
      MakeRoomOk(Queued(), info.id);
      MakeRoomFor(info.id);
      Enqueue(info, now);
    }

    /** Everything pending, each session once, in the map's own order. */
    method DrainAllPending() returns (out: seq<Publication.Queued>)
      requires Valid()
      modifies this`pending, this`order
      ensures Valid() && Queued() == DrainAll(old(Queued()))
      ensures |out| == |old(pending)|
      ensures forall id :: id in old(pending) ==> old(pending)[id] in out
      ensures forall item :: item in out ==> item.info.id in old(pending) && old(pending)[item.info.id] == item
    {
      out := [];
      var left := pending.Keys;
      while left != {}
        invariant left <= pending.Keys && |out| + |left| == |pending|
        invariant forall id :: id in pending && id !in left ==> pending[id] in out
        invariant forall item :: item in out ==> item.info.id in pending && pending[item.info.id] == item
        decreases left
      {
        var id :| id in left;
        out := out + [pending[id]];
        left := left - {id};
      }
      pending, order := map[], [];
    }

    method ForgetInteraction(id: Id, diskOk: bool)
      requires revisions != interactions
      modifies this`lastLocal, interactions
      ensures interactions.Value() == Drop(old(interactions.Value()), id, interactions.path != "" && diskOk)
      ensures lastLocal == old(lastLocal) - {id}
    {
      interactions.Forget(id, diskOk);
      lastLocal := lastLocal - {id};
    }

    /** Both revision axes of a session that has ended and been reported. */
    method ForgetSession(id: Id, diskOk: bool)
      requires Wired()
      modifies this`lastLocal, this`wire, revisions, interactions
      ensures Published() == Do(old(Published()), DoForget(id, Persists(diskOk)))
    {
      revisions.Forget(id, diskOk);
      ForgetInteraction(id, diskOk);
      wire := wire + [Forgot(id)];
    }

    method DropEntry(id: Id)
      requires ListOk(order, pending) && id in pending
      modifies this`pending, this`order
      ensures ListOk(order, pending) && pending == old(pending) - {id} && order == Keep(old(order), pending.Keys)
    {
      ghost var kept := pending - {id};
      assert kept.Keys == pending.Keys - {id};
      KeepOk(order, pending, kept);
      UnlinkKeeps(order, pending, kept.Keys, id);
      order := Unlink(order, id);
      pending := pending - {id};
    }

    method ForgetIfEnded(id: Id, ended: bool, diskOk: bool) returns (ghost gone: seq<Id>)
      requires Wired()
      modifies this`lastLocal, this`wire, revisions, interactions
      ensures gone == if ended then [id] else []
      ensures Published() == ForgetAll(old(Published()), gone, Persists(diskOk))
    {
      gone := [];
      if ended {
        ForgetSession(id, diskOk);
        gone := [id];
        assert gone[..0] == [];
      }
    }

    /** One step of the sweep over the pending map. */
    method DropIfStale(id: Id, cutoff: int, diskOk: bool) returns (ghost gone: seq<Id>)
      requires Valid() && id in pending
      modifies this`pending, this`order, this`lastLocal, this`wire, revisions, interactions
      ensures ListOk(order, pending) && order == Keep(old(order), pending.Keys)
      ensures pending == if old(pending)[id].at < cutoff then old(pending) - {id} else old(pending)
      ensures gone == if Redundant(old(pending), id, cutoff) then [id] else []
      ensures Published() == ForgetAll(old(Published()), gone, Persists(diskOk))
    {
      gone := [];
      if pending[id].at < cutoff {
        gone := ForgetIfEnded(id, Terminal(pending[id].info.status), diskOk);
        DropEntry(id);
      } else {
        KeepEverything(order, pending.Keys);
      }
    }

    method VisitStale(id: Id, cutoff: int, diskOk: bool, ghost q: Queue, ghost p: Pub, ghost left: set<Id>, ghost done: seq<Id>)
      returns (ghost forgotten: seq<Id>)
      requires Wired() && Sweeping(q, order, pending, cutoff, left, done) && id in left
      requires Published() == ForgetAll(p, done, Persists(diskOk))
      modifies this`pending, this`order, this`lastLocal, this`wire, revisions, interactions
      ensures Sweeping(q, order, pending, cutoff, left - {id}, forgotten)
      ensures Published() == ForgetAll(p, forgotten, Persists(diskOk))
    {
      ghost var gone := DropIfStale(id, cutoff, diskOk);
      SweepStep(q, old(order), old(pending), order, pending, cutoff, left, id, done, gone);
      ForgetAllAppend(p, done, gone, Persists(diskOk));
      forgotten := done + gone;
    }

    /** The loop over the pending map. */
    method SweepStale(cutoff: int, diskOk: bool, ghost q: Queue) returns (ghost forgotten: seq<Id>)
      requires Wired() && Sweeping(q, order, pending, cutoff, pending.Keys, [])
      modifies this`pending, this`order, this`lastLocal, this`wire, revisions, interactions
      ensures Sweeping(q, order, pending, cutoff, {}, forgotten)
      ensures Published() == ForgetAll(old(Published()), forgotten, Persists(diskOk))
    {
      forgotten := [];
      ghost var p := Published();
      var left := pending.Keys;
      while left != {}
        invariant Sweeping(q, order, pending, cutoff, left, forgotten)
        invariant Published() == ForgetAll(p, forgotten, Persists(diskOk))
        decreases left
      {
        var id :| id in left;
        forgotten := VisitStale(id, cutoff, diskOk, q, p, left, forgotten);
        left := left - {id};
      }
    }

    /** `forgotten` lists the ended sessions whose last notification the snapshot made redundant. */
    method DrainStalePending(cutoff: int, diskOk: bool) returns (ghost forgotten: seq<Id>)
      requires Valid()
      modifies this`pending, this`order, this`lastLocal, this`wire, revisions, interactions
      ensures Valid() && Queued() == DrainStale(old(Queued()), cutoff)
      ensures Published() == ForgetAll(old(Published()), forgotten, Persists(diskOk))
      ensures forall id :: id in forgotten <==> Redundant(old(pending), id, cutoff)
    {
      SweepBegins(Queued(), cutoff);
      forgotten := SweepStale(cutoff, diskOk, Queued());
      SweepEnds(old(Queued()), order, pending, cutoff, forgotten);
    }

    method ToInteractionPayload(s: Snapshot, force: bool, diskOk: bool) returns (part: Option<Payload>)
      requires Wired()
      modifies this`lastLocal, interactions
      ensures part == InterPart(old(Published()), s, force)
      ensures Published() == NoteInter(old(Published()), s, force, Persists(diskOk))
    {
      var changed := s.id !in lastLocal || lastLocal[s.id] != s.interaction.revision;
      if !force && !changed {
        return None;
      }
      lastLocal := lastLocal[s.id := s.interaction.revision];
      var wireRev := interactions.CurrentRev(s.id);
      if wireRev <= 0 {
        wireRev := interactions.Next(s.id, diskOk);
      } else if changed {
        wireRev := interactions.Next(s.id, diskOk);
      }
      part := Some(Payload(wireRev, I.ContentOf(s.interaction), s.interaction.source,
                           s.interaction.updatedAt, s.interaction.lastActivityAt, s.interaction.revision));
    }

    method WriteEvent(info: Snapshot, diskOk: bool, writeOk: bool) returns (kind: MessageKind)
      requires Wired()
      modifies this`lastLocal, this`wire, this`up, revisions, interactions
      ensures kind == KindOf(old(Published()), info)
      ensures Published() == PlainEvent(old(Published()), info, Persists(diskOk), writeOk)
    {
      ghost var p := Published();
      var existed := revisions.CurrentRev(info.id) > 0;
      var rev := revisions.Next(info.id, diskOk);
      EventInTwoSteps(p, info, Persists(diskOk), writeOk);
      kind := if !existed then SessionStarted else if Terminal(info.status) then SessionStopped else SessionUpdated;
      var part := ToInteractionPayload(info, false, diskOk);
      ghost var p2 := Published();
      wire := wire + [Event(info, kind, rev, part)];
      up := writeOk;
      assert Published() == p2.(wire := p.wire + [Event(info, kind, rev, part)], up := writeOk);
    }

    /** One event; `writeOk` is whether the connection took the message. */
    method SendEvent(info: Snapshot, diskOk: bool, writeOk: bool)
      requires Wired()
      modifies this`lastLocal, this`wire, this`up, revisions, interactions
      ensures Published() == Do(old(Published()), DoEvent(info, Persists(diskOk), writeOk))
    {
      var kind := WriteEvent(info, diskOk, writeOk);
      if writeOk && kind == SessionStopped {
        ForgetSession(info.id, diskOk);
      }
    }

    method AddRow(s: Snapshot, diskOk: bool) returns (row: Row)
      requires Wired()
      modifies this`lastLocal, revisions, interactions
      ensures row == RowOf(old(Published()), s)
      ensures Published() == RowStep(old(Published()), s, Persists(diskOk))
    {
      var rev := revisions.CurrentRev(s.id);
      if rev <= 0 {
        rev := revisions.Next(s.id, diskOk);
      }
      var part := ToInteractionPayload(s, true, diskOk);
      row := Row(rev, s, part.value);
    }

    /** One round of the loop: `p` is the state before the first row. */
    method AddNextRow(ghost p: Pub, snaps: seq<Snapshot>, i: nat, rows: map<Id, Row>, diskOk: bool) returns (more: map<Id, Row>)
      requires Wired() && OncePerSession(snaps) && i < |snaps|
      requires Published() == Counted(p, rows, Persists(diskOk)) && rows == RowMap(p, RowsOf(snaps, i))
      modifies this`lastLocal, revisions, interactions
      ensures Published() == Counted(p, more, Persists(diskOk)) && more == RowMap(p, RowsOf(snaps, i + 1))
    {
      NextRow(p, snaps, i, Persists(diskOk));
      var row := AddRow(snaps[i], diskOk);
      more := rows[snaps[i].id := row];
    }

    method BuildRows(snaps: seq<Snapshot>, n: nat, diskOk: bool) returns (rows: map<Id, Row>)
      requires Wired() && OncePerSession(snaps) && n <= |snaps|
      modifies this`lastLocal, revisions, interactions
      ensures rows == RowMap(old(Published()), RowsOf(snaps, n))
      ensures Published() == Counted(old(Published()), rows, Persists(diskOk))
    {
      ghost var p := Published();
      rows := map[];
      NothingCounted(p, Persists(diskOk));
      for i := 0 to n
        invariant Published() == Counted(p, rows, Persists(diskOk))
        invariant rows == RowMap(p, RowsOf(snaps, i))
      {
        rows := AddNextRow(p, snaps, i, rows, diskOk);
      }
    }

    /** A snapshot of the sessions the supervisor lists, cut at 500. */
    method SendSnapshot(snaps: seq<Snapshot>, diskOk: bool, writeOk: bool)
      requires Wired() && OncePerSession(snaps)
      modifies this`lastLocal, this`wire, this`up, revisions, interactions
      ensures Published() == Do(old(Published()), DoSnapshot(RowsOf(snaps, Min(MAX_ROWS, |snaps|)), Persists(diskOk), writeOk))
    {
      var rows := BuildRows(snaps, Min(MAX_ROWS, |snaps|), diskOk);
      wire := wire + [Rows(rows)];
      up := writeOk;
    }
  }
}
