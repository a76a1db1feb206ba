/** A live PTY session under its lock: output, screen, journal and attached clients together. */
module Supervisor {
  import opened Common
  import opened OutputLog
  import opened Attachments
  import BB = ByteBuffer
  import J = Journal
  import Screen
  import T = Terminal

  /** What an attach returns besides the live channel. */
  datatype AttachState = AttachState(replay: seq<Chunk>, replayGap: bool, oldestSeq: nat, lastSeq: nat, checkpoint: Option<Bytes>)

  function SendAll(observers: map<ClientId, Entry>, c: Chunk): map<ClientId, Entry> {
    map id | id in observers :: observers[id].(ch := Send(observers[id].ch, c))
  }

  lemma StoredNumbers(stored: seq<Chunk>, log: seq<Chunk>)
    requires T.Journals(stored, log)
    ensures forall c :: c in stored ==> c.num < |log| + 1
  {
  }

  /** The part of a session's info that these operations update. */
  datatype SessionInfo = SessionInfo(
    cols: nat, rows: nat, oldestSeq: nat, lastSeq: nat,
    writer: ClientId, attached: bool, attachedId: ClientId, state: LifeState, observerCount: nat)

  /** Attachment changes leave the output side of the info alone. */
  predicate SameOutput(a: SessionInfo, b: SessionInfo) {
    a.cols == b.cols && a.rows == b.rows && a.oldestSeq == b.oldestSeq && a.lastSeq == b.lastSeq
  }

  class ManagedSession<S(!new)> {
    const sid: Bytes
    const buf: BB.Buffer
    const screen: Screen.LiveScreen<S>
    const store: J.Store?
    var info: SessionInfo
    var observers: map<ClientId, Entry>
    var liveClosed: bool

    /** The session as viewers see it. */
    ghost function View(): T.Session<S>
      reads this, buf, screen, screen.pending, store
    {
      T.Session(buf.log, buf.chunks, buf.evicted, store != null, Stored(),
                info.cols, info.rows, liveClosed, screen.Value())
    }

    /** The session as attached clients see it. */
    function SlotView(): Slot
      reads this
    {
      Slot(info.writer, info.attached, info.attachedId, info.state, info.observerCount, observers)
    }

    ghost predicate Valid()
      reads this, buf, screen, screen.pending, store
    {
      && buf.Valid() && screen.Valid() && info.lastSeq == |buf.log| <= J.MAX_UINT64
      && StoreOk() && T.Valid(screen.vt, buf.capacity, View())
    }

    constructor (sid: Bytes, vt: Screen.Vt<S>, bufSize: int, store: J.Store?, initialCols: nat, initialRows: nat)
      requires store != null ==> store.Valid() && J.Unnested(store.bucket, sid) && J.Owned(store.bucket, sid) == []
      ensures Valid() && View().log == [] && !liveClosed && SlotView() == NewSlot
      ensures this.store == store && this.sid == sid
      ensures info.cols == (if initialCols == 0 then 120 else initialCols)
      ensures info.rows == (if initialRows == 0 then 40 else initialRows)
    {
      this.sid, this.store := sid, store;
      buf := new BB.Buffer(bufSize);
      screen := new Screen.LiveScreen(vt);
      info := SessionInfo(if initialCols == 0 then 120 else initialCols, if initialRows == 0 then 40 else initialRows,
                          0, 0, "", false, "", Running, 0);
      observers, liveClosed := map[], false;
    }

    /** Publishes a chunk: sequence, screen, journal and fan-out in one order. */
    method AppendChunkLocked(payload: Bytes, dbOk: bool)
      requires Valid() && |buf.log| < J.MAX_UINT64
      modifies this, buf, screen, screen.pending, store
      ensures Valid() && T.Next(screen.vt, buf.capacity, old(View()), View(), T.Output(payload, dbOk))
      ensures SlotView() == old(SlotView()).(observers :=
                if old(liveClosed) then old(observers)
                else SendAll(old(observers), Chunk(|old(buf.log)| + 1, payload, Output, info.cols, info.rows)))
    {
      if liveClosed { return; }
      Publish(payload, info.cols, info.rows, dbOk);
      T.NextKeepsValid(screen.vt, buf.capacity, old(View()), View(), T.Output(payload, dbOk));
    }

    /** What is stored for this session. */
    ghost function Stored(): seq<Chunk>
      reads this, store
    {
      if store == null then [] else J.Owned(store.bucket, sid)
    }

    ghost predicate StoreOk()
      reads this, store
    {
      store != null ==> store.Valid() && J.Unnested(store.bucket, sid)
    }

    /** A failed write is only logged. */
    method PersistChunk(chunk: Chunk, dbOk: bool, ghost log: seq<Chunk>)
      requires StoreOk() && T.Journals(Stored(), log) && chunk.num == |log| + 1 <= J.MAX_UINT64
      modifies store
      ensures StoreOk() && Stored() == if store != null && dbOk then old(Stored()) + [chunk] else old(Stored())
    {
      if store != null {
        StoredNumbers(Stored(), log);
        J.PutAppends(store.bucket, sid, chunk);
        J.PutUnnested(store.bucket, sid, chunk);
        store.SaveChunk(sid, chunk, dbOk);
      }
    }

    /** Sequence, screen and journal: the part of publishing that viewers can see. */
    method Record(payload: Bytes, newCols: nat, newRows: nat, dbOk: bool) returns (chunk: Chunk)
      requires buf.Valid() && screen.Valid() && StoreOk() && T.Journals(Stored(), buf.log)
      requires !liveClosed && |buf.log| < J.MAX_UINT64
      modifies this`info, buf, screen, screen.pending, store
      ensures buf.Valid() && screen.Valid() && StoreOk()
      ensures chunk == Chunk(|old(buf.log)| + 1, payload, Output, newCols, newRows)
      ensures buf.log == old(buf.log) + [chunk]
      ensures screen.Value() == Screen.Apply(screen.vt, old(screen.Value()), chunk)
      ensures Stored() == if store != null && dbOk then old(Stored()) + [chunk] else old(Stored())
      ensures info == old(info).(cols := newCols, rows := newRows, oldestSeq := buf.OldestSeq(), lastSeq := |buf.log|)
    {
      chunk := buf.AppendSized(payload, Output, newCols, newRows);
      screen.ApplyChunk(chunk);
      PersistChunk(chunk, dbOk, old(buf.log));
      info := info.(cols := newCols, rows := newRows, oldestSeq := buf.OldestSeq(), lastSeq := buf.LastSeq());
    }

    /** Records a chunk and sends it to every attached client. */
    method Publish(payload: Bytes, newCols: nat, newRows: nat, dbOk: bool)
      requires buf.Valid() && screen.Valid() && StoreOk() && T.Journals(Stored(), buf.log)
      requires !liveClosed && |buf.log| < J.MAX_UINT64
      modifies this`info, this`observers, buf, screen, screen.pending, store
      ensures buf.Valid() && screen.Valid() && StoreOk() && info.lastSeq == |buf.log| == |old(buf.log)| + 1
      ensures T.Appended(screen.vt, buf.capacity, old(View()), View(), payload, newCols, newRows, dbOk)
      ensures SlotView() == old(SlotView()).(observers :=
                SendAll(old(observers), Chunk(|old(buf.log)| + 1, payload, Output, newCols, newRows)))
    {
      var chunk := Record(payload, newCols, newRows, dbOk);
      Fanout(chunk);
    }

    /** Records a new size; while output is live, as a zero-byte chunk in the ordered history. */
    method Resize(client: ClientId, newCols: nat, newRows: nat, setsizeOk: bool, dbOk: bool) returns (err: Option<SlotError>)
      requires Valid() && |buf.log| < J.MAX_UINT64 && newCols > 0 && newRows > 0
      modifies this, buf, screen, screen.pending, store
      ensures Valid()
      ensures err == if old(info).writer == "" then Some(ClientNotAttached) else if old(info).writer != client then Some(ClientMismatch)
                     else if !setsizeOk then Some(ResizeFailed) else None
      ensures if err.Some? then View() == old(View())
              else T.Next(screen.vt, buf.capacity, old(View()), View(), T.Resize(newCols, newRows, dbOk))
      ensures SlotView() == if err.Some? || old(liveClosed) then old(SlotView())
                            else old(SlotView()).(observers := SendAll(old(observers), Chunk(|old(buf.log)| + 1, [], Output, newCols, newRows)))
    {
      if info.writer == "" { return Some(ClientNotAttached); }
      if info.writer != client { return Some(ClientMismatch); }
      if !setsizeOk { return Some(ResizeFailed); }
      if liveClosed {
        info := info.(cols := newCols, rows := newRows);
      } else {
        Publish([], newCols, newRows, dbOk);
      }
      T.NextKeepsValid(screen.vt, buf.capacity, old(View()), View(), T.Resize(newCols, newRows, dbOk));
      err := None;
    }

    /** Marks the output as exhausted and freezes the screen. */
    method CloseLive()
      requires Valid()
      modifies this`liveClosed, screen`closed
      ensures Valid() && T.Next(screen.vt, buf.capacity, old(View()), View(), T.Close)
    {
      liveClosed := true;
      screen.FreezeScreen();
      T.NextKeepsValid(screen.vt, buf.capacity, old(View()), View(), T.Close);
    }

    /** Non-blocking sends to every attached client. */
    method Fanout(c: Chunk)
      modifies this`observers
      ensures observers == SendAll(old(observers), c)
    {
      var todo := observers.Keys;
      while todo != {}
        invariant todo <= observers.Keys == old(observers).Keys
        invariant forall id :: id in observers ==>
                    observers[id] == if id in todo then old(observers)[id] else SendAll(old(observers), c)[id]
        decreases todo
      {
        var id :| id in todo;
        observers := observers[id := observers[id].(ch := Send(observers[id].ch, c))];
        todo := todo - {id};
      }
    }

    /** Broadcasts a control event; it never enters the history. */
    method FanoutControlEvent(ctype: ChunkType, payload: Bytes)
      modifies this`observers
      ensures observers == if liveClosed then old(observers) else SendAll(old(observers), Chunk(0, payload, ctype, 0, 0))
    {
      if liveClosed { return; }
      Fanout(Chunk(0, payload, ctype, 0, 0));
    }

    // -------------------------------------------------------------------
    // Attached clients
    // -------------------------------------------------------------------

    method CountObservers() returns (n: nat)
      ensures n == |ObserverIds(observers)|
    {
      n := 0;
      var todo := observers.Keys;
      ghost var seen: set<ClientId> := {};
      while todo != {}
        invariant todo <= observers.Keys && seen == ObserverIds(observers) - todo && n == |seen|
        decreases todo
      {
        var id :| id in todo;
        if observers[id].role == Observer {
          n := n + 1;
          seen := seen + {id};
        }
        todo := todo - {id};
      }
      assert seen == ObserverIds(observers);
    }

    method AttachClient(client: ClientId, afterSeq: nat, role: Role) returns (r: Result<AttachState, SlotError>)
      requires buf.Valid() && screen.Valid()
      modifies this`info, this`observers, screen`frozen, screen`emu, screen`finalized
      ensures screen.Valid() && PictureTaken(old(View()), View()) && SameOutput(info, old(info))
      ensures r.Err? <==> Attach(old(SlotView()), client, role, |buf.log|, !liveClosed).Err?
      ensures r.Err? ==> SlotView() == old(SlotView()) && Attach(SlotView(), client, role, |buf.log|, !liveClosed) == Err(r.error)
      ensures r.Ok? ==> Attach(old(SlotView()), client, role, |buf.log|, !liveClosed) == Ok(SlotView())
      ensures r.Ok? ==>
                && r.value.replay == Replay(buf.log, buf.evicted, afterSeq)
                && r.value.replayGap == ReplayGap(if buf.chunks == [] then 0 else buf.evicted + 1, afterSeq)
                && r.value.oldestSeq == (if buf.chunks == [] then 0 else buf.evicted + 1) && r.value.lastSeq == |buf.log|
                && r.value.checkpoint == Screen.Checkpoint(screen.vt, old(screen.Value()), |buf.log|)
    {
      if role == Writer && info.writer != "" { return Err(WriterConflict); }
      EnterClient(client, role);
      var replay := buf.After(afterSeq);
      var picture := screen.TakeCheckpoint(buf.LastSeq());
      return Ok(AttachState(replay, ReplayGap(buf.OldestSeq(), afterSeq), buf.OldestSeq(), buf.LastSeq(), picture));
    }

    /** The bookkeeping of a successful attach; a stale entry of the same client is replaced. */
    method EnterClient(client: ClientId, role: Role)
      requires buf.Valid() && !(role == Writer && info.writer != "")
      modifies this`info, this`observers
      ensures SameOutput(info, old(info))
      ensures Attach(old(SlotView()), client, role, |buf.log|, !liveClosed) == Ok(SlotView())
    {
      observers := observers - {client};
      if !liveClosed {
        observers := observers[client := Entry(role, Channel([], 0, buf.LastSeq(), false))];
      }
      if role == Writer {
        info := info.(writer := client, attached := true, attachedId := client, state := Attached);
      }
      var n := CountObservers();
      info := info.(observerCount := n);
    }

    method DetachClient(client: ClientId) returns (r: Result<bool, SlotError>)
      modifies this`info, this`observers
      ensures SameOutput(info, old(info))
      ensures r.Err? ==> SlotView() == old(SlotView()) && Detach(SlotView(), client) == Err(r.error)
      ensures r.Ok? ==> Detach(old(SlotView()), client) == Ok(SlotView()) && r.value == (old(info).writer == client)
    {
      if client !in observers { return Err(ClientMismatch); }
      observers := observers - {client};
      var wasWriter := info.writer == client;
      if wasWriter {
        info := info.(writer := "", attached := false, attachedId := "");
      }
      var n := CountObservers();
      info := info.(observerCount := n);
      if |observers| == 0 && info.state == Attached {
        info := info.(state := Running);
      }
      return Ok(wasWriter);
    }

    /** On success, the client that lost the slot, or none. */
    method ClaimWriter(client: ClientId, force: bool) returns (r: Result<ClientId, SlotError>)
      modifies this`info, this`observers
      ensures SameOutput(info, old(info))
      ensures r.Err? ==> SlotView() == old(SlotView()) && Claim(SlotView(), client, force) == Err(r.error)
      ensures r.Ok? ==> Claim(old(SlotView()), client, force) == Ok(SlotView())
      ensures r.Ok? ==> r.value == if old(info).writer == client then "" else old(info).writer
    {
      if info.writer == client { return Ok(""); }
      var prev := info.writer;
      if prev != "" && !force { return Err(WriterConflict); }
      if client !in observers { return Err(ClientNotAttached); }
      if prev in observers {
        observers := observers[prev := observers[prev].(role := Observer)];
      }
      observers := observers[client := observers[client].(role := Writer)];
      var n := CountObservers();
      info := info.(writer := client, attached := true, attachedId := client, observerCount := n,
                    state := if info.state == Running then Attached else info.state);
      return Ok(prev);
    }

    method ReleaseWriter(client: ClientId) returns (err: Option<SlotError>)
      modifies this`info, this`observers
      ensures SameOutput(info, old(info))
      ensures err.Some? ==> SlotView() == old(SlotView()) && Release(SlotView(), client) == Err(err.value)
      ensures err.None? ==> Release(old(SlotView()), client) == Ok(SlotView())
    {
      if info.writer != client { return Some(ClientMismatch); }
      if client in observers {
        observers := observers[client := observers[client].(role := Observer)];
      }
      var n := CountObservers();
      info := info.(writer := "", attached := false, attachedId := "", observerCount := n);
      if |observers| == 0 && info.state == Attached {
        info := info.(state := Running);
      }
      return None;
    }

    method StopSession()
      modifies this`info
      ensures SameOutput(info, old(info))
      ensures SlotView() == Stop(old(SlotView()))
    {
      if info.state == Stopped || info.state == Failed { return; }
      info := info.(state := Stopping);
    }

    method WriteInput(client: ClientId, data: Bytes, limit: nat) returns (err: Option<SlotError>)
      ensures err == InputGuard(SlotView(), client, |data|, limit)
    {
      if limit > 0 && |data| > limit { return Some(InputTooLarge); }
      if info.state != Running && info.state != Attached { return Some(NotRunning); }
      if info.writer == "" { return Some(ClientNotAttached); }
      if info.writer != client { return Some(ClientMismatch); }
      return None;
    }

    // -------------------------------------------------------------------
    // Terminal windows
    // -------------------------------------------------------------------

    /** Reads one bounded window past a cursor, without attaching. */
    method ReadWindow(client: ClientId, after: nat) returns (r: Result<T.TerminalWindow, T.WindowError>)
      requires Valid() && after <= J.MAX_UINT64
      modifies screen`frozen, screen`emu, screen`finalized
      ensures r == T.Window(screen.vt, old(View()), after, info.writer == client && client != "")
      ensures Valid() && T.Next(screen.vt, buf.capacity, old(View()), View(), T.Poll)
    {
      ghost var v := View();
      var chunks := PickSource(after);
      if chunks.Err? { return Err(chunks.error); }
      T.SourceIsSized(screen.vt, buf.capacity, v, after);
      r := WindowFrom(chunks.value, after, info.writer == client && client != "");
      T.NextKeepsValid(screen.vt, buf.capacity, v, View(), T.Poll);
    }

    /** Prefers durable output when the cursor predates the ring. */
    method PickSource(after: nat) returns (r: Result<seq<Chunk>, T.WindowError>)
      requires buf.Valid() && StoreOk() && info.lastSeq == |buf.log| && after <= J.MAX_UINT64
      ensures r == T.Source(View(), after)
    {
      var last := Max(info.lastSeq, buf.LastSeq());
      if after < last && (|buf.chunks| == 0 || buf.OldestSeq() > after + 1) && store != null {
        J.ScanAfterIsExact(store.bucket, sid, after);
        var page := store.LoadChunkPage(sid, after, MAX_WINDOW);
        if page.Err? { return Err(T.StoreFailed); }
        if |page.value| > 0 { return Ok(page.value); }
      }
      return Ok(buf.chunks);
    }

    method WindowFrom(chunks: seq<Chunk>, after: nat, writer: bool) returns (r: Result<T.TerminalWindow, T.WindowError>)
      requires buf.Valid() && screen.Valid() && Increasing(chunks) && Screen.Sized(chunks)
      modifies screen`frozen, screen`emu, screen`finalized
      ensures r == T.WindowFrom(screen.vt, old(View()), chunks, after, writer)
      ensures screen.Valid() && PictureTaken(old(View()), View())
    {
      var last, oldest := buf.LastSeq(), T.Oldest(chunks);
      if |chunks| == 0 && after < last {
        r := CheckpointGap(oldest, writer);
        return;
      }
      if oldest > after + 1 || after > last {
        var data := screen.TakeCheckpoint(last);
        return Ok(T.TerminalWindow(false, if data.None? then [] else data.value, oldest, last, true, liveClosed, writer,
                                   info.cols, info.rows));
      }
      var w := T.Gather(T.Frame(last, liveClosed, info.cols, info.rows, writer), chunks, after);
      if w.None? {
        r := CheckpointGap(oldest, writer);
        return;
      }
      return Ok(w.value);
    }

    /** Nothing viewers can see changed, except that a closed screen may have taken its final picture. */
    ghost predicate PictureTaken(v: T.Session<S>, v': T.Session<S>)
      reads screen
    {
      v' == v || (screen.closed && v' == v.(screen := Screen.Finalize(screen.vt, v.screen)))
    }

    method CheckpointGap(oldest: nat, writer: bool) returns (r: Result<T.TerminalWindow, T.WindowError>)
      requires buf.Valid() && screen.Valid()
      modifies screen`frozen, screen`emu, screen`finalized
      ensures r == T.CheckpointGap(screen.vt, old(View()), oldest, writer)
      ensures screen.Valid() && PictureTaken(old(View()), View())
    {
      var data := screen.TakeCheckpoint(buf.LastSeq());
      if data.None? { return Err(T.RecoveryUnavailable); }
      return Ok(T.TerminalWindow(false, data.value, oldest, buf.LastSeq(), true, liveClosed, writer, info.cols, info.rows));
    }
  }
}
