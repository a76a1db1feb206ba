/** The keystroke coalescer: a reader, a bounded channel and a select loop that batches input. */
module InputWriter {
  import opened Common

  const MAX_BATCH := 4096
  const READ_SIZE := 1024
  const CHANNEL_SIZE := 32
  const MAX_INPUT := 65536

  // ---------------------------------------------------------------------
  // The writer
  // ---------------------------------------------------------------------

  /** Bytes waiting for a flush, and the requests made so far. */
  datatype Writer = Writer(buf: Bytes, sent: seq<Bytes>)

  /** What the select loop received. */
  datatype Choice = Data(data: Bytes) | Timer | Error(drained: seq<Bytes>)

  function Flush(w: Writer): Writer {
    if w.buf == [] then w else Writer([], w.sent + [w.buf])
  }

  /** The position of the first `key`, or the length if there is none. */
  function FirstIndex(data: Bytes, key: byte): (i: nat)
    ensures i <= |data| && (i < |data| ==> data[i] == key) && forall j :: 0 <= j < i ==> data[j] != key
  {
    if data == [] || data[0] == key then 0 else 1 + FirstIndex(data[1..], key)
  }

  /** A detach key of zero means there is none. */
  predicate Detaches(detach: byte, data: Bytes) {
    detach != 0 && FirstIndex(data, detach) < |data|
  }

  /** One turn of the select loop; the flag says that the writer returns. */
  function Turn(detach: byte, w: Writer, c: Choice): (Writer, bool) {
    match c
    case Data(data) =>
      if Detaches(detach, data) then (Flush(w.(buf := w.buf + data[..FirstIndex(data, detach)])), true)
      else
        var w1 := w.(buf := w.buf + data);
        (if |w1.buf| >= MAX_BATCH then Flush(w1) else w1, false)
    case Timer => (Flush(w), false)
    case Error(drained) => (Flush(w.(buf := w.buf + Concat(drained))), true)
  }

  function Turns(detach: byte, w: Writer, choices: seq<Choice>): (Writer, bool) {
    if choices == [] then (w, false)
    else
      var (w1, done) := Turns(detach, w, choices[..|choices| - 1]);
      if done then (w1, true) else Turn(detach, w1, choices[|choices| - 1])
  }

  // ---------------------------------------------------------------------
  // Reader, channel and writer together
  // ---------------------------------------------------------------------

  datatype End = Running | Detached | Failed

  /** `read` is everything the reader handed over; `failed` that it met an error and stopped. */
  datatype System = System(read: Bytes, queue: seq<Bytes>, failed: bool, w: Writer, end: End)

  const NewSystem := System([], [], false, Writer([], []), Running)

  datatype Step = Read(data: Bytes) | ReadError | TakeData | Fire | TakeError

  predicate Enabled(s: System, e: Step) {
    match e
    case Read(data) => !s.failed && |s.queue| < CHANNEL_SIZE && 0 < |data| <= READ_SIZE
    case ReadError => !s.failed
    case TakeData => s.end == Running && s.queue != []
    case Fire => s.end == Running
    case TakeError => s.end == Running && s.failed
  }

  function Next(detach: byte, s: System, e: Step): System
    requires Enabled(s, e)
  {
    match e
    case Read(data) => s.(read := s.read + data, queue := s.queue + [data])
    case ReadError => s.(failed := true)
    case TakeData =>
      var (w, done) := Turn(detach, s.w, Data(s.queue[0]));
      s.(w := w, queue := s.queue[1..], end := if done then Detached else Running)
    case Fire => s.(w := Turn(detach, s.w, Timer).0)
    case TakeError => s.(w := Turn(detach, s.w, Error(s.queue)).0, queue := [], end := Failed)
  }

  /** The state after a schedule, if every step of it was possible. */
  function After(detach: byte, steps: seq<Step>): Option<System> {
    if steps == [] then Some(NewSystem)
    else
      var s := After(detach, steps[..|steps| - 1]);
      if s.Some? && Enabled(s.value, steps[|steps| - 1]) then Some(Next(detach, s.value, steps[|steps| - 1])) else None
  }

  // ---------------------------------------------------------------------
  // Nothing is lost, doubled or reordered
  // ---------------------------------------------------------------------

  /** What has been taken from the channel. */
  function Given(w: Writer): Bytes {
    Concat(w.sent) + w.buf
  }

  ghost predicate SmallBatches(sent: seq<Bytes>) {
    forall i :: 0 <= i < |sent| ==> 0 < |sent[i]| <= MAX_BATCH - 1 + CHANNEL_SIZE * READ_SIZE
  }

  ghost predicate SmallReads(queue: seq<Bytes>) {
    |queue| <= CHANNEL_SIZE && forall i :: 0 <= i < |queue| ==> |queue[i]| <= READ_SIZE
  }

  /** The bytes up to the first detach byte, or all of them. */
  function BeforeDetach(detach: byte, read: Bytes): Bytes {
    if detach == 0 then read else read[..FirstIndex(read, detach)]
  }

  ghost predicate Conserved(detach: byte, s: System) {
    match s.end
    case Running => Given(s.w) + Concat(s.queue) == s.read && (detach == 0 || detach !in Given(s.w))
    case Failed => Concat(s.w.sent) == s.read && s.w.buf == []
    case Detached => detach != 0 && s.w.buf == [] && detach in s.read && Concat(s.w.sent) == BeforeDetach(detach, s.read)
  }

  ghost predicate Inv(detach: byte, s: System) {
    && Conserved(detach, s)
    && SmallBatches(s.w.sent) && SmallReads(s.queue) && |s.w.buf| < MAX_BATCH
    && (s.end == Failed ==> s.failed)
  }

  lemma FlushGives(w: Writer)
    ensures Given(Flush(w)) == Given(w) && Flush(w).buf == [] && Concat(Flush(w).sent) == Given(w)
    ensures SmallBatches(w.sent) && |w.buf| <= MAX_BATCH - 1 + CHANNEL_SIZE * READ_SIZE ==> SmallBatches(Flush(w).sent)
  {
    if w.buf != [] {
      assert (w.sent + [w.buf])[..|w.sent|] == w.sent;
    }
  }

  lemma {:induction false} ConcatSize(queue: seq<Bytes>)
    requires forall i :: 0 <= i < |queue| ==> |queue[i]| <= READ_SIZE
    ensures |Concat(queue)| <= |queue| * READ_SIZE
  {
    if queue != [] {
      ConcatSize(queue[..|queue| - 1]);
    }
  }

  lemma ConcatCons(queue: seq<Bytes>)
    requires queue != []
    ensures Concat(queue) == queue[0] + Concat(queue[1..])
  {
    assert queue == [queue[0]] + queue[1..];
    ConcatSplit([queue[0]], queue[1..]);
    assert Concat([queue[0]]) == Concat([]) + queue[0];
  }

  lemma {:induction false} FirstIndexAppend(a: Bytes, b: Bytes, key: byte)
    ensures FirstIndex(a + b, key) == if key in a then FirstIndex(a, key) else |a| + FirstIndex(b, key)
  {
    if a == [] {
      assert a + b == b;
    } else {
      assert (a + b)[1..] == a[1..] + b;
      assert a == [a[0]] + a[1..];
      FirstIndexAppend(a[1..], b, key);
    }
  }

  lemma ReadKeeps(detach: byte, s: System, data: Bytes)
    requires Inv(detach, s) && Enabled(s, Read(data))
    ensures Inv(detach, Next(detach, s, Read(data)))
  {
    assert (s.queue + [data])[..|s.queue|] == s.queue;
    assert Given(s.w) + (Concat(s.queue) + data) == (Given(s.w) + Concat(s.queue)) + data;
    if detach != 0 {
      FirstIndexAppend(s.read, data, detach);
    }
  }

  /** The channel's first element, kept whole: it goes from the queue to the writer. */
  lemma TakeMoves(s: System)
    requires s.queue != [] && Given(s.w) + Concat(s.queue) == s.read
    ensures (Given(s.w) + s.queue[0]) + Concat(s.queue[1..]) == s.read
  {
    ConcatCons(s.queue);
    assert Given(s.w) + (s.queue[0] + Concat(s.queue[1..])) == (Given(s.w) + s.queue[0]) + Concat(s.queue[1..]);
  }

  lemma DetachGives(detach: byte, given: Bytes, data: Bytes, rest: Bytes)
    requires detach != 0 && detach !in given && FirstIndex(data, detach) < |data|
    ensures BeforeDetach(detach, (given + data) + rest) == given + data[..FirstIndex(data, detach)]
    ensures detach in (given + data) + rest
  {
    FirstIndexAppend(given, data, detach);
    FirstIndexAppend(given + data, rest, detach);
    assert (given + data)[|given| + FirstIndex(data, detach)] == detach;
    SliceMiddle(given, data, rest, FirstIndex(data, detach));
  }

  lemma SliceMiddle(a: Bytes, b: Bytes, c: Bytes, i: nat)
    requires i < |b|
    ensures ((a + b) + c)[..|a| + i] == a + b[..i] && ((a + b) + c)[|a| + i] == b[i]
  {
  }

  lemma LastBatch(w: Writer, part: Bytes)
    requires SmallBatches(w.sent) && |w.buf| < MAX_BATCH && |part| <= READ_SIZE
    ensures var w' := Flush(w.(buf := w.buf + part));
            w'.buf == [] && Concat(w'.sent) == Given(w) + part && SmallBatches(w'.sent)
  {
    var w1 := w.(buf := w.buf + part);
    FlushGives(w1);
    assert Given(w1) == Given(w) + part;
  }

  lemma DetachKeeps(detach: byte, s: System)
    requires Inv(detach, s) && Enabled(s, TakeData) && Detaches(detach, s.queue[0])
    ensures Inv(detach, Next(detach, s, TakeData))
  {
    var data := s.queue[0];
    TakeMoves(s);
    DetachGives(detach, Given(s.w), data, Concat(s.queue[1..]));
    LastBatch(s.w, data[..FirstIndex(data, detach)]);
    assert SmallReads(s.queue[1..]);
  }

  lemma TakeKeeps(detach: byte, s: System)
    requires Inv(detach, s) && Enabled(s, TakeData)
    ensures Inv(detach, Next(detach, s, TakeData))
  {
    if Detaches(detach, s.queue[0]) {
      DetachKeeps(detach, s);
    } else {
      TakeMoves(s);
      var w1 := s.w.(buf := s.w.buf + s.queue[0]);
      FlushGives(w1);
      assert Given(w1) == Given(s.w) + s.queue[0];
    }
  }

  lemma ErrorKeeps(detach: byte, s: System)
    requires Inv(detach, s) && Enabled(s, TakeError)
    ensures Inv(detach, Next(detach, s, TakeError))
  {
    ConcatSize(s.queue);
    FlushGives(s.w.(buf := s.w.buf + Concat(s.queue)));
    assert Given(s.w.(buf := s.w.buf + Concat(s.queue))) == Given(s.w) + Concat(s.queue);
  }

  lemma {:induction false} InvHolds(detach: byte, steps: seq<Step>)
    requires After(detach, steps).Some?
    ensures Inv(detach, After(detach, steps).value)
  {
    if steps != [] {
      InvHolds(detach, steps[..|steps| - 1]);
      var s := After(detach, steps[..|steps| - 1]).value;
      match steps[|steps| - 1]
      case Read(data) => ReadKeeps(detach, s, data);
      case ReadError =>
      case TakeData => TakeKeeps(detach, s);
      case Fire => FlushGives(s.w);
      case TakeError => ErrorKeeps(detach, s);
    }
  }

  /**
   * Under every schedule of reads, timer fires and errors: when the writer stops
   * at an error it has sent exactly the bytes read; when it stops at the detach
   * key, exactly the bytes before the first one; until then, what it sent, holds
   * and has queued is what was read. No batch is empty or over the server's limit.
   */
  lemma KeystrokesAreConserved(detach: byte, steps: seq<Step>)
    requires After(detach, steps).Some?
    ensures var s := After(detach, steps).value;
            && (s.end == Failed ==> Concat(s.w.sent) == s.read)
            && (s.end == Detached ==> detach != 0 && detach in s.read && Concat(s.w.sent) == BeforeDetach(detach, s.read))
            && (s.end == Running ==> Concat(s.w.sent) + s.w.buf + Concat(s.queue) == s.read)
            && forall i :: 0 <= i < |s.w.sent| ==> 0 < |s.w.sent[i]| <= 4095 + 32 * 1024 < MAX_INPUT
  {
    InvHolds(detach, steps);
  }

  // --- when a batch goes out ---------------------------------------------

  /** A timer fire sends what is buffered as one batch and leaves nothing. */
  lemma FireSends(detach: byte, s: System)
    requires Enabled(s, Fire)
    ensures var s' := Next(detach, s, Fire);
            s' == s.(w := Writer([], if s.w.buf == [] then s.w.sent else s.w.sent + [s.w.buf]))
  {
  }

  /** Taking data sends a batch if and only if that makes 4096 bytes, or the detach key comes with something before it. */
  lemma TakeSendsIff(detach: byte, s: System)
    requires Inv(detach, s) && Enabled(s, TakeData)
    ensures var s', data := Next(detach, s, TakeData), s.queue[0];
            && (s'.w.sent != s.w.sent <==>
                  if detach != 0 && detach in data then s.w.buf != [] || data[0] != detach else |s.w.buf| + |data| >= MAX_BATCH)
            && (s'.end == Detached <==> detach != 0 && detach in data)
            && (s'.w.sent != s.w.sent ==> s'.w.buf == [] && |s'.w.sent| == |s.w.sent| + 1)
  {
    var data := s.queue[0];
    FirstIsLeast(data, detach);
  }

  lemma {:induction false} FirstIsLeast(data: Bytes, key: byte)
    ensures key in data <==> FirstIndex(data, key) < |data|
    ensures FirstIndex(data, key) == 0 <==> data == [] || data[0] == key
  {
  }

  // --- the detach key on the error path ----------------------------------

  lemma {:induction false} ConcatMember(parts: seq<Bytes>, x: byte)
    ensures x in Concat(parts) <==> exists i :: 0 <= i < |parts| && x in parts[i]
  {
    if parts != [] {
      ConcatMember(parts[..|parts| - 1], x);
      assert parts == parts[..|parts| - 1] + [parts[|parts| - 1]];
    }
  }

  /**
   * When a read error ends the loop, a detach byte is sent to the session if and
   * only if one is still queued: that path does not look for it.
   */
  lemma DetachSentIff(detach: byte, s: System)
    requires Inv(detach, s) && Enabled(s, TakeError) && detach != 0
    ensures (exists i :: 0 <= i < |Next(detach, s, TakeError).w.sent| && detach in Next(detach, s, TakeError).w.sent[i]) <==>
              detach in Concat(s.queue)
    ensures detach in Concat(s.queue) <==> detach in s.read
  {
    ErrorKeeps(detach, s);
    ConcatMember(Next(detach, s, TakeError).w.sent, detach);
    assert s.read == Given(s.w) + Concat(s.queue);
  }

  /** The reader delivers the detach key and then fails, and the loop serves the error first. */
  lemma DetachIgnored(detach: byte)
    requires detach != 0
    ensures var run := After(detach, [Read([detach]), ReadError, TakeError]);
            run.Some? && run.value.end == Failed && run.value.w.sent == [[detach]]
  {
    var steps := [Read([detach]), ReadError, TakeError];
    assert steps[..2] == [Read([detach]), ReadError] && steps[..2][..1] == [Read([detach])] && steps[..2][..1][..0] == [];
    var s := Next(detach, Next(detach, NewSystem, Read([detach])), ReadError);
    assert After(detach, steps[..2][..1]) == Some(Next(detach, NewSystem, Read([detach])));
    assert After(detach, steps[..2]) == Some(s);
    assert s.queue == [[detach]] && Concat([[detach]]) == Concat([]) + [detach] == [detach];
    assert s.w.buf + Concat(s.queue) == [detach];
    assert After(detach, steps) == Some(Next(detach, s, TakeError));
  }

  // ---------------------------------------------------------------------
  // The loop itself
  // ---------------------------------------------------------------------

  class Coalescer {
    const detach: byte
    var buf: Bytes
    var sent: seq<Bytes>

    constructor (detach: byte)
      ensures this.detach == detach && Value() == Writer([], [])
    {
      this.detach := detach;
      buf, sent := [], [];
    }

    ghost function Value(): Writer
      reads this
    {
      Writer(buf, sent)
    }

    method FlushNow()
      modifies this
      ensures Value() == Flush(old(Value()))
    {
      if |buf| == 0 { return; }
      var data := buf;
      buf := [];
      sent := sent + [data];
    }

    method OnData(data: Bytes) returns (done: bool)
      modifies this
      ensures (Value(), done) == Turn(detach, old(Value()), Data(data))
    {
      if detach != 0 {
        var idx := FirstIndex(data, detach);
        if idx < |data| {
          assert buf + data[..0] == buf;
          if idx > 0 { buf := buf + data[..idx]; }
          FlushNow();
          return true;
        }
      }
      buf := buf + data;
      if |buf| >= MAX_BATCH { FlushNow(); }
      done := false;
    }

    /** Everything the reader left in the channel goes out as one last batch. */
    method OnError(drained: seq<Bytes>)
      modifies this
      ensures Value() == Turn(detach, old(Value()), Error(drained)).0
    {
      for i := 0 to |drained|
        invariant Value() == old(Value()).(buf := old(buf) + Concat(drained[..i]))
      {
        assert drained[..i + 1][..i] == drained[..i];
        buf := buf + drained[i];
      }
      assert drained[..|drained|] == drained;
      FlushNow();
    }

    /** Serves what the select statement delivers until the writer returns. */
    method Run(choices: seq<Choice>) returns (done: bool)
      modifies this
      ensures (Value(), done) == Turns(detach, old(Value()), choices)
    {
      done := false;
      for i := 0 to |choices|
        invariant !done && Turns(detach, old(Value()), choices[..i]) == (Value(), false)
      {
        assert choices[..i + 1][..i] == choices[..i] && choices[..i + 1][i] == choices[i];
        ghost var before := Value();
        assert Turns(detach, old(Value()), choices[..i + 1]) == Turn(detach, before, choices[i]);
        match choices[i] {
          case Data(data) =>
            done := OnData(data);
          case Timer =>
            FlushNow();
          case Error(drained) =>
            OnError(drained);
            done := true;
        }
        assert Turn(detach, before, choices[i]) == (Value(), done);
        if done {
          StaysDone(detach, old(Value()), choices, i + 1);
          return;
        }
      }
      assert choices[..|choices|] == choices;
    }
  }

  lemma {:induction false} StaysDone(detach: byte, w: Writer, choices: seq<Choice>, k: nat)
    requires k <= |choices| && Turns(detach, w, choices[..k]).1
    ensures Turns(detach, w, choices) == Turns(detach, w, choices[..k])
  {
    if k < |choices| {
      var init := choices[..|choices| - 1];
      assert init[..k] == choices[..k];
      StaysDone(detach, w, init, k);
    } else {
      assert choices[..k] == choices;
    }
  }
}
