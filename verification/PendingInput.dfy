/**
 * The escape/UTF-8 boundary tracker of the live screen: the bytes of an
 * escape sequence or UTF-8 character that a chunk boundary left incomplete.
 */
module PendingInput {
  import opened Common

  const MAX_PENDING := 4096
  const ESC: byte := 0x1b

  datatype Phase = Ground | Esc | EscInter | Csi | Osc | Str | StrEsc | Utf8

  /** The value of a tracker object; `left` counts continuation bytes and is 0 outside UTF-8. */
  datatype Tracker = Tracker(phase: Phase, left: int, buf: Bytes, overflow: bool, executed: bool)

  const Fresh := Tracker(Ground, 0, [], false, false)

  /** What one look at a byte does to the run of pending bytes. */
  datatype Move =
    | Keep(next: Phase, left: int)   // the run, if any, goes on
    | Begin(next: Phase, left: int)  // a new run of just this byte
    | Finish                         // the run is complete
    | FinishAndRedo                  // the run ended before this byte
    | RestartAndRedo                 // a new run began at the ESC before this byte

  function Decide(p: Phase, left: int, c: byte): Move {
    match p
    case Ground =>
      if c == ESC then Begin(Esc, 0)
      else if 0xc2 <= c <= 0xf4 then Begin(Utf8, if c >= 0xf0 then 3 else if c >= 0xe0 then 2 else 1)
      else Keep(Ground, 0)
    case Utf8 =>
      if !(0x80 <= c < 0xc0) then FinishAndRedo
      else if left - 1 == 0 then Finish
      else Keep(Utf8, left - 1)
    case Esc =>
      if c == '[' as int then Keep(Csi, 0)
      else if c == ']' as int then Keep(Osc, 0)
      else if c == 'P' as int || c == 'X' as int || c == '^' as int || c == '_' as int then Keep(Str, 0)
      else if c == ESC then Begin(Esc, 0)
      else if 0x20 <= c <= 0x2f then Keep(EscInter, 0)
      else if c == 0x18 || c == 0x1a || c >= 0x30 then Finish
      else Keep(Esc, 0)
    case EscInter =>
      if c == ESC then Begin(Esc, 0)
      else if c >= 0x30 || c == 0x18 || c == 0x1a then Finish
      else Keep(EscInter, 0)
    case Csi =>
      if c == ESC then Begin(Esc, 0)
      else if 0x40 <= c <= 0x7e || c == 0x18 || c == 0x1a then Finish
      else Keep(Csi, 0)
    case Osc =>
      if c == 0x07 || c == 0x18 || c == 0x1a then Finish
      else if c == ESC then Keep(StrEsc, 0)
      else Keep(Osc, 0)
    case Str =>
      if c == 0x18 || c == 0x1a then Finish
      else if c == ESC then Keep(StrEsc, 0)
      else Keep(Str, 0)
    case StrEsc =>
      if c == '\\' as int then Finish else RestartAndRedo
  }

  /** A control the parser executes in the middle of an unfinished sequence. */
  predicate ExecutesInside(p: Phase, c: byte) {
    c < 0x20 && c != ESC && c != 0x18 && c != 0x1a && (p.Esc? || p.EscInter? || p.Csi?)
  }

  /** Bookkeeping done for every byte before the phase is looked at. */
  function Record(t: Tracker, c: byte): Tracker {
    t.(buf := if !t.phase.Ground? && |t.buf| < MAX_PENDING then t.buf + [c] else t.buf,
       overflow := t.overflow || (!t.phase.Ground? && |t.buf| >= MAX_PENDING),
       executed := t.executed || ExecutesInside(t.phase, c))
  }

  /** One pass of the loop body: the new value, and whether `c` must be looked at again. */
  function Pass(t: Tracker, c: byte): (Tracker, bool) {
    match Decide(t.phase, t.left, c)
    case Keep(p, n) => (Record(t, c).(phase := p, left := n), false)
    case Begin(p, n) => (Tracker(p, n, [c], false, false), false)
    case Finish => (Fresh, false)
    case FinishAndRedo => (Fresh, true)
    case RestartAndRedo => (Tracker(Esc, 0, [ESC], false, false), true)
  }

  /** Only these two phases ever look at a byte a second time, and neither leads to the other. */
  function Rank(p: Phase): nat {
    if p.Utf8? || p.StrEsc? then 1 else 0
  }

  /** The whole effect of one byte. */
  function Step(t: Tracker, c: byte): Tracker
    decreases Rank(t.phase)
  {
    var (t', again) := Pass(t, c);
    if again then Step(t', c) else t'
  }

  function Feed(t: Tracker, data: Bytes): Tracker {
    if data == [] then t else Step(Feed(t, data[..|data| - 1]), data[|data| - 1])
  }

  function Prefix(t: Tracker): Option<Bytes> {
    if t.phase.Ground? then Some([])
    else if t.overflow || t.executed then None
    else Some(t.buf)
  }

  /** The tracker as the screen owns it. */
  class Pending {
    var state: Phase
    var utf8Left: int
    var buf: Bytes
    var overflow: bool
    var executed: bool

    function Value(): Tracker
      reads this
    {
      Tracker(state, if state.Utf8? then utf8Left else 0, buf, overflow, executed)
    }

    /** Nothing is carried at a boundary between sequences. */
    predicate Valid()
      reads this
    {
      state.Ground? ==> buf == [] && !overflow && !executed
    }

    constructor ()
      ensures Valid() && Value() == Fresh
    {
      state, utf8Left, buf, overflow, executed := Ground, 0, [], false, false;
    }

    method Start(c: byte, p: Phase)
      modifies this
      ensures state == p && buf == [c] && !overflow && !executed && utf8Left == old(utf8Left)
    {
      state, buf, overflow, executed := p, [c], false, false;
    }

    method ToGround()
      modifies this
      ensures Value() == Fresh
    {
      state, buf, overflow, executed := Ground, [], false, false;
    }

    /** Advances over one output chunk; the loop may look at a byte twice. */
    method FeedChunk(data: Bytes)
      requires Valid()
      modifies this
      ensures Valid() && Value() == Feed(old(Value()), data)
    {
      ghost var t0 := Value();
      var i := 0;
      assert data[..0] == [];
      while i < |data|
        invariant 0 <= i <= |data| && Valid()
        invariant i < |data| ==> Step(Value(), data[i]) == Step(Feed(t0, data[..i]), data[i])
        invariant i == |data| ==> Value() == Feed(t0, data)
        decreases |data| - i, Rank(state)
      {
        var again := Look(data[i]);
        if !again {
          assert data[..i + 1][..i] == data[..i];
          i := i + 1;
          assert i == |data| ==> data[..i] == data;
        }
      }
    }

    /** The body of the loop in `FeedChunk`. */
    method Look(c: byte) returns (again: bool)
      requires Valid()
      modifies this
      ensures Valid() && (Value(), again) == Pass(old(Value()), c)
    {
      again := false;
      var p := state;
      if p != Ground {
        if |buf| < MAX_PENDING { buf := buf + [c]; } else { overflow := true; }
      }
      if ExecutesInside(p, c) { executed := true; }
      match p {
        case Ground =>
          if c == ESC {
            Start(c, Esc);
          } else if 0xc2 <= c <= 0xf4 {
            Start(c, Utf8);
            utf8Left := 1;
            if c >= 0xe0 { utf8Left := 2; }
            if c >= 0xf0 { utf8Left := 3; }
          }
        case Utf8 =>
          if !(0x80 <= c < 0xc0) {
            ToGround();
            again := true;
          } else {
            utf8Left := utf8Left - 1;
            if utf8Left == 0 { ToGround(); }
          }
        case Esc =>
          if c == '[' as int { state := Csi; }
          else if c == ']' as int { state := Osc; }
          else if c == 'P' as int || c == 'X' as int || c == '^' as int || c == '_' as int { state := Str; }
          else if c == ESC { Start(c, Esc); }
          else if 0x20 <= c <= 0x2f { state := EscInter; }
          else if c == 0x18 || c == 0x1a || c >= 0x30 { ToGround(); }
        case EscInter =>
          if c == ESC { Start(c, Esc); }
          else if c >= 0x30 || c == 0x18 || c == 0x1a { ToGround(); }
        case Csi =>
          if c == ESC { Start(c, Esc); }
          else if 0x40 <= c <= 0x7e || c == 0x18 || c == 0x1a { ToGround(); }
        case Osc =>
          if c == 0x07 || c == 0x18 || c == 0x1a { ToGround(); }
          else if c == ESC { state := StrEsc; }
        case Str =>
          if c == 0x18 || c == 0x1a { ToGround(); }
          else if c == ESC { state := StrEsc; }
        case StrEsc =>
          if c == '\\' as int {
            ToGround();
          } else {
            Start(ESC, Esc);
            again := true;
          }
      }
    }

    function TakePrefix(): (p: Option<Bytes>)
      reads this
      ensures p == Prefix(Value())
    {
      if state == Ground then Some([])
      else if overflow || executed then None
      else Some(buf)
    }
  }

  // ---------------------------------------------------------------------
  // Chunking does not matter
  // ---------------------------------------------------------------------

  lemma {:induction false} FeedSplit(t: Tracker, a: Bytes, b: Bytes)
    ensures Feed(t, a + b) == Feed(Feed(t, a), b)
  {
    if b == [] {
      assert a + b == a;
    } else {
      var init := b[..|b| - 1];
      assert (a + b)[..|a + b| - 1] == a + init;
      FeedSplit(t, a, init);
    }
  }

  function FeedChunks(t: Tracker, chunks: seq<Bytes>): Tracker {
    if chunks == [] then t else Feed(FeedChunks(t, chunks[..|chunks| - 1]), chunks[|chunks| - 1])
  }

  /** Feeding chunk by chunk is feeding the concatenation, however the input was cut. */
  lemma {:induction false} ChunkingIrrelevant(t: Tracker, chunks: seq<Bytes>)
    ensures FeedChunks(t, chunks) == Feed(t, Concat(chunks))
  {
    if chunks != [] {
      var init := chunks[..|chunks| - 1];
      ChunkingIrrelevant(t, init);
      FeedSplit(t, Concat(init), chunks[|chunks| - 1]);
    }
  }

  // ---------------------------------------------------------------------
  // The unfinished run
  // ---------------------------------------------------------------------

  /** Phases a fresh tracker can be in after only a proper tail of the run of a tracker in phase `p`. */
  ghost predicate TailPhase(p: Phase, tail: Phase) {
    match p
    case Utf8 => tail.Ground?
    case StrEsc => tail.Ground? || tail.Utf8? || tail.Esc?
    case _ => tail.Ground? || tail.Utf8?
  }

  /** `run` is the unfinished input that a tracker of value `t` is in the middle of. */
  ghost predicate IsRun(t: Tracker, run: Bytes) {
    && (run == [] <==> t.phase.Ground?)
    && t.buf == run[..Min(|run|, MAX_PENDING)]
    && (t.overflow <==> |run| > MAX_PENDING)
    && (t.phase.StrEsc? ==> |run| >= 2 && run[|run| - 1] == ESC)
    && Feed(Fresh, run) == t
    && (t.executed <==> ExecutedWithin(run))
    && TailsAre(t.phase, run)
  }

  ghost predicate TailIs(p: Phase, run: Bytes, k: nat)
    requires k <= |run|
  {
    TailPhase(p, Feed(Fresh, run[k..]).phase)
  }

  ghost predicate TailsAre(p: Phase, run: Bytes) {
    forall k: nat :: 1 <= k <= |run| ==> TailIs(p, run, k)
  }

  /** Reading the run from its start, some control was executed on the way. */
  ghost predicate ExecutedWithin(run: Bytes) {
    run != [] &&
    var init := run[..|run| - 1];
    ExecutedWithin(init) || ExecutesInside(Feed(Fresh, init).phase, run[|run| - 1])
  }

  lemma FeedSnoc(t: Tracker, data: Bytes, c: byte)
    ensures Feed(t, data + [c]) == Step(Feed(t, data), c)
  {
    assert (data + [c])[..|data|] == data;
  }

  lemma FeedOne(c: byte)
    ensures Feed(Fresh, [c]) == Step(Fresh, c)
  {
    FeedSnoc(Fresh, [], c);
    assert [] + [c] == [c];
  }

  lemma ExecutedSnoc(run: Bytes, c: byte)
    ensures ExecutedWithin(run + [c]) <==> ExecutedWithin(run) || ExecutesInside(Feed(Fresh, run).phase, c)
  {
    assert (run + [c])[..|run|] == run;
  }

  /** One more byte of the run keeps every proper tail behind it. */
  lemma TailStep(t: Tracker, tail: Tracker, c: byte)
    requires !t.phase.Ground? && Decide(t.phase, t.left, c).Keep? && TailPhase(t.phase, tail.phase)
    ensures TailPhase(Step(t, c).phase, Step(tail, c).phase)
  {
    assert !t.phase.StrEsc?;
    assert c == ESC ==> Step(t, c).phase.StrEsc?;
    TailMoves(tail, c);
  }

  lemma TailMoves(tail: Tracker, c: byte)
    requires tail.phase.Ground? || tail.phase.Utf8?
    ensures Step(tail, c).phase.Ground? || Step(tail, c).phase.Utf8? || (c == ESC && Step(tail, c).phase.Esc?)
    ensures tail.phase.Ground? && 0x80 <= c < 0xc0 ==> Step(tail, c).phase.Ground?
  {
    if tail.phase.Utf8? && !(0x80 <= c < 0xc0) {
      assert Step(tail, c) == Step(Fresh, c);
    }
  }

  lemma TailsContinue(t: Tracker, run: Bytes, c: byte)
    requires !t.phase.Ground? && Decide(t.phase, t.left, c).Keep? && TailsAre(t.phase, run)
    ensures TailsAre(Step(t, c).phase, run + [c])
  {
    var run' := run + [c];
    forall k: nat | 1 <= k <= |run'|
      ensures TailIs(Step(t, c).phase, run', k)
    {
      if k <= |run| {
        assert TailIs(t.phase, run, k);
        assert run'[k..] == run[k..] + [c];
        FeedSnoc(Fresh, run[k..], c);
        TailStep(t, Feed(Fresh, run[k..]), c);
      } else {
        assert run'[k..] == [];
      }
    }
  }

  lemma RunContinues(t: Tracker, run: Bytes, c: byte)
    requires IsRun(t, run) && !t.phase.Ground? && Decide(t.phase, t.left, c).Keep?
    ensures IsRun(Step(t, c), run + [c])
  {
    FeedSnoc(Fresh, run, c);
    ExecutedSnoc(run, c);
    TailsContinue(t, run, c);
    assert Step(t, c).buf == (run + [c])[..Min(|run| + 1, MAX_PENDING)];
    assert Step(t, c).phase.StrEsc? ==> c == ESC;
  }

  lemma RunBegins(c: byte)
    requires Decide(Ground, 0, c).Begin?
    ensures IsRun(Step(Fresh, c), [c])
  {
    FeedOne(c);
    ExecutedSnoc([], c);
    assert [] + [c] == [c];
    assert [c][1..] == [];
  }

  /** At any point, what the tracker is in the middle of is a tail of the input. */
  lemma {:induction false} RunOf(input: Bytes) returns (run: Bytes)
    ensures IsSuffix(run, input) && IsRun(Feed(Fresh, input), run)
  {
    run := [];
    if input != [] {
      var init, c := input[..|input| - 1], input[|input| - 1];
      var before := RunOf(init);
      run := RunAfter(Feed(Fresh, init), before, init, c);
      assert init + [c] == input;
    }
  }

  /** The unfinished input after one more byte. */
  function NextRun(run: Bytes, c: byte): Bytes {
    var t := Feed(Fresh, run);
    match Decide(t.phase, t.left, c)
    case Keep(_, _) => if t.phase.Ground? then [] else run + [c]
    case Begin(_, _) => [c]
    case Finish => []
    case FinishAndRedo => if Decide(Ground, 0, c).Begin? then [c] else []
    case RestartAndRedo =>
      if Decide(Esc, 0, c).Keep? then [ESC] + [c] else if Decide(Esc, 0, c).Begin? then [c] else []
  }

  lemma RestartRun(t: Tracker, c: byte)
    requires t.phase.StrEsc? && Decide(t.phase, t.left, c).RestartAndRedo?
    ensures Step(t, c) == Step(Tracker(Esc, 0, [ESC], false, false), c)
    ensures if Decide(Esc, 0, c).Keep? then IsRun(Step(t, c), [ESC] + [c])
            else if Decide(Esc, 0, c).Begin? then IsRun(Step(t, c), [c])
            else IsRun(Step(t, c), [])
  {
    var esc := Tracker(Esc, 0, [ESC], false, false);
    RunBegins(ESC);
    assert Step(Fresh, ESC) == esc;
    if Decide(Esc, 0, c).Keep? {
      RunContinues(esc, [ESC], c);
    } else if Decide(Esc, 0, c).Begin? {
      RunBegins(c);
    }
  }

  /** The unfinished input of the tracker moves as `NextRun` says. */
  lemma RunMoves(t: Tracker, run: Bytes, c: byte)
    requires IsRun(t, run)
    ensures IsRun(Step(t, c), NextRun(run, c))
  {
    match Decide(t.phase, t.left, c)
    case Keep(_, _) => if !t.phase.Ground? { RunContinues(t, run, c); }
    case Begin(_, _) => RunBegins(c);
    case Finish =>
    case FinishAndRedo => if Decide(Ground, 0, c).Begin? { RunBegins(c); }
    case RestartAndRedo => RestartRun(t, c);
  }

  lemma RunStaysSuffix(t: Tracker, run: Bytes, init: Bytes, c: byte)
    requires IsRun(t, run) && IsSuffix(run, init)
    ensures IsSuffix(NextRun(run, c), init + [c])
  {
    assert t.phase.StrEsc? ==> init[|init| - 1] == run[|run| - 1] == ESC;
  }

  lemma RunAfter(t: Tracker, before: Bytes, init: Bytes, c: byte) returns (run: Bytes)
    requires IsSuffix(before, init) && IsRun(t, before)
    ensures IsSuffix(run, init + [c]) && IsRun(Step(t, c), run)
  {
    run := NextRun(before, c);
    RunMoves(t, before, c);
    RunStaysSuffix(t, before, init, c);
  }

  lemma RunTail(input: Bytes, run: Bytes, tail: Bytes)
    requires IsSuffix(run, input) && IsRun(Feed(Fresh, input), run)
    requires IsSuffix(tail, input) && |tail| < |run|
    ensures Feed(Fresh, tail).phase != Feed(Fresh, input).phase
  {
    assert tail == run[|run| - |tail|..];
    assert TailIs(Feed(Fresh, input).phase, run, |run| - |tail|);
  }

  // ---------------------------------------------------------------------
  // Main results
  // ---------------------------------------------------------------------

  /**
   * Whenever `prefix` succeeds, its bytes are a tail of at most 4096 bytes of
   * everything fed, and a fresh tracker fed only them is from then on
   * indistinguishable from the original.
   */
  lemma PrefixReplay(input: Bytes, more: Bytes)
    requires Prefix(Feed(Fresh, input)).Some?
    ensures var p := Prefix(Feed(Fresh, input)).value;
            && IsSuffix(p, input) && |p| <= MAX_PENDING
            && Feed(Fresh, p + more) == Feed(Fresh, input + more)
  {
    var run := RunOf(input);
    FeedSplit(Fresh, run, more);
    FeedSplit(Fresh, input, more);
  }

  /** No shorter tail of the input would do: the prefix holds no byte of a finished sequence. */
  lemma PrefixIsShortest(input: Bytes, tail: Bytes)
    requires Prefix(Feed(Fresh, input)).Some?
    requires IsSuffix(tail, input) && |tail| < |Prefix(Feed(Fresh, input)).value|
    ensures Feed(Fresh, tail).phase != Feed(Fresh, input).phase
  {
    var run := RunOf(input);
    RunTail(input, run, tail);
  }

  /** `run` is the shortest tail of `input` that leaves a fresh tracker where the input does. */
  ghost predicate UnfinishedTail(input: Bytes, run: Bytes) {
    && IsSuffix(run, input) && Feed(Fresh, run) == Feed(Fresh, input)
    && forall tail {:trigger IsSuffix(tail, input)} :: IsSuffix(tail, input) && |tail| < |run| ==> Feed(Fresh, tail).phase != Feed(Fresh, input).phase
  }

  lemma RunIsUnfinishedTail(input: Bytes, run: Bytes)
    requires IsSuffix(run, input) && IsRun(Feed(Fresh, input), run)
    ensures UnfinishedTail(input, run)
  {
    forall tail: Bytes {:trigger IsSuffix(tail, input)} | IsSuffix(tail, input) && |tail| < |run|
      ensures Feed(Fresh, tail).phase != Feed(Fresh, input).phase
    {
      RunTail(input, run, tail);
    }
  }

  lemma PrefixOfRun(t: Tracker, run: Bytes)
    requires IsRun(t, run)
    ensures Prefix(t) == if |run| > MAX_PENDING || ExecutedWithin(run) then None else Some(run)
  {
    assert t.executed <==> ExecutedWithin(run);
    if |run| <= MAX_PENDING {
      assert t.buf == run[..|run|] == run;
    }
  }

  /** The tracker declines exactly when the unfinished tail is too long or has executed a control. */
  lemma PrefixDeclines(input: Bytes) returns (run: Bytes)
    ensures UnfinishedTail(input, run)
    ensures Prefix(Feed(Fresh, input)) == if |run| > MAX_PENDING || ExecutedWithin(run) then None else Some(run)
  {
    run := RunOf(input);
    RunIsUnfinishedTail(input, run);
    PrefixOfRun(Feed(Fresh, input), run);
  }

  // ---------------------------------------------------------------------
  // Valid UTF-8 without ESC
  // ---------------------------------------------------------------------

  predicate Continuation(c: byte) {
    0x80 <= c <= 0xbf
  }

  /** One character as section 4 of RFC 3629 writes it. */
  predicate IsUtf8Char(s: Bytes) {
    || (|s| == 1 && s[0] <= 0x7f)
    || (|s| == 2 && 0xc2 <= s[0] <= 0xdf && Continuation(s[1]))
    || (|s| == 3 && Continuation(s[2]) &&
        ( || (s[0] == 0xe0 && 0xa0 <= s[1] <= 0xbf)
          || (0xe1 <= s[0] <= 0xec && Continuation(s[1]))
          || (s[0] == 0xed && 0x80 <= s[1] <= 0x9f)
          || (0xee <= s[0] <= 0xef && Continuation(s[1]))))
    || (|s| == 4 && Continuation(s[2]) && Continuation(s[3]) &&
        ( || (s[0] == 0xf0 && 0x90 <= s[1] <= 0xbf)
          || (0xf1 <= s[0] <= 0xf3 && Continuation(s[1]))
          || (s[0] == 0xf4 && 0x80 <= s[1] <= 0x8f)))
  }

  predicate PlainText(chars: seq<Bytes>) {
    forall i :: 0 <= i < |chars| ==> IsUtf8Char(chars[i]) && chars[i] != [ESC]
  }

  function Expected(c: byte): int {
    if c >= 0xf0 then 3 else if c >= 0xe0 then 2 else 1
  }

  /** All the tracker looks at: a lead byte that announces its continuation bytes. */
  predicate Shaped(s: Bytes) {
    || (|s| == 1 && s[0] <= 0x7f)
    || (2 <= |s| <= 4 && 0xc2 <= s[0] <= 0xf4 && |s| == Expected(s[0]) + 1 && forall i :: 1 <= i < |s| ==> Continuation(s[i]))
  }

  // ---------------------------------------------------------------------
  // A parser that follows the tracker
  // ---------------------------------------------------------------------

  /** The byte only adds to unfinished input: nothing is executed, printed or completed. */
  predicate Silent(run: Bytes, c: byte) {
    var t := Feed(Fresh, run);
    if t.phase.Ground? then Decide(t.phase, t.left, c).Begin?
    else Decide(t.phase, t.left, c).Keep? && !ExecutesInside(t.phase, c)
  }

  /** Every byte of the run went on from the bytes before it. */
  ghost predicate Grows(run: Bytes) {
    run == [] ||
    var init, c := run[..|run| - 1], run[|run| - 1];
    && Grows(init) && (Feed(Fresh, init).phase.Ground? <==> init == [])
    && (if init == [] then Decide(Ground, 0, c).Begin? else Decide(Feed(Fresh, init).phase, Feed(Fresh, init).left, c).Keep?)
  }

  lemma GrowsSnoc(run: Bytes, c: byte)
    requires Grows(run) && IsRun(Feed(Fresh, run), run) && run != []
    requires Decide(Feed(Fresh, run).phase, Feed(Fresh, run).left, c).Keep?
    ensures Grows(run + [c])
  {
    var more := run + [c];
    assert more[..|more| - 1] == run && more[|more| - 1] == c;
  }

  lemma GrowsOne(c: byte)
    requires Decide(Ground, 0, c).Begin?
    ensures Grows([c])
  {
    var one := [c];
    assert one[..|one| - 1] == [] && one[|one| - 1] == c;
    assert Feed(Fresh, []) == Fresh && Grows([]);
  }

  /** A parser that carries the unfinished input and the tracker go on alike. */
  lemma ParserFollows(run: Bytes, c: byte)
    requires Grows(run) && IsRun(Feed(Fresh, run), run)
    ensures Grows(NextRun(run, c)) && IsRun(Step(Feed(Fresh, run), c), NextRun(run, c))
    ensures Feed(Fresh, NextRun(run, c)) == Step(Feed(Fresh, run), c)
  {
    var t := Feed(Fresh, run);
    RunMoves(t, run, c);
    match Decide(t.phase, t.left, c)
    case Keep(_, _) => if !t.phase.Ground? { GrowsSnoc(run, c); }
    case Begin(_, _) => if t.phase.Ground? { GrowsOne(c); } else { GrowsOne(c); }
    case Finish =>
    case FinishAndRedo => if Decide(Ground, 0, c).Begin? { GrowsOne(c); }
    case RestartAndRedo =>
      RunBegins(ESC);
      GrowsOne(ESC);
      FeedOne(ESC);
      if Decide(Esc, 0, c).Keep? {
        GrowsSnoc([ESC], c);
      } else if Decide(Esc, 0, c).Begin? {
        GrowsOne(c);
      }
  }

  /** Input that is unfinished and has executed nothing is silent from its first byte on. */
  lemma RunIsSilent(run: Bytes, k: nat)
    requires Grows(run) && !ExecutedWithin(run) && k < |run|
    ensures Silent(run[..k], run[k]) && NextRun(run[..k], run[k]) == run[..k + 1]
    decreases |run|
  {
    var init := run[..|run| - 1];
    if k < |init| {
      RunIsSilent(init, k);
      assert init[..k] == run[..k] && init[..k + 1] == run[..k + 1];
    } else {
      assert run[..k] == init && run[..k + 1] == init + [run[k]] == run;
    }
  }

  lemma CharIsShaped(s: Bytes)
    requires IsUtf8Char(s)
    ensures Shaped(s)
  {
  }

  lemma ContinuationStep(t: Tracker, c: byte)
    requires t.phase.Utf8? && !t.overflow && !t.executed && |t.buf| < 4 && Continuation(c)
    ensures Step(t, c) == if t.left == 1 then Fresh else t.(left := t.left - 1, buf := t.buf + [c])
  {
  }

  /** A character cut short is exactly what the tracker holds. */
  lemma {:induction false} CharCut(s: Bytes, k: nat)
    requires Shaped(s) && 0 < k < |s|
    ensures Feed(Fresh, s[..k]) == Tracker(Utf8, |s| - k, s[..k], false, false)
  {
    assert s[..k] == s[..k - 1] + [s[k - 1]];
    FeedSnoc(Fresh, s[..k - 1], s[k - 1]);
    if k > 1 {
      CharCut(s, k - 1);
      ContinuationStep(Feed(Fresh, s[..k - 1]), s[k - 1]);
    } else {
      assert s[..0] == [];
    }
  }

  lemma OneByte(c: byte)
    requires Shaped([c]) && c != ESC
    ensures Feed(Fresh, [c]) == Fresh
  {
    FeedOne(c);
  }

  lemma CharWhole(s: Bytes)
    requires Shaped(s) && s != [ESC]
    ensures Feed(Fresh, s) == Fresh
  {
    if |s| == 1 {
      assert s == [s[0]];
      OneByte(s[0]);
    } else {
      var k := |s| - 1;
      CharCut(s, k);
      ContinuationStep(Feed(Fresh, s[..k]), s[k]);
      FeedSnoc(Fresh, s[..k], s[k]);
      assert s == s[..k] + [s[k]];
    }
  }

  lemma {:induction false} TextWhole(chars: seq<Bytes>)
    requires PlainText(chars)
    ensures Feed(Fresh, Concat(chars)) == Fresh
  {
    if chars != [] {
      var init, last := chars[..|chars| - 1], chars[|chars| - 1];
      TextWhole(init);
      CharIsShaped(last);
      CharWhole(last);
      FeedSplit(Fresh, Concat(init), last);
    }
  }

  /**
   * Valid text without ESC, cut anywhere: the prefix is the part of the
   * straddled character before the cut, and nothing at a character boundary.
   */
  lemma Utf8Cut(chars: seq<Bytes>, next: Bytes, k: nat)
    requires PlainText(chars) && IsUtf8Char(next) && next != [ESC] && k < |next|
    ensures Prefix(Feed(Fresh, Concat(chars) + next[..k])) == Some(next[..k])
  {
    TextWhole(chars);
    FeedSplit(Fresh, Concat(chars), next[..k]);
    if k == 0 {
      assert next[..k] == [];
    } else {
      CharIsShaped(next);
      CharCut(next, k);
    }
  }
}
