/**
 * Terminal windows: what one poll of a session's output returns, as a
 * function of the session, and what a viewer that keeps polling sees.
 */
module Terminal {
  import opened Common
  import opened OutputLog
  import opened Screen
  import BB = ByteBuffer
  import J = Journal

  datatype TerminalWindow = TerminalWindow(
    more: bool, data: Bytes, first: nat, next: nat, gap: bool, ended: bool, writer: bool, cols: nat, rows: nat)

  datatype WindowError = RecoveryUnavailable | StoreFailed

  /**
   * A PTY session as a viewer can observe it: the full history, the ring that
   * is left of it, and the chunks that reached the journal (if there is one).
   */
  datatype Session<S> = Session(
    log: seq<Chunk>, ring: seq<Chunk>, evicted: nat, journaled: bool, stored: seq<Chunk>,
    cols: nat, rows: nat, closed: bool, screen: ScreenVal<S>)

  /** What is stored is part of the history; any chunk may be missing. */
  ghost predicate Journals(stored: seq<Chunk>, log: seq<Chunk>) {
    Increasing(stored) && forall i :: 0 <= i < |stored| ==> 1 <= stored[i].num <= |log| && stored[i] == log[stored[i].num - 1]
  }

  ghost predicate Valid<S>(vt: Vt<S>, capacity: nat, v: Session<S>) {
    && IsLog(v.log) && Sized(v.log) && BB.IsRing(v.ring, v.log, v.evicted, capacity)
    && Journals(v.stored, v.log)
    && Tracks(vt, v.screen, v.log) && v.screen.closed == v.closed && (v.screen.finalized ==> v.closed)
    && v.cols > 0 && v.rows > 0 && (!v.closed ==> AtSize(v.log, v.cols, v.rows))
  }

  /** The newest chunk, if any, was produced at this size. */
  ghost predicate AtSize(log: seq<Chunk>, cols: nat, rows: nat) {
    log != [] ==> log[|log| - 1].cols == cols && log[|log| - 1].rows == rows
  }

  // ---------------------------------------------------------------------
  // One window
  // ---------------------------------------------------------------------

  /** The next chunk still belongs to the window: contiguous, one size, within the limit. */
  predicate Extends(rest: seq<Chunk>, n: nat) {
    && n < |rest|
    && (n > 0 ==> rest[n].num == rest[n - 1].num + 1 && rest[n].cols == rest[0].cols && rest[n].rows == rest[0].rows)
    && Size(rest[..n]) + |rest[n].payload| <= MAX_WINDOW
  }

  function RunLength(rest: seq<Chunk>, n: nat): (m: nat)
    requires n <= |rest|
    ensures n <= m <= |rest|
    decreases |rest| - n
  {
    if Extends(rest, n) then RunLength(rest, n + 1) else n
  }

  function Oldest(chunks: seq<Chunk>): nat {
    if chunks == [] then 0 else chunks[0].num
  }

  /** Where the bytes come from: the ring, or one journal page when the cursor predates the ring. */
  function Source<S>(v: Session<S>, after: nat): Result<seq<Chunk>, WindowError> {
    if after < |v.log| && (v.ring == [] || v.ring[0].num > after + 1) && v.journaled then
      var page := J.PageOf(Past(v.stored, after), MAX_WINDOW);
      if page.Err? then Err(StoreFailed) else if page.value == [] then Ok(v.ring) else Ok(page.value)
    else Ok(v.ring)
  }

  function GapWindow<S>(v: Session<S>, oldest: nat, data: Bytes, writer: bool): TerminalWindow {
    TerminalWindow(false, data, oldest, |v.log|, true, v.closed, writer, v.cols, v.rows)
  }

  function CheckpointGap<S>(vt: Vt<S>, v: Session<S>, oldest: nat, writer: bool): Result<TerminalWindow, WindowError> {
    var data := Checkpoint(vt, v.screen, |v.log|);
    if data.None? then Err(RecoveryUnavailable) else Ok(GapWindow(v, oldest, data.value, writer))
  }

  /** What a window takes from the session besides chunks. */
  datatype Frame = Frame(last: nat, closed: bool, cols: nat, rows: nat, writer: bool)

  function FrameOf<S>(v: Session<S>, writer: bool): Frame {
    Frame(|v.log|, v.closed, v.cols, v.rows, writer)
  }

  /** The window of the first `n` chunks of `rest`. */
  function RunWindow(f: Frame, rest: seq<Chunk>, n: nat, after: nat): TerminalWindow
    requires n <= |rest|
  {
    var next := if n == 0 then after else rest[n - 1].num;
    TerminalWindow(next < f.last, Payloads(rest[..n]), if n == 0 then 0 else rest[0].num, next, false,
                   f.closed && next == f.last, f.writer,
                   if n == 0 then f.cols else rest[0].cols, if n == 0 then f.rows else rest[0].rows)
  }

  /** Nothing when the first chunk alone exceeds the wire limit. */
  function GatherRest(f: Frame, rest: seq<Chunk>, after: nat): Option<TerminalWindow> {
    var n := RunLength(rest, 0);
    if n == 0 && rest != [] then None else Some(RunWindow(f, rest, n, after))
  }

  function GatherWindow(f: Frame, chunks: seq<Chunk>, after: nat): Option<TerminalWindow> {
    GatherRest(f, Past(chunks, after), after)
  }

  function WindowFrom<S>(vt: Vt<S>, v: Session<S>, chunks: seq<Chunk>, after: nat, writer: bool)
    : Result<TerminalWindow, WindowError>
  {
    var oldest := Oldest(chunks);
    if chunks == [] && after < |v.log| then CheckpointGap(vt, v, oldest, writer)
    else if oldest > after + 1 || after > |v.log| then
      var data := Checkpoint(vt, v.screen, |v.log|);
      Ok(GapWindow(v, oldest, if data.None? then [] else data.value, writer))
    else
      var w := GatherWindow(FrameOf(v, writer), chunks, after);
      if w.None? then CheckpointGap(vt, v, oldest, writer) else Ok(w.value)
  }

  function Window<S>(vt: Vt<S>, v: Session<S>, after: nat, writer: bool): Result<TerminalWindow, WindowError> {
    var chunks := Source(v, after);
    if chunks.Err? then Err(chunks.error) else WindowFrom(vt, v, chunks.value, after, writer)
  }

  // --- the loop that gathers a window ------------------------------------

  /** The chunks past the cursor from position `i` on. */
  function PastFrom(chunks: seq<Chunk>, after: nat, i: nat): seq<Chunk>
    requires i <= |chunks|
  {
    Past(chunks[i..], after)
  }

  /** One chunk further: it is skipped, or it is the next one. */
  lemma PastFromStep(chunks: seq<Chunk>, after: nat, i: nat)
    requires Increasing(chunks) && i < |chunks|
    ensures PastFrom(chunks, after, i)
            == (if chunks[i].num <= after then [] else [chunks[i]]) + PastFrom(chunks, after, i + 1)
  {
    var here, next := chunks[i..], chunks[i + 1..];
    assert here[0] == chunks[i] && here[1..] == next && here == [chunks[i]] + next;
    if chunks[i].num > after && next != [] {
      assert next[0] == chunks[i + 1] && next[0].num > after;
    }
  }

  /** The loop's variables after some chunks: data, first and next sequence, size. */
  datatype Gathered = Gathered(data: Bytes, first: nat, next: nat, cols: nat, rows: nat)

  function SoFar(f: Frame, taken: seq<Chunk>, after: nat): Gathered {
    if taken == [] then Gathered([], 0, after, f.cols, f.rows)
    else Gathered(Payloads(taken), taken[0].num, taken[|taken| - 1].num, taken[0].cols, taken[0].rows)
  }

  function Finish(f: Frame, g: Gathered): TerminalWindow {
    TerminalWindow(g.next < f.last, g.data, g.first, g.next, false, f.closed && g.next == f.last, f.writer, g.cols, g.rows)
  }

  lemma TakenOne(f: Frame, taken: seq<Chunk>, c: Chunk, after: nat)
    ensures var g := SoFar(f, taken, after);
            SoFar(f, taken + [c], after)
            == Gathered(g.data + c.payload, if taken == [] then c.num else g.first, c.num,
                        if taken == [] then c.cols else g.cols, if taken == [] then c.rows else g.rows)
  {
    PayloadsSnoc(taken, c);
    assert taken == [] ==> Payloads(taken) == [];
  }

  lemma ExtendsMeans(f: Frame, rest: seq<Chunk>, taken: seq<Chunk>, c: Chunk, after: nat)
    requires |taken| < |rest| && rest[|taken|] == c && rest[..|taken|] == taken
    ensures var g := SoFar(f, taken, after);
            Extends(rest, |taken|) <==>
              && (taken != [] ==> c.num == g.next + 1 && c.cols == g.cols && c.rows == g.rows)
              && |g.data| + |c.payload| <= MAX_WINDOW
  {
    assert taken != [] ==> rest[|taken| - 1] == taken[|taken| - 1] && rest[0] == taken[0];
    PayloadsSize(taken);
  }

  lemma Middle(taken: seq<Chunk>, c: Chunk, more: seq<Chunk>)
    ensures var rest := taken + ([c] + more);
            rest[|taken|] == c && rest[..|taken|] == taken && rest == (taken + [c]) + more
  {
  }

  /** One turn of the gathering loop: whether the next chunk is taken, and what taking it does. */
  lemma GatherStep(f: Frame, rest: seq<Chunk>, taken: seq<Chunk>, c: Chunk, more: seq<Chunk>, after: nat)
    requires rest == taken + ([c] + more)
    ensures var g := SoFar(f, taken, after);
            && (Extends(rest, |taken|) <==>
                  && (taken != [] ==> c.num == g.next + 1 && c.cols == g.cols && c.rows == g.rows)
                  && |g.data| + |c.payload| <= MAX_WINDOW)
            && (Extends(rest, |taken|) ==>
                  SoFar(f, taken + [c], after)
                  == Gathered(g.data + c.payload, if taken == [] then c.num else g.first, c.num, c.cols, c.rows))
    ensures rest == (taken + [c]) + more
  {
    Middle(taken, c, more);
    ExtendsMeans(f, rest, taken, c, after);
    TakenOne(f, taken, c, after);
  }

  /** The loop has taken `taken` of `rest` and has `more` before it. */
  ghost predicate Gathering(f: Frame, rest: seq<Chunk>, taken: seq<Chunk>, more: seq<Chunk>, g: Gathered, after: nat) {
    rest == taken + more && RunLength(rest, |taken|) == RunLength(rest, 0) && g == SoFar(f, taken, after)
  }

  lemma GatherDone(f: Frame, rest: seq<Chunk>, taken: seq<Chunk>, more: seq<Chunk>, g: Gathered, after: nat)
    requires Gathering(f, rest, taken, more, g, after) && !Extends(rest, |taken|)
    ensures GatherRest(f, rest, after) == if taken == [] && more != [] then None else Some(Finish(f, g))
  {
    assert rest[..|taken|] == taken;
    assert taken != [] ==> rest[|taken| - 1] == taken[|taken| - 1] && rest[0] == taken[0];
  }

  lemma GatherEnds(f: Frame, rest: seq<Chunk>, taken: seq<Chunk>, g: Gathered, after: nat)
    requires Gathering(f, rest, taken, [], g, after)
    ensures GatherRest(f, rest, after) == Some(Finish(f, g))
  {
    GatherDone(f, rest, taken, [], g, after);
  }

  /** One turn: the loop ends with the window, or takes one chunk more. */
  lemma GatherTurn(f: Frame, rest: seq<Chunk>, taken: seq<Chunk>, c: Chunk, more: seq<Chunk>, g: Gathered, after: nat)
    requires Gathering(f, rest, taken, [c] + more, g, after)
    ensures if (taken == [] || (c.num == g.next + 1 && c.cols == g.cols && c.rows == g.rows)) && |g.data| + |c.payload| <= MAX_WINDOW
            then Gathering(f, rest, taken + [c], more,
                           Gathered(g.data + c.payload, if taken == [] then c.num else g.first, c.num, c.cols, c.rows), after)
            else GatherRest(f, rest, after) == if taken == [] then None else Some(Finish(f, g))
  {
    GatherStep(f, rest, taken, c, more, after);
    if !Extends(rest, |taken|) {
      GatherDone(f, rest, taken, [c] + more, g, after);
    }
  }

  /** The same, at position `i` of the chunks. */
  lemma GatherAt(f: Frame, rest: seq<Chunk>, taken: seq<Chunk>, chunks: seq<Chunk>, i: nat, g: Gathered, after: nat)
    requires Increasing(chunks) && i < |chunks| && Gathering(f, rest, taken, PastFrom(chunks, after, i), g, after)
    ensures var c := chunks[i];
            if c.num <= after then Gathering(f, rest, taken, PastFrom(chunks, after, i + 1), g, after)
            else if (taken == [] || (c.num == g.next + 1 && c.cols == g.cols && c.rows == g.rows)) && |g.data| + |c.payload| <= MAX_WINDOW
            then Gathering(f, rest, taken + [c], PastFrom(chunks, after, i + 1),
                           Gathered(g.data + c.payload, if taken == [] then c.num else g.first, c.num, c.cols, c.rows), after)
            else GatherRest(f, rest, after) == if taken == [] then None else Some(Finish(f, g))
  {
    PastFromStep(chunks, after, i);
    if chunks[i].num > after {
      GatherTurn(f, rest, taken, chunks[i], PastFrom(chunks, after, i + 1), g, after);
    }
  }

  lemma RingIsSized(ring: seq<Chunk>, log: seq<Chunk>, evicted: nat)
    requires IsLog(log) && Sized(log) && BB.TailAt(ring, log, evicted)
    ensures Increasing(ring) && Sized(ring)
  {
  }

  lemma PageIsSized(stored: seq<Chunk>, log: seq<Chunk>, after: nat, page: seq<Chunk>)
    requires Journals(stored, log) && Sized(log) && page <= Past(stored, after)
    ensures Increasing(page) && Sized(page)
  {
    var k := PastSplits(stored, after);
    assert forall i :: 0 <= i < |page| ==> page[i] == stored[k + i];
  }

  /** Whatever a window is read from is in order and at a real size. */
  lemma SourceIsSized<S>(vt: Vt<S>, capacity: nat, v: Session<S>, after: nat)
    requires Valid(vt, capacity, v) && Source(v, after).Ok?
    ensures Increasing(Source(v, after).value) && Sized(Source(v, after).value)
  {
    if Source(v, after).value == v.ring {
      RingIsSized(v.ring, v.log, v.evicted);
    } else {
      J.PageIsMaximal(Past(v.stored, after), MAX_WINDOW);
      PageIsSized(v.stored, v.log, after, Source(v, after).value);
    }
  }

  /** Gathers consecutive chunks of one size until the limit, as long as they follow on. */
  method Gather(f: Frame, chunks: seq<Chunk>, after: nat) returns (w: Option<TerminalWindow>)
    requires Increasing(chunks) && Sized(chunks)
    ensures w == GatherWindow(f, chunks, after)
  {
    assert chunks[0..] == chunks;
    var g := Gathered([], 0, after, f.cols, f.rows);
    var first := true;
    ghost var rest, taken: seq<Chunk> := Past(chunks, after), [];
    var i := 0;
    while i < |chunks|
      invariant i <= |chunks| && (first <==> taken == []) && Gathering(f, rest, taken, PastFrom(chunks, after, i), g, after)
      decreases |chunks| - i
    {
      var chunk := chunks[i];
      GatherAt(f, rest, taken, chunks, i, g, after);
      if chunk.num > after {
        var follows := first || chunk.num == g.next + 1;
        if follows && chunk.cols > 0 && chunk.rows > 0 && !first {
          follows := g.cols == chunk.cols && g.rows == chunk.rows;
        }
        if !follows || |g.data| + |chunk.payload| > MAX_WINDOW {
          return if first then None else Some(Finish(f, g));
        }
        g := Gathered(g.data + chunk.payload, if first then chunk.num else g.first, chunk.num, chunk.cols, chunk.rows);
        first := false;
        taken := taken + [chunk];
      }
      i := i + 1;
    }
    GatherEnds(f, rest, taken, g, after);
    return Some(Finish(f, g));
  }

  // ---------------------------------------------------------------------
  // A non-gap window is one stretch of the history
  // ---------------------------------------------------------------------

  /** `n` chunks of `rest` in a row, all of one size. */
  ghost predicate Contiguous(rest: seq<Chunk>, n: nat) {
    && n <= |rest|
    && forall i :: 0 <= i < n ==> rest[i].num == rest[0].num + i && rest[i].cols == rest[0].cols && rest[i].rows == rest[0].rows
  }

  lemma {:induction false} RunIsContiguous(rest: seq<Chunk>, n: nat)
    requires Contiguous(rest, n) && Size(rest[..n]) <= MAX_WINDOW
    ensures Contiguous(rest, RunLength(rest, n)) && Size(rest[..RunLength(rest, n)]) <= MAX_WINDOW
    ensures !Extends(rest, RunLength(rest, n))
    decreases |rest| - n
  {
    if Extends(rest, n) {
      SizeSnoc(rest[..n], rest[n]);
      assert rest[..n] + [rest[n]] == rest[..n + 1];
      RunIsContiguous(rest, n + 1);
    }
  }

  /** What can be served directly past the cursor: chunks of the history, starting right after it. */
  ghost predicate Serves(rest: seq<Chunk>, log: seq<Chunk>, after: nat) {
    && (rest != [] ==> rest[0].num == after + 1)
    && forall i :: 0 <= i < |rest| ==> 1 <= rest[i].num <= |log| && rest[i] == log[rest[i].num - 1]
  }

  lemma RingServes(ring: seq<Chunk>, log: seq<Chunk>, evicted: nat, after: nat)
    requires IsLog(log) && BB.TailAt(ring, log, evicted) && after <= |log| && evicted <= after
    ensures Serves(Past(ring, after), log, after) && (Past(ring, after) == [] <==> after == |log|)
  {
    assert ring == log[evicted..];
    LogPast(log, evicted, after);
    assert Past(ring, after) == log[after..];
  }

  lemma PageAt(stored: seq<Chunk>, log: seq<Chunk>, after: nat, page: seq<Chunk>, i: nat)
    requires Journals(stored, log) && page <= Past(stored, after) && i < |page|
    ensures after < page[i].num <= |log| && page[i] == log[page[i].num - 1]
  {
    var k := PastSplits(stored, after);
    assert page[i] == Past(stored, after)[i] == stored[k + i];
  }

  lemma PageServes(stored: seq<Chunk>, log: seq<Chunk>, after: nat, page: seq<Chunk>)
    requires Journals(stored, log) && page <= Past(stored, after) && page != [] && page[0].num <= after + 1
    ensures Past(page, after) == page && Serves(page, log, after)
  {
    forall i | 0 <= i < |page| ensures after < page[i].num <= |log| && page[i] == log[page[i].num - 1] {
      PageAt(stored, log, after, page, i);
    }
  }

  /** The chunks a non-gap window is cut from. */
  lemma SourceServes<S>(vt: Vt<S>, capacity: nat, v: Session<S>, after: nat)
    requires Valid(vt, capacity, v) && Source(v, after).Ok? && after <= |v.log|
    requires var chunks := Source(v, after).value;
             Oldest(chunks) <= after + 1 && !(chunks == [] && after < |v.log|)
    ensures Serves(Past(Source(v, after).value, after), v.log, after)
    ensures Past(Source(v, after).value, after) == [] ==> after == |v.log|
  {
    if after < |v.log| && (v.ring == [] || v.ring[0].num > after + 1) && v.journaled {
      var rest := Past(v.stored, after);
      J.PageIsMaximal(rest, MAX_WINDOW);
      var page := J.PageOf(rest, MAX_WINDOW).value;
      if page != [] {
        PageServes(v.stored, v.log, after, page);
      } else {
        assert false;
      }
    } else {
      assert v.ring != [] ==> v.ring[0] == v.log[v.evicted];
      RingServes(v.ring, v.log, v.evicted, after);
    }
  }

  lemma PayloadsTake(chunks: seq<Chunk>, k: nat)
    requires k < |chunks|
    ensures Payloads(chunks[..k + 1]) == Payloads(chunks[..k]) + chunks[k].payload
  {
    assert chunks[..k + 1] == chunks[..k] + [chunks[k]];
    PayloadsSnoc(chunks[..k], chunks[k]);
  }

  /** The first `n` chunks are those of the history after the cursor, all of one size. */
  ghost predicate Lines(rest: seq<Chunk>, log: seq<Chunk>, after: nat, n: nat) {
    && n <= |rest| && after + n <= |log|
    && forall i :: 0 <= i < n ==> LinesAt(rest, log, after, i)
  }

  ghost predicate LinesAt(rest: seq<Chunk>, log: seq<Chunk>, after: nat, i: nat)
    requires i < |rest| && after + i < |log|
  {
    rest[i] == log[after + i] && rest[i].cols == rest[0].cols && rest[i].rows == rest[0].rows
  }

  /** A run that starts at the cursor follows the history. */
  lemma StretchLines(rest: seq<Chunk>, log: seq<Chunk>, after: nat, n: nat)
    requires after <= |log| && Serves(rest, log, after) && Contiguous(rest, n)
    ensures Lines(rest, log, after, n)
  {
    if n > 0 {
      assert rest[n - 1].num == after + n;
    }
    forall i | 0 <= i < n ensures LinesAt(rest, log, after, i) {
      assert rest[i].num == after + 1 + i;
    }
  }

  lemma PlayTake<S>(vt: Vt<S>, log: seq<Chunk>, k: nat)
    requires k < |log|
    ensures Play(vt, log[..k + 1]) == Show(vt, Play(vt, log[..k]), log[k].cols, log[k].rows, log[k].payload)
  {
    assert log[..k + 1] == log[..k] + [log[k]];
    PlaySnoc(vt, log[..k], log[k]);
  }

  lemma JoinMore(a: Bytes, b: Bytes, c: Bytes, ab: Bytes)
    requires a + b == ab
    ensures a + (b + c) == ab + c
  {
  }

  /** A run continues the history by exactly its bytes. */
  lemma {:induction false} StretchBytes(rest: seq<Chunk>, log: seq<Chunk>, after: nat, n: nat)
    requires Lines(rest, log, after, n)
    ensures Payloads(log[..after]) + Payloads(rest[..n]) == Payloads(log[..after + n])
  {
    if n > 0 {
      StretchBytes(rest, log, after, n - 1);
      assert LinesAt(rest, log, after, n - 1);
      PayloadsTake(rest, n - 1);
      PayloadsTake(log, after + n - 1);
      JoinMore(Payloads(log[..after]), Payloads(rest[..n - 1]), rest[n - 1].payload, Payloads(log[..after + n - 1]));
    } else {
      assert rest[..0] == [];
    }
  }

  /** Output shown in two parts at one size. */
  lemma ShowThen<S>(vt: Vt<S>, t: Option<Term<S>>, cols: nat, rows: nat, a: Bytes, b: Bytes)
    ensures Show(vt, Show(vt, t, cols, rows, a), cols, rows, b) == Show(vt, t, cols, rows, a + b)
  {
    WriteSplit(vt, SetSize(vt, t, cols, rows).st, a, b);
  }

  lemma {:induction false} StretchShown<S>(vt: Vt<S>, rest: seq<Chunk>, log: seq<Chunk>, after: nat, n: nat)
    requires Lines(rest, log, after, n) && 0 < n
    ensures Show(vt, Play(vt, log[..after]), rest[0].cols, rest[0].rows, Payloads(rest[..n])) == Play(vt, log[..after + n])
  {
    var c := rest[n - 1];
    assert LinesAt(rest, log, after, n - 1);
    PayloadsTake(rest, n - 1);
    PlayTake(vt, log, after + n - 1);
    if n == 1 {
      assert rest[..0] == [] && Payloads(rest[..1]) == c.payload;
    } else {
      StretchShown(vt, rest, log, after, n - 1);
      ShowThen(vt, Play(vt, log[..after]), c.cols, c.rows, Payloads(rest[..n - 1]), c.payload);
    }
  }

  /** `n` chunks of `rest` are one stretch of the history that starts at the cursor. */
  ghost predicate Stretch(log: seq<Chunk>, rest: seq<Chunk>, n: nat, after: nat) {
    && after <= |log| && Serves(rest, log, after) && Contiguous(rest, n) && Size(rest[..n]) <= MAX_WINDOW
  }

  lemma WindowRun<S>(vt: Vt<S>, capacity: nat, v: Session<S>, after: nat, writer: bool)
    returns (rest: seq<Chunk>, n: nat)
    requires Valid(vt, capacity, v) && Window(vt, v, after, writer).Ok? && !Window(vt, v, after, writer).value.gap
    ensures Stretch(v.log, rest, n, after)
    ensures Window(vt, v, after, writer).value == RunWindow(FrameOf(v, writer), rest, n, after)
    ensures n == 0 ==> after == |v.log|
  {
    SourceServes(vt, capacity, v, after);
    rest := Past(Source(v, after).value, after);
    n := RunLength(rest, 0);
    assert rest[..0] == [];
    RunIsContiguous(rest, 0);
  }

  ghost predicate Continues<S>(vt: Vt<S>, log: seq<Chunk>, w: TerminalWindow, after: nat) {
    && after <= w.next <= |log| && |w.data| <= MAX_WINDOW
    && Payloads(log[..after]) + w.data == Payloads(log[..w.next])
    && (forall i :: after <= i < w.next ==> log[i].cols == w.cols && log[i].rows == w.rows)
    && (w.next > after ==> w.first == after + 1)
    && (w.next > after ==> Show(vt, Play(vt, log[..after]), w.cols, w.rows, w.data) == Play(vt, log[..w.next]))
  }

  lemma StretchContinues<S>(vt: Vt<S>, log: seq<Chunk>, rest: seq<Chunk>, n: nat, after: nat)
    requires Lines(rest, log, after, n)
    ensures Payloads(log[..after]) + Payloads(rest[..n]) == Payloads(log[..after + n])
    ensures n > 0 ==>
              Show(vt, Play(vt, log[..after]), rest[0].cols, rest[0].rows, Payloads(rest[..n])) == Play(vt, log[..after + n])
  {
    StretchBytes(rest, log, after, n);
    if n > 0 {
      StretchShown(vt, rest, log, after, n);
    }
  }

  lemma LinesNumbers(rest: seq<Chunk>, log: seq<Chunk>, n: nat, after: nat)
    requires Stretch(log, rest, n, after) && n > 0
    ensures rest[0].num == after + 1 && rest[n - 1].num == after + n
  {
  }

  lemma RunContinues<S>(vt: Vt<S>, log: seq<Chunk>, f: Frame, rest: seq<Chunk>, n: nat, after: nat)
    requires Stretch(log, rest, n, after)
    ensures Continues(vt, log, RunWindow(f, rest, n, after), after)
  {
    StretchLines(rest, log, after, n);
    StretchContinues(vt, log, rest, n, after);
    PayloadsSize(rest[..n]);
    if n > 0 {
      LinesSizes(rest, log, after, n);
      LinesNumbers(rest, log, n, after);
    }
  }

  lemma LinesSizes(rest: seq<Chunk>, log: seq<Chunk>, after: nat, n: nat)
    requires Lines(rest, log, after, n)
    ensures forall i :: after <= i < after + n ==> log[i].cols == rest[0].cols && log[i].rows == rest[0].rows
  {
    forall i | after <= i < after + n ensures log[i].cols == rest[0].cols && log[i].rows == rest[0].rows {
      assert LinesAt(rest, log, after, i - after);
    }
  }

  /**
   * A window without a gap continues the history from the cursor: its bytes
   * are the payloads of the next chunks, all of its one size and within the
   * wire limit, and a terminal that showed everything up to the cursor shows
   * everything up to `next` after it.
   */
  lemma WindowContinues<S>(vt: Vt<S>, capacity: nat, v: Session<S>, after: nat, writer: bool)
    requires Valid(vt, capacity, v) && Window(vt, v, after, writer).Ok? && !Window(vt, v, after, writer).value.gap
    ensures Continues(vt, v.log, Window(vt, v, after, writer).value, after)
  {
    var rest, n := WindowRun(vt, capacity, v, after, writer);
    RunContinues(vt, v.log, FrameOf(v, writer), rest, n, after);
  }

  // ---------------------------------------------------------------------
  // Ring plus journal read like the full history
  // ---------------------------------------------------------------------

  /** Every chunk reached the journal and fits one window. */
  ghost predicate FullyJournaled<S>(v: Session<S>) {
    && v.journaled && |v.stored| == |v.log|
    && (forall i {:trigger v.stored[i]} :: 0 <= i < |v.log| ==> v.stored[i] == v.log[i])
    && forall i :: 0 <= i < |v.log| ==> |v.log[i].payload| <= MAX_WINDOW
  }

  /** Every cursor up to the newest chunk is served without gap or error, and below it with progress. */
  lemma JournalCoversRing<S>(vt: Vt<S>, capacity: nat, v: Session<S>, after: nat, writer: bool)
    requires Valid(vt, capacity, v) && FullyJournaled(v) && after <= |v.log|
    ensures var r := Window(vt, v, after, writer);
            r.Ok? && !r.value.gap && (after < |v.log| ==> r.value.next > after) && (r.value.more <==> r.value.next < |v.log|)
  {
    var chunks := CoveredSource(vt, capacity, v, after);
    WindowFromRun(vt, v, chunks, after, writer);
  }

  lemma CoveredSource<S>(vt: Vt<S>, capacity: nat, v: Session<S>, after: nat) returns (chunks: seq<Chunk>)
    requires Valid(vt, capacity, v) && FullyJournaled(v) && after <= |v.log|
    ensures Source(v, after) == Ok(chunks) && ReadyRun(v.log, chunks, after)
  {
    SourceCovers(v, after);
    SourceServes(vt, capacity, v, after);
    chunks := Source(v, after).value;
    RunStarts(Past(chunks, after), v.log, after);
  }

  /** These chunks can be served from the cursor on, unless the cursor is at the end. */
  ghost predicate ReadyRun(log: seq<Chunk>, chunks: seq<Chunk>, after: nat) {
    var rest := Past(chunks, after);
    && Oldest(chunks) <= after + 1 && !(chunks == [] && after < |log|)
    && Serves(rest, log, after) && (rest == [] ==> after == |log|)
    && rest[..0] == [] && (rest != [] ==> RunLength(rest, 0) > 0)
  }

  lemma WindowFromRun<S>(vt: Vt<S>, v: Session<S>, chunks: seq<Chunk>, after: nat, writer: bool)
    requires after <= |v.log| && ReadyRun(v.log, chunks, after)
    ensures var r := WindowFrom(vt, v, chunks, after, writer);
            r.Ok? && !r.value.gap && (after < |v.log| ==> r.value.next > after) && (r.value.more <==> r.value.next < |v.log|)
  {
    var rest := Past(chunks, after);
    RunIsContiguous(rest, 0);
    var n := RunLength(rest, 0);
    assert n > 0 ==> rest[n - 1].num == after + n;
  }

  lemma SourceCovers<S>(v: Session<S>, after: nat)
    requires IsLog(v.log) && BB.TailAt(v.ring, v.log, v.evicted) && FullyJournaled(v) && after <= |v.log|
    ensures Source(v, after).Ok?
    ensures var chunks := Source(v, after).value; Oldest(chunks) <= after + 1 && !(chunks == [] && after < |v.log|)
  {
    if after < |v.log| && (v.ring == [] || v.ring[0].num > after + 1) {
      assert v.stored == v.log;
      LogPastFirst(v.log, after);
      J.PageIsMaximal(Past(v.stored, after), MAX_WINDOW);
    } else if v.ring != [] {
      assert v.ring[0] == v.log[v.evicted + 0];
    }
  }

  lemma RunStarts(rest: seq<Chunk>, log: seq<Chunk>, after: nat)
    requires Serves(rest, log, after)
    requires forall i :: 0 <= i < |log| ==> |log[i].payload| <= MAX_WINDOW
    ensures rest[..0] == [] && Contiguous(rest, 0) && Size(rest[..0]) <= MAX_WINDOW
    ensures rest != [] ==> RunLength(rest, 0) > 0
  {
    assert rest[..0] == [];
    if rest != [] {
      assert rest[0] == log[after];
      assert Extends(rest, 0);
    }
  }

  /** All windows of a reader that starts at a cursor and feeds `next` back until nothing remains. */
  ghost function ReadAll<S>(vt: Vt<S>, capacity: nat, v: Session<S>, after: nat): seq<TerminalWindow>
    requires Valid(vt, capacity, v) && FullyJournaled(v) && after <= |v.log|
    decreases |v.log| - after
  {
    if after == |v.log| then []
    else
      JournalCoversRing(vt, capacity, v, after, false);
      WindowContinues(vt, capacity, v, after, false);
      var w := Window(vt, v, after, false).value;
      [w] + ReadAll(vt, capacity, v, w.next)
  }

  function AllData(ws: seq<TerminalWindow>): Bytes {
    if ws == [] then [] else ws[0].data + AllData(ws[1..])
  }

  /** Reading from any cursor yields exactly the rest of the history, in at most one call per chunk. */
  lemma {:induction false} ReadAllIsComplete<S>(vt: Vt<S>, capacity: nat, v: Session<S>, after: nat)
    requires Valid(vt, capacity, v) && FullyJournaled(v) && after <= |v.log|
    ensures Payloads(v.log[..after]) + AllData(ReadAll(vt, capacity, v, after)) == Payloads(v.log)
    ensures |ReadAll(vt, capacity, v, after)| <= |v.log| - after
    decreases |v.log| - after
  {
    if after == |v.log| {
      assert v.log[..after] == v.log;
    } else {
      JournalCoversRing(vt, capacity, v, after, false);
      WindowContinues(vt, capacity, v, after, false);
      var w := Window(vt, v, after, false).value;
      var more := ReadAll(vt, capacity, v, w.next);
      ReadAllIsComplete(vt, capacity, v, w.next);
      AllDataCons(w, more, Payloads(v.log[..after]));
    }
  }

  lemma AllDataCons(w: TerminalWindow, more: seq<TerminalWindow>, before: Bytes)
    ensures before + AllData([w] + more) == (before + w.data) + AllData(more)
  {
    assert ([w] + more)[1..] == more;
  }

  // ---------------------------------------------------------------------
  // Gaps and the end
  // ---------------------------------------------------------------------

  /** `ended` is reported exactly when the output is closed and nothing remains past the window. */
  lemma EndedMeans<S>(vt: Vt<S>, v: Session<S>, after: nat, writer: bool)
    requires Window(vt, v, after, writer).Ok?
    ensures var w := Window(vt, v, after, writer).value; w.ended <==> v.closed && w.next == |v.log|
  {
  }

  lemma GapShape<S>(vt: Vt<S>, v: Session<S>, after: nat, writer: bool)
    requires Window(vt, v, after, writer).Ok? && Window(vt, v, after, writer).value.gap
    ensures var w, cp := Window(vt, v, after, writer).value, Checkpoint(vt, v.screen, |v.log|);
            && w.next == |v.log| && !w.more && w.cols == v.cols && w.rows == v.rows
            && w.data == if cp.None? then [] else cp.value
  {
  }

  /** A gap window skips to the newest chunk and carries the drawing of everything so far, or nothing. */
  lemma GapMeans<S>(vt: Vt<S>, v: Session<S>, after: nat, writer: bool)
    requires Tracks(vt, v.screen, v.log) && Window(vt, v, after, writer).Ok? && Window(vt, v, after, writer).value.gap
    ensures var w := Window(vt, v, after, writer).value;
            && w.next == |v.log| && !w.more && w.cols == v.cols && w.rows == v.rows && |w.data| <= MAX_WINDOW
            && (w.data == [] <==> Checkpoint(vt, v.screen, |v.log|).None?)
            && (w.data != [] ==> v.log != [] && Picture(vt, v.log) == Some(w.data))
  {
    GapShape(vt, v, after, writer);
    if Checkpoint(vt, v.screen, |v.log|).Some? {
      CheckpointIsPicture(vt, v.screen, v.log, |v.log|);
    }
  }

  /** The drawing of everything so far, if every size was one a screen can have and it fits one window. */
  ghost function Drawing<S>(vt: Vt<S>, v: Session<S>): Option<Bytes> {
    if !v.screen.disabled && Servable(Picture(vt, v.log)) then Picture(vt, v.log) else None
  }

  lemma CheckpointIsDrawing<S>(vt: Vt<S>, capacity: nat, v: Session<S>)
    requires Valid(vt, capacity, v)
    ensures Checkpoint(vt, v.screen, |v.log|) == Drawing(vt, v)
  {
    CheckpointIff(vt, v.screen, v.log);
  }

  // ---------------------------------------------------------------------
  // How a poll is answered
  // ---------------------------------------------------------------------

  /** Nothing is retained or stored past the cursor, or the next chunk alone exceeds the wire limit. */
  ghost predicate Unreadable<S>(v: Session<S>, after: nat) {
    && after < |v.log|
    && (if v.evicted <= after then |v.log[after].payload| > MAX_WINDOW
        else v.evicted == |v.log| && !(v.journaled && Past(v.stored, after) != []))
  }

  /** The journal is asked, and the first chunk it has past the cursor exceeds the wire limit. */
  ghost predicate PageFails<S>(v: Session<S>, after: nat) {
    && after < v.evicted && v.journaled && Past(v.stored, after) != []
    && |Past(v.stored, after)[0].payload| > MAX_WINDOW
  }

  /** The cursor is ahead, or what is left past it starts later than right after it. */
  ghost predicate Skips<S>(v: Session<S>, after: nat) {
    || after > |v.log|
    || (after < v.evicted && !PageFails(v, after) && !Unreadable(v, after)
        && !(v.journaled && Past(v.stored, after) != [] && Past(v.stored, after)[0].num == after + 1))
  }

  lemma RingStarts<S>(vt: Vt<S>, capacity: nat, v: Session<S>)
    requires Valid(vt, capacity, v)
    ensures v.evicted <= |v.log| && (v.ring == [] <==> v.evicted == |v.log|) && (v.ring != [] ==> v.ring[0].num == v.evicted + 1)
  {
    assert v.ring != [] ==> v.ring[0] == v.log[v.evicted];
  }

  /** With the next chunk in the ring. */
  lemma AnswersFromRing<S>(vt: Vt<S>, capacity: nat, v: Session<S>, after: nat, writer: bool)
    requires Valid(vt, capacity, v) && v.evicted <= after < |v.log|
    ensures var r, cp := Window(vt, v, after, writer), Checkpoint(vt, v.screen, |v.log|);
            if |v.log[after].payload| <= MAX_WINDOW then r.Ok? && !r.value.gap
            else if cp.None? then r == Err(RecoveryUnavailable)
            else r.Ok? && r.value.gap
  {
    RingStarts(vt, capacity, v);
    RingServes(v.ring, v.log, v.evicted, after);
    var rest := Past(v.ring, after);
    assert rest != [] && rest[0] == v.log[after] && rest[..0] == [];
    assert Extends(rest, 0) <==> |v.log[after].payload| <= MAX_WINDOW;
    RunIsContiguous(rest, 0);
  }

  /** With the next chunk evicted. */
  lemma AnswersPastRing<S>(vt: Vt<S>, capacity: nat, v: Session<S>, after: nat, writer: bool)
    requires Valid(vt, capacity, v) && after < v.evicted
    ensures var r, cp, rest := Window(vt, v, after, writer), Checkpoint(vt, v.screen, |v.log|), Past(v.stored, after);
            if v.journaled && rest != [] then
              if |rest[0].payload| > MAX_WINDOW then r == Err(StoreFailed)
              else r.Ok? && (r.value.gap <==> rest[0].num > after + 1)
            else if v.ring == [] && cp.None? then r == Err(RecoveryUnavailable)
            else r.Ok? && r.value.gap
  {
    RingStarts(vt, capacity, v);
    var rest := Past(v.stored, after);
    if v.journaled && rest != [] {
      J.PageIsMaximal(rest, MAX_WINDOW);
      var k := PastSplits(v.stored, after);
      if |rest[0].payload| <= MAX_WINDOW {
        PageAnswers(vt, v, after, writer);
      }
    }
  }

  lemma PageAnswers<S>(vt: Vt<S>, v: Session<S>, after: nat, writer: bool)
    requires Journals(v.stored, v.log) && after < |v.log| && v.journaled && (v.ring == [] || v.ring[0].num > after + 1)
    requires Past(v.stored, after) != [] && |Past(v.stored, after)[0].payload| <= MAX_WINDOW
    ensures var r := Window(vt, v, after, writer);
            r.Ok? && (r.value.gap <==> Past(v.stored, after)[0].num > after + 1)
  {
    var page := PageSource(v, after);
    FromPage(vt, v, page, after, writer);
  }

  lemma PageSource<S>(v: Session<S>, after: nat) returns (page: seq<Chunk>)
    requires Journals(v.stored, v.log) && after < |v.log| && v.journaled && (v.ring == [] || v.ring[0].num > after + 1)
    requires Past(v.stored, after) != [] && |Past(v.stored, after)[0].payload| <= MAX_WINDOW
    ensures Source(v, after) == Ok(page) && page != [] && page[0] == Past(v.stored, after)[0] && page[0].num > after
  {
    var rest := Past(v.stored, after);
    var k := PastSplits(v.stored, after);
    J.PageIsMaximal(rest, MAX_WINDOW);
    page := J.PageOf(rest, MAX_WINDOW).value;
  }

  lemma FromPage<S>(vt: Vt<S>, v: Session<S>, page: seq<Chunk>, after: nat, writer: bool)
    requires page != [] && after < |v.log| && page[0].num > after && |page[0].payload| <= MAX_WINDOW
    ensures var r := WindowFrom(vt, v, page, after, writer); r.Ok? && (r.value.gap <==> page[0].num > after + 1)
  {
    assert Past(page, after) == page && page[..0] == [];
    assert Extends(page, 0);
  }

  /**
   * How a poll of any session is answered: the store error, the recovery error, a
   * gap or plain output, each exactly when the ring, the journal and the drawing
   * call for it.
   */
  lemma AnswerIff<S>(vt: Vt<S>, capacity: nat, v: Session<S>, after: nat, writer: bool)
    requires Valid(vt, capacity, v)
    ensures var r := Window(vt, v, after, writer);
            && (r == Err(StoreFailed) <==> PageFails(v, after))
            && (r == Err(RecoveryUnavailable) <==> Unreadable(v, after) && Drawing(vt, v).None?)
            && (r.Ok? && r.value.gap <==> Skips(v, after) || (Unreadable(v, after) && Drawing(vt, v).Some?))
  {
    CheckpointIsDrawing(vt, capacity, v);
    RingStarts(vt, capacity, v);
    if after > |v.log| {
    } else if after == |v.log| {
      NothingNew(vt, capacity, v, writer);
    } else if v.evicted <= after {
      AnswersFromRing(vt, capacity, v, after, writer);
    } else {
      var k := PastSplits(v.stored, after);
      AnswersPastRing(vt, capacity, v, after, writer);
    }
  }

  /** A gap names the first sequence it could have gone on from: of the journal page, of the ring, or none. */
  lemma GapFirst<S>(vt: Vt<S>, capacity: nat, v: Session<S>, after: nat, writer: bool)
    requires Valid(vt, capacity, v) && Window(vt, v, after, writer).Ok? && Window(vt, v, after, writer).value.gap
    ensures Window(vt, v, after, writer).value.first ==
              if after < v.evicted && v.journaled && Past(v.stored, after) != [] then Past(v.stored, after)[0].num
              else if v.evicted == |v.log| then 0
              else v.evicted + 1
  {
    SourceOldest(vt, capacity, v, after);
    OldestOfGap(vt, v, Source(v, after).value, after, writer);
  }

  lemma OldestOfGap<S>(vt: Vt<S>, v: Session<S>, chunks: seq<Chunk>, after: nat, writer: bool)
    requires WindowFrom(vt, v, chunks, after, writer).Ok? && WindowFrom(vt, v, chunks, after, writer).value.gap
    ensures WindowFrom(vt, v, chunks, after, writer).value.first == Oldest(chunks)
  {
  }

  lemma SourceOldest<S>(vt: Vt<S>, capacity: nat, v: Session<S>, after: nat)
    requires Valid(vt, capacity, v) && Source(v, after).Ok?
    ensures Oldest(Source(v, after).value) ==
              if after < v.evicted && v.journaled && Past(v.stored, after) != [] then Past(v.stored, after)[0].num
              else if v.evicted == |v.log| then 0
              else v.evicted + 1
  {
    RingStarts(vt, capacity, v);
    if Past(v.stored, after) == [] {
      assert J.PageOf(Past(v.stored, after), MAX_WINDOW) == Ok([]);
    } else {
      J.PageIsMaximal(Past(v.stored, after), MAX_WINDOW);
    }
  }

  /** A window says that its reader is the writer exactly when the caller does. */
  lemma WriterIsPassedOn<S>(vt: Vt<S>, v: Session<S>, after: nat, writer: bool)
    requires Window(vt, v, after, writer).Ok?
    ensures Window(vt, v, after, writer).value.writer == writer
  {
  }

  // ---------------------------------------------------------------------
  // Sessions over time
  // ---------------------------------------------------------------------

  /** What can happen to a session; `saved` says whether the journal write succeeded. */
  datatype Event =
    | Output(payload: Bytes, saved: bool)
    | Resize(cols: nat, rows: nat, saved: bool)
    | Close
    | Finalized
    | Poll

  ghost predicate Appended<S>(vt: Vt<S>, capacity: nat, v: Session<S>, v': Session<S>, payload: Bytes,
                              cols: nat, rows: nat, saved: bool) {
    var c := Chunk(|v.log| + 1, payload, ChunkType.Output, cols, rows);
    && v'.log == v.log + [c] && BB.IsRing(v'.ring, v'.log, v'.evicted, capacity)
    && v'.stored == (if v.journaled && saved then v.stored + [c] else v.stored)
    && v'.journaled == v.journaled && v'.cols == cols && v'.rows == rows && v'.closed == v.closed
    && v'.screen == Apply(vt, v.screen, c)
  }

  ghost predicate Next<S>(vt: Vt<S>, capacity: nat, v: Session<S>, v': Session<S>, e: Event) {
    match e
    case Output(payload, saved) =>
      if v.closed then v' == v else Appended(vt, capacity, v, v', payload, v.cols, v.rows, saved)
    case Resize(cols, rows, saved) =>
      cols > 0 && rows > 0 &&
      if v.closed then v' == v.(cols := cols, rows := rows) else Appended(vt, capacity, v, v', [], cols, rows, saved)
    case Close => v' == v.(closed := true, screen := Freeze(v.screen))
    case Finalized => v.closed && v' == v.(screen := Finalize(vt, v.screen))
    case Poll => v' == v || (v.closed && v' == v.(screen := Finalize(vt, v.screen)))
  }

  lemma JournalsSnoc(stored: seq<Chunk>, log: seq<Chunk>, c: Chunk)
    requires Journals(stored, log) && c.num == |log| + 1
    ensures Journals(stored, log + [c]) && Journals(stored + [c], log + [c])
  {
  }

  lemma AppendKeepsValid<S>(vt: Vt<S>, capacity: nat, v: Session<S>, v': Session<S>, payload: Bytes, cols: nat, rows: nat, saved: bool)
    requires Valid(vt, capacity, v) && !v.closed && cols > 0 && rows > 0
    requires Appended(vt, capacity, v, v', payload, cols, rows, saved)
    ensures Valid(vt, capacity, v') && v.log <= v'.log && !v'.closed
  {
    var c := Chunk(|v.log| + 1, payload, ChunkType.Output, cols, rows);
    LogGrows(v.log, c);
    JournalsSnoc(v.stored, v.log, c);
    ApplyTracks(vt, v.screen, v.log, c);
  }

  lemma LogGrows(log: seq<Chunk>, c: Chunk)
    requires IsLog(log) && Sized(log) && c.num == |log| + 1 && c.cols > 0 && c.rows > 0
    ensures IsLog(log + [c]) && Sized(log + [c]) && AtSize(log + [c], c.cols, c.rows) && log <= log + [c]
  {
    BB.LogSnoc(log, c);
  }

  /** Every step keeps the session consistent. */
  lemma NextKeepsValid<S>(vt: Vt<S>, capacity: nat, v: Session<S>, v': Session<S>, e: Event)
    requires Valid(vt, capacity, v) && Next(vt, capacity, v, v', e)
    ensures Valid(vt, capacity, v') && v.log <= v'.log && (v.closed ==> v'.closed && v'.log == v.log)
  {
    if !v.closed && e.Output? {
      AppendKeepsValid(vt, capacity, v, v', e.payload, v.cols, v.rows, e.saved);
    } else if !v.closed && e.Resize? {
      AppendKeepsValid(vt, capacity, v, v', [], e.cols, e.rows, e.saved);
    } else if v.closed {
      FinalizeKeeps(vt, v.screen, v.log, 0);
    }
  }

  // ---------------------------------------------------------------------
  // The viewer
  // ---------------------------------------------------------------------

  /** A viewer: its cursor, what it shows, and whether a gap left it without a picture. */
  datatype Viewer<S> = Viewer(cursor: nat, shown: Option<Term<S>>, lost: bool)

  function NewViewer<S>(): Viewer<S> {
    Viewer(0, None, false)
  }

  /** Output is appended at its size; a gap resets the viewer to the drawing it carries, if any. */
  function Receive<S>(vt: Vt<S>, u: Viewer<S>, w: TerminalWindow): Viewer<S> {
    if w.gap then
      if w.data == [] then Viewer(w.next, u.shown, true)
      else Viewer(w.next, Show(vt, u.shown, w.cols, w.rows, w.data), false)
    else if w.next == u.cursor then u
    else Viewer(w.next, Show(vt, u.shown, w.cols, w.rows, w.data), u.lost)
  }

  function PollOnce<S>(vt: Vt<S>, u: Viewer<S>, v: Session<S>): Viewer<S> {
    var r := Window(vt, v, u.cursor, false);
    if r.Err? then u else Receive(vt, u, r.value)
  }

  function StepViewer<S>(vt: Vt<S>, u: Viewer<S>, v: Session<S>, e: Event): Viewer<S> {
    if e.Poll? then PollOnce(vt, u, v) else u
  }

  /** Unless it lost its picture, the viewer shows what an uninterrupted terminal shows at its cursor. */
  ghost predicate InSync<S>(vt: Vt<S>, u: Viewer<S>, log: seq<Chunk>) {
    u.cursor <= |log| && (u.lost || u.shown == Play(vt, log[..u.cursor]))
  }


  // ---------------------------------------------------------------------
  // Resizes after the end
  // ---------------------------------------------------------------------

  /** After the output has closed, a resize moves the reported size away from the size of the picture. */
  lemma LateResize<S>(vt: Vt<S>, capacity: nat, v: Session<S>, v1: Session<S>, v2: Session<S>, cols: nat, rows: nat, saved: bool)
    requires Valid(vt, capacity, v) && !v.closed && v.log != []
    requires Next(vt, capacity, v, v1, Close) && Next(vt, capacity, v1, v2, Resize(cols, rows, saved))
    ensures v2.log == v.log && v2.cols == cols && v2.rows == rows
    ensures AtSize(v2.log, v2.cols, v2.rows) <==> cols == v.cols && rows == v.rows
  {
  }

  /** The poll is answered by a drawing announced at a size it was not made for. */
  ghost predicate Misdraws<S>(vt: Vt<S>, v: Session<S>, u: Viewer<S>) {
    var r := Window(vt, v, u.cursor, false);
    r.Ok? && r.value.gap && r.value.data != [] && !AtSize(v.log, v.cols, v.rows)
  }

  /**
   * Once the output has ended, a resize still changes the reported size but
   * not the picture. A drawing sent with a gap then leaves the viewer at the
   * wrong size: it shows the session if and only if the sizes agree.
   */
  lemma LateResizeBreaksGap<S(!new)>(vt: Vt<S>, capacity: nat, v: Session<S>, u: Viewer<S>)
    requires RedrawLaw(vt) && Valid(vt, capacity, v) && Window(vt, v, u.cursor, false).Ok?
    requires Window(vt, v, u.cursor, false).value.gap && Window(vt, v, u.cursor, false).value.data != []
    ensures PollOnce(vt, u, v).shown == Play(vt, v.log) <==> AtSize(v.log, v.cols, v.rows)
  {
    GapMeans(vt, v, u.cursor, false);
    PlaySize(vt, v.log);
    if AtSize(v.log, v.cols, v.rows) {
      Redrawn(vt, v.log, u.shown);
    }
  }

  /** One poll keeps the viewer in sync, unless it is answered by a misdrawn gap. */
  lemma PollKeepsSync<S(!new)>(vt: Vt<S>, capacity: nat, v: Session<S>, u: Viewer<S>)
    requires RedrawLaw(vt) && Valid(vt, capacity, v) && InSync(vt, u, v.log) && !Misdraws(vt, v, u)
    ensures InSync(vt, PollOnce(vt, u, v), v.log)
    ensures PollOnce(vt, u, v).lost ==>
              u.lost || (Window(vt, v, u.cursor, false).Ok? && Window(vt, v, u.cursor, false).value.gap
                         && Checkpoint(vt, v.screen, |v.log|).None?)
  {
    var r := Window(vt, v, u.cursor, false);
    if r.Ok? && r.value.gap {
      GapMeans(vt, v, u.cursor, false);
      assert v.log[..|v.log|] == v.log;
      if r.value.data != [] {
        Redrawn(vt, v.log, u.shown);
      }
    } else if r.Ok? {
      WindowContinues(vt, capacity, v, u.cursor, false);
    }
  }

  /** At the newest sequence there is nothing to read and no gap. */
  lemma NothingNew<S>(vt: Vt<S>, capacity: nat, v: Session<S>, writer: bool)
    requires Valid(vt, capacity, v)
    ensures var r := Window(vt, v, |v.log|, writer);
            && r.Ok? && !r.value.gap && r.value.next == |v.log| && r.value.data == [] && !r.value.more
            && r.value.cols == v.cols && r.value.rows == v.rows
  {
    RingServes(v.ring, v.log, v.evicted, |v.log|);
    assert v.ring != [] ==> v.ring[0] == v.log[v.evicted];
  }

  /** The viewer was handed a drawing at the wrong size, and nothing further will come. */
  ghost predicate Spoiled<S>(u: Viewer<S>, v: Session<S>) {
    && v.closed && v.log != [] && u.cursor == |v.log| && !u.lost
    && u.shown.Some? && !AtSize(v.log, u.shown.value.cols, u.shown.value.rows)
  }

  lemma MisdrawSpoils<S>(vt: Vt<S>, capacity: nat, v: Session<S>, u: Viewer<S>)
    requires Valid(vt, capacity, v) && Misdraws(vt, v, u)
    ensures Spoiled(PollOnce(vt, u, v), v)
  {
    GapMeans(vt, v, u.cursor, false);
  }

  lemma SpoiledStays<S>(vt: Vt<S>, capacity: nat, v: Session<S>, v': Session<S>, e: Event, u: Viewer<S>)
    requires Valid(vt, capacity, v) && Spoiled(u, v) && Next(vt, capacity, v, v', e)
    ensures Spoiled(StepViewer(vt, u, v, e), v')
  {
    NextKeepsValid(vt, capacity, v, v', e);
    if e.Poll? {
      NothingNew(vt, capacity, v, false);
    }
  }

  lemma NextGrows<S>(vt: Vt<S>, capacity: nat, v: Session<S>, v': Session<S>, e: Event)
    requires Next(vt, capacity, v, v', e)
    ensures v.log <= v'.log && (e.Poll? ==> v'.log == v.log)
  {
  }

  lemma SyncExtends<S>(vt: Vt<S>, u: Viewer<S>, log: seq<Chunk>, log': seq<Chunk>)
    requires InSync(vt, u, log) && log <= log'
    ensures InSync(vt, u, log')
  {
    assert log'[..u.cursor] == log[..u.cursor];
  }

  lemma StepKeepsSync<S(!new)>(vt: Vt<S>, capacity: nat, v: Session<S>, v': Session<S>, e: Event, u: Viewer<S>)
    requires RedrawLaw(vt) && Valid(vt, capacity, v) && InSync(vt, u, v.log) && Next(vt, capacity, v, v', e)
    requires e.Poll? ==> !Misdraws(vt, v, u)
    ensures InSync(vt, StepViewer(vt, u, v, e), v'.log)
  {
    NextGrows(vt, capacity, v, v', e);
    if e.Poll? {
      PollKeepsSync(vt, capacity, v, u);
    } else {
      SyncExtends(vt, u, v.log, v'.log);
    }
  }

  // ---------------------------------------------------------------------
  // Runs
  // ---------------------------------------------------------------------

  /** A run: consecutive states of one session. */
  ghost predicate Run<S>(vt: Vt<S>, capacity: nat, states: seq<Session<S>>, events: seq<Event>) {
    && |states| == |events| + 1 && Valid(vt, capacity, states[0])
    && forall i: nat :: i < |events| ==> StepAt(vt, capacity, states, events, i)
  }

  ghost predicate StepAt<S>(vt: Vt<S>, capacity: nat, states: seq<Session<S>>, events: seq<Event>, i: nat)
    requires i < |events| < |states|
  {
    Next(vt, capacity, states[i], states[i + 1], events[i])
  }

  /** The viewer after the first `n` events of a run, polling where the run says so. */
  function ViewerAt<S>(vt: Vt<S>, states: seq<Session<S>>, events: seq<Event>, n: nat): Viewer<S>
    requires n <= |events| < |states|
  {
    if n == 0 then NewViewer()
    else
      StepViewer(vt, ViewerAt(vt, states, events, n - 1), states[n - 1], events[n - 1])
  }

  /** One of the polls so far met a gap while the reported size was not that of the picture. */
  ghost predicate Misdrawn<S>(vt: Vt<S>, states: seq<Session<S>>, events: seq<Event>, n: nat)
    requires n <= |events| < |states|
  {
    n > 0 &&
    (Misdrawn(vt, states, events, n - 1)
     || (events[n - 1].Poll? && Misdraws(vt, states[n - 1], ViewerAt(vt, states, events, n - 1))))
  }

  lemma {:induction false} RunIsValid<S>(vt: Vt<S>, capacity: nat, states: seq<Session<S>>, events: seq<Event>, n: nat)
    requires Run(vt, capacity, states, events) && n <= |events|
    ensures Valid(vt, capacity, states[n])
  {
    if n > 0 {
      RunIsValid(vt, capacity, states, events, n - 1);
      assert StepAt(vt, capacity, states, events, n - 1);
      NextKeepsValid(vt, capacity, states[n - 1], states[n], events[n - 1]);
    }
  }

  lemma {:induction false} SyncOrSpoiled<S(!new)>(vt: Vt<S>, capacity: nat, states: seq<Session<S>>,
                                                  events: seq<Event>, n: nat)
    requires RedrawLaw(vt) && Run(vt, capacity, states, events) && n <= |events|
    ensures var u := ViewerAt(vt, states, events, n);
            if Misdrawn(vt, states, events, n) then Spoiled(u, states[n]) else InSync(vt, u, states[n].log)
  {
    if n > 0 {
      SyncOrSpoiled(vt, capacity, states, events, n - 1);
      RunIsValid(vt, capacity, states, events, n - 1);
      assert StepAt(vt, capacity, states, events, n - 1);
      SyncStep(vt, capacity, states[n - 1], states[n], events[n - 1], ViewerAt(vt, states, events, n - 1),
               Misdrawn(vt, states, events, n - 1));
    }
  }

  lemma SyncStep<S(!new)>(vt: Vt<S>, capacity: nat, v: Session<S>, v': Session<S>, e: Event, u: Viewer<S>, spoiled: bool)
    requires RedrawLaw(vt) && Valid(vt, capacity, v) && Next(vt, capacity, v, v', e)
    requires if spoiled then Spoiled(u, v) else InSync(vt, u, v.log)
    ensures if spoiled || (e.Poll? && Misdraws(vt, v, u)) then Spoiled(StepViewer(vt, u, v, e), v')
            else InSync(vt, StepViewer(vt, u, v, e), v'.log)
  {
    if spoiled {
      SpoiledStays(vt, capacity, v, v', e, u);
    } else if e.Poll? && Misdraws(vt, v, u) {
      MisdrawSpoils(vt, capacity, v, u);
      NextKeepsValid(vt, capacity, v, v', e);
    } else {
      StepKeepsSync(vt, capacity, v, v', e, u);
    }
  }

  /**
   * For every interleaving of output, resizes, evictions, failed journal
   * writes, the end of the session and polls: a viewer that feeds `next` back
   * shows exactly what an uninterrupted terminal shows at its cursor, unless a
   * gap left it without a picture, if and only if no gap was drawn for it
   * while the reported size was not that of the picture.
   */
  lemma ViewerSimulation<S(!new)>(vt: Vt<S>, capacity: nat, states: seq<Session<S>>, events: seq<Event>, n: nat)
    requires RedrawLaw(vt) && Run(vt, capacity, states, events) && n <= |events|
    ensures var u, log := ViewerAt(vt, states, events, n), states[n].log;
            && u.cursor <= |log|
            && (u.lost || (u.shown == Play(vt, log[..u.cursor]) <==> !Misdrawn(vt, states, events, n)))
  {
    SyncOrSpoiled(vt, capacity, states, events, n);
    var u, log := ViewerAt(vt, states, events, n), states[n].log;
    if Misdrawn(vt, states, events, n) {
      assert log[..u.cursor] == log;
      PlaySize(vt, log);
    }
  }

  /** While the output is open, the size is always right, so nothing is misdrawn. */
  lemma {:induction false} OpenIsNeverMisdrawn<S>(vt: Vt<S>, capacity: nat, states: seq<Session<S>>, events: seq<Event>, n: nat)
    requires Run(vt, capacity, states, events) && n <= |events| && !states[n].closed
    ensures !Misdrawn(vt, states, events, n)
  {
    if n > 0 {
      assert StepAt(vt, capacity, states, events, n - 1);
      RunIsValid(vt, capacity, states, events, n - 1);
      NextKeepsValid(vt, capacity, states[n - 1], states[n], events[n - 1]);
      OpenIsNeverMisdrawn(vt, capacity, states, events, n - 1);
    }
  }

  // ---------------------------------------------------------------------
  // Runs in which everything is saved
  // ---------------------------------------------------------------------

  /** The journal write succeeds and the chunk fits one window. */
  predicate Saves(e: Event) {
    match e
    case Output(payload, saved) => saved && |payload| <= MAX_WINDOW
    case Resize(_, _, saved) => saved
    case _ => true
  }

  lemma NextJournals<S>(vt: Vt<S>, capacity: nat, v: Session<S>, v': Session<S>, e: Event)
    requires FullyJournaled(v) && Next(vt, capacity, v, v', e) && Saves(e)
    ensures FullyJournaled(v')
  {
  }

  /** With everything saved, a poll is answered without a gap, and with progress unless nothing is new. */
  lemma SavedPoll<S>(vt: Vt<S>, capacity: nat, v: Session<S>, u: Viewer<S>)
    requires Valid(vt, capacity, v) && FullyJournaled(v) && InSync(vt, u, v.log) && !u.lost
    ensures var r, u' := Window(vt, v, u.cursor, false), PollOnce(vt, u, v);
            && r.Ok? && !r.value.gap && InSync(vt, u', v.log) && !u'.lost
            && (u.cursor < |v.log| ==> u.cursor < u'.cursor)
  {
    JournalCoversRing(vt, capacity, v, u.cursor, false);
    WindowContinues(vt, capacity, v, u.cursor, false);
  }

  lemma SavedStep<S>(vt: Vt<S>, capacity: nat, v: Session<S>, v': Session<S>, e: Event, u: Viewer<S>)
    requires Valid(vt, capacity, v) && FullyJournaled(v) && InSync(vt, u, v.log) && !u.lost
    requires Next(vt, capacity, v, v', e) && Saves(e)
    ensures var u' := StepViewer(vt, u, v, e);
            FullyJournaled(v') && InSync(vt, u', v'.log) && !u'.lost && !(e.Poll? && Misdraws(vt, v, u))
  {
    NextJournals(vt, capacity, v, v', e);
    NextGrows(vt, capacity, v, v', e);
    if e.Poll? {
      SavedPoll(vt, capacity, v, u);
    } else {
      SyncExtends(vt, u, v.log, v'.log);
    }
  }

  /**
   * Over every run in which each chunk is saved and none is over 65536 bytes,
   * late resizes included: a viewer never meets a gap or an error, is never lost
   * or misdrawn, and shows exactly what an uninterrupted terminal shows at its
   * cursor. This asks nothing of the emulator.
   */
  lemma {:induction false} SavedViewerSeesAll<S>(vt: Vt<S>, capacity: nat, states: seq<Session<S>>, events: seq<Event>, n: nat)
    requires Run(vt, capacity, states, events) && n <= |events| && FullyJournaled(states[0])
    requires forall i :: 0 <= i < |events| ==> Saves(events[i])
    ensures var u, v := ViewerAt(vt, states, events, n), states[n];
            && Valid(vt, capacity, v) && FullyJournaled(v) && !u.lost && !Misdrawn(vt, states, events, n)
            && u.cursor <= |v.log| && u.shown == Play(vt, v.log[..u.cursor])
            && Window(vt, v, u.cursor, false).Ok? && !Window(vt, v, u.cursor, false).value.gap
  {
    if n == 0 {
      assert states[0].log[..0] == [];
    } else {
      SavedViewerSeesAll(vt, capacity, states, events, n - 1);
      assert StepAt(vt, capacity, states, events, n - 1);
      SavedStep(vt, capacity, states[n - 1], states[n], events[n - 1], ViewerAt(vt, states, events, n - 1));
    }
    RunIsValid(vt, capacity, states, events, n);
    SavedPoll(vt, capacity, states[n], ViewerAt(vt, states, events, n));
  }

  // ---------------------------------------------------------------------
  // When a viewer is left without a picture
  // ---------------------------------------------------------------------

  /** The screen was given up exactly if some chunk had a size that no screen can have. */
  ghost predicate ScreenKept<S>(v: Session<S>) {
    v.screen.disabled <==> exists i :: 0 <= i < |v.log| && !FitsScreen(v.log[i])
  }

  lemma AppendKeepsScreen<S>(vt: Vt<S>, capacity: nat, v: Session<S>, v': Session<S>, payload: Bytes, cols: nat, rows: nat, saved: bool)
    requires Valid(vt, capacity, v) && !v.closed && ScreenKept(v) && Appended(vt, capacity, v, v', payload, cols, rows, saved)
    ensures ScreenKept(v')
  {
    var c := Chunk(|v.log| + 1, payload, ChunkType.Output, cols, rows);
    DisabledIff(vt, v.screen, v.log, c);
    assert v'.log[|v.log|] == c;
    assert forall i :: 0 <= i < |v.log| ==> v'.log[i] == v.log[i];
  }

  lemma NextKeepsScreen<S>(vt: Vt<S>, capacity: nat, v: Session<S>, v': Session<S>, e: Event)
    requires Valid(vt, capacity, v) && ScreenKept(v) && Next(vt, capacity, v, v', e)
    ensures ScreenKept(v')
  {
    if !v.closed && e.Output? {
      AppendKeepsScreen(vt, capacity, v, v', e.payload, v.cols, v.rows, e.saved);
    } else if !v.closed && e.Resize? {
      AppendKeepsScreen(vt, capacity, v, v', [], e.cols, e.rows, e.saved);
    }
  }

  lemma {:induction false} RunKeepsScreen<S>(vt: Vt<S>, capacity: nat, states: seq<Session<S>>, events: seq<Event>, n: nat)
    requires Run(vt, capacity, states, events) && n <= |events| && ScreenKept(states[0])
    ensures ScreenKept(states[n])
  {
    if n > 0 {
      RunKeepsScreen(vt, capacity, states, events, n - 1);
      RunIsValid(vt, capacity, states, events, n - 1);
      assert StepAt(vt, capacity, states, events, n - 1);
      NextKeepsScreen(vt, capacity, states[n - 1], states[n], events[n - 1]);
    }
  }

  /** Every size so far was one a screen can have, and the drawing of everything fits one window. */
  ghost predicate Drawable<S>(vt: Vt<S>, log: seq<Chunk>) {
    (forall i :: 0 <= i < |log| ==> FitsScreen(log[i])) && Servable(Picture(vt, log))
  }

  /**
   * Over every run, a poll takes the picture from a viewer if and only if the
   * viewer's next chunk is not at hand and the session cannot be drawn.
   */
  lemma LostIff<S>(vt: Vt<S>, capacity: nat, states: seq<Session<S>>, events: seq<Event>, n: nat)
    requires Run(vt, capacity, states, events) && n < |events| && ScreenKept(states[0]) && events[n].Poll?
    requires !ViewerAt(vt, states, events, n).lost
    ensures ViewerAt(vt, states, events, n + 1).lost <==>
              Skips(states[n], ViewerAt(vt, states, events, n).cursor) && !Drawable(vt, states[n].log)
  {
    var v, u := states[n], ViewerAt(vt, states, events, n);
    RunIsValid(vt, capacity, states, events, n);
    RunKeepsScreen(vt, capacity, states, events, n);
    AnswerIff(vt, capacity, v, u.cursor, false);
    PollLoses(vt, capacity, v, u);
  }

  lemma PollLoses<S>(vt: Vt<S>, capacity: nat, v: Session<S>, u: Viewer<S>)
    requires Valid(vt, capacity, v) && !u.lost
    ensures PollOnce(vt, u, v).lost <==>
              var r := Window(vt, v, u.cursor, false); r.Ok? && r.value.gap && Drawing(vt, v).None?
  {
    CheckpointIsDrawing(vt, capacity, v);
    if Window(vt, v, u.cursor, false).Ok? && Window(vt, v, u.cursor, false).value.gap {
      GapMeans(vt, v, u.cursor, false);
    }
  }

  /** A viewer of a session that can be drawn at every poll is never lost. */
  lemma {:induction false} DrawableIsNeverLost<S>(vt: Vt<S>, capacity: nat, states: seq<Session<S>>, events: seq<Event>, n: nat)
    requires Run(vt, capacity, states, events) && n <= |events| && ScreenKept(states[0])
    requires forall i :: 0 <= i < n && events[i].Poll? ==> Drawable(vt, states[i].log)
    ensures !ViewerAt(vt, states, events, n).lost
  {
    if n > 0 {
      DrawableIsNeverLost(vt, capacity, states, events, n - 1);
      if events[n - 1].Poll? {
        LostIff(vt, capacity, states, events, n - 1);
      }
    }
  }

  lemma {:induction false} ClosedStays<S>(vt: Vt<S>, capacity: nat, states: seq<Session<S>>, events: seq<Event>, i: nat, j: nat)
    requires Run(vt, capacity, states, events) && i <= j <= |events| && states[i].closed
    ensures states[j].closed && states[j].log == states[i].log
  {
    if i < j {
      ClosedStays(vt, capacity, states, events, i, j - 1);
      assert StepAt(vt, capacity, states, events, j - 1);
    }
  }

  /** After a window said `ended`, nothing is ever appended past it. */
  lemma EndedIsFinal<S>(vt: Vt<S>, capacity: nat, states: seq<Session<S>>, events: seq<Event>, i: nat, j: nat, after: nat)
    requires Run(vt, capacity, states, events) && i <= j <= |events|
    requires Window(vt, states[i], after, false).Ok? && Window(vt, states[i], after, false).value.ended
    ensures var next := Window(vt, states[i], after, false).value.next;
            states[j].log == states[i].log && |states[j].log| == next
  {
    EndedMeans(vt, states[i], after, false);
    ClosedStays(vt, capacity, states, events, i, j);
  }

  // ---------------------------------------------------------------------
  // Waiting for output
  // ---------------------------------------------------------------------

  lemma StretchMoves(f: Frame, log: seq<Chunk>, rest: seq<Chunk>, n: nat, after: nat)
    requires Stretch(log, rest, n, after)
    ensures RunWindow(f, rest, n, after).next == after + n
  {
  }

  /** A window that neither moves nor reports a gap means that nothing lies past the cursor. */
  lemma EmptyWindowMeans<S>(vt: Vt<S>, capacity: nat, v: Session<S>, after: nat, writer: bool)
    requires Valid(vt, capacity, v) && Window(vt, v, after, writer).Ok?
    requires !Window(vt, v, after, writer).value.gap && Window(vt, v, after, writer).value.next == after
    ensures after == |v.log|
  {
    var rest, n := WindowRun(vt, capacity, v, after, writer);
    StretchMoves(FrameOf(v, writer), v.log, rest, n, after);
  }

  lemma {:induction false} WakeAllSplit(w: BB.Wakeups, a: seq<BB.WakeStep>, b: seq<BB.WakeStep>)
    requires BB.WakeValid(w)
    ensures BB.WakeAll(w, a + b) == BB.WakeAll(BB.WakeAll(w, a), b)
  {
    if b == [] {
      assert a + b == a;
    } else {
      assert (a + b)[..|a + b| - 1] == a + b[..|b| - 1];
      WakeAllSplit(w, a, b[..|b| - 1]);
    }
  }

  /**
   * The waiting call subscribes at `w`, reads the window some appends later, and
   * sleeps if it shows nothing new. However long it sleeps, as long as its
   * channel is open nothing past its cursor has been produced.
   */
  lemma WaitMissesNothing<S>(vt: Vt<S>, capacity: nat, v: Session<S>, after: nat, writer: bool,
                             w: BB.Wakeups, before: seq<BB.WakeStep>, later: seq<BB.WakeStep>)
    requires BB.WakeValid(w) && w.changed.Some?
    requires Valid(vt, capacity, v) && BB.WakeAll(w, before).lastSeq == |v.log|
    requires Window(vt, v, after, writer).Ok? && !Window(vt, v, after, writer).value.gap
    requires Window(vt, v, after, writer).value.next == after
    ensures var now := BB.WakeAll(BB.WakeAll(w, before), later);
            w.changed.value < |now.closed| && (!now.closed[w.changed.value] ==> now.lastSeq == after)
  {
    EmptyWindowMeans(vt, capacity, v, after, writer);
    WakeAllSplit(w, before, later);
    BB.NoLostWakeup(w, before);
    BB.NoLostWakeup(w, before + later);
  }
}
