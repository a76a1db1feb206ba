/** The activity buffer of a provider session and the cursor protocol its readers follow. */
module Activity {
  import opened Common

  const MAX_EVENTS := 128
  const MAX_BYTES := 32768
  const MIN_BYTES := 1024
  const MAX_AGE := 900

  datatype Activity = Activity(sequence: nat, at: int, kind: Bytes, summary: Bytes)

  datatype Window = Window(events: seq<Activity>, next: nat, gap: bool)

  /** Encoded sizes, of the retained events and of a window. */
  datatype Codec = Codec(ofEvents: seq<Activity> -> nat, ofWindow: Window -> nat)

  /** A window without events always fits the smallest limit. */
  ghost predicate Small(codec: Codec) {
    forall next, gap :: codec.ofWindow(Window([], next, gap)) <= MIN_BYTES
  }

  /** The whole history, numbered from 1. */
  ghost predicate IsHistory(log: seq<Activity>) {
    forall i :: 0 <= i < |log| ==> log[i].sequence == i + 1
  }

  // ---------------------------------------------------------------------
  // Trimming
  // ---------------------------------------------------------------------

  predicate Retained(codec: Codec, events: seq<Activity>, now: int)
    requires events != []
  {
    |events| <= MAX_EVENTS && codec.ofEvents(events) <= MAX_BYTES && now - events[0].at <= MAX_AGE
  }

  /** How many of the oldest events go, counting from `k`. */
  function Dropped(codec: Codec, events: seq<Activity>, now: int, k: nat): nat
    requires k <= |events|
    decreases |events| - k
  {
    if k == |events| || Retained(codec, events[k..], now) then k else Dropped(codec, events, now, k + 1)
  }

  /** Trimming drops as few of the oldest events as possible. */
  lemma {:induction false} DroppedIsLeast(codec: Codec, events: seq<Activity>, now: int, k: nat)
    requires k <= |events|
    ensures var d := Dropped(codec, events, now, k);
            && k <= d <= |events| && (d < |events| ==> Retained(codec, events[d..], now))
            && forall j :: k <= j < d ==> !Retained(codec, events[j..], now)
    decreases |events| - k
  {
    if k < |events| && !Retained(codec, events[k..], now) {
      DroppedIsLeast(codec, events, now, k + 1);
    }
  }

  // ---------------------------------------------------------------------
  // Windows
  // ---------------------------------------------------------------------

  function EventLimit(maxEvents: int): (n: nat)
    ensures 1 <= n <= MAX_EVENTS && (1 <= maxEvents <= MAX_EVENTS ==> n == maxEvents)
  {
    if maxEvents <= 0 || maxEvents > MAX_EVENTS then MAX_EVENTS else maxEvents
  }

  function ByteLimit(maxBytes: int): (n: nat)
    ensures MIN_BYTES <= n <= MAX_BYTES && (MIN_BYTES <= maxBytes <= MAX_BYTES ==> n == maxBytes)
  {
    if maxBytes < MIN_BYTES || maxBytes > MAX_BYTES then MAX_BYTES else maxBytes
  }

  /** How many of `rest` a window takes, having taken `n`: it stops at the first that would not fit. */
  function Taken(codec: Codec, rest: seq<Activity>, gap: bool, limit: nat, bytes: nat, n: nat): nat
    requires n <= |rest|
    decreases |rest| - n
  {
    if n < |rest| && n < limit && codec.ofWindow(Window(rest[..n + 1], rest[n].sequence, gap)) <= bytes
    then Taken(codec, rest, gap, limit, bytes, n + 1) else n
  }

  predicate IsGap(trimmed: nat, total: nat, after: nat) {
    after < trimmed || after > total
  }

  function Start(trimmed: nat, total: nat, after: nat): nat {
    if IsGap(trimmed, total, after) then trimmed else after
  }

  /** The window past `after`, of a history of which `trimmed` events are gone. */
  function WindowOf(codec: Codec, log: seq<Activity>, trimmed: nat, after: nat, maxEvents: int, maxBytes: int): Window
    requires trimmed <= |log|
  {
    var gap, start := IsGap(trimmed, |log|, after), Start(trimmed, |log|, after);
    var rest := log[start..];
    var n := Taken(codec, rest, gap, EventLimit(maxEvents), ByteLimit(maxBytes), 0);
    TakenBounds(codec, rest, gap, EventLimit(maxEvents), ByteLimit(maxBytes), 0);
    Window(rest[..n], start + n, gap)
  }

  lemma {:induction false} TakenBounds(codec: Codec, rest: seq<Activity>, gap: bool, limit: nat, bytes: nat, n: nat)
    requires n <= |rest|
    ensures var t := Taken(codec, rest, gap, limit, bytes, n);
            && n <= t <= |rest| && (n <= limit ==> t <= limit)
            && (t > n ==> codec.ofWindow(Window(rest[..t], rest[t - 1].sequence, gap)) <= bytes)
            && (t < |rest| ==> t >= limit || codec.ofWindow(Window(rest[..t + 1], rest[t].sequence, gap)) > bytes)
    decreases |rest| - n
  {
    if n < |rest| && n < limit && codec.ofWindow(Window(rest[..n + 1], rest[n].sequence, gap)) <= bytes {
      TakenBounds(codec, rest, gap, limit, bytes, n + 1);
    }
  }

  /** The next event is there but its window, alone, is over the byte limit. */
  predicate NextTooLarge(codec: Codec, log: seq<Activity>, start: nat, gap: bool, maxBytes: int) {
    start < |log| && codec.ofWindow(Window([log[start]], log[start].sequence, gap)) > ByteLimit(maxBytes)
  }

  /**
   * A window is the run of events right after the cursor, or after the trimmed
   * ones if it reports a gap; a gap means the next event is gone or the cursor is
   * ahead; the encoded window fits; and it is empty exactly when nothing is left
   * or the next event alone is too large.
   */
  lemma WindowMeans(codec: Codec, log: seq<Activity>, trimmed: nat, after: nat, maxEvents: int, maxBytes: int)
    requires IsHistory(log) && trimmed <= |log| && Small(codec)
    ensures var w := WindowOf(codec, log, trimmed, after, maxEvents, maxBytes);
            var start := Start(trimmed, |log|, after);
            && (w.gap <==> after > |log| || (after < |log| && after + 1 <= trimmed))
            && start + |w.events| <= |log| && w.events == log[start..start + |w.events|] && w.next == start + |w.events|
            && (!w.gap ==> start == after) && trimmed <= start
            && |w.events| <= EventLimit(maxEvents) && codec.ofWindow(w) <= ByteLimit(maxBytes)
            && (w.events == [] <==> start == |log| || NextTooLarge(codec, log, start, w.gap, maxBytes))
  {
    var gap, start := IsGap(trimmed, |log|, after), Start(trimmed, |log|, after);
    var rest := log[start..];
    TailNumbered(log, start);
    TakenMeans(codec, rest, start, gap, EventLimit(maxEvents), ByteLimit(maxBytes));
    TailTake(log, start, Taken(codec, rest, gap, EventLimit(maxEvents), ByteLimit(maxBytes), 0));
  }

  /** Events numbered on from `start`. */
  ghost predicate Numbered(rest: seq<Activity>, start: nat) {
    forall i :: 0 <= i < |rest| ==> rest[i].sequence == start + i + 1
  }

  lemma TailNumbered(log: seq<Activity>, start: nat)
    requires IsHistory(log) && start <= |log|
    ensures Numbered(log[start..], start) && (start < |log| ==> log[start..][0] == log[start])
  {
  }

  lemma TailTake(log: seq<Activity>, start: nat, n: nat)
    requires start + n <= |log|
    ensures log[start..][..n] == log[start..start + n]
  {
  }

  /** What a window takes of the events that follow. */
  lemma TakenMeans(codec: Codec, rest: seq<Activity>, start: nat, gap: bool, limit: nat, bytes: nat)
    requires Numbered(rest, start) && limit >= 1 && codec.ofWindow(Window([], start, gap)) <= bytes
    ensures var n := Taken(codec, rest, gap, limit, bytes, 0);
            && n <= |rest| && n <= limit && codec.ofWindow(Window(rest[..n], start + n, gap)) <= bytes
            && (n == 0 <==> rest == [] || codec.ofWindow(Window([rest[0]], rest[0].sequence, gap)) > bytes)
  {
    TakenBounds(codec, rest, gap, limit, bytes, 0);
    if Taken(codec, rest, gap, limit, bytes, 0) == 0 {
      assert rest[..0] == [];
    }
    if rest != [] {
      assert rest[..1] == [rest[0]];
    }
  }

  // ---------------------------------------------------------------------
  // A reader that feeds the cursor back
  // ---------------------------------------------------------------------

  /** The buffer, and a reader holding the events received since the last reported gap. */
  datatype Feed = Feed(log: seq<Activity>, trimmed: nat, cursor: nat, from: nat, got: seq<Activity>)

  const NewFeed := Feed([], 0, 0, 0, [])

  /** `utf8` says whether the summary is valid UTF-8. */
  datatype Step =
    | Append(kind: Bytes, summary: Bytes, utf8: bool, now: int)
    | Poll(maxEvents: int, maxBytes: int, now: int)

  predicate Acceptable(kind: Bytes, summary: Bytes, utf8: bool) {
    |kind| <= 32 && |summary| <= 512 && utf8
  }

  function TrimmedAt(codec: Codec, log: seq<Activity>, trimmed: nat, now: int): (k: nat)
    requires trimmed <= |log|
    ensures trimmed <= k <= |log|
  {
    DroppedIsLeast(codec, log[trimmed..], now, 0);
    trimmed + Dropped(codec, log[trimmed..], now, 0)
  }

  function Next(codec: Codec, f: Feed, step: Step): Feed
    requires f.trimmed <= |f.log|
  {
    match step
    case Append(kind, summary, utf8, now) =>
      if !Acceptable(kind, summary, utf8) then f
      else
        var log := f.log + [Activity(|f.log| + 1, now, kind, summary)];
        f.(log := log, trimmed := TrimmedAt(codec, log, f.trimmed, now))
    case Poll(maxEvents, maxBytes, now) =>
      var trimmed := TrimmedAt(codec, f.log, f.trimmed, now);
      var w := WindowOf(codec, f.log, trimmed, f.cursor, maxEvents, maxBytes);
      f.(trimmed := trimmed, cursor := w.next,
         from := if w.gap then trimmed else f.from,
         got := if w.gap then w.events else f.got + w.events)
  }

  /** The reader holds every event from `from` up to its cursor, in order, each once. */
  ghost predicate InSync(f: Feed) {
    && IsHistory(f.log) && f.trimmed <= |f.log|
    && f.from <= f.cursor <= |f.log| && f.got == f.log[f.from..f.cursor]
  }

  function Run(codec: Codec, f: Feed, steps: seq<Step>): (f': Feed)
    requires f.trimmed <= |f.log|
    ensures f'.trimmed <= |f'.log|
  {
    if steps == [] then f else Next(codec, Run(codec, f, steps[..|steps| - 1]), steps[|steps| - 1])
  }

  lemma PollKeepsSync(codec: Codec, f: Feed, maxEvents: int, maxBytes: int, now: int)
    requires InSync(f) && Small(codec)
    ensures InSync(Next(codec, f, Poll(maxEvents, maxBytes, now)))
  {
    var trimmed := TrimmedAt(codec, f.log, f.trimmed, now);
    var w := WindowOf(codec, f.log, trimmed, f.cursor, maxEvents, maxBytes);
    WindowMeans(codec, f.log, trimmed, f.cursor, maxEvents, maxBytes);
    if !w.gap {
      SlicesJoin(f.log, f.from, f.cursor, w.next);
    }
  }

  lemma SlicesJoin(log: seq<Activity>, i: nat, j: nat, k: nat)
    requires i <= j <= k <= |log|
    ensures log[i..j] + log[j..k] == log[i..k]
  {
  }

  lemma StepKeepsSync(codec: Codec, f: Feed, step: Step)
    requires InSync(f) && Small(codec)
    ensures InSync(Next(codec, f, step))
  {
    match step
    case Append(kind, summary, utf8, now) =>
      assert f.got == (f.log + [Activity(|f.log| + 1, now, kind, summary)])[f.from..f.cursor];
    case Poll(maxEvents, maxBytes, now) =>
      PollKeepsSync(codec, f, maxEvents, maxBytes, now);
  }

  /**
   * Across any appends, trims and polls, the windows since the last reported gap
   * hold every event in order with no repeats, and a gap skips only trimmed events.
   */
  lemma {:induction false} CursorProtocol(codec: Codec, steps: seq<Step>)
    requires Small(codec)
    ensures InSync(Run(codec, NewFeed, steps))
  {
    if steps != [] {
      CursorProtocol(codec, steps[..|steps| - 1]);
      StepKeepsSync(codec, Run(codec, NewFeed, steps[..|steps| - 1]), steps[|steps| - 1]);
    }
  }

  /** In a run, a poll reports a gap exactly when the event after the cursor was trimmed. */
  lemma GapMeansTrimmed(codec: Codec, f: Feed, maxEvents: int, maxBytes: int, now: int)
    requires InSync(f) && Small(codec)
    ensures var trimmed := TrimmedAt(codec, f.log, f.trimmed, now);
            WindowOf(codec, f.log, trimmed, f.cursor, maxEvents, maxBytes).gap <==> f.cursor < |f.log| && f.log[f.cursor].sequence <= trimmed
  {
    WindowMeans(codec, f.log, TrimmedAt(codec, f.log, f.trimmed, now), f.cursor, maxEvents, maxBytes);
  }

  // ---------------------------------------------------------------------
  // A reader that is stopped by one event
  // ---------------------------------------------------------------------

  /** Every poll asks for this many bytes. */
  predicate AsksFor(steps: seq<Step>, maxBytes: int) {
    forall i :: 0 <= i < |steps| && steps[i].Poll? ==> steps[i].maxBytes == maxBytes
  }

  /** Nothing was delivered. */
  ghost predicate Stalled(f: Feed, f': Feed) {
    f'.cursor == f.cursor && f'.from == f.from && f'.got == f.got
  }

  lemma StepStalls(codec: Codec, f: Feed, step: Step, maxBytes: int)
    requires InSync(f) && Small(codec) && NextTooLarge(codec, f.log, f.cursor, false, maxBytes)
    requires step.Poll? ==> step.maxBytes == maxBytes
    ensures var f' := Next(codec, f, step);
            && f.log <= f'.log && f.trimmed <= f'.trimmed
            && (f'.trimmed <= f.cursor ==> Stalled(f, f'))
  {
    match step
    case Append(_, _, _, _) =>
    case Poll(maxEvents, _, now) =>
      var trimmed := TrimmedAt(codec, f.log, f.trimmed, now);
      WindowMeans(codec, f.log, trimmed, f.cursor, maxEvents, maxBytes);
      var w := WindowOf(codec, f.log, trimmed, f.cursor, maxEvents, maxBytes);
      if trimmed <= f.cursor {
        assert f.got + w.events == f.got;
      }
  }

  /**
   * When the next event alone is over the limit asked for, a reader that keeps
   * asking for that limit gets nothing, whatever is appended and however often it
   * polls, as long as that event is not trimmed.
   */
  lemma {:induction false} StalledUntilTrimmed(codec: Codec, f: Feed, steps: seq<Step>, maxBytes: int)
    requires InSync(f) && Small(codec) && NextTooLarge(codec, f.log, f.cursor, false, maxBytes) && AsksFor(steps, maxBytes)
    ensures var f' := Run(codec, f, steps);
            && InSync(f') && f.log <= f'.log && f.trimmed <= f'.trimmed
            && (f'.trimmed <= f.cursor ==> Stalled(f, f'))
  {
    if steps != [] {
      var init, step := steps[..|steps| - 1], steps[|steps| - 1];
      var g := Run(codec, f, init);
      StalledUntilTrimmed(codec, f, init, maxBytes);
      StepKeepsSync(codec, g, step);
      if g.trimmed <= f.cursor {
        assert g.log[f.cursor] == f.log[f.cursor];
        StepStalls(codec, g, step, maxBytes);
      } else {
        NextGrows(codec, g, step);
      }
    }
  }

  lemma NextGrows(codec: Codec, f: Feed, step: Step)
    requires f.trimmed <= |f.log|
    ensures f.log <= Next(codec, f, step).log && f.trimmed <= Next(codec, f, step).trimmed
  {
  }

  /** A JSON encoder that writes every byte of a summary as an escape of six. */
  function Escaped(events: seq<Activity>): nat {
    if events == [] then 0 else Escaped(events[..|events| - 1]) + 64 + 6 * |events[|events| - 1].summary|
  }

  const ESCAPING := Codec((events: seq<Activity>) => Escaped(events), (w: Window) => 64 + Escaped(w.events))

  /** An acceptable event of 512 control characters stops a reader that asks for 1024 bytes. */
  lemma ReaderStalls(summary: Bytes)
    requires |summary| == 512
    ensures var append, poll := Append([], summary, true, 0), Poll(1, 1024, 0);
            var f := Run(ESCAPING, NewFeed, [append]);
            && Small(ESCAPING) && f.trimmed == 0 && |f.log| == 1 && Next(ESCAPING, f, poll) == f
  {
    var append := Append([], summary, true, 0);
    assert [append][..0] == [];
    var f := Run(ESCAPING, NewFeed, [append]);
    assert Run(ESCAPING, NewFeed, []) == NewFeed;
    var e := Activity(1, 0, [], summary);
    assert f.log == [e] && f.log[0..] == [e];
    assert [e][..0] == [] && Escaped([e]) == 64 + 6 * 512;
    assert Retained(ESCAPING, [e], 0);
    WindowMeans(ESCAPING, f.log, 0, 0, 1, 1024);
  }

  // ---------------------------------------------------------------------
  // The buffer
  // ---------------------------------------------------------------------

  class ActivityBuffer {
    const codec: Codec
    var events: seq<Activity>
    var sequence: nat
    ghost var log: seq<Activity>
    ghost var trimmed: nat

    ghost predicate Valid()
      reads this
    {
      IsHistory(log) && trimmed <= |log| == sequence && events == log[trimmed..]
    }

    constructor (codec: Codec)
      ensures Valid() && log == [] && this.codec == codec
    {
      this.codec := codec;
      events, sequence, log, trimmed := [], 0, [], 0;
    }

    method Trim(now: int)
      requires Valid()
      modifies this`events, this`trimmed
      ensures Valid() && trimmed == TrimmedAt(codec, log, old(trimmed), now)
    {
      ghost var all, k := events, 0;
      while |events| > 0
        invariant 0 <= k <= |all| && events == all[k..] && trimmed == old(trimmed) + k
        invariant Dropped(codec, all, now, k) == Dropped(codec, all, now, 0)
        decreases |events|
      {
        if |events| <= MAX_EVENTS && codec.ofEvents(events) <= MAX_BYTES && now - events[0].at <= MAX_AGE { break; }
        events := events[1..];
        k, trimmed := k + 1, trimmed + 1;
      }
      assert events == log[trimmed..];
    }

    method AppendEvent(kind: Bytes, summary: Bytes, utf8: bool, now: int)
      requires Valid()
      modifies this
      ensures Valid()
      ensures var f := Next(codec, old(Feed(log, trimmed, 0, 0, [])), Append(kind, summary, utf8, now));
              log == f.log && trimmed == f.trimmed
    {
      if |kind| > 32 || |summary| > 512 || !utf8 { return; }
      sequence := sequence + 1;
      var e := Activity(sequence, now, kind, summary);
      assert (log + [e])[trimmed..] == log[trimmed..] + [e];
      log := log + [e];
      events := events + [e];
      Trim(now);
    }

    method GetWindow(after: nat, maxEvents: int, maxBytes: int, now: int) returns (w: Window)
      requires Valid()
      modifies this`events, this`trimmed
      ensures Valid() && trimmed == TrimmedAt(codec, log, old(trimmed), now)
      ensures w == WindowOf(codec, log, trimmed, after, maxEvents, maxBytes)
    {
      Trim(now);
      var oldest := if |events| > 0 then events[0].sequence else sequence + 1;
      assert oldest == trimmed + 1;
      var gap := after < oldest - 1 || after > sequence;
      var start := if gap then oldest - 1 else after;
      w := Collect(start, gap, EventLimit(maxEvents), ByteLimit(maxBytes));
    }

    /** The events past `start`, as far as the limits allow. */
    method Collect(start: nat, gap: bool, limit: nat, bytes: nat) returns (w: Window)
      requires Valid() && limit > 0 && trimmed <= start <= |log|
      ensures Collecting(codec, log[start..], start, gap, limit, bytes, w)
      ensures |w.events| == Taken(codec, log[start..], gap, limit, bytes, 0)
    {
      ghost var rest := log[start..];
      w := Window([], start, gap);
      for i := 0 to |events|
        invariant Collecting(codec, rest, start, gap, limit, bytes, w)
        invariant |w.events| == Max(0, trimmed + i - start) && |w.events| < limit
      {
        var e := events[i];
        assert e == log[trimmed + i];
        if e.sequence <= start { continue; }
        assert e == rest[|w.events|];
        CollectStep(codec, rest, start, gap, limit, bytes, w, e);
        var previous := w;
        w := Window(w.events + [e], e.sequence, gap);
        if codec.ofWindow(w) > bytes {
          w := previous;
          break;
        }
        if |w.events| >= limit { break; }
      }
    }
  }

  /** The window under construction holds the first few of `rest`, and may go on. */
  ghost predicate Collecting(codec: Codec, rest: seq<Activity>, start: nat, gap: bool, limit: nat, bytes: nat, w: Window) {
    && |w.events| <= |rest| && w == Window(rest[..|w.events|], start + |w.events|, gap)
    && Taken(codec, rest, gap, limit, bytes, |w.events|) == Taken(codec, rest, gap, limit, bytes, 0)
  }

  lemma CollectStep(codec: Codec, rest: seq<Activity>, start: nat, gap: bool, limit: nat, bytes: nat, w: Window, e: Activity)
    requires Collecting(codec, rest, start, gap, limit, bytes, w) && |w.events| < limit
    requires |w.events| < |rest| && e == rest[|w.events|] && e.sequence == start + |w.events| + 1
    ensures var w' := Window(w.events + [e], e.sequence, gap);
            if codec.ofWindow(w') > bytes then Taken(codec, rest, gap, limit, bytes, 0) == |w.events|
            else Collecting(codec, rest, start, gap, limit, bytes, w')
  {
    assert rest[..|w.events| + 1] == rest[..|w.events|] + [e];
  }
}
