/**
 * The sequences a terminal stream is made of, written as a grammar after
 * sections 5.4 and 5.6 of ECMA-48, and what the tracker makes of them.
 */
module Sequences {
  import opened Common
  import opened PendingInput

  const CAN: byte := 0x18
  const SUB: byte := 0x1a
  const BEL: byte := 0x07
  const STRING_TERMINATOR: Bytes := [ESC, 0x5c]

  datatype Sequence =
    | Escape(inters: Bytes, final: byte)
    | ControlSequence(params: Bytes, inters: Bytes, final: byte)
    | Command(body: Bytes, end: Bytes)                      // OSC
    | ControlString(opener: byte, body: Bytes)              // DCS, SOS, PM, APC

  predicate AllWithin(s: Bytes, low: int, high: int) {
    forall i :: 0 <= i < |s| ==> low <= s[i] <= high
  }

  predicate NoneOf(s: Bytes, stops: set<int>) {
    forall i :: 0 <= i < |s| ==> s[i] !in stops
  }

  /** What follows ESC opens a longer sequence: `[`, `]`, `P`, `X`, `^` or `_`. */
  predicate IsOpener(c: byte) {
    c in {0x5b, 0x5d, 0x50, 0x58, 0x5e, 0x5f}
  }

  predicate IsSequence(q: Sequence) {
    match q
    case Escape(inters, final) => AllWithin(inters, 0x20, 0x2f) && 0x30 <= final <= 0x7e && (inters == [] ==> !IsOpener(final))
    case ControlSequence(params, inters, final) =>
      AllWithin(params, 0x30, 0x3f) && AllWithin(inters, 0x20, 0x2f) && 0x40 <= final <= 0x7e
    case Command(body, end) => NoneOf(body, {BEL, CAN, SUB, ESC}) && (end == [BEL] || end == STRING_TERMINATOR)
    case ControlString(opener, body) => opener in {0x50, 0x58, 0x5e, 0x5f} && NoneOf(body, {CAN, SUB, ESC})
  }

  function Spelled(q: Sequence): Bytes {
    match q
    case Escape(inters, final) => [ESC] + inters + [final]
    case ControlSequence(params, inters, final) => [ESC, 0x5b] + params + inters + [final]
    case Command(body, end) => [ESC, 0x5d] + body + end
    case ControlString(opener, body) => [ESC, opener] + body + STRING_TERMINATOR
  }

  // ---------------------------------------------------------------------
  // A sequence cut short
  // ---------------------------------------------------------------------

  /** A tracker in the middle of `run`, of which nothing was executed. */
  function Held(p: Phase, run: Bytes): Tracker {
    Tracker(p, 0, run[..Min(|run|, MAX_PENDING)], |run| > MAX_PENDING, false)
  }

  lemma HeldStep(p: Phase, run: Bytes, c: byte, p': Phase)
    requires !p.Ground? && Decide(p, 0, c) == Keep(p', 0) && !ExecutesInside(p, c)
    ensures Step(Held(p, run), c) == Held(p', run + [c])
  {
    if |run| < MAX_PENDING {
      assert run[..|run|] == run && (run + [c])[..|run| + 1] == run + [c];
    } else {
      assert (run + [c])[..MAX_PENDING] == run[..MAX_PENDING];
    }
  }

  /** The phase after the first `k` bytes. */
  function PhaseAt(q: Sequence, k: nat): Phase {
    if k == 1 then Esc
    else match q
      case Escape(_, _) => EscInter
      case ControlSequence(_, _, _) => Csi
      case Command(_, end) => if |end| == 2 && k == |Spelled(q)| - 1 then StrEsc else Osc
      case ControlString(_, _) => if k == |Spelled(q)| - 1 then StrEsc else Str
  }

  /** What the byte at a place inside the sequence, before its last one, can be. */
  predicate Inner(q: Sequence, i: nat, c: byte) {
    match q
    case Escape(_, _) => 0x20 <= c <= 0x2f
    case ControlSequence(_, _, _) => if i == 1 then c == 0x5b else 0x20 <= c <= 0x3f
    case Command(_, end) =>
      if i == 1 then c == 0x5d
      else if |end| == 2 && i == |Spelled(q)| - 2 then c == ESC
      else c !in {BEL, CAN, SUB, ESC}
    case ControlString(opener, _) =>
      if i == 1 then c == opener
      else if i == |Spelled(q)| - 2 then c == ESC
      else c !in {CAN, SUB, ESC}
  }

  lemma InnerAt(q: Sequence, i: nat)
    requires IsSequence(q) && 0 < i < |Spelled(q)| - 1
    ensures Spelled(q)[0] == ESC && Inner(q, i, Spelled(q)[i])
  {
    var b := Spelled(q);
    match q
    case Escape(inters, _) => assert b[i] == inters[i - 1];
    case ControlSequence(params, inters, _) =>
      assert 1 < i < 2 + |params| ==> b[i] == params[i - 2];
      assert i >= 2 + |params| ==> b[i] == inters[i - 2 - |params|];
    case Command(body, end) =>
      assert 1 < i < 2 + |body| ==> b[i] == body[i - 2];
      assert i >= 2 + |body| ==> b[i] == end[i - 2 - |body|];
    case ControlString(_, body) =>
      assert 1 < i < 2 + |body| ==> b[i] == body[i - 2];
      assert i >= 2 + |body| ==> b[i] == STRING_TERMINATOR[i - 2 - |body|];
  }

  /** What ends the sequence. */
  lemma LastAt(q: Sequence)
    requires IsSequence(q)
    ensures |Spelled(q)| >= 2 && Spelled(q)[0] == ESC
    ensures Spelled(q)[|Spelled(q)| - 1] ==
              match q
              case Escape(_, final) => final
              case ControlSequence(_, _, final) => final
              case Command(_, end) => end[|end| - 1]
              case ControlString(_, _) => 0x5c
  {
  }

  lemma InnerKeeps(q: Sequence, k: nat, c: byte)
    requires IsSequence(q) && 0 < k < |Spelled(q)| - 1 && Inner(q, k, c)
    ensures Decide(PhaseAt(q, k), 0, c) == Keep(PhaseAt(q, k + 1), 0) && !ExecutesInside(PhaseAt(q, k), c)
  {
  }

  /** Up to its last byte, a sequence is held whole. */
  lemma {:induction false} CutIsHeld(q: Sequence, k: nat)
    requires IsSequence(q) && 0 < k < |Spelled(q)|
    ensures Feed(Fresh, Spelled(q)[..k]) == Held(PhaseAt(q, k), Spelled(q)[..k])
  {
    var b := Spelled(q);
    LastAt(q);
    if k == 1 {
      assert b[..1] == [ESC];
      FeedOne(ESC);
    } else {
      assert b[..k] == b[..k - 1] + [b[k - 1]];
      CutIsHeld(q, k - 1);
      FeedSnoc(Fresh, b[..k - 1], b[k - 1]);
      InnerAt(q, k - 1);
      InnerKeeps(q, k - 1, b[k - 1]);
      HeldStep(PhaseAt(q, k - 1), b[..k - 1], b[k - 1], PhaseAt(q, k));
    }
  }

  lemma LastFinishes(q: Sequence)
    requires IsSequence(q)
    ensures var n := |Spelled(q)|; n >= 2 && Decide(PhaseAt(q, n - 1), 0, Spelled(q)[n - 1]) == Finish
  {
    LastAt(q);
    if q.Escape? {
      assert |Spelled(q)| == 2 + |q.inters|;
    }
  }

  /** A whole sequence leaves nothing unfinished. */
  lemma SequenceWhole(q: Sequence)
    requires IsSequence(q)
    ensures Feed(Fresh, Spelled(q)) == Fresh
  {
    var b := Spelled(q);
    var k := |b| - 1;
    LastFinishes(q);
    CutIsHeld(q, k);
    FeedSnoc(Fresh, b[..k], b[k]);
    assert b == b[..k] + [b[k]];
  }

  /** A sequence cut short is the prefix, as long as it fits 4096 bytes. */
  lemma SequenceCut(q: Sequence, k: nat)
    requires IsSequence(q) && k < |Spelled(q)|
    ensures Prefix(Feed(Fresh, Spelled(q)[..k])) == if k <= MAX_PENDING then Some(Spelled(q)[..k]) else None
  {
    if k == 0 {
      assert Spelled(q)[..0] == [];
    } else {
      CutIsHeld(q, k);
      TakeAll(Spelled(q)[..k]);
    }
  }

  lemma TakeAll(s: Bytes)
    ensures s[..|s|] == s
  {
  }

  /** CAN and SUB end a sequence wherever they come. */
  lemma CancelEnds(q: Sequence, k: nat, c: byte)
    requires IsSequence(q) && 0 < k < |Spelled(q)| && (c == CAN || c == SUB)
    ensures Feed(Fresh, Spelled(q)[..k] + [c]) == Fresh
  {
    CutIsHeld(q, k);
    FeedSnoc(Fresh, Spelled(q)[..k], c);
  }

  // ---------------------------------------------------------------------
  // A sequence that interrupts another
  // ---------------------------------------------------------------------

  /** After ESC and one more byte, it does not matter what was unfinished before. */
  lemma EscapeRestarts(t: Tracker, c: byte)
    ensures Step(Step(t, ESC), c) == Step(Step(Fresh, ESC), c)
  {
  }

  lemma {:induction false} InterruptsAt(t: Tracker, q: Sequence, j: nat)
    requires IsSequence(q) && 2 <= j <= |Spelled(q)|
    ensures Feed(t, Spelled(q)[..j]) == Feed(Fresh, Spelled(q)[..j])
  {
    var b := Spelled(q);
    LastAt(q);
    assert b[..j] == b[..j - 1] + [b[j - 1]];
    FeedSnoc(t, b[..j - 1], b[j - 1]);
    FeedSnoc(Fresh, b[..j - 1], b[j - 1]);
    if j == 2 {
      assert b[..1] == [ESC] && [ESC] == [] + [ESC];
      FeedSnoc(t, [], ESC);
      FeedOne(ESC);
      EscapeRestarts(t, b[1]);
    } else {
      InterruptsAt(t, q, j - 1);
    }
  }

  /** A whole sequence leaves nothing unfinished, whatever was unfinished before it. */
  lemma SequenceResets(t: Tracker, q: Sequence)
    requires IsSequence(q)
    ensures Feed(t, Spelled(q)) == Fresh
  {
    var b := Spelled(q);
    LastAt(q);
    InterruptsAt(t, q, |b|);
    assert b[..|b|] == b;
    SequenceWhole(q);
  }

  // ---------------------------------------------------------------------
  // Controls executed inside a sequence
  // ---------------------------------------------------------------------

  /** A C0 control that neither opens nor cancels a sequence. */
  predicate IsControl(c: byte) {
    c < 0x20 && c !in {ESC, CAN, SUB}
  }

  function WithoutControls(s: Bytes): Bytes {
    if s == [] then []
    else WithoutControls(s[..|s| - 1]) + if IsControl(s[|s| - 1]) then [] else [s[|s| - 1]]
  }

  predicate CarriesControls(q: Sequence) {
    q.Escape? || q.ControlSequence?
  }

  /** Where a tracker stands that was fed `s`, which is the first `k` bytes of a sequence and some controls. */
  function Mixed(q: Sequence, s: Bytes, k: nat): Tracker {
    Tracker(PhaseAt(q, k), 0, s[..Min(|s|, MAX_PENDING)], |s| > MAX_PENDING, |s| > k)
  }

  lemma MixedStep(q: Sequence, s: Bytes, k: nat, c: byte, p: Phase)
    requires !PhaseAt(q, k).Ground? && Decide(PhaseAt(q, k), 0, c) == Keep(p, 0)
    ensures Step(Mixed(q, s, k), c)
         == Tracker(p, 0, (s + [c])[..Min(|s| + 1, MAX_PENDING)], |s| + 1 > MAX_PENDING, |s| > k || ExecutesInside(PhaseAt(q, k), c))
  {
    if |s| < MAX_PENDING {
      assert s[..|s|] == s && (s + [c])[..|s| + 1] == s + [c];
    } else {
      assert (s + [c])[..MAX_PENDING] == s[..MAX_PENDING];
    }
  }

  lemma {:induction false} WithoutIsShorter(s: Bytes)
    ensures |WithoutControls(s)| <= |s|
    ensures s != [] && !IsControl(s[0]) ==> WithoutControls(s) != [] && WithoutControls(s)[0] == s[0]
  {
    if |s| > 1 {
      WithoutIsShorter(s[..|s| - 1]);
    } else if |s| == 1 {
      assert s[..0] == [];
    }
  }

  lemma {:induction false} ControlsAreHeld(q: Sequence, s: Bytes, k: nat)
    requires IsSequence(q) && CarriesControls(q) && 0 < k < |Spelled(q)|
    requires s != [] && s[0] == ESC && WithoutControls(s) == Spelled(q)[..k]
    ensures Feed(Fresh, s) == Mixed(q, s, k)
    decreases |s|
  {
    var init, c := s[..|s| - 1], s[|s| - 1];
    assert s == init + [c];
    FeedSnoc(Fresh, init, c);
    if init == [] {
      assert s == [ESC] && WithoutControls(s) == [ESC];
      JustEscape(q, k);
    } else {
      WithoutIsShorter(init);
      if IsControl(c) {
        ControlsAreHeld(q, init, k);
        OneControl(q, init, k, c);
      } else {
        SnocPrefix(WithoutControls(init), c, Spelled(q), k);
        ControlsAreHeld(q, init, k - 1);
        OneMore(q, init, k, c);
      }
    }
  }

  lemma JustEscape(q: Sequence, k: nat)
    requires k <= |Spelled(q)| && Spelled(q)[..k] == [ESC]
    ensures Feed(Fresh, [ESC]) == Mixed(q, [ESC], k)
  {
    assert |Spelled(q)[..k]| == 1;
    FeedOne(ESC);
    TakeAll([ESC]);
  }

  lemma OneControl(q: Sequence, init: Bytes, k: nat, c: byte)
    requires IsSequence(q) && CarriesControls(q) && 0 < k < |Spelled(q)| && IsControl(c) && |init| >= k
    ensures Step(Mixed(q, init, k), c) == Mixed(q, init + [c], k)
  {
    MixedStep(q, init, k, c, PhaseAt(q, k));
  }

  lemma SnocPrefix(a: Bytes, c: byte, b: Bytes, k: nat)
    requires k <= |b| && a + [c] == b[..k]
    ensures k == |a| + 1 && a == b[..k - 1] && c == b[k - 1]
  {
    assert (a + [c])[..|a|] == a;
  }

  /** The last byte fed is the next one of the sequence. */
  lemma OneMore(q: Sequence, init: Bytes, k: nat, c: byte)
    requires IsSequence(q) && CarriesControls(q) && 2 <= k < |Spelled(q)| && c == Spelled(q)[k - 1]
    ensures Step(Mixed(q, init, k - 1), c) == Mixed(q, init + [c], k)
  {
    InnerAt(q, k - 1);
    InnerKeeps(q, k - 1, c);
    MixedStep(q, init, k - 1, c, PhaseAt(q, k));
  }

  /**
   * Controls spread over an escape or control sequence: it is unfinished until its
   * last byte, and its prefix is given if and only if there was no control so far
   * and it fits 4096 bytes.
   */
  lemma ControlsInside(q: Sequence, s: Bytes, k: nat)
    requires IsSequence(q) && CarriesControls(q) && 0 < k < |Spelled(q)|
    requires s != [] && s[0] == ESC && WithoutControls(s) == Spelled(q)[..k]
    ensures !Feed(Fresh, s).phase.Ground?
    ensures Prefix(Feed(Fresh, s)) == if |s| == k && k <= MAX_PENDING then Some(s) else None
  {
    ControlsAreHeld(q, s, k);
    WithoutIsShorter(s);
    MixedPrefix(q, s, k);
  }

  lemma MixedPrefix(q: Sequence, s: Bytes, k: nat)
    requires 0 < k <= |s|
    ensures !PhaseAt(q, k).Ground? && Prefix(Mixed(q, s, k)) == if |s| == k && k <= MAX_PENDING then Some(s) else None
  {
    TakeAll(s);
  }

  lemma ControlsThenLast(q: Sequence, s: Bytes)
    requires IsSequence(q) && CarriesControls(q) && s != [] && s[0] == ESC
    requires WithoutControls(s) + [Spelled(q)[|Spelled(q)| - 1]] == Spelled(q)
    ensures Feed(Fresh, s + [Spelled(q)[|Spelled(q)| - 1]]) == Fresh
  {
    var b := Spelled(q);
    var k := |b| - 1;
    LastFinishes(q);
    TakeAll(b);
    SnocPrefix(WithoutControls(s), b[k], b, |b|);
    ControlsAreHeld(q, s, k);
    FeedSnoc(Fresh, s, b[k]);
  }

  // ---------------------------------------------------------------------
  // Whatever the bytes are
  // ---------------------------------------------------------------------

  /** What leads into each of the phases that can last. */
  predicate LeadsTo(opener: Bytes, p: Phase) {
    match p
    case Esc => opener == [ESC]
    case Csi => opener == [ESC, 0x5b]
    case Osc => opener == [ESC, 0x5d]
    case Str => |opener| == 2 && opener[0] == ESC && opener[1] in {0x50, 0x58, 0x5e, 0x5f}
    case EscInter => |opener| == 2 && opener[0] == ESC && 0x20 <= opener[1] <= 0x2f
    case _ => false
  }

  /** The bytes that do not go on with it, well formed or not. */
  predicate Breaks(p: Phase, c: byte) {
    match p
    case Esc => !IsControl(c) && c != ESC
    case EscInter => c in {ESC, CAN, SUB} || c >= 0x30
    case Csi => c in {ESC, CAN, SUB} || 0x40 <= c <= 0x7e
    case Osc => c in {ESC, CAN, SUB, BEL}
    case _ => c in {ESC, CAN, SUB}
  }

  /** The phase after the opener and after every byte of `s`. */
  ghost predicate Lasts(opener: Bytes, p: Phase, s: Bytes) {
    Feed(Fresh, opener + s).phase == p && (s == [] || Lasts(opener, p, s[..|s| - 1]))
  }

  lemma OpenerLeads(opener: Bytes, p: Phase)
    requires LeadsTo(opener, p)
    ensures Feed(Fresh, opener).phase == p
  {
    FeedOne(ESC);
    if |opener| == 2 {
      assert opener == [ESC] + [opener[1]];
      FeedSnoc(Fresh, [ESC], opener[1]);
    }
  }

  lemma BreakLeaves(t: Tracker, c: byte)
    requires t.phase.Esc? || t.phase.EscInter? || t.phase.Csi? || t.phase.Osc? || t.phase.Str?
    ensures Step(t, c).phase == t.phase <==> !Breaks(t.phase, c)
  {
  }

  /** For any bytes at all, a sequence stays unfinished in its phase if and only if none of them breaks it. */
  lemma {:induction false} UnfinishedIff(opener: Bytes, p: Phase, s: Bytes)
    requires LeadsTo(opener, p)
    ensures Lasts(opener, p, s) <==> forall i :: 0 <= i < |s| ==> !Breaks(p, s[i])
  {
    if s == [] {
      OpenerLeads(opener, p);
      assert opener + s == opener;
    } else {
      var init, c := s[..|s| - 1], s[|s| - 1];
      UnfinishedIff(opener, p, init);
      assert opener + s == (opener + init) + [c];
      FeedSnoc(Fresh, opener + init, c);
      if Feed(Fresh, opener + init).phase == p {
        BreakLeaves(Feed(Fresh, opener + init), c);
      }
    }
  }

  // ---------------------------------------------------------------------
  // A whole stream
  // ---------------------------------------------------------------------

  /** A character other than ESC, or a sequence. */
  ghost predicate IsItem(s: Bytes) {
    (IsUtf8Char(s) && s != [ESC]) || exists q :: IsSequence(q) && s == Spelled(q)
  }

  ghost predicate IsStream(items: seq<Bytes>) {
    forall i :: 0 <= i < |items| ==> IsItem(items[i])
  }

  lemma ItemWhole(s: Bytes)
    requires IsItem(s)
    ensures Feed(Fresh, s) == Fresh
  {
    if IsUtf8Char(s) && s != [ESC] {
      CharIsShaped(s);
      CharWhole(s);
    } else {
      var q :| IsSequence(q) && s == Spelled(q);
      SequenceWhole(q);
    }
  }

  lemma {:induction false} StreamWhole(items: seq<Bytes>)
    requires IsStream(items)
    ensures Feed(Fresh, Concat(items)) == Fresh
  {
    if items != [] {
      var init, last := items[..|items| - 1], items[|items| - 1];
      StreamWhole(init);
      ItemWhole(last);
      FeedSplit(Fresh, Concat(init), last);
    }
  }

  lemma ItemCut(s: Bytes, k: nat)
    requires IsItem(s) && k < |s|
    ensures Prefix(Feed(Fresh, s[..k])) == if k <= MAX_PENDING then Some(s[..k]) else None
  {
    if k == 0 {
      assert s[..0] == [];
    } else if IsUtf8Char(s) && s != [ESC] {
      CharIsShaped(s);
      CharCut(s, k);
    } else {
      var q :| IsSequence(q) && s == Spelled(q);
      SequenceCut(q, k);
    }
  }

  /**
   * A stream of characters and sequences, cut anywhere: the prefix is the part of
   * the straddled one before the cut, and nothing between two of them; it is
   * refused exactly when that part is over 4096 bytes.
   */
  lemma StreamCut(items: seq<Bytes>, next: Bytes, k: nat)
    requires IsStream(items) && IsItem(next) && k < |next|
    ensures Prefix(Feed(Fresh, Concat(items) + next[..k])) == if k <= MAX_PENDING then Some(next[..k]) else None
  {
    StreamWhole(items);
    FeedSplit(Fresh, Concat(items), next[..k]);
    ItemCut(next, k);
  }
}
