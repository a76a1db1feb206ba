/**
 * The live screen of a PTY session. The VT emulator is a value handed in: it
 * takes bytes one at a time, can be resized, and can be drawn. Nothing is
 * known about it except, where stated, the redraw law.
 */
module Screen {
  import opened Common
  import opened OutputLog
  import PI = PendingInput

  const MAX_COLS := 500
  const MAX_ROWS := 300

  /** Grid, modes and cursor together, and the input the parser is in the middle of. */
  datatype Cell<S> = Cell(picture: S, run: Bytes)

  /** A terminal of a given size. */
  datatype Term<S> = Term(cols: nat, rows: nat, st: Cell<S>)

  datatype Vt<!S> = Vt(
    blank: (nat, nat) -> S,
    resize: (S, nat, nat) -> S,
    put: (Cell<S>, byte) -> Cell<S>,
    draw: (nat, nat, S) -> Option<Bytes>)

  function Write<S>(vt: Vt<S>, s: Cell<S>, data: Bytes): Cell<S> {
    if data == [] then s else vt.put(Write(vt, s, data[..|data| - 1]), data[|data| - 1])
  }

  function Blank<S>(vt: Vt<S>, cols: nat, rows: nat): Term<S> {
    Term(cols, rows, Cell(vt.blank(cols, rows), []))
  }

  function Resized<S>(vt: Vt<S>, t: Term<S>, cols: nat, rows: nat): Term<S> {
    Term(cols, rows, t.st.(picture := vt.resize(t.st.picture, cols, rows)))
  }

  /** A terminal brought to a size; it is only resized when the size differs. */
  function SetSize<S>(vt: Vt<S>, t: Option<Term<S>>, cols: nat, rows: nat): Term<S> {
    if t.None? then Blank(vt, cols, rows)
    else if t.value.cols == cols && t.value.rows == rows then t.value
    else Resized(vt, t.value, cols, rows)
  }

  /** Some output shown on a terminal of some size. */
  function Show<S>(vt: Vt<S>, t: Option<Term<S>>, cols: nat, rows: nat, data: Bytes): Option<Term<S>> {
    var sized := SetSize(vt, t, cols, rows);
    Some(sized.(st := Write(vt, sized.st, data)))
  }

  /** The uninterrupted terminal: every chunk shown in order at its own size. */
  function Play<S>(vt: Vt<S>, log: seq<Chunk>): Option<Term<S>> {
    if log == [] then None
    else var c := log[|log| - 1]; Show(vt, Play(vt, log[..|log| - 1]), c.cols, c.rows, c.payload)
  }

  lemma {:induction false} WriteSplit<S>(vt: Vt<S>, s: Cell<S>, a: Bytes, b: Bytes)
    ensures Write(vt, s, a + b) == Write(vt, Write(vt, s, a), b)
  {
    if b == [] {
      assert a + b == a;
    } else {
      assert (a + b)[..|a + b| - 1] == a + b[..|b| - 1];
      WriteSplit(vt, s, a, b[..|b| - 1]);
    }
  }

  lemma PlaySnoc<S>(vt: Vt<S>, log: seq<Chunk>, c: Chunk)
    ensures Play(vt, log + [c]) == Show(vt, Play(vt, log), c.cols, c.rows, c.payload)
  {
    assert (log + [c])[..|log|] == log;
  }

  lemma {:induction false} PlaySize<S>(vt: Vt<S>, log: seq<Chunk>)
    requires log != []
    ensures Play(vt, log).Some?
    ensures Play(vt, log).value.cols == log[|log| - 1].cols && Play(vt, log).value.rows == log[|log| - 1].rows
  {
  }

  /** Output of one size only: the terminal is a blank one with all of it written. */
  lemma {:induction false} PlayAtOneSize<S>(vt: Vt<S>, log: seq<Chunk>, cols: nat, rows: nat)
    requires log != [] && forall i :: 0 <= i < |log| ==> log[i].cols == cols && log[i].rows == rows
    ensures Play(vt, log) == Some(Term(cols, rows, Write(vt, Cell(vt.blank(cols, rows), []), Payloads(log))))
  {
    var init, c := log[..|log| - 1], log[|log| - 1];
    if init == [] {
      assert Payloads(init) == [] && [] + c.payload == c.payload;
    } else {
      PlayAtOneSize(vt, init, cols, rows);
      WriteSplit(vt, Cell(vt.blank(cols, rows), []), Payloads(init), c.payload);
    }
  }

  /** A chunk of another size: the picture is resized once, the unfinished input stays, and then it is written. */
  lemma PlayAcrossResize<S>(vt: Vt<S>, log: seq<Chunk>, c: Chunk)
    requires log != [] && (c.cols != log[|log| - 1].cols || c.rows != log[|log| - 1].rows)
    ensures Play(vt, log).Some?
    ensures var cell := Play(vt, log).value.st;
            Play(vt, log + [c]) == Some(Term(c.cols, c.rows, Write(vt, Cell(vt.resize(cell.picture, c.cols, c.rows), cell.run), c.payload)))
  {
    PlaySize(vt, log);
    PlaySnoc(vt, log, c);
  }

  /** Every chunk was produced at a real size. */
  ghost predicate Sized(log: seq<Chunk>) {
    forall i :: 0 <= i < |log| ==> log[i].cols > 0 && log[i].rows > 0
  }

  // ---------------------------------------------------------------------
  // The bookkeeping around the emulator
  // ---------------------------------------------------------------------

  /** The value of a live screen. `last` is the newest sequence applied. */
  datatype ScreenVal<S> = ScreenVal(emu: Option<Term<S>>, last: nat, disabled: bool, pending: PI.Tracker,
                                    closed: bool, frozen: Option<Bytes>, finalized: bool)

  function NewScreen<S>(): ScreenVal<S> {
    ScreenVal(None, 0, false, PI.Fresh, false, None, false)
  }

  function Ensure<S>(vt: Vt<S>, v: ScreenVal<S>, cols: nat, rows: nat): (ScreenVal<S>, bool) {
    if v.disabled || v.closed then (v, false)
    else if cols == 0 || rows == 0 || cols > MAX_COLS || rows > MAX_ROWS then (v.(disabled := true, emu := None), false)
    else (v.(emu := Some(SetSize(vt, v.emu, cols, rows))), true)
  }

  function Apply<S>(vt: Vt<S>, v: ScreenVal<S>, c: Chunk): ScreenVal<S> {
    var (e, ok) := Ensure(vt, v, c.cols, c.rows);
    if !ok then e
    else if c.num != e.last + 1 then e.(disabled := true, emu := None)
    else e.(emu := Some(e.emu.value.(st := Write(vt, e.emu.value.st, c.payload))),
            pending := PI.Feed(e.pending, c.payload), last := c.num)
  }

  /** The drawing of the picture, then the unfinished input; refused if either cannot be given. */
  function Render<S>(vt: Vt<S>, t: Term<S>, pending: PI.Tracker): Option<Bytes> {
    var d, p := vt.draw(t.cols, t.rows, t.st.picture), PI.Prefix(pending);
    if d.None? || p.None? then None else Some(d.value + p.value)
  }

  /** Ending the output marks the screen; the picture is taken once, some time later. */
  function Freeze<S>(v: ScreenVal<S>): ScreenVal<S> {
    v.(closed := true)
  }

  function Finalize<S>(vt: Vt<S>, v: ScreenVal<S>): ScreenVal<S> {
    if v.finalized then v
    else v.(frozen := if !v.disabled && v.emu.Some? then Render(vt, v.emu.value, v.pending) else v.frozen,
            emu := None, finalized := true)
  }

  function Checkpoint<S>(vt: Vt<S>, v: ScreenVal<S>, n: nat): Option<Bytes> {
    if v.disabled || n == 0 || v.last != n then None
    else
      var data :=
        if v.closed then Finalize(vt, v).frozen
        else if v.emu.Some? then Render(vt, v.emu.value, v.pending)
        else None;
      if data.None? || |data.value| == 0 || |data.value| > MAX_WINDOW then None else data
  }

  class LiveScreen<S(!new)> {
    const vt: Vt<S>
    const pending: PI.Pending
    var emu: Option<Term<S>>
    var last: nat
    var disabled: bool
    var closed: bool
    var frozen: Option<Bytes>
    var finalized: bool

    ghost predicate Valid()
      reads this, pending
    {
      pending.Valid() && (finalized ==> closed)
    }

    function Value(): ScreenVal<S>
      reads this, pending
    {
      ScreenVal(emu, last, disabled, pending.Value(), closed, frozen, finalized)
    }

    constructor (vt: Vt<S>)
      ensures Valid() && Value() == NewScreen() && this.vt == vt && fresh(pending)
    {
      this.vt := vt;
      pending := new PI.Pending();
      emu, last, disabled, closed, frozen, finalized := None, 0, false, false, None, false;
    }

    method EnsureSize(cols: nat, rows: nat) returns (ok: bool)
      modifies this
      ensures (Value(), ok) == Ensure(vt, old(Value()), cols, rows)
    {
      if disabled || closed { return false; }
      if cols == 0 || rows == 0 || cols > MAX_COLS || rows > MAX_ROWS {
        disabled := true;
        emu := None;
        return false;
      }
      if emu.None? {
        emu := Some(Blank(vt, cols, rows));
      } else if emu.value.cols != cols || emu.value.rows != rows {
        emu := Some(Resized(vt, emu.value, cols, rows));
      }
      return true;
    }

    method ApplyChunk(chunk: Chunk)
      requires Valid()
      modifies this, pending
      ensures Valid() && Value() == Apply(vt, old(Value()), chunk)
    {
      var ok := EnsureSize(chunk.cols, chunk.rows);
      if !ok { return; }
      if chunk.num != last + 1 {
        disabled := true;
        emu := None;
        return;
      }
      if |chunk.payload| > 0 {
        emu := Some(emu.value.(st := Write(vt, emu.value.st, chunk.payload)));
        pending.FeedChunk(chunk.payload);
      }
      last := chunk.num;
    }

    method FreezeScreen()
      requires Valid()
      modifies this`closed
      ensures Valid() && Value() == Freeze(old(Value()))
    {
      if closed { return; }
      closed := true;
    }

    /** Runs at most once, from a background task or from the first checkpoint that needs it. */
    method FinalizeScreen()
      requires Valid() && closed
      modifies this`frozen, this`emu, this`finalized
      ensures Valid() && Value() == Finalize(vt, old(Value()))
    {
      if finalized { return; }
      if !disabled && emu.Some? {
        frozen := RenderNow();
      }
      emu := None;
      finalized := true;
    }

    function RenderNow(): (data: Option<Bytes>)
      reads this, pending
      requires emu.Some?
      ensures data == Render(vt, emu.value, pending.Value())
    {
      var d := vt.draw(emu.value.cols, emu.value.rows, emu.value.st.picture);
      if d.None? then None
      else
        var p := pending.TakePrefix();
        if p.None? then None else Some(d.value + p.value)
    }

    method TakeCheckpoint(n: nat) returns (data: Option<Bytes>)
      requires Valid()
      modifies this`frozen, this`emu, this`finalized
      ensures Valid() && data == Checkpoint(vt, old(Value()), n)
      ensures Value() == old(Value()) || (closed && Value() == Finalize(vt, old(Value())))
    {
      if disabled || n == 0 || last != n { return None; }
      data := None;
      if closed {
        FinalizeScreen();
        data := frozen;
      } else if emu.Some? {
        data := RenderNow();
      }
      if data.None? || |data.value| == 0 || |data.value| > MAX_WINDOW { return None; }
    }
  }

  // ---------------------------------------------------------------------
  // What a checkpoint shows
  // ---------------------------------------------------------------------

  /** The drawing of an uninterrupted terminal that was fed the whole history. */
  function Picture<S>(vt: Vt<S>, log: seq<Chunk>): Option<Bytes> {
    var t := Play(vt, log);
    if t.None? then None else Render(vt, t.value, PI.Feed(PI.Fresh, Payloads(log)))
  }

  /** A usable screen has applied exactly the chunks of the history, each once and in order. */
  ghost predicate Tracks<S>(vt: Vt<S>, v: ScreenVal<S>, log: seq<Chunk>) {
    v.disabled ||
    ( && v.last == |log| && v.pending == PI.Feed(PI.Fresh, Payloads(log))
      && (if v.finalized then v.closed && v.frozen == Picture(vt, log) else v.emu == Play(vt, log) && v.frozen == None))
  }

  lemma ApplyTracks<S>(vt: Vt<S>, v: ScreenVal<S>, log: seq<Chunk>, c: Chunk)
    requires Tracks(vt, v, log) && !v.closed && (v.finalized ==> v.disabled) && c.num == |log| + 1
    ensures Tracks(vt, Apply(vt, v, c), log + [c])
    ensures Apply(vt, v, c).closed == v.closed && (Apply(vt, v, c).finalized ==> Apply(vt, v, c).disabled)
  {
    PlaySnoc(vt, log, c);
    PayloadsSnoc(log, c);
    PI.FeedSplit(PI.Fresh, Payloads(log), c.payload);
  }

  /** A checkpoint is served only as the drawing of exactly chunks 1 to `n`, and only when `n` is the newest. */
  lemma CheckpointIsPicture<S>(vt: Vt<S>, v: ScreenVal<S>, log: seq<Chunk>, n: nat)
    requires Tracks(vt, v, log) && Checkpoint(vt, v, n).Some?
    ensures n == |log| > 0 && Checkpoint(vt, v, n) == Picture(vt, log)
    ensures 0 < |Checkpoint(vt, v, n).value| <= MAX_WINDOW
  {
  }

  /**
   * There is a picture if and only if the emulator can draw what an uninterrupted
   * terminal shows and the unfinished input of the whole output is not refused; it
   * is the one followed by the other.
   */
  lemma PictureIff<S>(vt: Vt<S>, log: seq<Chunk>)
    requires log != []
    ensures var t, prefix := Play(vt, log).value, PI.Prefix(PI.Feed(PI.Fresh, Payloads(log)));
            var drawn := vt.draw(t.cols, t.rows, t.st.picture);
            && (Picture(vt, log).Some? <==> drawn.Some? && prefix.Some?)
            && (Picture(vt, log).Some? ==> Picture(vt, log).value == drawn.value + prefix.value)
  {
    PlaySize(vt, log);
  }

  predicate Servable(picture: Option<Bytes>) {
    picture.Some? && 0 < |picture.value| <= MAX_WINDOW
  }

  /**
   * A usable screen, open, closed or finalized, serves the drawing of the whole
   * history if and only if there is one of 1 to 65536 bytes.
   */
  lemma CheckpointIff<S>(vt: Vt<S>, v: ScreenVal<S>, log: seq<Chunk>)
    requires Tracks(vt, v, log) && (v.finalized ==> v.closed)
    ensures Checkpoint(vt, v, |log|).Some? <==> !v.disabled && Servable(Picture(vt, log))
    ensures Checkpoint(vt, v, |log|).Some? ==> Checkpoint(vt, v, |log|) == Picture(vt, log)
  {
    if log != [] {
      PlaySize(vt, log);
    }
  }

  /** The size of a chunk is one a screen can have. */
  predicate FitsScreen(c: Chunk) {
    0 < c.cols <= MAX_COLS && 0 < c.rows <= MAX_ROWS
  }

  /** A screen that has applied the history so far is given up exactly at a chunk of another size than that. */
  lemma DisabledIff<S>(vt: Vt<S>, v: ScreenVal<S>, log: seq<Chunk>, c: Chunk)
    requires Tracks(vt, v, log) && !v.closed && c.num == |log| + 1
    ensures Apply(vt, v, c).disabled <==> v.disabled || !FitsScreen(c)
  {
  }

  /** Once the output has closed, nothing that comes changes the screen. */
  lemma ClosedScreenStays<S>(vt: Vt<S>, v: ScreenVal<S>, c: Chunk)
    requires v.closed
    ensures Apply(vt, v, c) == v
  {
  }

  /** It does not matter whether the final picture has been taken yet. */
  lemma FinalizeKeeps<S>(vt: Vt<S>, v: ScreenVal<S>, log: seq<Chunk>, n: nat)
    requires Tracks(vt, v, log) && v.closed
    ensures Tracks(vt, Finalize(vt, v), log) && Checkpoint(vt, Finalize(vt, v), n) == Checkpoint(vt, v, n)
  {
  }

  // ---------------------------------------------------------------------
  // Redrawing
  // ---------------------------------------------------------------------

  /**
   * The redraw law, in two parts. The parser carries the unfinished input, as the
   * tracker follows it, and leaves the picture alone on bytes that only add to it.
   * And on any terminal brought to its size, the drawing of what an uninterrupted
   * terminal shows reproduces the picture, with no input pending.
   */
  ghost predicate RedrawLaw<S(!new)>(vt: Vt<S>) {
    && (forall s: Cell<S>, c: byte {:trigger vt.put(s, c)} :: ParsesAlike(vt, s, c))
    && (forall log: seq<Chunk>, viewer: Option<Term<S>> {:trigger DrawsAlike(vt, log, viewer)} ::
          log != [] ==> DrawsAlike(vt, log, viewer))
  }

  ghost predicate ParsesAlike<S(!new)>(vt: Vt<S>, s: Cell<S>, c: byte) {
    && vt.put(s, c).run == PI.NextRun(s.run, c)
    && (PI.Silent(s.run, c) ==> vt.put(s, c).picture == s.picture)
  }

  ghost predicate DrawsAlike<S(!new)>(vt: Vt<S>, log: seq<Chunk>, viewer: Option<Term<S>>)
    requires log != []
  {
    var t := Play(vt, log).value;
    var d := vt.draw(t.cols, t.rows, t.st.picture);
    d.Some? ==> Write(vt, SetSize(vt, viewer, t.cols, t.rows).st, d.value) == Cell(t.st.picture, [])
  }

  /** Drawing and unfinished input together reproduce the whole terminal. */
  ghost predicate Redraws<S(!new)>(vt: Vt<S>, log: seq<Chunk>, viewer: Option<Term<S>>)
    requires log != [] && Picture(vt, log).Some?
  {
    var c := log[|log| - 1];
    Show(vt, viewer, c.cols, c.rows, Picture(vt, log).value) == Play(vt, log)
  }

  /** What the parser carries is what the tracker follows. */
  ghost predicate Follows(run: Bytes, t: PI.Tracker) {
    PI.Grows(run) && PI.IsRun(t, run)
  }

  lemma {:induction false} WriteFollows<S(!new)>(vt: Vt<S>, s: Cell<S>, t: PI.Tracker, data: Bytes)
    requires RedrawLaw(vt) && Follows(s.run, t)
    ensures Follows(Write(vt, s, data).run, PI.Feed(t, data))
  {
    if data != [] {
      var init, c := data[..|data| - 1], data[|data| - 1];
      WriteFollows(vt, s, t, init);
      assert ParsesAlike(vt, Write(vt, s, init), c);
      PI.ParserFollows(Write(vt, s, init).run, c);
    }
  }

  lemma {:induction false} PlayFollows<S(!new)>(vt: Vt<S>, log: seq<Chunk>)
    requires RedrawLaw(vt) && log != []
    ensures Play(vt, log).Some? && Follows(Play(vt, log).value.st.run, PI.Feed(PI.Fresh, Payloads(log)))
  {
    var init, c := log[..|log| - 1], log[|log| - 1];
    assert log == init + [c];
    PayloadsSnoc(init, c);
    PI.FeedSplit(PI.Fresh, Payloads(init), c.payload);
    if init != [] {
      PlayFollows(vt, init);
    } else {
      assert Follows([], PI.Fresh);
    }
    WriteFollows(vt, SetSize(vt, Play(vt, init), c.cols, c.rows).st, PI.Feed(PI.Fresh, Payloads(init)), c.payload);
  }

  /** Unfinished input, written to a terminal with nothing pending, leaves the picture and becomes pending. */
  lemma {:induction false} WriteSilent<S(!new)>(vt: Vt<S>, picture: S, run: Bytes, k: nat)
    requires RedrawLaw(vt) && PI.Grows(run) && !PI.ExecutedWithin(run) && k <= |run|
    ensures Write(vt, Cell(picture, []), run[..k]) == Cell(picture, run[..k])
  {
    if k > 0 {
      WriteSilent(vt, picture, run, k - 1);
      PI.RunIsSilent(run, k - 1);
      assert run[..k][..k - 1] == run[..k - 1];
      assert ParsesAlike(vt, Cell(picture, run[..k - 1]), run[k - 1]);
    }
  }

  /** A checkpoint redraws the whole terminal, parser included, on any viewer. */
  lemma Redrawn<S(!new)>(vt: Vt<S>, log: seq<Chunk>, viewer: Option<Term<S>>)
    requires RedrawLaw(vt) && log != [] && Picture(vt, log).Some?
    ensures Redraws(vt, log, viewer)
  {
    var t := Play(vt, log).value;
    var tracker := PI.Feed(PI.Fresh, Payloads(log));
    PlaySize(vt, log);
    PlayFollows(vt, log);
    PI.PrefixOfRun(tracker, t.st.run);
    var d := vt.draw(t.cols, t.rows, t.st.picture).value;
    var sized := SetSize(vt, viewer, t.cols, t.rows);
    assert DrawsAlike(vt, log, viewer);
    WriteSplit(vt, sized.st, d, t.st.run);
    WriteSilent(vt, t.st.picture, t.st.run, |t.st.run|);
    assert t.st.run[..|t.st.run|] == t.st.run;
  }

  // ---------------------------------------------------------------------
  // The law can be met
  // ---------------------------------------------------------------------

  /** The picture of a small emulator: the byte that last left no input unfinished. */
  datatype Glyph = Glyph(last: byte)

  const STRING_END: byte := 0x5c

  /** It draws by ending whatever is unfinished and writing that byte. */
  function LastByte(): Vt<Glyph> {
    Vt((cols: nat, rows: nat) => Glyph(0x20),
       (g: Glyph, cols: nat, rows: nat) => g,
       (s: Cell<Glyph>, c: byte) => Cell(if PI.NextRun(s.run, c) == [] then Glyph(c) else s.picture, PI.NextRun(s.run, c)),
       (cols: nat, rows: nat, g: Glyph) => if PI.NextRun([], g.last) == [] then Some([PI.ESC, STRING_END, g.last]) else None)
  }

  /** A string terminator ends whatever is unfinished. */
  lemma TerminatorEnds(run: Bytes)
    ensures PI.NextRun(PI.NextRun(run, PI.ESC), STRING_END) == []
  {
    PI.FeedOne(PI.ESC);
    PI.FeedSnoc(PI.Fresh, run, PI.ESC);
  }

  lemma LastByteDraws(s: Cell<Glyph>, x: byte)
    requires PI.NextRun([], x) == []
    ensures Write(LastByte(), s, [PI.ESC, STRING_END, x]) == Cell(Glyph(x), [])
  {
    var vt, esc, end := LastByte(), PI.ESC, STRING_END;
    TerminatorEnds(s.run);
    WriteSplit(vt, s, [esc], [end, x]);
    WriteSplit(vt, Write(vt, s, [esc]), [end], [x]);
    assert [esc] + [end, x] == [esc, end, x] && [end] + [x] == [end, x];
    assert [esc][..0] == [] && [end][..0] == [] && [x][..0] == [];
  }

  lemma LastByteParses(s: Cell<Glyph>, c: byte)
    ensures ParsesAlike(LastByte(), s, c)
  {
  }

  /** It meets the redraw law, and every printable byte has a drawing. */
  lemma LawCanBeMet()
    ensures RedrawLaw(LastByte())
    ensures forall cols: nat, rows: nat, x: byte :: 0x20 <= x < 0x7f ==> LastByte().draw(cols, rows, Glyph(x)).Some?
  {
    var vt := LastByte();
    forall s: Cell<Glyph>, c: byte ensures ParsesAlike(vt, s, c) {
      LastByteParses(s, c);
    }
    forall log: seq<Chunk>, viewer: Option<Term<Glyph>> | log != [] ensures DrawsAlike(vt, log, viewer) {
      var t := Play(vt, log).value;
      if vt.draw(t.cols, t.rows, t.st.picture).Some? {
        LastByteDraws(SetSize(vt, viewer, t.cols, t.rows).st, t.st.picture.last);
      }
    }
  }
}
