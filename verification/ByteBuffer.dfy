/** The bounded in-memory ring of output chunks. */
module ByteBuffer {
  import opened Common
  import opened OutputLog

  const MAX_CHUNKS := 65536
  const DEFAULT_CAPACITY := 0x80_0000

  predicate Fits(chunks: seq<Chunk>, capacity: nat) {
    Size(chunks) <= capacity && |chunks| <= MAX_CHUNKS
  }

  /**
   * `ring` is what eviction from the front leaves of the history once
   * `evicted` chunks are gone: it fits, and with one chunk more it would not.
   */
  ghost predicate IsRing(ring: seq<Chunk>, log: seq<Chunk>, evicted: nat, capacity: nat) {
    Evicting(ring, log, evicted, capacity) && Fits(ring, capacity)
  }

  ghost predicate TailAt(ring: seq<Chunk>, log: seq<Chunk>, evicted: nat) {
    evicted + |ring| == |log| && forall i :: 0 <= i < |ring| ==> ring[i] == log[evicted + i]
  }

  /** The ring is the longest tail of the history that fits both limits. */
  lemma RingIsLongest(ring: seq<Chunk>, log: seq<Chunk>, evicted: nat, capacity: nat, k: nat)
    requires IsRing(ring, log, evicted, capacity) && k <= |log|
    ensures ring == log[evicted..]
    ensures Fits(log[k..], capacity) <==> evicted <= k
  {
    var tail := log[k..];
    if evicted <= k {
      assert ring == ring[..k - evicted] + tail;
      SizeSplit(ring[..k - evicted], tail);
    } else {
      var next := log[evicted - 1];
      assert tail == log[k..evicted - 1] + ([next] + ring);
      SizeSplit(log[k..evicted - 1], [next] + ring);
      SizeFirst([next] + ring);
    }
  }

  /** What the eviction loop starts from and keeps: one chunk more than `ring` would not fit. */
  ghost predicate Evicting(ring: seq<Chunk>, log: seq<Chunk>, evicted: nat, capacity: nat) {
    && TailAt(ring, log, evicted)
    && (evicted > 0 ==> Size(ring) + |log[evicted - 1].payload| > capacity || |ring| >= MAX_CHUNKS)
  }

  lemma AppendStarts(ring: seq<Chunk>, log: seq<Chunk>, evicted: nat, capacity: nat, c: Chunk)
    requires Evicting(ring, log, evicted, capacity) && IsLog(log) && c.num == |log| + 1
    ensures Evicting(ring + [c], log + [c], evicted, capacity) && IsLog(log + [c])
    ensures Size(ring + [c]) == Size(ring) + |c.payload|
  {
    SizeSnoc(ring, c);
    TailSnoc(ring, log, evicted, c);
    LogSnoc(log, c);
    assert evicted > 0 ==> (log + [c])[evicted - 1] == log[evicted - 1];
  }

  lemma TailSnoc(ring: seq<Chunk>, log: seq<Chunk>, evicted: nat, c: Chunk)
    requires TailAt(ring, log, evicted)
    ensures TailAt(ring + [c], log + [c], evicted)
  {
  }

  lemma LogSnoc(log: seq<Chunk>, c: Chunk)
    requires IsLog(log) && c.num == |log| + 1
    ensures IsLog(log + [c])
  {
  }

  lemma EvictOne(ring: seq<Chunk>, log: seq<Chunk>, evicted: nat, capacity: nat)
    requires Evicting(ring, log, evicted, capacity) && ring != [] && !Fits(ring, capacity)
    ensures Evicting(ring[1..], log, evicted + 1, capacity)
    ensures Size(ring) == |ring[0].payload| + Size(ring[1..])
  {
    SizeFirst(ring);
  }

  class Buffer {
    const capacity: nat
    var total: int
    var nextSeq: nat
    var chunks: seq<Chunk>
    // The channel handed to subscribers, and for every channel made whether it is closed.
    var changed: Option<nat>
    var closed: seq<bool>
    ghost var log: seq<Chunk>
    ghost var evicted: nat

    ghost predicate Valid()
      reads this
    {
      && IsLog(log) && nextSeq == |log| + 1
      && IsRing(chunks, log, evicted, capacity) && total == Size(chunks)
      && WakeValid(WakeState())
    }

    constructor (size: int)
      ensures Valid() && log == [] && capacity == if size <= 0 then DEFAULT_CAPACITY else size
      ensures changed == None && closed == []
    {
      capacity := if size <= 0 then DEFAULT_CAPACITY else size;
      total, nextSeq, chunks, log, evicted := 0, 1, [], [], 0;
      changed, closed := None, [];
    }

    /** The part of the buffer that subscribers see. */
    ghost function WakeState(): Wakeups
      reads this
      requires nextSeq > 0
    {
      Wakeups(nextSeq - 1, changed, closed)
    }

    /** Appends a chunk under the next sequence number, wakes subscribers, evicts what no longer fits. */
    method AppendSized(payload: Bytes, ctype: ChunkType, cols: nat, rows: nat) returns (chunk: Chunk)
      requires Valid()
      modifies this
      ensures Valid()
      ensures chunk == Chunk(|old(log)| + 1, payload, ctype, cols, rows) && log == old(log) + [chunk]
      ensures WakeState() == Wake(old(WakeState()), Append)
    {
      chunk := Chunk(nextSeq, payload, ctype, cols, rows);
      nextSeq := nextSeq + 1;
      NotifyLocked();
      AppendStarts(chunks, log, evicted, capacity, chunk);
      chunks := chunks + [chunk];
      total := total + |payload|;
      log := log + [chunk];
      Evict();
    }

    /** The eviction loop. */
    method Evict()
      requires Evicting(chunks, log, evicted, capacity) && total == Size(chunks)
      modifies this`total, this`chunks, this`evicted
      ensures IsRing(chunks, log, evicted, capacity) && total == Size(chunks)
    {
      while (total > capacity || |chunks| > MAX_CHUNKS) && |chunks| > 0
        invariant Evicting(chunks, log, evicted, capacity) && total == Size(chunks)
        decreases |chunks|
      {
        EvictOne(chunks, log, evicted, capacity);
        total := total - |chunks[0].payload|;
        chunks := chunks[1..];
        evicted := evicted + 1;
      }
    }

    method NotifyLocked()
      requires changed.Some? ==> changed.value < |closed|
      modifies this`changed, this`closed
      ensures changed == Some(|old(closed)|)
      ensures closed == (if old(changed).Some? then old(closed)[old(changed).value := true] else old(closed)) + [false]
    {
      if changed.Some? { closed := closed[changed.value := true]; }
      changed := Some(|closed|);
      closed := closed + [false];
    }

    /** Subscribes: the channel the next append will close. */
    method Changes() returns (ch: nat)
      requires Valid()
      modifies this`changed, this`closed
      ensures Valid() && changed == Some(ch) && !closed[ch]
      ensures WakeState() == Wake(old(WakeState()), Subscribe)
    {
      if changed.None? {
        changed := Some(|closed|);
        closed := closed + [false];
      }
      ch := changed.value;
    }

    /** Copies the retained chunks past the cursor. */
    method After(afterSeq: nat) returns (out: seq<Chunk>)
      requires Valid()
      ensures out == log[Min(|log|, Max(afterSeq, evicted))..]
    {
      out := [];
      ghost var first := Max(afterSeq, evicted);
      for i := 0 to |chunks|
        invariant |out| == Max(0, evicted + i - first)
        invariant forall j :: 0 <= j < |out| ==> out[j] == log[first + j]
      {
        if chunks[i].num > afterSeq {
          out := out + [chunks[i]];
        }
      }
    }

    function OldestSeq(): (n: nat)
      reads this
      requires Valid()
      ensures n == if chunks == [] then 0 else evicted + 1
    {
      if |chunks| == 0 then 0 else chunks[0].num
    }

    /** A chunk can exceed the whole budget: its number counts even when no bytes remain. */
    function LastSeq(): (n: nat)
      reads this
      requires Valid()
      ensures n == |log|
    {
      nextSeq - 1
    }
  }

  // ---------------------------------------------------------------------
  // No lost wake-up
  // ---------------------------------------------------------------------

  /** The subscription side of a buffer: what `Changes` and `AppendSized` do to it. */
  datatype Wakeups = Wakeups(lastSeq: nat, changed: Option<nat>, closed: seq<bool>)

  datatype WakeStep = Append | Subscribe

  ghost predicate WakeValid(w: Wakeups) {
    w.changed.Some? ==> w.changed.value < |w.closed| && !w.closed[w.changed.value]
  }

  function Wake(w: Wakeups, s: WakeStep): (w': Wakeups)
    requires WakeValid(w)
    ensures WakeValid(w')
  {
    match s
    case Append =>
      Wakeups(w.lastSeq + 1, Some(|w.closed|),
              (if w.changed.Some? then w.closed[w.changed.value := true] else w.closed) + [false])
    case Subscribe =>
      if w.changed.None? then w.(changed := Some(|w.closed|), closed := w.closed + [false]) else w
  }

  function WakeAll(w: Wakeups, steps: seq<WakeStep>): (w': Wakeups)
    requires WakeValid(w)
    ensures WakeValid(w')
  {
    if steps == [] then w else Wake(WakeAll(w, steps[..|steps| - 1]), steps[|steps| - 1])
  }

  /**
   * A reader that subscribes, and only then looks at the buffer, cannot sleep
   * through an append: after any further activity the channel it holds is
   * closed exactly when something was appended since it subscribed.
   */
  lemma {:induction false} NoLostWakeup(w: Wakeups, steps: seq<WakeStep>)
    requires WakeValid(w) && w.changed.Some?
    ensures var w' := WakeAll(w, steps);
            && |w.closed| <= |w'.closed| && w.lastSeq <= w'.lastSeq
            && (w'.closed[w.changed.value] <==> w'.lastSeq > w.lastSeq)
            && w'.changed.Some? && (w'.lastSeq == w.lastSeq ==> w'.changed == w.changed)
            && (w'.lastSeq > w.lastSeq ==> w'.changed.value >= |w.closed|)
  {
    if steps != [] {
      NoLostWakeup(w, steps[..|steps| - 1]);
    }
  }
}
