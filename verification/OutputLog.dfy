/** Output chunks, and the append history every other view of a session is measured against. */
module OutputLog {
  import opened Common

  datatype ChunkType = Output | Thinking | WriterClaimed | WriterReleased

  /** A chunk of output; `num` is its sequence number, 0 on control events. */
  datatype Chunk = Chunk(num: nat, payload: Bytes, ctype: ChunkType, cols: nat, rows: nat)

  const MAX_WINDOW := 65536

  /** Everything ever appended: chunk `i` of the history has sequence number `i + 1`. */
  ghost predicate IsLog(log: seq<Chunk>) {
    forall i :: 0 <= i < |log| ==> log[i].num == i + 1
  }

  /** Sequence numbers strictly increase. */
  ghost predicate Increasing(chunks: seq<Chunk>) {
    forall i, j :: 0 <= i < j < |chunks| ==> chunks[i].num < chunks[j].num
  }

  function Size(chunks: seq<Chunk>): nat {
    if chunks == [] then 0 else Size(chunks[..|chunks| - 1]) + |chunks[|chunks| - 1].payload|
  }

  function Payloads(chunks: seq<Chunk>): Bytes {
    if chunks == [] then [] else Payloads(chunks[..|chunks| - 1]) + chunks[|chunks| - 1].payload
  }

  lemma {:induction false} SizeSplit(a: seq<Chunk>, b: seq<Chunk>)
    ensures Size(a + b) == Size(a) + Size(b)
  {
    if b == [] {
      assert a + b == a;
    } else {
      assert (a + b)[..|a + b| - 1] == a + b[..|b| - 1];
      SizeSplit(a, b[..|b| - 1]);
    }
  }

  lemma SizeFirst(s: seq<Chunk>)
    requires s != []
    ensures Size(s) == |s[0].payload| + Size(s[1..])
  {
    assert s == [s[0]] + s[1..];
    SizeSplit([s[0]], s[1..]);
    assert [s[0]][..0] == [];
  }

  lemma {:induction false} PayloadsSize(s: seq<Chunk>)
    ensures |Payloads(s)| == Size(s)
  {
    if s != [] {
      PayloadsSize(s[..|s| - 1]);
    }
  }

  lemma SizeSnoc(s: seq<Chunk>, c: Chunk)
    ensures Size(s + [c]) == Size(s) + |c.payload|
  {
    assert (s + [c])[..|s|] == s;
  }

  lemma PayloadsSnoc(s: seq<Chunk>, c: Chunk)
    ensures Payloads(s + [c]) == Payloads(s) + c.payload
  {
    assert (s + [c])[..|s|] == s;
  }

  /** The chunks with a sequence number past the cursor. */
  function Past(chunks: seq<Chunk>, after: nat): seq<Chunk> {
    if chunks == [] then []
    else if chunks[0].num > after then chunks
    else Past(chunks[1..], after)
  }

  /** On increasing numbers, `Past` is the tail that holds exactly the later chunks. */
  lemma {:induction false} PastSplits(chunks: seq<Chunk>, after: nat) returns (k: nat)
    requires Increasing(chunks)
    ensures k <= |chunks| && Past(chunks, after) == chunks[k..]
    ensures forall i :: 0 <= i < k ==> chunks[i].num <= after
    ensures forall i :: k <= i < |chunks| ==> chunks[i].num > after
  {
    if chunks == [] || chunks[0].num > after {
      k := 0;
    } else {
      var rest := chunks[1..];
      var j := PastSplits(rest, after);
      k := j + 1;
      assert forall i :: 1 <= i < |chunks| ==> chunks[i] == rest[i - 1];
    }
  }

  /** In a tail of the history, the chunks past a cursor start at the cursor or at the tail itself. */
  lemma {:induction false} LogPast(log: seq<Chunk>, n: nat, after: nat)
    requires IsLog(log) && n <= |log|
    ensures Past(log[n..], after) == log[Min(|log|, Max(after, n))..]
    decreases |log| - n
  {
    if n < |log| {
      assert log[n..][0] == log[n];
      if n < after {
        assert log[n..][1..] == log[n + 1..];
        LogPast(log, n + 1, after);
      }
    }
  }

  lemma LogPastFirst(log: seq<Chunk>, after: nat)
    requires IsLog(log) && after < |log|
    ensures Past(log, after) != [] && Past(log, after)[0] == log[after]
  {
    LogPast(log, 0, after);
    assert log[0..] == log;
  }
}
