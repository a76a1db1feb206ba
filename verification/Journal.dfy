/** The durable journal: chunks in one ordered byte-key bucket shared by all sessions. */
module Journal {
  import opened Common
  import opened OutputLog

  const SLASH: byte := 0x2f
  const MAX_UINT64 := 0xffff_ffff_ffff_ffff
  const MAX_PAGE_CHUNKS := 1024

  type uint64 = x: int | 0 <= x <= MAX_UINT64

  // ---------------------------------------------------------------------
  // Byte order
  // ---------------------------------------------------------------------

  predicate HasPrefix(k: Bytes, p: Bytes) {
    |p| <= |k| && k[..|p|] == p
  }

  /** Keys with a common prefix are neighbours in byte order. */
  lemma {:induction false} PrefixIsConvex(p: Bytes, a: Bytes, b: Bytes, c: Bytes)
    requires HasPrefix(a, p) && HasPrefix(c, p) && !Less(b, a) && !Less(c, b)
    ensures HasPrefix(b, p)
  {
    if p != [] {
      assert a[1..][..|p| - 1] == p[1..] && c[1..][..|p| - 1] == p[1..];
      assert a[0] == p[0] && c[0] == p[0];
      PrefixIsConvex(p[1..], a[1..], b[1..], c[1..]);
      assert b == [b[0]] + b[1..] && p == [p[0]] + p[1..];
    }
  }

  lemma {:induction false} PrefixNotLess(k: Bytes, p: Bytes)
    requires HasPrefix(k, p)
    ensures !Less(k, p)
  {
    if p != [] {
      assert k[1..][..|p| - 1] == p[1..] && k[0] == p[0];
      PrefixNotLess(k[1..], p[1..]);
    }
  }

  lemma {:induction false} LessCommonFront(p: Bytes, a: Bytes, b: Bytes)
    ensures Less(p + a, p + b) <==> Less(a, b)
  {
    if p == [] {
      assert p + a == a && p + b == b;
    } else {
      assert (p + a)[1..] == p[1..] + a && (p + b)[1..] == p[1..] + b;
      LessCommonFront(p[1..], a, b);
    }
  }

  lemma {:induction false} LessSnoc(a: Bytes, b: Bytes, x: byte, y: byte)
    requires |a| == |b|
    ensures Less(a + [x], b + [y]) <==> Less(a, b) || (a == b && x < y)
  {
    if a != [] {
      assert (a + [x])[1..] == a[1..] + [x] && (b + [y])[1..] == b[1..] + [y];
      assert a == b <==> a[0] == b[0] && a[1..] == b[1..] by {
        assert a == [a[0]] + a[1..] && b == [b[0]] + b[1..];
      }
      LessSnoc(a[1..], b[1..], x, y);
    }
  }

  // ---------------------------------------------------------------------
  // Keys: "<session id>/<sequence in 16 hex digits>"
  // ---------------------------------------------------------------------

  function HexDigit(d: int): byte
    requires 0 <= d < 16
  {
    if d < 10 then 0x30 + d else 0x61 + d - 10
  }

  function Hex(n: nat, width: nat): Bytes {
    if width == 0 then [] else Hex(n / 16, width - 1) + [HexDigit(n % 16)]
  }

  function Pow16(w: nat): nat {
    if w == 0 then 1 else 16 * Pow16(w - 1)
  }

  function ChunkKey(sid: Bytes, n: nat): Bytes {
    sid + [SLASH] + Hex(n, 16)
  }

  lemma {:induction false} HexShape(n: nat, width: nat)
    ensures |Hex(n, width)| == width && SLASH !in Hex(n, width)
  {
    if width > 0 {
      HexShape(n / 16, width - 1);
    }
  }

  /** Zero-padded hex of one width orders bytewise as the numbers do. */
  lemma {:induction false} HexOrder(a: nat, b: nat, width: nat)
    requires a < Pow16(width) && b < Pow16(width)
    ensures Less(Hex(a, width), Hex(b, width)) <==> a < b
    decreases width
  {
    if width > 0 {
      var p, q := Hex(a / 16, width - 1), Hex(b / 16, width - 1);
      HexOrder(a / 16, b / 16, width - 1);
      HexOrder(b / 16, a / 16, width - 1);
      HexShape(a / 16, width - 1);
      HexShape(b / 16, width - 1);
      LessTotal(p, q);
      LessSnoc(p, q, HexDigit(a % 16), HexDigit(b % 16));
    }
  }

  lemma SixteenDigits()
    ensures Pow16(16) == MAX_UINT64 + 1
  {
    assert Pow16(4) == 0x1_0000;
    assert Pow16(8) == 0x1_0000_0000;
    assert Pow16(12) == 0x1_0000_0000_0000;
  }

  /** Within a session, key order is sequence order. */
  lemma KeyOrder(sid: Bytes, n: uint64, m: uint64)
    ensures Less(ChunkKey(sid, n), ChunkKey(sid, m)) <==> n < m
  {
    SixteenDigits();
    HexOrder(n, m, 16);
    LessCommonFront(sid + [SLASH], Hex(n, 16), Hex(m, 16));
  }

  lemma KeyInjective(a: Bytes, n: uint64, b: Bytes, m: uint64)
    requires ChunkKey(a, n) == ChunkKey(b, m)
    ensures a == b && n == m
  {
    HexShape(n, 16);
    HexShape(m, 16);
    assert a == ChunkKey(a, n)[..|a|] && b == ChunkKey(b, m)[..|b|];
    KeyOrder(a, n, m);
    KeyOrder(a, m, n);
    LessTotal(ChunkKey(a, n), ChunkKey(a, n));
  }

  lemma PrefixByIndex(k: Bytes, p: Bytes)
    ensures HasPrefix(k, p) <==> |p| <= |k| && forall i :: 0 <= i < |p| ==> k[i] == p[i]
  {
  }

  /** Which keys a scan for a session meets: its own, and those of ids nested below it. */
  lemma PrefixMeaning(sid: Bytes, owner: Bytes, n: uint64)
    ensures HasPrefix(ChunkKey(owner, n), sid + [SLASH]) <==> owner == sid || HasPrefix(owner, sid + [SLASH])
  {
    var k, p := ChunkKey(owner, n), sid + [SLASH];
    HexShape(n, 16);
    PrefixByIndex(k, p);
    PrefixByIndex(owner, p);
    if HasPrefix(k, p) {
      assert k[|sid|] == p[|sid|] == SLASH;
      if |sid| == |owner| {
        assert forall i :: 0 <= i < |sid| ==> owner[i] == k[i] == p[i] == sid[i];
      } else {
        assert forall i :: 0 <= i < |p| ==> owner[i] == k[i];
      }
    }
  }

  // ---------------------------------------------------------------------
  // The bucket
  // ---------------------------------------------------------------------

  datatype Entry = Entry(key: Bytes, chunk: Chunk)

  function Owner(e: Entry): Bytes
    requires |e.key| >= 17
  {
    e.key[..|e.key| - 17]
  }

  ghost predicate WellKeyed(e: Entry) {
    |e.key| >= 17 && e.chunk.num <= MAX_UINT64 && e.key == ChunkKey(Owner(e), e.chunk.num)
  }

  ghost predicate Above(k: Bytes, bucket: seq<Entry>) {
    forall i :: 0 <= i < |bucket| ==> Less(k, bucket[i].key)
  }

  /** Entries in strict key order, each under the key of its own sequence number. */
  ghost predicate Ordered(bucket: seq<Entry>) {
    && (forall i :: 0 <= i < |bucket| ==> WellKeyed(bucket[i]))
    && (forall i, j :: 0 <= i < j < |bucket| ==> Less(bucket[i].key, bucket[j].key))
  }

  lemma OrderedParts(bucket: seq<Entry>)
    requires bucket != []
    ensures Ordered(bucket) <==> WellKeyed(bucket[0]) && Above(bucket[0].key, bucket[1..]) && Ordered(bucket[1..])
  {
    var first, rest := bucket[0], bucket[1..];
    assert bucket == [first] + rest;
    assert forall i :: 0 <= i < |rest| ==> rest[i] == bucket[i + 1];
  }

  function Put(bucket: seq<Entry>, key: Bytes, chunk: Chunk): seq<Entry> {
    if bucket == [] || Less(key, bucket[0].key) then [Entry(key, chunk)] + bucket
    else if bucket[0].key == key then [Entry(key, chunk)] + bucket[1..]
    else [bucket[0]] + Put(bucket[1..], key, chunk)
  }

  predicate Owns(sid: Bytes, e: Entry) {
    e.key == ChunkKey(sid, e.chunk.num)
  }

  /** The chunks stored for one session, in bucket order. */
  function Owned(bucket: seq<Entry>, sid: Bytes): seq<Chunk> {
    if bucket == [] then []
    else (if Owns(sid, bucket[0]) then [bucket[0].chunk] else []) + Owned(bucket[1..], sid)
  }

  /** From position `i` on, no stored session id lies below `sid` and a slash. */
  ghost predicate NoneNestedFrom(bucket: seq<Entry>, sid: Bytes, i: nat) {
    forall j :: i <= j < |bucket| ==> |bucket[j].key| >= 17 && !HasPrefix(Owner(bucket[j]), sid + [SLASH])
  }

  /** Holds for all ids when none contains a slash. */
  ghost predicate Unnested(bucket: seq<Entry>, sid: Bytes) {
    NoneNestedFrom(bucket, sid, 0)
  }

  // --- what Put does -----------------------------------------------------

  lemma {:induction false} PutAbove(k: Bytes, bucket: seq<Entry>, key: Bytes, chunk: Chunk)
    requires Above(k, bucket) && Less(k, key)
    ensures Above(k, Put(bucket, key, chunk))
  {
    if bucket != [] && !Less(key, bucket[0].key) && bucket[0].key != key {
      assert Above(k, bucket[1..]);
      PutAbove(k, bucket[1..], key, chunk);
    }
  }

  lemma AboveTransitive(a: Bytes, b: Bytes, bucket: seq<Entry>)
    requires Less(a, b) && Above(b, bucket)
    ensures Above(a, bucket)
  {
    forall i | 0 <= i < |bucket| ensures Less(a, bucket[i].key) {
      LessTransitive(a, b, bucket[i].key);
    }
  }

  lemma {:induction false} PutOrdered(bucket: seq<Entry>, sid: Bytes, chunk: Chunk)
    requires Ordered(bucket) && chunk.num <= MAX_UINT64
    ensures Ordered(Put(bucket, ChunkKey(sid, chunk.num), chunk))
  {
    var key := ChunkKey(sid, chunk.num);
    HexShape(chunk.num, 16);
    assert Owner(Entry(key, chunk)) == sid;
    assert WellKeyed(Entry(key, chunk));
    var out := Put(bucket, key, chunk);
    OrderedParts(out);
    if bucket != [] {
      OrderedParts(bucket);
    }
    if bucket == [] {
      assert out[1..] == [];
    } else if Less(key, bucket[0].key) {
      assert out[1..] == bucket;
      AboveTransitive(key, bucket[0].key, bucket[1..]);
      assert bucket == [bucket[0]] + bucket[1..];
      assert Above(key, bucket);
    } else if bucket[0].key == key {
      assert out[1..] == bucket[1..];
    } else {
      LessTotal(key, bucket[0].key);
      PutAbove(bucket[0].key, bucket[1..], key, chunk);
      PutOrdered(bucket[1..], sid, chunk);
      assert out[1..] == Put(bucket[1..], key, chunk);
    }
  }

  lemma {:induction false} NoneOwnedAbove(bucket: seq<Entry>, sid: Bytes, n: uint64)
    requires Ordered(bucket) && Above(ChunkKey(sid, n), bucket)
    requires forall c :: c in Owned(bucket, sid) ==> c.num < n
    ensures Owned(bucket, sid) == []
  {
    if bucket != [] {
      OrderedParts(bucket);
      if Owns(sid, bucket[0]) {
        assert bucket[0].chunk in Owned(bucket, sid);
        KeyOrder(sid, bucket[0].chunk.num, n);
        LessTotal(bucket[0].key, ChunkKey(sid, n));
        assert false;
      }
      NoneOwnedAbove(bucket[1..], sid, n);
    }
  }

  lemma OwnedCons(e: Entry, rest: seq<Entry>, sid: Bytes)
    ensures Owned([e] + rest, sid) == (if Owns(sid, e) then [e.chunk] else []) + Owned(rest, sid)
  {
    assert ([e] + rest)[1..] == rest;
  }

  lemma OwnedFirst(bucket: seq<Entry>, sid: Bytes, chunk: Chunk)
    requires Ordered(bucket) && bucket != [] && chunk.num <= MAX_UINT64
    requires forall c :: c in Owned(bucket, sid) ==> c.num < chunk.num
    ensures bucket[0].key != ChunkKey(sid, chunk.num)
    ensures forall c :: c in Owned(bucket[1..], sid) ==> c.num < chunk.num
  {
    if Owns(sid, bucket[0]) {
      assert bucket[0].chunk in Owned(bucket, sid);
    }
    if bucket[0].key == ChunkKey(sid, chunk.num) {
      assert WellKeyed(bucket[0]);
      KeyInjective(Owner(bucket[0]), bucket[0].chunk.num, sid, chunk.num);
    }
  }

  /** Saving the next chunk of a session appends it to what is stored for that session. */
  lemma {:induction false} PutAppends(bucket: seq<Entry>, sid: Bytes, chunk: Chunk)
    requires Ordered(bucket) && chunk.num <= MAX_UINT64
    requires forall c :: c in Owned(bucket, sid) ==> c.num < chunk.num
    ensures Owned(Put(bucket, ChunkKey(sid, chunk.num), chunk), sid) == Owned(bucket, sid) + [chunk]
  {
    var key := ChunkKey(sid, chunk.num);
    if bucket == [] {
      OwnedCons(Entry(key, chunk), bucket, sid);
    } else {
      OrderedParts(bucket);
      OwnedFirst(bucket, sid, chunk);
      if Less(key, bucket[0].key) {
        OwnedCons(Entry(key, chunk), bucket, sid);
        AboveTransitive(key, bucket[0].key, bucket[1..]);
        assert bucket == [bucket[0]] + bucket[1..];
        NoneOwnedAbove(bucket, sid, chunk.num);
      } else {
        OwnedCons(bucket[0], Put(bucket[1..], key, chunk), sid);
        PutAppends(bucket[1..], sid, chunk);
      }
    }
  }

  /** Saving a chunk of one session leaves every other session's chunks alone. */
  lemma {:induction false} PutElsewhere(bucket: seq<Entry>, sid: Bytes, chunk: Chunk, other: Bytes)
    requires Ordered(bucket) && chunk.num <= MAX_UINT64 && other != sid
    ensures Owned(Put(bucket, ChunkKey(sid, chunk.num), chunk), other) == Owned(bucket, other)
  {
    var key := ChunkKey(sid, chunk.num);
    var out := Put(bucket, key, chunk);
    if Owns(other, Entry(key, chunk)) {
      KeyInjective(other, chunk.num, sid, chunk.num);
    }
    if bucket != [] {
      OrderedParts(bucket);
    }
    if bucket == [] {
      assert out[1..] == [];
    } else if Less(key, bucket[0].key) {
      assert out[1..] == bucket;
    } else if bucket[0].key == key {
      assert out[1..] == bucket[1..];
      if Owns(other, bucket[0]) {
        KeyInjective(other, bucket[0].chunk.num, sid, chunk.num);
      }
    } else {
      assert out[1..] == Put(bucket[1..], key, chunk);
      PutElsewhere(bucket[1..], sid, chunk, other);
    }
  }

  lemma {:induction false} PutIn(bucket: seq<Entry>, key: Bytes, chunk: Chunk, e: Entry)
    requires e in Put(bucket, key, chunk)
    ensures e == Entry(key, chunk) || e in bucket
  {
    if bucket != [] && !Less(key, bucket[0].key) && bucket[0].key != key && e != bucket[0] {
      PutIn(bucket[1..], key, chunk, e);
    }
  }

  /** A session's own chunks never nest below it. */
  lemma PutUnnested(bucket: seq<Entry>, sid: Bytes, chunk: Chunk)
    requires Unnested(bucket, sid)
    ensures Unnested(Put(bucket, ChunkKey(sid, chunk.num), chunk), sid)
  {
    var key := ChunkKey(sid, chunk.num);
    var out := Put(bucket, key, chunk);
    HexShape(chunk.num, 16);
    assert Owner(Entry(key, chunk)) == sid;
    forall j | 0 <= j < |out| ensures |out[j].key| >= 17 && !HasPrefix(Owner(out[j]), sid + [SLASH]) {
      PutIn(bucket, key, chunk, out[j]);
    }
  }

  lemma {:induction false} OwnedIn(bucket: seq<Entry>, sid: Bytes, c: Chunk) returns (i: nat)
    requires c in Owned(bucket, sid)
    ensures i < |bucket| && bucket[i].chunk == c && Owns(sid, bucket[i])
  {
    if Owns(sid, bucket[0]) && bucket[0].chunk == c {
      i := 0;
    } else {
      i := OwnedIn(bucket[1..], sid, c);
      i := i + 1;
    }
  }

  lemma IncreasingCons(x: Chunk, rest: seq<Chunk>)
    requires Increasing(rest) && forall c :: c in rest ==> x.num < c.num
    ensures Increasing([x] + rest)
  {
  }

  lemma {:induction false} OwnedIncreasing(bucket: seq<Entry>, sid: Bytes)
    requires Ordered(bucket)
    ensures Increasing(Owned(bucket, sid))
    ensures forall c :: c in Owned(bucket, sid) ==> c.num <= MAX_UINT64
  {
    forall c | c in Owned(bucket, sid) ensures c.num <= MAX_UINT64 {
      var i := OwnedIn(bucket, sid, c);
      assert WellKeyed(bucket[i]);
    }
    if bucket != [] {
      var rest := Owned(bucket[1..], sid);
      OrderedParts(bucket);
      OwnedIncreasing(bucket[1..], sid);
      if Owns(sid, bucket[0]) {
        forall c | c in rest ensures bucket[0].chunk.num < c.num {
          var i := OwnedIn(bucket[1..], sid, c);
          assert Less(bucket[0].key, bucket[1..][i].key);
          KeyOrder(sid, bucket[0].chunk.num, c.num);
        }
        IncreasingCons(bucket[0].chunk, rest);
      }
    }
  }

  // ---------------------------------------------------------------------
  // Scanning with a cursor
  // ---------------------------------------------------------------------

  /** The first entry at or after `key`, from position `i` on. */
  function Seek(bucket: seq<Entry>, key: Bytes, i: nat): (j: nat)
    requires i <= |bucket|
    ensures i <= j <= |bucket| && (j < |bucket| ==> !Less(bucket[j].key, key))
    decreases |bucket| - i
  {
    if i < |bucket| && Less(bucket[i].key, key) then Seek(bucket, key, i + 1) else i
  }

  /** What a cursor walking from entry `i` meets before it leaves the prefix. */
  function Walk(bucket: seq<Entry>, prefix: Bytes, i: nat): seq<Chunk>
    requires i <= |bucket|
    decreases |bucket| - i
  {
    if i < |bucket| && HasPrefix(bucket[i].key, prefix) then [bucket[i].chunk] + Walk(bucket, prefix, i + 1) else []
  }

  /** The same entries, chosen by owner instead. */
  function OwnedFrom(bucket: seq<Entry>, sid: Bytes, i: nat): seq<Chunk>
    requires i <= |bucket|
    decreases |bucket| - i
  {
    if i == |bucket| then []
    else (if Owns(sid, bucket[i]) then [bucket[i].chunk] else []) + OwnedFrom(bucket, sid, i + 1)
  }

  lemma {:induction false} OwnedIsOwnedFrom(bucket: seq<Entry>, sid: Bytes, i: nat)
    requires i <= |bucket|
    ensures OwnedFrom(bucket, sid, i) == Owned(bucket[i..], sid)
    decreases |bucket| - i
  {
    if i < |bucket| {
      assert bucket[i..][1..] == bucket[i + 1..];
      OwnedIsOwnedFrom(bucket, sid, i + 1);
    }
  }

  lemma OwnsMeaning(bucket: seq<Entry>, sid: Bytes, i: nat)
    requires Ordered(bucket) && i < |bucket|
    ensures Owns(sid, bucket[i]) <==> Owner(bucket[i]) == sid
  {
    if Owns(sid, bucket[i]) {
      KeyInjective(sid, bucket[i].chunk.num, Owner(bucket[i]), bucket[i].chunk.num);
    }
  }

  /** Once the cursor has left the prefix, the session has no entry further on. */
  lemma {:induction false} NothingPastWalk(bucket: seq<Entry>, sid: Bytes, start: Bytes, i: nat, j: nat)
    requires Ordered(bucket) && i <= j <= |bucket|
    requires HasPrefix(start, sid + [SLASH])
    requires i < |bucket| && !Less(bucket[i].key, start) && !HasPrefix(bucket[i].key, sid + [SLASH])
    ensures OwnedFrom(bucket, sid, j) == []
    decreases |bucket| - j
  {
    if j < |bucket| {
      if Owns(sid, bucket[j]) {
        PrefixMeaning(sid, sid, bucket[j].chunk.num);
        LessTotal(bucket[i].key, bucket[j].key);
        PrefixIsConvex(sid + [SLASH], start, bucket[i].key, bucket[j].key);
        assert false;
      }
      NothingPastWalk(bucket, sid, start, i, j + 1);
    }
  }

  /** Without nested ids further on, walking the prefix is walking the session's own entries. */
  lemma {:induction false} WalkIsOwned(bucket: seq<Entry>, sid: Bytes, start: Bytes, i: nat)
    requires Ordered(bucket) && i <= |bucket| && NoneNestedFrom(bucket, sid, i)
    requires HasPrefix(start, sid + [SLASH]) && (i < |bucket| ==> !Less(bucket[i].key, start))
    ensures Walk(bucket, sid + [SLASH], i) == OwnedFrom(bucket, sid, i)
    decreases |bucket| - i
  {
    if i < |bucket| {
      OwnsMeaning(bucket, sid, i);
      PrefixMeaning(sid, Owner(bucket[i]), bucket[i].chunk.num);
      if HasPrefix(bucket[i].key, sid + [SLASH]) {
        if i + 1 < |bucket| && Less(bucket[i + 1].key, start) {
          LessTransitive(bucket[i].key, bucket[i + 1].key, start);
          assert false;
        }
        WalkIsOwned(bucket, sid, start, i + 1);
      } else {
        NothingPastWalk(bucket, sid, start, i, i);
      }
    }
  }

  lemma UnfoldOwned(bucket: seq<Entry>, sid: Bytes, i: nat)
    requires i < |bucket|
    ensures var here, more := OwnedFrom(bucket, sid, i), OwnedFrom(bucket, sid, i + 1);
            if Owns(sid, bucket[i]) then here != [] && here[0] == bucket[i].chunk && here[1..] == more else here == more
  {
  }

  lemma OwnedPast(bucket: seq<Entry>, sid: Bytes, after: nat, i: nat)
    requires i < |bucket|
    ensures Past(OwnedFrom(bucket, sid, i), after)
         == if Owns(sid, bucket[i]) && bucket[i].chunk.num > after then OwnedFrom(bucket, sid, i)
            else Past(OwnedFrom(bucket, sid, i + 1), after)
  {
    UnfoldOwned(bucket, sid, i);
  }

  /** Among the session's own entries, the key lies right after sequence number `after`. */
  ghost predicate Divides(bucket: seq<Entry>, sid: Bytes, key: Bytes, after: nat) {
    forall i :: 0 <= i < |bucket| && Owns(sid, bucket[i]) ==> (Less(bucket[i].key, key) <==> bucket[i].chunk.num <= after)
  }

  lemma KeyDivides(bucket: seq<Entry>, sid: Bytes, after: uint64)
    requires Ordered(bucket) && after < MAX_UINT64
    ensures Divides(bucket, sid, ChunkKey(sid, after + 1), after)
  {
    forall i | 0 <= i < |bucket| && Owns(sid, bucket[i])
      ensures Less(bucket[i].key, ChunkKey(sid, after + 1)) <==> bucket[i].chunk.num <= after
    {
      KeyOrder(sid, bucket[i].chunk.num, after + 1);
    }
  }

  /** Seeking skips exactly the session's chunks at or before the cursor. */
  lemma {:induction false} SeekSkips(bucket: seq<Entry>, sid: Bytes, key: Bytes, after: nat, i: nat)
    requires Ordered(bucket) && Divides(bucket, sid, key, after) && i <= |bucket|
    ensures Past(OwnedFrom(bucket, sid, i), after) == OwnedFrom(bucket, sid, Seek(bucket, key, i))
    decreases |bucket| - i
  {
    if i < |bucket| {
      OwnedPast(bucket, sid, after, i);
      if Less(bucket[i].key, key) {
        SeekSkips(bucket, sid, key, after, i + 1);
      } else {
        AllPast(bucket, sid, key, after, i);
      }
    }
  }

  lemma {:induction false} AllPast(bucket: seq<Entry>, sid: Bytes, key: Bytes, after: nat, i: nat)
    requires Ordered(bucket) && Divides(bucket, sid, key, after) && i <= |bucket|
    requires i < |bucket| ==> !Less(bucket[i].key, key)
    ensures Past(OwnedFrom(bucket, sid, i), after) == OwnedFrom(bucket, sid, i)
    decreases |bucket| - i
  {
    if i < |bucket| {
      OwnedPast(bucket, sid, after, i);
      UnfoldOwned(bucket, sid, i);
      if !Owns(sid, bucket[i]) {
        if i + 1 < |bucket| && Less(bucket[i + 1].key, key) {
          LessTransitive(bucket[i].key, bucket[i + 1].key, key);
          assert false;
        }
        AllPast(bucket, sid, key, after, i + 1);
      }
    }
  }

  /** The entries a page is cut from: everything the cursor meets from the requested sequence on. */
  function ScanAfter(bucket: seq<Entry>, sid: Bytes, after: uint64): seq<Chunk> {
    if after == MAX_UINT64 then []
    else Walk(bucket, sid + [SLASH], Seek(bucket, ChunkKey(sid, after + 1), 0))
  }

  function ScanAll(bucket: seq<Entry>, sid: Bytes): seq<Chunk> {
    Walk(bucket, sid + [SLASH], Seek(bucket, sid + [SLASH], 0))
  }

  lemma {:induction false} KeyHasPrefix(sid: Bytes, n: uint64)
    ensures HasPrefix(ChunkKey(sid, n), sid + [SLASH]) && HasPrefix(sid + [SLASH], sid + [SLASH])
  {
    PrefixMeaning(sid, sid, n);
    PrefixByIndex(sid + [SLASH], sid + [SLASH]);
  }

  lemma PastNothing(chunks: seq<Chunk>, after: nat)
    requires forall c :: c in chunks ==> c.num <= after
    ensures Past(chunks, after) == []
    decreases |chunks|
  {
    if chunks != [] {
      PastNothing(chunks[1..], after);
    }
  }

  // ---------------------------------------------------------------------
  // Pages
  // ---------------------------------------------------------------------

  datatype PageError = ChunkTooLarge

  predicate Fits(rest: seq<Chunk>, n: nat, maxBytes: nat) {
    n < |rest| && n < MAX_PAGE_CHUNKS && Size(rest[..n]) + |rest[n].payload| <= maxBytes
  }

  function PageLength(rest: seq<Chunk>, n: nat, maxBytes: nat): nat
    requires n <= |rest|
    decreases |rest| - n
  {
    if Fits(rest, n, maxBytes) then PageLength(rest, n + 1, maxBytes) else n
  }

  function PageOf(rest: seq<Chunk>, maxBytes: nat): Result<seq<Chunk>, PageError> {
    var n := PageLength(rest, 0, maxBytes);
    PageLengthBounds(rest, 0, maxBytes);
    if n == 0 && rest != [] then Err(ChunkTooLarge) else Ok(rest[..n])
  }

  lemma {:induction false} PageLengthBounds(rest: seq<Chunk>, n: nat, maxBytes: nat)
    requires n <= |rest|
    ensures n <= PageLength(rest, n, maxBytes) <= |rest|
    ensures n <= MAX_PAGE_CHUNKS ==> PageLength(rest, n, maxBytes) <= MAX_PAGE_CHUNKS
    ensures !Fits(rest, PageLength(rest, n, maxBytes), maxBytes)
    ensures Size(rest[..n]) <= maxBytes ==> Size(rest[..PageLength(rest, n, maxBytes)]) <= maxBytes
    decreases |rest| - n
  {
    if Fits(rest, n, maxBytes) {
      SizeSnoc(rest[..n], rest[n]);
      assert rest[..n] + [rest[n]] == rest[..n + 1];
      PageLengthBounds(rest, n + 1, maxBytes);
    }
  }

  /** A page is the longest start of what is left within 1024 chunks and the byte limit. */
  lemma PageIsMaximal(rest: seq<Chunk>, maxBytes: nat)
    ensures PageOf(rest, maxBytes).Err? <==> rest != [] && |rest[0].payload| > maxBytes
    ensures PageOf(rest, maxBytes).Ok? ==>
              var page := PageOf(rest, maxBytes).value;
              && page <= rest && |page| <= MAX_PAGE_CHUNKS && Size(page) <= maxBytes
              && (rest != [] ==> page != [])
              && (page == rest || |page| == MAX_PAGE_CHUNKS || Size(page) + |rest[|page|].payload| > maxBytes)
  {
    PageLengthBounds(rest, 0, maxBytes);
    assert rest[..0] == [];
  }

  lemma PastAgain(stored: seq<Chunk>, after: nat, n: nat)
    requires Increasing(stored) && 0 < n <= |Past(stored, after)|
    ensures Past(stored, Past(stored, after)[n - 1].num) == Past(stored, after)[n..]
  {
    var rest := Past(stored, after);
    var k := PastSplits(stored, after);
    var last := rest[n - 1].num;
    var j := PastSplits(stored, last);
    assert rest[n - 1] == stored[k + n - 1];
    assert k + n <= j;
    assert k + n < |stored| ==> stored[k + n].num > stored[k + n - 1].num;
    assert stored[j..] == rest[n..];
  }

  lemma FirstPage(stored: seq<Chunk>, after: nat, maxBytes: nat)
    requires Increasing(stored) && Past(stored, after) != []
    requires forall c :: c in stored ==> |c.payload| <= maxBytes
    ensures var rest := Past(stored, after); var page := PageOf(rest, maxBytes);
            && page.Ok? && 0 < |page.value| <= |rest| && page.value == rest[..|page.value|]
            && |Past(stored, page.value[|page.value| - 1].num)| < |rest|
            && page.value + Past(stored, page.value[|page.value| - 1].num) == rest
  {
    var k := PastSplits(stored, after);
    var rest := Past(stored, after);
    assert rest[0] == stored[k];
    PageIsMaximal(rest, maxBytes);
    PastAgain(stored, after, |PageOf(rest, maxBytes).value|);
  }

  function Join(pages: seq<seq<Chunk>>): seq<Chunk> {
    if pages == [] then [] else pages[0] + Join(pages[1..])
  }

  lemma JoinCons(page: seq<Chunk>, pages: seq<seq<Chunk>>)
    ensures Join([page] + pages) == page + Join(pages)
  {
    assert ([page] + pages)[1..] == pages;
  }

  lemma AppendMiddle(chunks: seq<Chunk>, chunk: Chunk, more: seq<Chunk>)
    ensures var scan := chunks + ([chunk] + more);
            scan == (chunks + [chunk]) + more && scan[|chunks|] == chunk && scan[..|chunks|] == chunks
  {
  }

  /** The paging loop has taken `chunks` and has `more` before it. */
  ghost predicate Paging(scan: seq<Chunk>, chunks: seq<Chunk>, more: seq<Chunk>, total: nat, maxBytes: nat) {
    && scan == chunks + more && total == Size(chunks) && |chunks| <= MAX_PAGE_CHUNKS
    && PageLength(scan, |chunks|, maxBytes) == PageLength(scan, 0, maxBytes)
  }

  /** One turn of the paging loop: it stops with the page, or takes one chunk more. */
  lemma PageStep(scan: seq<Chunk>, chunks: seq<Chunk>, chunk: Chunk, more: seq<Chunk>, total: nat, maxBytes: nat)
    requires Paging(scan, chunks, [chunk] + more, total, maxBytes)
    ensures if |chunks| == MAX_PAGE_CHUNKS || total + |chunk.payload| > maxBytes then
              PageOf(scan, maxBytes) == if chunks == [] then Err(ChunkTooLarge) else Ok(chunks)
            else
              Paging(scan, chunks + [chunk], more, total + |chunk.payload|, maxBytes)
  {
    AppendMiddle(chunks, chunk, more);
    SizeSnoc(chunks, chunk);
  }

  lemma PageEnds(scan: seq<Chunk>, chunks: seq<Chunk>, total: nat, maxBytes: nat)
    requires Paging(scan, chunks, [], total, maxBytes)
    ensures PageOf(scan, maxBytes) == Ok(chunks)
  {
    assert scan[..|chunks|] == chunks;
  }

  /** The embedded store. `dbOk` and `Err` outcomes of the database itself are inputs. */
  class Store {
    var bucket: seq<Entry>

    ghost predicate Valid()
      reads this
    {
      Ordered(bucket)
    }

    constructor ()
      ensures Valid() && bucket == []
    {
      bucket := [];
    }

    method SaveChunk(sid: Bytes, chunk: Chunk, dbOk: bool)
      requires Valid() && chunk.num <= MAX_UINT64
      modifies this
      ensures Valid()
      ensures bucket == if dbOk then Put(old(bucket), ChunkKey(sid, chunk.num), chunk) else old(bucket)
    {
      if dbOk {
        PutOrdered(bucket, sid, chunk);
        bucket := Put(bucket, ChunkKey(sid, chunk.num), chunk);
      }
    }

    /** One bounded page; the cursor stops at the first key outside the session's prefix. */
    method LoadChunkPage(sid: Bytes, after: uint64, maxBytes: nat) returns (r: Result<seq<Chunk>, PageError>)
      ensures r == PageOf(ScanAfter(bucket, sid, after), maxBytes)
    {
      if after == MAX_UINT64 { return Ok([]); }
      var prefix := sid + [SLASH];
      var chunks: seq<Chunk>, total: nat := [], 0;
      var i := Seek(bucket, ChunkKey(sid, after + 1), 0);
      ghost var scan := ScanAfter(bucket, sid, after);
      while i < |bucket| && HasPrefix(bucket[i].key, prefix)
        invariant i <= |bucket| && Paging(scan, chunks, Walk(bucket, prefix, i), total, maxBytes)
        decreases |bucket| - i
      {
        var chunk := bucket[i].chunk;
        PageStep(scan, chunks, chunk, Walk(bucket, prefix, i + 1), total, maxBytes);
        if |chunks| == MAX_PAGE_CHUNKS || total + |chunk.payload| > maxBytes {
          if |chunks| == 0 { return Err(ChunkTooLarge); }
          return Ok(chunks);
        }
        chunks, total, i := chunks + [chunk], total + |chunk.payload|, i + 1;
      }
      PageEnds(scan, chunks, total, maxBytes);
      return Ok(chunks);
    }

    method LoadChunks(sid: Bytes) returns (chunks: seq<Chunk>)
      ensures chunks == ScanAll(bucket, sid)
    {
      var prefix := sid + [SLASH];
      chunks := [];
      var i := Seek(bucket, prefix, 0);
      while i < |bucket| && HasPrefix(bucket[i].key, prefix)
        invariant i <= |bucket| && chunks + Walk(bucket, prefix, i) == ScanAll(bucket, sid)
        decreases |bucket| - i
      {
        chunks := chunks + [bucket[i].chunk];
        i := i + 1;
      }
    }
  }

  // ---------------------------------------------------------------------
  // Nested session ids
  // ---------------------------------------------------------------------

  lemma {:induction false} SeekPrefixSkips(bucket: seq<Entry>, sid: Bytes, i: nat)
    requires Ordered(bucket) && i <= |bucket|
    ensures OwnedFrom(bucket, sid, Seek(bucket, sid + [SLASH], i)) == OwnedFrom(bucket, sid, i)
    decreases |bucket| - i
  {
    if i < |bucket| && Less(bucket[i].key, sid + [SLASH]) {
      OwnedNotBelow(sid, bucket[i]);
      UnfoldOwned(bucket, sid, i);
      SeekPrefixSkips(bucket, sid, i + 1);
    }
  }

  lemma OwnedNotBelow(sid: Bytes, e: Entry)
    requires WellKeyed(e)
    ensures Owns(sid, e) ==> !Less(e.key, sid + [SLASH])
  {
    if Owns(sid, e) {
      KeyHasPrefix(sid, e.chunk.num);
      PrefixNotLess(e.key, sid + [SLASH]);
    }
  }

  /** The walk meets every entry under the prefix: as many as there are own and nested ones. */
  function UnderPrefix(bucket: seq<Entry>, sid: Bytes, i: nat): nat
    requires i <= |bucket|
    decreases |bucket| - i
  {
    if i == |bucket| then 0
    else (if HasPrefix(bucket[i].key, sid + [SLASH]) then 1 else 0) + UnderPrefix(bucket, sid, i + 1)
  }

  lemma {:induction false} NoneUnderPast(bucket: seq<Entry>, sid: Bytes, i: nat, j: nat)
    requires Ordered(bucket) && i <= j <= |bucket| && i < |bucket|
    requires !Less(bucket[i].key, sid + [SLASH]) && !HasPrefix(bucket[i].key, sid + [SLASH])
    ensures UnderPrefix(bucket, sid, j) == 0
    decreases |bucket| - j
  {
    if j < |bucket| {
      if HasPrefix(bucket[j].key, sid + [SLASH]) {
        PrefixByIndex(sid + [SLASH], sid + [SLASH]);
        LessTotal(bucket[i].key, bucket[j].key);
        PrefixIsConvex(sid + [SLASH], sid + [SLASH], bucket[i].key, bucket[j].key);
        assert false;
      }
      NoneUnderPast(bucket, sid, i, j + 1);
    }
  }

  lemma {:induction false} WalkCounts(bucket: seq<Entry>, sid: Bytes, i: nat)
    requires Ordered(bucket) && i <= |bucket| && (i < |bucket| ==> !Less(bucket[i].key, sid + [SLASH]))
    ensures |Walk(bucket, sid + [SLASH], i)| == UnderPrefix(bucket, sid, i)
    decreases |bucket| - i
  {
    if i < |bucket| {
      if HasPrefix(bucket[i].key, sid + [SLASH]) {
        if i + 1 < |bucket| && Less(bucket[i + 1].key, sid + [SLASH]) {
          LessTransitive(bucket[i].key, bucket[i + 1].key, sid + [SLASH]);
          assert false;
        }
        WalkCounts(bucket, sid, i + 1);
      } else {
        NoneUnderPast(bucket, sid, i, i);
      }
    }
  }

  lemma {:induction false} NestedCount(bucket: seq<Entry>, sid: Bytes, i: nat)
    requires Ordered(bucket) && i <= |bucket|
    ensures |OwnedFrom(bucket, sid, i)| <= UnderPrefix(bucket, sid, i)
    ensures (exists j :: i <= j < |bucket| && HasPrefix(Owner(bucket[j]), sid + [SLASH]))
              ==> |OwnedFrom(bucket, sid, i)| < UnderPrefix(bucket, sid, i)
    decreases |bucket| - i
  {
    if i < |bucket| {
      OwnsMeaning(bucket, sid, i);
      PrefixMeaning(sid, Owner(bucket[i]), bucket[i].chunk.num);
      PrefixByIndex(sid, sid + [SLASH]);
      NestedCount(bucket, sid, i + 1);
    }
  }

  /** The walk from a key under the prefix meets exactly the session's entries if and only if none is nested further on. */
  lemma WalkIsExactIff(bucket: seq<Entry>, sid: Bytes, start: Bytes, i: nat)
    requires Ordered(bucket) && i <= |bucket| && HasPrefix(start, sid + [SLASH]) && (i < |bucket| ==> !Less(bucket[i].key, start))
    ensures Walk(bucket, sid + [SLASH], i) == OwnedFrom(bucket, sid, i) <==> NoneNestedFrom(bucket, sid, i)
  {
    if NoneNestedFrom(bucket, sid, i) {
      WalkIsOwned(bucket, sid, start, i);
    } else {
      PrefixNotLess(start, sid + [SLASH]);
      if i < |bucket| {
        NotLessTransitive(bucket[i].key, start, sid + [SLASH]);
      }
      WalkCounts(bucket, sid, i);
      NestedCount(bucket, sid, i);
    }
  }

  lemma NotLessTransitive(a: Bytes, b: Bytes, c: Bytes)
    requires !Less(a, b) && !Less(b, c)
    ensures !Less(a, c)
  {
    LessTotal(a, b);
    LessTotal(b, c);
    if Less(a, c) && a != b && b != c {
      LessTransitive(b, a, c);
      LessTotal(b, c);
    }
  }

  lemma {:induction false} SeekBelow(bucket: seq<Entry>, key: Bytes, i: nat, j: nat)
    requires i <= |bucket| && i <= j < Seek(bucket, key, i)
    ensures Less(bucket[j].key, key)
    decreases |bucket| - i
  {
    if i < j {
      SeekBelow(bucket, key, i + 1, j);
    }
  }

  /** No nested entry lies at or after the key. */
  ghost predicate NoneNestedPast(bucket: seq<Entry>, sid: Bytes, key: Bytes) {
    forall j :: 0 <= j < |bucket| && |bucket[j].key| >= 17 && HasPrefix(Owner(bucket[j]), sid + [SLASH]) ==> Less(bucket[j].key, key)
  }

  lemma SeekNested(bucket: seq<Entry>, sid: Bytes, key: Bytes)
    requires Ordered(bucket)
    ensures NoneNestedFrom(bucket, sid, Seek(bucket, key, 0)) <==> NoneNestedPast(bucket, sid, key)
  {
    var start := Seek(bucket, key, 0);
    forall j | 0 <= j < |bucket| ensures j < start <==> Less(bucket[j].key, key) {
      if j < start {
        SeekBelow(bucket, key, 0, j);
      } else if j > start && Less(bucket[j].key, key) {
        LessTransitive(bucket[start].key, bucket[j].key, key);
      }
    }
  }

  /** A page is cut from exactly the session's chunks past the cursor if and only if no nested id is stored from there on. */
  lemma ScanAfterIsExactIff(bucket: seq<Entry>, sid: Bytes, after: uint64)
    requires Ordered(bucket)
    ensures ScanAfter(bucket, sid, after) == Past(Owned(bucket, sid), after) <==>
              after == MAX_UINT64 || NoneNestedPast(bucket, sid, ChunkKey(sid, after + 1))
  {
    OwnedIsOwnedFrom(bucket, sid, 0);
    assert bucket[0..] == bucket;
    if after == MAX_UINT64 {
      OwnedIncreasing(bucket, sid);
      PastNothing(Owned(bucket, sid), after);
    } else {
      var key := ChunkKey(sid, after + 1);
      KeyDivides(bucket, sid, after);
      SeekSkips(bucket, sid, key, after, 0);
      KeyHasPrefix(sid, after + 1);
      WalkIsExactIff(bucket, sid, key, Seek(bucket, key, 0));
      SeekNested(bucket, sid, key);
    }
  }

  lemma ScanAfterIsExact(bucket: seq<Entry>, sid: Bytes, after: uint64)
    requires Ordered(bucket) && Unnested(bucket, sid)
    ensures ScanAfter(bucket, sid, after) == Past(Owned(bucket, sid), after)
  {
    ScanAfterIsExactIff(bucket, sid, after);
  }

  /** Loading page after page, feeding back the last sequence number of each. */
  ghost function ReadPages(bucket: seq<Entry>, sid: Bytes, after: uint64, maxBytes: nat): seq<seq<Chunk>>
    requires Ordered(bucket) && Unnested(bucket, sid) && forall c :: c in Owned(bucket, sid) ==> |c.payload| <= maxBytes
    decreases |Past(Owned(bucket, sid), after)|
  {
    OnePage(bucket, sid, after, maxBytes);
    var page := PageOf(ScanAfter(bucket, sid, after), maxBytes).value;
    if page == [] then [] else [page] + ReadPages(bucket, sid, page[|page| - 1].num, maxBytes)
  }

  lemma OnePage(bucket: seq<Entry>, sid: Bytes, after: uint64, maxBytes: nat)
    requires Ordered(bucket) && Unnested(bucket, sid) && forall c :: c in Owned(bucket, sid) ==> |c.payload| <= maxBytes
    ensures var rest, page := Past(Owned(bucket, sid), after), PageOf(ScanAfter(bucket, sid, after), maxBytes);
            && page.Ok? && (page.value == [] <==> rest == [])
            && (page.value != [] ==>
                  var last := page.value[|page.value| - 1].num;
                  && last <= MAX_UINT64 && |Past(Owned(bucket, sid), last)| < |rest|
                  && page.value + Past(Owned(bucket, sid), last) == rest)
  {
    var stored := Owned(bucket, sid);
    ScanAfterIsExact(bucket, sid, after);
    OwnedIncreasing(bucket, sid);
    PageIsMaximal(Past(stored, after), maxBytes);
    if Past(stored, after) != [] {
      FirstPage(stored, after, maxBytes);
      LastIsStored(stored, after, maxBytes);
    }
  }

  lemma LastIsStored(stored: seq<Chunk>, after: nat, maxBytes: nat)
    requires Increasing(stored) && Past(stored, after) != [] && forall c :: c in stored ==> |c.payload| <= maxBytes
    ensures var page := PageOf(Past(stored, after), maxBytes); page.Ok? && page.value != [] && page.value[|page.value| - 1] in stored
  {
    FirstPage(stored, after, maxBytes);
    var page := PageOf(Past(stored, after), maxBytes).value;
    var k := PastSplits(stored, after);
    assert page[|page| - 1] == Past(stored, after)[|page| - 1] == stored[k + |page| - 1];
  }

  /** Successive pages partition what is stored for the session past the cursor, in order and without loss. */
  lemma {:induction false} PagesPartition(bucket: seq<Entry>, sid: Bytes, after: uint64, maxBytes: nat)
    requires Ordered(bucket) && Unnested(bucket, sid) && forall c :: c in Owned(bucket, sid) ==> |c.payload| <= maxBytes
    ensures Join(ReadPages(bucket, sid, after, maxBytes)) == Past(Owned(bucket, sid), after)
    decreases |Past(Owned(bucket, sid), after)|
  {
    OnePage(bucket, sid, after, maxBytes);
    var page := PageOf(ScanAfter(bucket, sid, after), maxBytes).value;
    if page != [] {
      var last := page[|page| - 1].num;
      PagesPartition(bucket, sid, last, maxBytes);
      JoinCons(page, ReadPages(bucket, sid, last, maxBytes));
    }
  }

  lemma NestedNotBelow(bucket: seq<Entry>, sid: Bytes)
    requires Ordered(bucket)
    ensures NoneNestedPast(bucket, sid, sid + [SLASH]) <==> Unnested(bucket, sid)
  {
    forall j | 0 <= j < |bucket| && HasPrefix(Owner(bucket[j]), sid + [SLASH]) ensures !Less(bucket[j].key, sid + [SLASH]) {
      PrefixMeaning(sid, Owner(bucket[j]), bucket[j].chunk.num);
      PrefixNotLess(bucket[j].key, sid + [SLASH]);
    }
  }

  /** Loading a session returns exactly its own chunks if and only if no stored id is nested below it. */
  lemma LoadIsExactIffUnnested(bucket: seq<Entry>, sid: Bytes)
    requires Ordered(bucket)
    ensures ScanAll(bucket, sid) == Owned(bucket, sid) <==> Unnested(bucket, sid)
  {
    OwnedIsOwnedFrom(bucket, sid, 0);
    assert bucket[0..] == bucket;
    var prefix := sid + [SLASH];
    SeekPrefixSkips(bucket, sid, 0);
    PrefixByIndex(prefix, prefix);
    WalkIsExactIff(bucket, sid, prefix, Seek(bucket, prefix, 0));
    SeekNested(bucket, sid, prefix);
    NestedNotBelow(bucket, sid);
  }

  /** The walk meets every later entry under the prefix. */
  lemma {:induction false} WalkMeets(bucket: seq<Entry>, sid: Bytes, i: nat, j: nat)
    requires Ordered(bucket) && i <= j < |bucket| && !Less(bucket[i].key, sid + [SLASH]) && HasPrefix(bucket[j].key, sid + [SLASH])
    ensures bucket[j].chunk in Walk(bucket, sid + [SLASH], i)
    decreases j - i
  {
    if i < j {
      PrefixByIndex(sid + [SLASH], sid + [SLASH]);
      LessTotal(bucket[i].key, bucket[j].key);
      PrefixIsConvex(sid + [SLASH], sid + [SLASH], bucket[i].key, bucket[j].key);
      if Less(bucket[i + 1].key, sid + [SLASH]) {
        LessTransitive(bucket[i].key, bucket[i + 1].key, sid + [SLASH]);
        assert false;
      }
      WalkMeets(bucket, sid, i + 1, j);
    }
  }

  /** Whatever else is stored, every chunk of an id nested below another is also loaded for that other one. */
  lemma NestedLeaks(bucket: seq<Entry>, outer: Bytes, inner: Bytes, chunk: Chunk)
    requires Ordered(bucket) && HasPrefix(inner, outer + [SLASH]) && chunk in Owned(bucket, inner)
    ensures chunk in ScanAll(bucket, outer)
  {
    var prefix := outer + [SLASH];
    var j := OwnedIn(bucket, inner, chunk);
    assert WellKeyed(bucket[j]);
    PrefixMeaning(outer, inner, chunk.num);
    PrefixNotLess(bucket[j].key, prefix);
    if j < Seek(bucket, prefix, 0) {
      SeekBelow(bucket, prefix, 0, j);
      assert false;
    }
    WalkMeets(bucket, outer, Seek(bucket, prefix, 0), j);
  }

  /** For example, a chunk of session `a/b` is loaded for session `a`, which has none. */
  lemma NestedIdsLeak(chunk: Chunk)
    requires chunk.num <= MAX_UINT64
    ensures var bucket := Put([], ChunkKey([0x61, SLASH, 0x62], chunk.num), chunk);
            Owned(bucket, [0x61]) == [] && chunk in ScanAll(bucket, [0x61])
  {
    var outer: Bytes, inner: Bytes := [0x61], [0x61, SLASH, 0x62];
    var bucket := Put([], ChunkKey(inner, chunk.num), chunk);
    assert inner[..2] == outer + [SLASH];
    assert Ordered([]);
    PutOrdered([], inner, chunk);
    PutElsewhere([], inner, chunk, outer);
    assert Owned(bucket, inner) == [chunk];
    NestedLeaks(bucket, outer, inner, chunk);
  }
}
