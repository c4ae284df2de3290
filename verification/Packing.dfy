/**
 Greedy packing of the chunk stream into buckets of at most `bucketSize` bytes, as
 done by the sending rank of the NCCL and NIXL engines
 (verl/verl/checkpoint_engine/nccl_checkpoint_engine.py, nixl_checkpoint_engine.py).
*/
module Packing {
  import opened Weights

  /** The chunks of one bucket in the insertion order of its `bucket_meta`, with their offsets set. */
  type Bucket = seq<Chunk>

  function Size(chunks: seq<Chunk>): nat {
    if chunks == [] then 0 else Size(chunks[..|chunks| - 1]) + |chunks[|chunks| - 1].data|
  }

  function TotalSize(buckets: seq<Bucket>): nat {
    if buckets == [] then 0 else Size(buckets[0]) + TotalSize(buckets[1..])
  }

  function Flatten(buckets: seq<Bucket>): seq<Chunk> {
    if buckets == [] then [] else buckets[0] + Flatten(buckets[1..])
  }

  function Place(c: Chunk, offset: nat): Chunk {
    c.(meta := c.meta.(offset := Some(offset)))
  }

  function Unplace(chunks: seq<Chunk>): (r: seq<Chunk>)
    ensures |r| == |chunks|
  {
    seq(|chunks|, i requires 0 <= i < |chunks| => chunks[i].(meta := chunks[i].meta.(offset := None)))
  }

  /** The buckets that result when `cur` is the bucket being filled and `chunks` is still to come. */
  function PackFrom(cur: Bucket, chunks: seq<Chunk>, bucketSize: nat): seq<Bucket>
    decreases |chunks|
  {
    if chunks == [] then [cur]
    else if Size(cur) + |chunks[0].data| > bucketSize then
      [cur] + PackFrom([Place(chunks[0], 0)], chunks[1..], bucketSize)
    else
      PackFrom(cur + [Place(chunks[0], Size(cur))], chunks[1..], bucketSize)
  }

  function Pack(chunks: seq<Chunk>, bucketSize: nat): seq<Bucket> {
    PackFrom([], chunks, bucketSize)
  }

  // ---------- layout of one bucket ----------

  /** The entries lie one behind the other from offset 0. */
  ghost predicate Tiled(b: Bucket) {
    forall i | 0 <= i < |b| :: b[i].meta.offset == Some(Size(b[..i])) && b[i].meta.chunkSize == |b[i].data|
  }

  ghost predicate DistinctChunkNames(b: Bucket) {
    forall i, j | 0 <= i < j < |b| :: b[i].meta.name != b[j].meta.name
  }

  ghost predicate ValidBucket(b: Bucket, bucketSize: nat) {
    Tiled(b) && Size(b) <= bucketSize && DistinctChunkNames(b)
  }

  /** Chunks of one weight repeat its name, and every one but its last fills a whole bucket. */
  ghost predicate FullBeforeRepeat(chunks: seq<Chunk>, bucketSize: nat) {
    && (forall c <- chunks :: 0 < |c.data| == c.meta.chunkSize <= bucketSize)
    && (forall i, j | 0 <= i < j < |chunks| && chunks[i].meta.name == chunks[j].meta.name ::
          |chunks[i].data| == bucketSize)
  }

  lemma NoSize()
    ensures Size([]) == 0
  {
  }

  lemma {:induction false} SizeAppend(a: seq<Chunk>, c: Chunk)
    ensures Size(a + [c]) == Size(a) + |c.data|
  {
    assert (a + [c])[..|a|] == a;
  }

  lemma {:induction false} SizeConcat(a: seq<Chunk>, b: seq<Chunk>)
    ensures Size(a + b) == Size(a) + Size(b)
    decreases |b|
  {
    if b == [] {
      assert a + b == a;
    } else {
      var n := |b| - 1;
      assert a + b == (a + b[..n]) + [b[n]];
      SizeAppend(a + b[..n], b[n]);
      SizeConcat(a, b[..n]);
    }
  }

  lemma SizePrefix(b: seq<Chunk>, i: nat)
    requires i < |b|
    ensures Size(b[..i]) + |b[i].data| == Size(b[..i + 1]) <= Size(b)
  {
    assert b[..i + 1] == b[..i] + [b[i]];
    SizeAppend(b[..i], b[i]);
    assert b == b[..i + 1] + b[i + 1..];
    SizeConcat(b[..i + 1], b[i + 1..]);
  }

  lemma SizeUnplace(a: seq<Chunk>)
    ensures Size(Unplace(a)) == Size(a)
  {
    if a != [] {
      assert Unplace(a)[..|a| - 1] == Unplace(a[..|a| - 1]);
      SizeUnplace(a[..|a| - 1]);
    }
  }

  /** Entries of a tiled bucket do not overlap and stay inside it. */
  lemma TiledOrder(b: Bucket, i: nat, j: nat)
    requires Tiled(b) && i < j < |b|
    ensures b[i].meta.offset.value + |b[i].data| <= b[j].meta.offset.value
    ensures b[j].meta.offset.value + |b[j].data| <= Size(b)
  {
    SizePrefix(b[..j], i);
    assert b[..j][..i] == b[..i];
    SizePrefix(b, j);
  }

  lemma TiledInside(b: Bucket, i: nat)
    requires Tiled(b) && i < |b|
    ensures b[i].meta.offset.value + |b[i].data| <= Size(b)
  {
    SizePrefix(b, i);
  }

  lemma PairFits(b: Bucket, i: nat, j: nat)
    requires i < j < |b|
    ensures |b[i].data| + |b[j].data| <= Size(b)
  {
    hide Size;
    SizePrefix(b[..j], i);
    assert b[..j][..i] == b[..i] && b[..j][i] == b[i];
    SizePrefix(b, j);
  }

  /** The condition behind the engine's assertion that a name occurs once in a bucket. */
  lemma FullBucketsSeparate(b: Bucket, bucketSize: nat)
    requires FullBeforeRepeat(b, bucketSize) && Size(b) <= bucketSize
    ensures DistinctChunkNames(b)
  {
    hide Size;
    forall i, j | 0 <= i < j < |b| ensures b[i].meta.name != b[j].meta.name {
      PairFits(b, i, j);
      assert b[j] in b;
    }
  }

  lemma FullBeforeRepeatParts(a: seq<Chunk>, b: seq<Chunk>, bucketSize: nat)
    requires FullBeforeRepeat(a + b, bucketSize)
    ensures FullBeforeRepeat(a, bucketSize) && FullBeforeRepeat(b, bucketSize)
  {
    var s := a + b;
    forall c | c in a || c in b ensures 0 < |c.data| == c.meta.chunkSize <= bucketSize {
      assert c in s;
    }
    forall i, j | 0 <= i < j < |b| && b[i].meta.name == b[j].meta.name ensures |b[i].data| == bucketSize {
      assert s[|a| + i] == b[i] && s[|a| + j] == b[j];
    }
    forall i, j | 0 <= i < j < |a| && a[i].meta.name == a[j].meta.name ensures |a[i].data| == bucketSize {
      assert s[i] == a[i] && s[j] == a[j];
    }
  }

  lemma FullBeforeRepeatUnplaced(s: seq<Chunk>, bucketSize: nat)
    requires FullBeforeRepeat(Unplace(s), bucketSize)
    ensures FullBeforeRepeat(s, bucketSize)
  {
    forall c <- s ensures 0 < |c.data| == c.meta.chunkSize <= bucketSize {
      var i :| 0 <= i < |s| && s[i] == c;
      assert Unplace(s)[i] in Unplace(s);
    }
    forall i, j | 0 <= i < j < |s| && s[i].meta.name == s[j].meta.name ensures |s[i].data| == bucketSize {
      assert Unplace(s)[i].data == s[i].data && Unplace(s)[i].meta.name == Unplace(s)[j].meta.name;
    }
  }

  lemma {:induction false} EveryBucketSeparate(buckets: seq<Bucket>, bucketSize: nat)
    requires FullBeforeRepeat(Flatten(buckets), bucketSize)
    requires forall b <- buckets :: Size(b) <= bucketSize
    ensures forall b <- buckets :: DistinctChunkNames(b)
  {
    if buckets != [] {
      FullBeforeRepeatParts(buckets[0], Flatten(buckets[1..]), bucketSize);
      assert buckets[0] in buckets;
      FullBucketsSeparate(buckets[0], bucketSize);
      EveryBucketSeparate(buckets[1..], bucketSize);
    }
  }

  lemma FlattenAppend(buckets: seq<Bucket>, b: Bucket)
    ensures Flatten(buckets + [b]) == Flatten(buckets) + b
  {
    if buckets == [] {
      assert Flatten([b]) == b;
    } else {
      assert (buckets + [b])[1..] == buckets[1..] + [b];
      FlattenAppend(buckets[1..], b);
    }
  }

  lemma {:induction false} FlattenPrefix(buckets: seq<Bucket>, n: nat)
    requires n <= |buckets|
    ensures Flatten(buckets[..n]) <= Flatten(buckets)
    ensures n < |buckets| ==> forall m | 0 <= m <= |buckets[n]| ::
      Flatten(buckets[..n]) + buckets[n][..m] <= Flatten(buckets)
  {
    if n > 0 {
      FlattenPrefix(buckets[1..], n - 1);
      assert buckets[..n][1..] == buckets[1..][..n - 1];
      if n < |buckets| {
        forall m | 0 <= m <= |buckets[n]| ensures Flatten(buckets[..n]) + buckets[n][..m] <= Flatten(buckets) {
          assert Flatten(buckets[1..][..n - 1]) + buckets[1..][n - 1][..m] <= Flatten(buckets[1..]);
          assert Flatten(buckets[..n]) + buckets[n][..m]
              == buckets[0] + (Flatten(buckets[1..][..n - 1]) + buckets[n][..m]);
        }
      }
    }
  }

  lemma {:induction false} BucketSmall(buckets: seq<Bucket>, k: nat)
    requires k < |buckets|
    ensures |buckets[k]| <= |Flatten(buckets)|
  {
    if k > 0 {
      BucketSmall(buckets[1..], k - 1);
    }
  }

  // ---------- the packing as a whole ----------

  /** Every cut was forced: the chunk that opens a bucket did not fit into the one before. */
  ghost predicate Greedy(buckets: seq<Bucket>, bucketSize: nat) {
    forall k | 0 < k < |buckets| :: Forced(buckets[k - 1], buckets[k], bucketSize)
  }

  ghost predicate Forced(b: Bucket, next: Bucket, bucketSize: nat) {
    next != [] && Size(b) + |next[0].data| > bucketSize
  }

  ghost predicate ValidBuckets(buckets: seq<Bucket>, bucketSize: nat) {
    forall b <- buckets :: ValidBucket(b, bucketSize)
  }

  lemma TiledAppend(b: Bucket, c: Chunk)
    requires Tiled(b) && c.meta.chunkSize == |c.data|
    ensures Tiled(b + [Place(c, Size(b))])
  {
    var b' := b + [Place(c, Size(b))];
    forall i | 0 <= i < |b'| ensures b'[i].meta.offset == Some(Size(b'[..i])) {
      assert i <= |b| && b'[..i] == b[..i];
      assert b[..|b|] == b;
    }
  }

  ghost predicate Fits(chunks: seq<Chunk>, bucketSize: nat) {
    forall c <- chunks :: |c.data| == c.meta.chunkSize <= bucketSize
  }

  lemma {:induction false} PackLayout(cur: Bucket, chunks: seq<Chunk>, bucketSize: nat)
    requires Tiled(cur) && Size(cur) <= bucketSize && Fits(chunks, bucketSize)
    ensures var r := PackFrom(cur, chunks, bucketSize);
      && |r| >= 1 && cur <= r[0]
      && (forall b <- r :: Tiled(b) && Size(b) <= bucketSize)
      && Greedy(r, bucketSize)
    decreases |chunks|
  {
    assert LaidOut(PackFrom(cur, chunks, bucketSize), cur, bucketSize) by {
      PackLaidOut(cur, chunks, bucketSize);
    }
  }

  ghost predicate LaidOut(r: seq<Bucket>, first: Bucket, bucketSize: nat) {
    && |r| >= 1 && first <= r[0]
    && (forall b <- r :: Tiled(b) && Size(b) <= bucketSize)
    && Greedy(r, bucketSize)
  }

  lemma {:induction false} PackLaidOut(cur: Bucket, chunks: seq<Chunk>, bucketSize: nat)
    requires Tiled(cur) && Size(cur) <= bucketSize && Fits(chunks, bucketSize)
    ensures LaidOut(PackFrom(cur, chunks, bucketSize), cur, bucketSize)
    decreases |chunks|
  {
    hide LaidOut, Tiled, Size, Fits;
    if chunks == [] {
      LastLaidOut(cur, bucketSize);
    } else {
      var c := chunks[0];
      FitsParts(chunks, bucketSize);
      if Size(cur) + |c.data| > bucketSize {
        var first := Place(c, 0);
        OpenedBucket(c);
        PackLaidOut([first], chunks[1..], bucketSize);
        CutLaidOut(cur, PackFrom([first], chunks[1..], bucketSize), first, bucketSize);
      } else {
        var next := cur + [Place(c, Size(cur))];
        TiledAppend(cur, c);
        SizeAppend(cur, Place(c, Size(cur)));
        PackLaidOut(next, chunks[1..], bucketSize);
        ShorterFirst(PackFrom(next, chunks[1..], bucketSize), cur, next, bucketSize);
      }
    }
  }

  lemma LastLaidOut(cur: Bucket, bucketSize: nat)
    requires Tiled(cur) && Size(cur) <= bucketSize
    ensures LaidOut([cur], cur, bucketSize)
  {
    hide Tiled, Size;
  }

  lemma FitsParts(chunks: seq<Chunk>, bucketSize: nat)
    requires Fits(chunks, bucketSize) && chunks != []
    ensures |chunks[0].data| == chunks[0].meta.chunkSize <= bucketSize && Fits(chunks[1..], bucketSize)
  {
    assert chunks[0] in chunks && forall d <- chunks[1..] :: d in chunks;
  }

  lemma OpenedBucket(c: Chunk)
    requires c.meta.chunkSize == |c.data|
    ensures Tiled([Place(c, 0)]) && Size([Place(c, 0)]) == |c.data|
  {
    TiledAppend([], c);
    SizeAppend([], Place(c, 0));
    assert [] + [Place(c, 0)] == [Place(c, 0)];
  }

  lemma ShorterFirst(r: seq<Bucket>, first: Bucket, longer: Bucket, bucketSize: nat)
    requires LaidOut(r, longer, bucketSize) && first <= longer
    ensures LaidOut(r, first, bucketSize)
  {
    hide Tiled, Size, Greedy;
  }

  lemma CutLaidOut(cur: Bucket, rest: seq<Bucket>, c: Chunk, bucketSize: nat)
    requires Tiled(cur) && Size(cur) <= bucketSize < Size(cur) + |c.data| && LaidOut(rest, [c], bucketSize)
    ensures LaidOut([cur] + rest, cur, bucketSize)
  {
    hide Tiled, Size;
    assert rest[0][0] == c;
    GreedyCons(cur, rest, bucketSize);
  }

  lemma GreedyCons(cur: Bucket, rest: seq<Bucket>, bucketSize: nat)
    requires Greedy(rest, bucketSize) && rest != [] && Forced(cur, rest[0], bucketSize)
    ensures Greedy([cur] + rest, bucketSize)
  {
    var r := [cur] + rest;
    forall k | 0 < k < |r| ensures Forced(r[k - 1], r[k], bucketSize) {
      if k > 1 {
        assert r[k - 1] == rest[k - 2] && r[k] == rest[k - 1];
      }
    }
  }

  lemma {:induction false} PackContents(cur: Bucket, chunks: seq<Chunk>, bucketSize: nat)
    ensures Unplace(Flatten(PackFrom(cur, chunks, bucketSize))) == Unplace(cur) + Unplace(chunks)
    decreases |chunks|
  {
    if chunks == [] {
      assert Flatten([cur]) == cur;
    } else {
      var c := chunks[0];
      assert Unplace(chunks) == Unplace([c]) + Unplace(chunks[1..]);
      if Size(cur) + |c.data| > bucketSize {
        PackContents([Place(c, 0)], chunks[1..], bucketSize);
        var rest := PackFrom([Place(c, 0)], chunks[1..], bucketSize);
        assert Unplace(cur + Flatten(rest)) == Unplace(cur) + Unplace(Flatten(rest));
        assert Unplace([Place(c, 0)]) == Unplace([c]);
      } else {
        PackContents(cur + [Place(c, Size(cur))], chunks[1..], bucketSize);
        assert Unplace(cur + [Place(c, Size(cur))]) == Unplace(cur) + Unplace([c]);
      }
    }
  }

  /** The chunks of a stream of weights with distinct names meet what packing relies on. */
  lemma {:induction false} SplitIsFull(ws: seq<Weight>, bucketSize: nat)
    requires bucketSize > 0 && DistinctNames(ws)
    ensures FullBeforeRepeat(Split(ws, bucketSize), bucketSize)
    ensures forall c <- Split(ws, bucketSize) :: c.meta.offset == None && exists w <- ws :: c.meta.name == w.name
  {
    if ws != [] {
      hide FullBeforeRepeat, ChunksFrom;
      ChunksAreFull(ws[0], 0, bucketSize);
      SplitIsFull(ws[1..], bucketSize);
      var a, b := ChunksFrom(ws[0], 0, bucketSize), Split(ws[1..], bucketSize);
      forall c <- b ensures c.meta.name != ws[0].name {
        var w :| w in ws[1..] && c.meta.name == w.name;
        var i :| 0 < i < |ws| && ws[i] == w;
        assert ws[0].name != ws[i].name;
      }
      FullConcat(a, b, ws[0].name, bucketSize);
      assert ws == [ws[0]] + ws[1..] && ws[0] in ws;
    }
  }

  lemma FullConcat(a: seq<Chunk>, b: seq<Chunk>, name: string, bucketSize: nat)
    requires FullBeforeRepeat(a, bucketSize) && FullBeforeRepeat(b, bucketSize)
    requires (forall c <- a :: c.meta.name == name) && forall c <- b :: c.meta.name != name
    ensures FullBeforeRepeat(a + b, bucketSize)
  {
    var s := a + b;
    forall i, j | 0 <= i < j < |s| && s[i].meta.name == s[j].meta.name ensures |s[i].data| == bucketSize {
      if |a| <= i {
        assert s[i] == b[i - |a|] && s[j] == b[j - |a|];
      } else if j < |a| {
        assert s[i] == a[i] && s[j] == a[j];
      } else {
        assert false;
      }
    }
  }

  lemma {:induction false} ChunksAreFull(w: Weight, off: nat, bucketSize: nat)
    requires bucketSize > 0 && off <= |w.tensor.data|
    ensures FullBeforeRepeat(ChunksFrom(w, off, bucketSize), bucketSize)
    ensures forall c <- ChunksFrom(w, off, bucketSize) :: c.meta.offset == None && c.meta.name == w.name
    decreases |w.tensor.data| - off
  {
    if off < |w.tensor.data| {
      var size := Min(bucketSize, |w.tensor.data| - off);
      ChunksAreFull(w, off + size, bucketSize);
      var tail := ChunksFrom(w, off + size, bucketSize);
      var s := ChunksFrom(w, off, bucketSize);
      assert s == [ChunkAt(w, off, size)] + tail;
      forall i, j | 0 <= i < j < |s| && s[i].meta.name == s[j].meta.name ensures |s[i].data| == bucketSize {
        if i > 0 {
          assert s[i] == tail[i - 1] && s[j] == tail[j - 1];
        }
      }
    }
  }

  lemma UnplaceNone(chunks: seq<Chunk>)
    requires forall c <- chunks :: c.meta.offset == None
    ensures Unplace(chunks) == chunks
  {
    forall i | 0 <= i < |chunks| ensures Unplace(chunks)[i] == chunks[i] {
      assert chunks[i] in chunks;
    }
  }

  /** Packing loses, reorders and duplicates nothing, fills no bucket twice and cuts only when it must. */
  lemma PackCorrect(ws: seq<Weight>, bucketSize: nat)
    requires bucketSize > 0 && DistinctNames(ws)
    ensures var buckets := Pack(Split(ws, bucketSize), bucketSize);
      && ValidBuckets(buckets, bucketSize) && Greedy(buckets, bucketSize)
      && |buckets| >= 1
      && Unplace(Flatten(buckets)) == Split(ws, bucketSize)
  {
    var chunks := Split(ws, bucketSize);
    var buckets := Pack(chunks, bucketSize);
    SplitIsFull(ws, bucketSize);
    PackLayout([], chunks, bucketSize);
    PackContents([], chunks, bucketSize);
    UnplaceNone(chunks);
    assert Unplace([]) + chunks == chunks;
    FullBeforeRepeatUnplaced(Flatten(buckets), bucketSize);
    EveryBucketSeparate(buckets, bucketSize);
  }

  // ---------- how many buckets ----------

  lemma {:induction false} TotalSizeFlatten(buckets: seq<Bucket>)
    ensures TotalSize(buckets) == Size(Flatten(buckets))
  {
    if buckets == [] {
    } else {
      TotalSizeFlatten(buckets[1..]);
      SizeConcat(buckets[0], Flatten(buckets[1..]));
    }
  }

  lemma ForcedPair(b: Bucket, next: Bucket, bucketSize: nat)
    requires Forced(b, next, bucketSize)
    ensures Size(b) + Size(next) > bucketSize
  {
    SizePrefix(next, 0);
  }

  /** Any two neighbouring buckets of a greedy packing exceed one bucket, so fewer than 2T/B + 1 are used. */
  lemma {:induction false} GreedyCount(buckets: seq<Bucket>, bucketSize: nat)
    requires |buckets| > 1 && Greedy(buckets, bucketSize)
    ensures (|buckets| - 1) * bucketSize + Size(buckets[0]) < 2 * TotalSize(buckets)
  {
    var rest := buckets[1..];
    assert Forced(buckets[1 - 1], buckets[1], bucketSize);
    ForcedPair(buckets[0], buckets[1], bucketSize);
    if |rest| == 1 {
      assert TotalSize(rest) == Size(rest[0]) + TotalSize([]);
    } else {
      forall k | 0 < k < |rest| ensures Forced(rest[k - 1], rest[k], bucketSize) {
        assert Forced(buckets[k + 1 - 1], buckets[k + 1], bucketSize);
      }
      GreedyCount(rest, bucketSize);
      assert (|buckets| - 1) * bucketSize == (|rest| - 1) * bucketSize + bucketSize;
    }
  }

  lemma PackCount(ws: seq<Weight>, bucketSize: nat)
    requires bucketSize > 0 && DistinctNames(ws)
    ensures var total := Size(Split(ws, bucketSize));
      total > 0 ==> (|Pack(Split(ws, bucketSize), bucketSize)| - 1) * bucketSize < 2 * total
  {
    PackCorrect(ws, bucketSize);
    var buckets := Pack(Split(ws, bucketSize), bucketSize);
    if |buckets| > 1 {
      GreedyCount(buckets, bucketSize);
    }
    TotalSizeFlatten(buckets);
    SizeUnplace(Flatten(buckets));
  }

  // ---------- the sending loop ----------

  datatype BucketMeta = BucketMeta(entries: seq<TensorMeta>, isLast: bool)

  /** One published bucket: its metadata and the bytes of the whole send buffer at that moment. */
  datatype Published = Published(meta: BucketMeta, image: seq<byte>)

  function Metas(b: Bucket): (r: seq<TensorMeta>)
    ensures |r| == |b|
  {
    seq(|b|, i requires 0 <= i < |b| => b[i].meta)
  }

  /** The metadata broadcast with bucket `k`. */
  function MetaOf(buckets: seq<Bucket>, k: nat): BucketMeta
    requires k < |buckets|
  {
    BucketMeta(Metas(buckets[k]), k == |buckets| - 1)
  }

  /** The first `n` entries of `b` are readable from `buf` at their offsets. */
  ghost predicate HoldsUpTo(buf: seq<byte>, b: Bucket, n: nat) {
    n <= |b| && forall i | 0 <= i < n :: HoldsEntry(buf, b[i])
  }

  ghost predicate HoldsEntry(buf: seq<byte>, c: Chunk) {
    && c.meta.offset.Some?
    && c.meta.offset.value + c.meta.chunkSize <= |buf|
    && buf[c.meta.offset.value..c.meta.offset.value + c.meta.chunkSize] == c.data
  }

  ghost predicate Holds(buf: seq<byte>, b: Bucket) {
    HoldsUpTo(buf, b, |b|)
  }

  lemma OverwriteBehind(buf: seq<byte>, off: nat, data: seq<byte>, c: Chunk)
    requires off + |data| <= |buf| && HoldsEntry(buf, c)
    requires c.meta.offset.value + c.meta.chunkSize <= off
    ensures HoldsEntry(Overwrite(buf, off, data), c)
  {
    var lo, hi := c.meta.offset.value, c.meta.offset.value + c.meta.chunkSize;
    assert Overwrite(buf, off, data)[lo..hi] == buf[lo..hi];
  }

  /** Copying the next entry to its offset leaves the entries before it readable. */
  lemma FillNext(buf: seq<byte>, b: Bucket, n: nat)
    requires Tiled(b) && n < |b| && Size(b) <= |buf| && HoldsUpTo(buf, b, n)
    ensures b[n].meta.offset == Some(Size(b[..n])) && Size(b[..n]) + |b[n].data| <= |buf|
    ensures HoldsUpTo(Overwrite(buf, Size(b[..n]), b[n].data), b, n + 1)
  {
    TiledInside(b, n);
    var off, data := Size(b[..n]), b[n].data;
    forall i | 0 <= i < n ensures HoldsEntry(Overwrite(buf, off, data), b[i]) {
      TiledOrder(b, i, n);
      OverwriteBehind(buf, off, data, b[i]);
    }
    assert HoldsEntry(Overwrite(buf, off, data), b[n]);
  }

  /** The entry a receiver yields: a slice of the buffer it yields from. */
  function View(buf: seq<byte>, m: TensorMeta): Chunk {
    if m.offset.Some? && m.offset.value + m.chunkSize <= |buf| then
      Chunk(m, buf[m.offset.value..m.offset.value + m.chunkSize])
    else Chunk(m, [])
  }

  /** What is yielded of a buffer that holds the bucket is the entry itself. */
  lemma HeldView(buf: seq<byte>, b: Bucket, i: nat)
    requires Holds(buf, b) && i < |b|
    ensures View(buf, b[i].meta) == b[i]
  {
    assert HoldsEntry(buf, b[i]);
  }

  /** The first n bytes have been copied. */
  ghost predicate AllCopied(copied: set<nat>, n: nat) {
    forall i: nat :: i < n ==> i in copied
  }

  ghost function RangeSet(n: nat): (s: set<nat>)
    ensures |s| == n && forall i: nat :: i in s <==> i < n
  {
    if n == 0 then {} else RangeSet(n - 1) + {n - 1}
  }

  lemma CopiedBound(n: nat, copied: set<nat>)
    requires forall i <- copied :: i < n
    ensures |copied| <= n
  {
    SubsetSize(copied, RangeSet(n));
  }

  lemma {:induction false} SubsetSize(a: set<nat>, b: set<nat>)
    requires a <= b
    ensures |a| <= |b|
    decreases a
  {
    if a != {} {
      var x :| x in a;
      SubsetSize(a - {x}, b - {x});
    }
  }

  /** `done` has been published, `cur` is being filled and chunks `i..` are still to come. */
  ghost predicate Filling(chunks: seq<Chunk>, i: nat, done: seq<Bucket>, cur: Bucket, bucketSize: nat) {
    && i <= |chunks|
    && Pack(chunks, bucketSize) == done + PackFrom(cur, chunks[i..], bucketSize)
    && Tiled(cur) && Size(cur) <= bucketSize
  }

  lemma FillingPublish(chunks: seq<Chunk>, i: nat, done: seq<Bucket>, cur: Bucket, bucketSize: nat)
    requires Filling(chunks, i, done, cur, bucketSize) && Fits(chunks, bucketSize)
    requires i < |chunks| && Size(cur) + |chunks[i].data| > bucketSize
    ensures |done| + 1 < |Pack(chunks, bucketSize)| && Pack(chunks, bucketSize)[|done|] == cur
    ensures Filling(chunks, i + 1, done + [cur], [Place(chunks[i], 0)], bucketSize)
  {
    var c := chunks[i];
    assert chunks[i..][0] == c && chunks[i..][1..] == chunks[i + 1..] && c in chunks;
    var rest := PackFrom([Place(c, 0)], chunks[i + 1..], bucketSize);
    assert done + ([cur] + rest) == (done + [cur]) + rest;
    TiledAppend([], c);
    SizeAppend([], Place(c, 0));
    assert [] + [Place(c, 0)] == [Place(c, 0)];
    PackLayout([Place(c, 0)], chunks[i + 1..], bucketSize);
  }

  lemma FillingAppend(chunks: seq<Chunk>, i: nat, done: seq<Bucket>, cur: Bucket, bucketSize: nat)
    requires Filling(chunks, i, done, cur, bucketSize) && Fits(chunks, bucketSize)
    requires i < |chunks| && Size(cur) + |chunks[i].data| <= bucketSize
    ensures Filling(chunks, i + 1, done, cur + [Place(chunks[i], Size(cur))], bucketSize)
  {
    var c := chunks[i];
    assert chunks[i..][0] == c && chunks[i..][1..] == chunks[i + 1..] && c in chunks;
    TiledAppend(cur, c);
    SizeAppend(cur, Place(c, Size(cur)));
  }

  /** The bucket being filled is the front part of the bucket that will be published next. */
  lemma FillingPrefix(chunks: seq<Chunk>, i: nat, done: seq<Bucket>, cur: Bucket, bucketSize: nat)
    requires Filling(chunks, i, done, cur, bucketSize) && Fits(chunks, bucketSize)
    ensures |done| < |Pack(chunks, bucketSize)| && cur <= Pack(chunks, bucketSize)[|done|]
  {
    PackLayout(cur, chunks[i..], bucketSize);
  }

  lemma NewName(chunks: seq<Chunk>, i: nat, done: seq<Bucket>, cur: Bucket, c: Chunk, bucketSize: nat)
    requires Filling(chunks, i, done, cur + [c], bucketSize) && Fits(chunks, bucketSize)
    requires ValidBuckets(Pack(chunks, bucketSize), bucketSize)
    ensures forall m <- Metas(cur) :: m.name != c.meta.name
  {
    FillingPrefix(chunks, i, done, cur + [c], bucketSize);
    var b := Pack(chunks, bucketSize)[|done|];
    assert b in Pack(chunks, bucketSize);
    assert b[|cur|] == c && forall j | 0 <= j < |cur| :: b[j] == cur[j];
  }

  /** Every published bucket carries the right entries and its buffer really held their bytes. */
  ghost predicate PublishedUpTo(published: seq<Published>, buckets: seq<Bucket>, n: nat) {
    && n == |published| <= |buckets|
    && forall k | 0 <= k < n :: published[k].meta == MetaOf(buckets, k) && Holds(published[k].image, buckets[k])
  }

  /** The state of the sending loop: two buffers of which one is being filled, and the metadata so far. */
  class BucketWriter {
    var sendBuf: array<byte>
    var recvBuf: array<byte>
    var bucketMeta: seq<TensorMeta>
    var offset: nat
    var published: seq<Published>
    ghost var cur: Bucket

    ghost predicate Valid()
      reads this, sendBuf, recvBuf
    {
      && sendBuf != recvBuf && sendBuf.Length == recvBuf.Length
      && bucketMeta == Metas(cur) && offset == Size(cur) <= sendBuf.Length
      && Tiled(cur) && Holds(sendBuf[..], cur)
    }

    constructor (bucketSize: nat)
      ensures Valid() && fresh(sendBuf) && fresh(recvBuf) && sendBuf.Length == bucketSize
      ensures cur == [] && published == []
    {
      sendBuf, recvBuf := new byte[bucketSize], new byte[bucketSize];
      bucketMeta, offset, published, cur := [], 0, [], [];
    }

    /** Broadcasts the bucket being filled; unless it was the last, goes on with the other buffer. */
    method Publish(isLast: bool)
      requires Valid()
      modifies this
      ensures Valid() && cur == []
      ensures if isLast then sendBuf == old(sendBuf) && recvBuf == old(recvBuf)
              else sendBuf == old(recvBuf) && recvBuf == old(sendBuf)
      ensures published == old(published) + [Published(BucketMeta(Metas(old(cur)), isLast), old(sendBuf[..]))]
    {
      published := published + [Published(BucketMeta(bucketMeta, isLast), sendBuf[..])];
      if !isLast {
        sendBuf, recvBuf := recvBuf, sendBuf;
      }
      bucketMeta, offset, cur := [], 0, [];
    }

    /** Copies one chunk behind the entries of the bucket. */
    method Append(c: Chunk)
      requires Valid() && c.meta.chunkSize == |c.data|
      requires offset + c.meta.chunkSize <= sendBuf.Length
      requires forall m <- bucketMeta :: m.name != c.meta.name
      modifies this, sendBuf
      ensures Valid() && cur == old(cur) + [Place(c, Size(old(cur)))]
      ensures sendBuf == old(sendBuf) && recvBuf == old(recvBuf) && published == old(published)
    {
      hide Size, Metas, Holds, Tiled, Overwrite;
      Appended(sendBuf[..], cur, c);
      cur := cur + [Place(c, offset)];
      bucketMeta := bucketMeta + [c.meta.(offset := Some(offset))];
      WriteBytes(sendBuf, offset, c.data);
      offset := offset + c.meta.chunkSize;
    }
  }

  lemma PublishedMore(published: seq<Published>, buckets: seq<Bucket>, p: Published)
    requires PublishedUpTo(published, buckets, |published|) && |published| < |buckets|
    requires p.meta == MetaOf(buckets, |published|) && Holds(p.image, buckets[|published|])
    ensures PublishedUpTo(published + [p], buckets, |published| + 1)
  {
  }

  lemma FillingEnd(chunks: seq<Chunk>, done: seq<Bucket>, cur: Bucket, published: seq<Published>, image: seq<byte>,
                   bucketSize: nat)
    requires Filling(chunks, |chunks|, done, cur, bucketSize) && Holds(image, cur)
    requires PublishedUpTo(published, Pack(chunks, bucketSize), |done|)
    ensures var buckets := Pack(chunks, bucketSize);
      PublishedUpTo(published + [Published(BucketMeta(Metas(cur), true), image)], buckets, |buckets|)
  {
    assert chunks[|chunks|..] == [] && Pack(chunks, bucketSize) == done + [cur];
    PublishedMore(published, Pack(chunks, bucketSize), Published(BucketMeta(Metas(cur), true), image));
  }

  /** One round of the loop of `send_weights`: publish when the chunk does not fit, then copy it. */
  method SendChunk(writer: BucketWriter, chunks: seq<Chunk>, i: nat, ghost done: seq<Bucket>)
    returns (ghost done': seq<Bucket>)
    requires writer.Valid() && i < |chunks|
    requires Fits(chunks, writer.sendBuf.Length)
    requires ValidBuckets(Pack(chunks, writer.sendBuf.Length), writer.sendBuf.Length)
    requires Filling(chunks, i, done, writer.cur, writer.sendBuf.Length)
    requires PublishedUpTo(writer.published, Pack(chunks, writer.sendBuf.Length), |done|)
    modifies writer, writer.sendBuf, writer.recvBuf
    ensures writer.Valid() && writer.sendBuf.Length == old(writer.sendBuf.Length)
    ensures || (writer.sendBuf == old(writer.sendBuf) && writer.recvBuf == old(writer.recvBuf))
            || (writer.sendBuf == old(writer.recvBuf) && writer.recvBuf == old(writer.sendBuf))
    ensures Filling(chunks, i + 1, done', writer.cur, writer.sendBuf.Length)
    ensures PublishedUpTo(writer.published, Pack(chunks, writer.sendBuf.Length), |done'|)
  {
    var c, bucketSize := chunks[i], writer.sendBuf.Length;
    done' := done;
    if writer.offset + c.meta.chunkSize > bucketSize {
      FillingPublish(chunks, i, done, writer.cur, bucketSize);
      PublishedMore(writer.published, Pack(chunks, bucketSize),
                    Published(MetaOf(Pack(chunks, bucketSize), |done|), writer.sendBuf[..]));
      done' := done + [writer.cur];
      writer.Publish(false);
      assert [] + [Place(c, 0)] == [Place(c, 0)];
    } else {
      FillingAppend(chunks, i, done, writer.cur, bucketSize);
    }
    NewName(chunks, i + 1, done', writer.cur, Place(c, Size(writer.cur)), bucketSize);
    writer.Append(c);
  }

  lemma FillingBegins(chunks: seq<Chunk>, bucketSize: nat)
    ensures Filling(chunks, 0, [], [], bucketSize) && PublishedUpTo([], Pack(chunks, bucketSize), 0)
  {
    assert chunks[0..] == chunks;
  }

  /** `send_weights`: no assertion of the loop fails and what is broadcast is the packing of the stream. */
  method SendWeights(weights: seq<Weight>, bucketSize: nat) returns (published: seq<Published>)
    requires bucketSize > 0 && DistinctNames(weights)
    ensures var buckets := Pack(Split(weights, bucketSize), bucketSize);
      PublishedUpTo(published, buckets, |buckets|)
  {
    var chunks := SplitWeightChunks(weights, bucketSize);
    SplitIsFull(weights, bucketSize);
    PackCorrect(weights, bucketSize);
    FillingBegins(chunks, bucketSize);
    hide Filling, PublishedUpTo, Pack, Split, ValidBuckets, Fits, FullBeforeRepeat, Greedy, Tiled, Size, HoldsUpTo;
    hide Metas, Flatten, Unplace, DistinctNames;
    var writer := new BucketWriter(bucketSize);
    ghost var done: seq<Bucket> := [];
    for i := 0 to |chunks|
      invariant fresh(writer) && fresh(writer.sendBuf) && fresh(writer.recvBuf)
      invariant writer.Valid() && writer.sendBuf.Length == bucketSize
      invariant Filling(chunks, i, done, writer.cur, bucketSize)
      invariant PublishedUpTo(writer.published, Pack(chunks, bucketSize), |done|)
    {
      done := SendChunk(writer, chunks, i, done);
    }
    FillingEnd(chunks, done, writer.cur, writer.published, writer.sendBuf[..], bucketSize);
    writer.Publish(true);
    published := writer.published;
  }

  lemma Appended(buf: seq<byte>, cur: Bucket, c: Chunk)
    requires Tiled(cur) && c.meta.chunkSize == |c.data| && Size(cur) + |c.data| <= |buf| && Holds(buf, cur)
    ensures Tiled(cur + [Place(c, Size(cur))])
    ensures Holds(Overwrite(buf, Size(cur), c.data), cur + [Place(c, Size(cur))])
    ensures Size(cur + [Place(c, Size(cur))]) == Size(cur) + |c.data|
    ensures Metas(cur + [Place(c, Size(cur))]) == Metas(cur) + [c.meta.(offset := Some(Size(cur)))]
  {
    hide Size, Tiled, HoldsEntry, Overwrite;
    var b := cur + [Place(c, Size(cur))];
    TiledAppend(cur, c);
    SizeAppend(cur, Place(c, Size(cur)));
    assert b[..|cur|] == cur;
    forall i | 0 <= i < |cur| ensures HoldsEntry(buf, b[i]) {
      assert HoldsEntry(buf, cur[i]);
    }
    FillNext(buf, b, |cur|);
  }

  // ---------- two chunks ----------

  lemma TwoInOne(a: Chunk, b: Chunk, bucketSize: nat)
    requires |a.data| + |b.data| <= bucketSize
    ensures Pack([a, b], bucketSize) == [[Place(a, 0), Place(b, |a.data|)]]
    ensures Flatten(Pack([a, b], bucketSize)) == [Place(a, 0), Place(b, |a.data|)]
  {
    hide Size;
    var first, second := Place(a, 0), Place(b, |a.data|);
    NoSize();
    assert [a, b][1..] == [b] && [b][1..] == [];
    assert [] + [first] == [first] && [first] + [second] == [first, second];
    SizeAppend([], first);
    assert PackFrom([], [a, b], bucketSize) == PackFrom([first], [b], bucketSize);
    assert PackFrom([first], [b], bucketSize) == PackFrom([first, second], [], bucketSize);
    assert [[first, second]][1..] == [] && [first, second] + [] == [first, second];
    assert Flatten([[first, second]]) == [first, second] + Flatten([]);
  }

  lemma TwoApart(a: Chunk, b: Chunk, bucketSize: nat)
    requires |a.data| <= bucketSize < |a.data| + |b.data|
    ensures Pack([a, b], bucketSize) == [[Place(a, 0)], [Place(b, 0)]]
  {
    hide Size;
    var first, second := Place(a, 0), Place(b, 0);
    NoSize();
    assert [a, b][1..] == [b] && [b][1..] == [];
    assert [] + [first] == [first];
    SizeAppend([], first);
    assert PackFrom([], [a, b], bucketSize) == PackFrom([first], [b], bucketSize);
    assert PackFrom([first], [b], bucketSize) == [[first]] + PackFrom([second], [], bucketSize);
  }
}
