/**
 What a receiver rebuilds from the packed buckets. `merge_weight_chunks` views a weight that fits in a bucket in
 place, inside the receive buffer (verl/verl/checkpoint_engine/base.py), so where the sender has packed it
 (nccl_checkpoint_engine.py, nixl_checkpoint_engine.py) decides whether the view is allowed.
*/
module Transfer {
  import opened Arithmetic
  import opened Weights
  import opened Packing

  /** What the receiver views in place, each weight that fits in a bucket, lies where it can be viewed. */
  ghost predicate SmallAligned(chunks: seq<Chunk>, bucketSize: nat) {
    forall c <- chunks | Nbytes(c.meta.shape, c.meta.dtype) <= bucketSize :: Aligned(c)
  }

  /** Where the chunks lie in their buckets matters for the views, and for nothing else. */
  lemma {:induction false} PlacedMerge(st: MergeState, chunks: seq<Chunk>, bucketSize: nat)
    requires MergeFrom(st, Unplace(chunks), bucketSize).ok
    ensures var placed, whole := MergeFrom(st, chunks, bucketSize), MergeFrom(st, Unplace(chunks), bucketSize);
      && (placed.ok <==> SmallAligned(chunks, bucketSize))
      && (if placed.ok then placed == whole else placed.out < whole.out)
    decreases |chunks|
  {
    hide Aligned, Nbytes;
    if chunks != [] {
      var c, rest := chunks[0], chunks[1..];
      assert Unplace(chunks) == [Unplace(chunks)[0]] + Unplace(rest) && Unplace(chunks)[1..] == Unplace(rest);
      assert chunks == [c] + rest;
      PlacedStep(st, c, bucketSize);
      assert Unplace(chunks)[0] == c.(meta := c.meta.(offset := None));
      match MergeStep(st, c, bucketSize)
      case Failed =>
        assert c in chunks;
      case Next(st', _) =>
        PlacedMerge(st', rest, bucketSize);
    }
  }

  lemma PlacedStep(st: MergeState, c: Chunk, bucketSize: nat)
    requires MergeStep(st, c.(meta := c.meta.(offset := None)), bucketSize).Next?
    ensures var whole := MergeStep(st, c.(meta := c.meta.(offset := None)), bucketSize);
      if Nbytes(c.meta.shape, c.meta.dtype) <= bucketSize && !Aligned(c)
        then MergeStep(st, c, bucketSize) == Failed && whole.out != []
        else MergeStep(st, c, bucketSize) == whole
  {
  }

  /** All weights that have bytes, or a failure with what came before it. */
  ghost predicate RebuiltIf(aligned: bool, received: MergeResult, ws: seq<Weight>) {
    && (received == MergeResult(true, NonEmpty(ws)) <==> aligned)
    && (!aligned ==> !received.ok && received.out < NonEmpty(ws))
  }

  /**
   End to end: a receiver that is handed the entries of the packed buckets in order rebuilds every tensor
   that has bytes, with its name and in the sender's order, exactly when every weight that fits in a bucket
   lies in its bucket where its items can start. Otherwise it fails at the first one that does not.
  */
  lemma TransferIdentity(ws: seq<Weight>, bucketSize: nat)
    requires bucketSize > 0 && ValidWeights(ws) && DistinctNames(ws)
    ensures var sent := Flatten(Pack(Split(ws, bucketSize), bucketSize));
      RebuiltIf(SmallAligned(sent, bucketSize), Merge(sent, bucketSize), ws)
  {
    hide MergeFrom, Split, PackFrom, SmallAligned;
    PackCorrect(ws, bucketSize);
    MergeUndoesSplit(ws, bucketSize);
    PlacedMerge(Nothing, Flatten(Pack(Split(ws, bucketSize), bucketSize)), bucketSize);
  }

  // ---------- when everything is aligned ----------

  /** The items of the chunk divide m, which divides its size. */
  ghost predicate MultipleOf(c: Chunk, m: nat)
    requires m > 0
  {
    |c.data| % m == 0 && m % c.meta.dtype.itemsize == 0
  }

  lemma MultipleViewable(start: nat, m: nat, dtype: Dtype)
    requires m > 0 && start % m == 0 && m % dtype.itemsize == 0
    ensures Viewable(start, dtype)
  {
    var a, b, n := start / m, m / dtype.itemsize, dtype.itemsize;
    assert start == a * m && m == b * n;
    assert start == (a * b) * n;
    MulMono(0, a, b);
    DivUnique(start, n, a * b, 0);
  }

  ghost predicate PlacedBy(c: Chunk, m: nat)
    requires m > 0
  {
    c.meta.offset.Some? && c.meta.offset.value % m == 0 && MultipleOf(c, m)
  }

  /** Chunks whose sizes are multiples of m are placed at multiples of m. */
  lemma {:induction false} PackMultiples(cur: Bucket, chunks: seq<Chunk>, bucketSize: nat, m: nat)
    requires m > 0 && Size(cur) % m == 0
    requires (forall c <- cur :: PlacedBy(c, m)) && forall c <- chunks :: MultipleOf(c, m)
    ensures forall c <- Flatten(PackFrom(cur, chunks, bucketSize)) :: PlacedBy(c, m)
    decreases |chunks|
  {
    hide MultipleOf;
    if chunks == [] {
      assert Flatten([cur]) == cur + Flatten([]);
    } else {
      var c := chunks[0];
      assert MultipleOf(c, m);
      if Size(cur) + |c.data| > bucketSize {
        var next := [Place(c, 0)];
        MultipleSize([], c, 0, m);
        assert [] + next == next;
        PackMultiples(next, chunks[1..], bucketSize, m);
        var rest := PackFrom(next, chunks[1..], bucketSize);
        assert ([cur] + rest)[0] == cur && ([cur] + rest)[1..] == rest;
      } else {
        MultipleSize(cur, c, Size(cur), m);
        PackMultiples(cur + [Place(c, Size(cur))], chunks[1..], bucketSize, m);
      }
    }
  }

  lemma MultipleSize(cur: Bucket, c: Chunk, offset: nat, m: nat)
    requires m > 0 && Size(cur) % m == 0 && offset % m == 0 && MultipleOf(c, m)
    ensures PlacedBy(Place(c, offset), m) && Size(cur + [Place(c, offset)]) % m == 0
  {
    SizeAppend(cur, Place(c, offset));
    SumOfMultiples(Size(cur), |c.data|, m);
  }

  lemma {:induction false} ChunksAreMultiples(w: Weight, off: nat, bucketSize: nat, m: nat)
    requires bucketSize > 0 && off <= |w.tensor.data| && m > 0
    requires off % m == 0 && bucketSize % m == 0 && |w.tensor.data| % m == 0 && m % w.tensor.dtype.itemsize == 0
    ensures forall c <- ChunksFrom(w, off, bucketSize) :: MultipleOf(c, m)
    decreases |w.tensor.data| - off
  {
    if off < |w.tensor.data| {
      var n := |w.tensor.data|;
      if bucketSize < n - off {
        SumOfMultiples(off, bucketSize, m);
        ChunksAreMultiples(w, off + bucketSize, bucketSize, m);
      } else {
        DifferenceOfMultiples(n, off, m);
        assert ChunksFrom(w, n, bucketSize) == [];
      }
    }
  }

  /** The items of every weight divide m, and m divides the bytes of every weight. */
  ghost predicate MultiplesOf(ws: seq<Weight>, m: nat)
    requires m > 0
  {
    forall w <- ws :: |w.tensor.data| % m == 0 && m % w.tensor.dtype.itemsize == 0
  }

  lemma {:induction false} SplitIsMultiples(ws: seq<Weight>, bucketSize: nat, m: nat)
    requires bucketSize > 0 && m > 0 && bucketSize % m == 0 && MultiplesOf(ws, m)
    ensures forall c <- Split(ws, bucketSize) :: MultipleOf(c, m)
  {
    hide MultipleOf;
    if ws != [] {
      ChunksAreMultiples(ws[0], 0, bucketSize, m);
      SplitIsMultiples(ws[1..], bucketSize, m);
    }
  }

  /** What a caller can look after: an m that divides the bucket size and all weights, and that their items divide. */
  lemma MultiplesAreAligned(ws: seq<Weight>, bucketSize: nat, m: nat)
    requires bucketSize > 0 && m > 0 && bucketSize % m == 0 && MultiplesOf(ws, m)
    ensures SmallAligned(Flatten(Pack(Split(ws, bucketSize), bucketSize)), bucketSize)
  {
    SplitIsMultiples(ws, bucketSize, m);
    PackMultiples([], Split(ws, bucketSize), bucketSize, m);
    forall c <- Flatten(Pack(Split(ws, bucketSize), bucketSize)) ensures Aligned(c) {
      assert PlacedBy(c, m);
      MultipleViewable(c.meta.offset.value, m, c.meta.dtype);
    }
  }

  /** Above all: weights of one item size, which divides the bucket size. */
  lemma OneItemSize(ws: seq<Weight>, bucketSize: nat, itemsize: Width)
    requires bucketSize > 0 && bucketSize % itemsize == 0 && ValidWeights(ws)
    requires forall w <- ws :: w.tensor.dtype.itemsize == itemsize
    ensures SmallAligned(Flatten(Pack(Split(ws, bucketSize), bucketSize)), bucketSize)
  {
    forall w <- ws ensures |w.tensor.data| % itemsize == 0 && itemsize % w.tensor.dtype.itemsize == 0 {
      DivUnique(Numel(w.tensor.shape) * itemsize, itemsize, Numel(w.tensor.shape), 0);
      DivUnique(itemsize, itemsize, 1, 0);
    }
    MultiplesAreAligned(ws, bucketSize, itemsize);
  }

  lemma SmallWeight(w: Weight, bucketSize: nat)
    requires 0 < |w.tensor.data| <= bucketSize
    ensures ChunksFrom(w, 0, bucketSize) == [ChunkAt(w, 0, |w.tensor.data|)]
  {
    assert ChunksFrom(w, |w.tensor.data|, bucketSize) == [];
  }

  lemma TwoWeights(w: Weight, w': Weight, bucketSize: nat)
    requires 0 < |w.tensor.data| && 0 < |w'.tensor.data| && |w.tensor.data| + |w'.tensor.data| <= bucketSize
    ensures Flatten(Pack(Split([w, w'], bucketSize), bucketSize)) ==
      [Place(ChunkAt(w, 0, |w.tensor.data|), 0), Place(ChunkAt(w', 0, |w'.tensor.data|), |w.tensor.data|)]
  {
    hide ChunksFrom, PackFrom, Flatten;
    var a, b := ChunkAt(w, 0, |w.tensor.data|), ChunkAt(w', 0, |w'.tensor.data|);
    SmallWeight(w, bucketSize);
    SmallWeight(w', bucketSize);
    assert [w, w'][1..] == [w'] && [w'][1..] == [];
    assert Split([w'], bucketSize) == [b] + Split([], bucketSize) == [b];
    assert Split([w, w'], bucketSize) == [a] + [b] == [a, b];
    TwoInOne(a, b, bucketSize);
  }

  /** A byte before a four-byte number, in buckets of eight: the number starts at byte 1 and is refused. */
  lemma MisalignedIsRefused()
    ensures var flag := Weight("flag", Tensor([1], Dtype("uint8", 1), [7]));
      var scale := Weight("scale", Tensor([1], Dtype("float32", 4), [1, 2, 3, 4]));
      && ValidWeights([flag, scale]) && DistinctNames([flag, scale])
      && Merge(Flatten(Pack(Split([flag, scale], 8), 8)), 8) == MergeResult(false, [flag])
  {
    hide Split, PackFrom, Flatten;
    var flag := Weight("flag", Tensor([1], Dtype("uint8", 1), [7]));
    var scale := Weight("scale", Tensor([1], Dtype("float32", 4), [1, 2, 3, 4]));
    assert Numel([1]) == 1 by { assert [1][1..] == []; }
    TwoWeights(flag, scale, 8);
    var first, second := Place(ChunkAt(flag, 0, 1), 0), Place(ChunkAt(scale, 0, 4), 1);
    assert first.data == [7] && second.data == [1, 2, 3, 4] && !Aligned(second);
    assert MergeStep(Nothing, first, 8) == Next(Nothing, [flag]) && MergeStep(Nothing, second, 8) == Failed;
    assert MergeFrom(Nothing, [second], 8) == MergeResult(false, []);
    MergeCons(Nothing, first, [second], Nothing, [flag], 8);
    assert [first] + [second] == [first, second] && [flag] + [] == [flag];
  }

  lemma UnevenSplit(w: Weight, w': Weight)
    requires |w.tensor.data| == 8 && |w'.tensor.data| == 4
    ensures Split([w, w'], 6) == [ChunkAt(w, 0, 6), ChunkAt(w, 6, 2), ChunkAt(w', 0, 4)]
  {
    var a, b, c := ChunkAt(w, 0, 6), ChunkAt(w, 6, 2), ChunkAt(w', 0, 4);
    assert ChunksFrom(w, 6, 6) == [b] + ChunksFrom(w, 8, 6) == [b];
    assert ChunksFrom(w, 0, 6) == [a] + [b] == [a, b];
    SmallWeight(w', 6);
    hide ChunksFrom;
    assert [w, w'][1..] == [w'] && [w'][1..] == [];
    assert Split([w'], 6) == [c] + Split([], 6) == [c];
    assert Split([w, w'], 6) == [a, b] + [c] == [a, b, c];
  }

  lemma UnevenPack(a: Chunk, b: Chunk, c: Chunk)
    requires |a.data| == 6 && |b.data| == 2 && |c.data| == 4
    ensures Flatten(Pack([a, b, c], 6)) == [Place(a, 0), Place(b, 0), Place(c, 2)]
  {
    hide Flatten, Size;
    var first, second, third := Place(a, 0), Place(b, 0), Place(c, 2);
    assert [a, b, c][1..] == [b, c] && [b, c][1..] == [c] && [c][1..] == [];
    NoSize();
    SizeAppend([], first);
    SizeAppend([], second);
    assert [] + [first] == [first] && [] + [second] == [second] && [second] + [third] == [second, third];
    assert PackFrom([second], [c], 6) == PackFrom([second, third], [], 6);
    assert PackFrom([first], [b, c], 6) == [[first]] + [[second, third]] == [[first], [second, third]];
    assert PackFrom([], [a, b, c], 6) == PackFrom([first], [b, c], 6);
    FlattenTwo([first], [second, third]);
  }

  lemma FlattenTwo(a: Bucket, b: Bucket)
    ensures Flatten([a, b]) == a + b
  {
    assert [a, b][1..] == [b] && [b][1..] == [];
    assert Flatten([b]) == b + Flatten([]) == b;
  }

  lemma NotAligned(chunks: seq<Chunk>, i: nat, bucketSize: nat)
    requires i < |chunks| && !Aligned(chunks[i])
    requires Nbytes(chunks[i].meta.shape, chunks[i].meta.dtype) <= bucketSize
    ensures !SmallAligned(chunks, bucketSize)
  {
    assert chunks[i] in chunks;
  }

  /**
   Four-byte numbers alone, in buckets of six: a weight of two of them leaves two bytes in the second bucket,
   and the next weight, behind them, is refused.
  */
  lemma UnevenBucketIsRefused(long: Weight, short: Weight)
    requires ValidTensor(long.tensor) && ValidTensor(short.tensor) && long.name != short.name
    requires long.tensor.shape == [2] && short.tensor.shape == [1]
    requires long.tensor.dtype == short.tensor.dtype == Dtype("float32", 4)
    ensures !Merge(Flatten(Pack(Split([long, short], 6), 6)), 6).ok
  {
    hide Split, PackFrom, Flatten, MergeFrom, SmallAligned;
    assert Numel([1]) == 1 && Numel([2]) == 2 by { assert [1][1..] == [] && [2][1..] == []; }
    UnevenSplit(long, short);
    UnevenPack(ChunkAt(long, 0, 6), ChunkAt(long, 6, 2), ChunkAt(short, 0, 4));
    var third := Place(ChunkAt(short, 0, 4), 2);
    assert Flatten(Pack(Split([long, short], 6), 6))[2] == third && !Aligned(third);
    NotAligned(Flatten(Pack(Split([long, short], 6), 6)), 2, 6);
    TransferIdentity([long, short], 6);
  }
}
