/**
 Saving a merged checkpoint from all pipeline ranks (`save_hf_model_and_tokenizer` in
 verl/verl/model_merger/megatron_model_merger.py): every rank spreads its keys over its own numbered files and
 records for each key the file that holds it; the records of all ranks are merged into the weight map.
*/
module ShardedSave {
  import opened Arithmetic
  import opened Weights
  import opened StateDictMerge

  // ---------- files ----------

  function SavesPerLayer(layerNum: nat): nat {
    if layerNum < 30 then 1 else 2
  }

  function PartSizes(len: nat, n: nat): seq<nat>
    requires n > 0
  {
    seq(n, i requires 0 <= i < n => len / n + if i < len % n then 1 else 0)
  }

  lemma {:induction false} PartSizesSum(len: nat, n: nat, i: nat)
    requires n > 0 && i <= n
    ensures Sum(PartSizes(len, n)[..i]) == PartStart(len, n, i)
  {
    if i > 0 {
      PartSizesSum(len, n, i - 1);
      SumStep(PartSizes(len, n), i - 1);
      PartStartStep(len, n, i - 1);
    }
  }

  datatype SavedFile<T> = SavedFile(number: nat, tensors: map<Key, T>)

  ghost predicate DistinctKeys(keys: seq<Key>) {
    forall i, j | 0 <= i < j < |keys| :: keys[i] != keys[j]
  }

  /** The keys of a state dict, in some order. */
  ghost predicate Listed<T>(keys: seq<Key>, merged: map<Key, T>) {
    forall k :: k in keys <==> k in merged
  }

  /** File i holds exactly part i of the keys, with their tensors. */
  ghost predicate HoldsPart<T>(f: SavedFile<T>, keys: seq<Key>, merged: map<Key, T>, n: nat, i: nat)
    requires n > 0 && i < n
  {
    var lo, hi := PartStart(|keys|, n, i), PartStart(|keys|, n, i + 1);
    && lo <= hi <= |keys|
    && (forall k :: k in f.tensors <==> k in keys[lo..hi])
    && forall k <- f.tensors :: k in merged && f.tensors[k] == merged[k]
  }

  /** Every key lies in exactly one part. */
  lemma PartOfKey(len: nat, n: nat, j: nat) returns (i: nat)
    requires n > 0 && j < len
    ensures i < n && PartStart(len, n, i) <= j < PartStart(len, n, i + 1)
  {
    PartStartEnds(len, n);
    PartSizesSum(len, n, n);
    assert PartSizes(len, n)[..n] == PartSizes(len, n);
    var at;
    i, at := PlaceSurjective(PartSizes(len, n), j);
    PlaceInRange(PartSizes(len, n), i, at);
    PartSizesSum(len, n, i);
    PartSizesSum(len, n, i + 1);
  }

  lemma PartUnique(len: nat, n: nat, j: nat, i: nat, i': nat)
    requires n > 0 && i < n && i' < n
    requires PartStart(len, n, i) <= j < PartStart(len, n, i + 1)
    requires PartStart(len, n, i') <= j < PartStart(len, n, i' + 1)
    ensures i == i'
  {
    if i < i' {
      PartStartMono(len, n, i + 1, i');
    } else if i' < i {
      PartStartMono(len, n, i' + 1, i);
    }
  }

  /** The number of file i of a rank whose layers start at layerStart. */
  function FileNumber(layerStart: nat, savesPerLayer: nat, i: nat): nat {
    layerStart * savesPerLayer + i + 1
  }

  method BuildFile<T>(keys: seq<Key>, merged: map<Key, T>) returns (tensors: map<Key, T>)
    requires forall k <- keys :: k in merged
    ensures forall k :: k in tensors <==> k in keys
    ensures forall k <- tensors :: k in merged && tensors[k] == merged[k]
  {
    tensors := map[];
    for j := 0 to |keys|
      invariant forall k :: k in tensors <==> k in keys[..j]
      invariant forall k <- tensors :: k in merged && tensors[k] == merged[k]
    {
      tensors := tensors[keys[j] := merged[keys[j]]];
    }
    assert keys[..|keys|] == keys;
  }

  /** The index holds what it should of key x, which lies in part p. */
  ghost predicate IndexedOne(index: map<Key, nat>, keys: seq<Key>, base: nat, p: nat, x: nat) {
    x < |keys| && keys[x] in index && index[keys[x]] == base + p + 1
  }

  /** The part of the index that `saves_indexes` has after the first `done` parts. */
  ghost predicate IndexUpTo(index: map<Key, nat>, keys: seq<Key>, n: nat, base: nat, done: nat)
    requires n > 0 && done <= n
  {
    && (forall k <- index :: k in keys)
    && forall i, j | 0 <= i < done && PartStart(|keys|, n, i) <= j < PartStart(|keys|, n, i + 1) && j < |keys| ::
      IndexedOne(index, keys, base, i, j)
  }

  /** The entries of one part; with distinct keys they leave those of the earlier parts alone. */
  method IndexPart(index: map<Key, nat>, keys: seq<Key>, n: nat, base: nat, i: nat) returns (index': map<Key, nat>)
    requires n > 0 && i < n && DistinctKeys(keys) && IndexUpTo(index, keys, n, base, i)
    ensures IndexUpTo(index', keys, n, base, i + 1)
  {
    PartBounds(|keys|, n, i);
    var lo, hi := PartStart(|keys|, n, i), PartStart(|keys|, n, i + 1);
    hide PartStart;
    index' := index;
    for j := lo to hi
      invariant forall k <- index' :: k in keys
      invariant forall k | k in index && (forall x | lo <= x < j :: keys[x] != k) ::
        k in index' && index'[k] == index[k]
      invariant forall x | lo <= x < j :: keys[x] in index' && index'[keys[x]] == base + i + 1
    {
      index' := index'[keys[j] := base + i + 1];
    }
    IndexedPart(index, index', keys, n, base, i);
  }

  /** A key of an earlier part is none of part i, so part i leaves its entry alone. */
  lemma EarlierPart(index: map<Key, nat>, keys: seq<Key>, n: nat, base: nat, i: nat, p: nat, x: nat)
    requires n > 0 && p < i < n && DistinctKeys(keys) && IndexUpTo(index, keys, n, base, i)
    requires PartStart(|keys|, n, p) <= x < PartStart(|keys|, n, p + 1) && x < |keys|
    requires PartStart(|keys|, n, i + 1) <= |keys|
    ensures IndexedOne(index, keys, base, p, x)
    ensures forall y | PartStart(|keys|, n, i) <= y < PartStart(|keys|, n, i + 1) :: keys[y] != keys[x]
  {
    hide PartStart;
    PartStartMono(|keys|, n, p + 1, i);
  }

  lemma IndexedPart(index: map<Key, nat>, index': map<Key, nat>, keys: seq<Key>, n: nat, base: nat, i: nat)
    requires n > 0 && i < n && DistinctKeys(keys) && IndexUpTo(index, keys, n, base, i)
    requires PartStart(|keys|, n, i) <= PartStart(|keys|, n, i + 1) <= |keys|
    requires forall k <- index' :: k in keys
    requires forall k |
      k in index && (forall x | PartStart(|keys|, n, i) <= x < PartStart(|keys|, n, i + 1) :: keys[x] != k) ::
      k in index' && index'[k] == index[k]
    requires forall x | PartStart(|keys|, n, i) <= x < PartStart(|keys|, n, i + 1) ::
      keys[x] in index' && index'[keys[x]] == base + i + 1
    ensures IndexUpTo(index', keys, n, base, i + 1)
  {
    hide PartStart, DistinctKeys;
    forall p, x | 0 <= p < i + 1 && PartStart(|keys|, n, p) <= x < PartStart(|keys|, n, p + 1) && x < |keys|
      ensures IndexedOne(index', keys, base, p, x)
    {
      if p < i {
        EarlierPart(index, keys, n, base, i, p, x);
      }
    }
  }

  /**
   `save_hf_model_and_tokenizer` on one rank: layer_this_rank * saves_per_layer files, numbered from the
   rank's first layer on, with every key in exactly one of them: the one in the index.
  */
  method SaveRank<T>(keys: seq<Key>, merged: map<Key, T>, pipelineShards: seq<nat>, rank: nat, layerNum: nat)
    returns (files: seq<SavedFile<T>>, index: map<Key, nat>)
    requires rank < |pipelineShards| && pipelineShards[rank] > 0
    requires DistinctKeys(keys) && Listed(keys, merged)
    ensures var m := if layerNum < 30 then 1 else 2;
      && |files| == pipelineShards[rank] * m
      && forall i | 0 <= i < |files| :: files[i].number == Sum(pipelineShards[..rank]) * m + i + 1
    ensures |files| > 0 && forall i | 0 <= i < |files| :: HoldsPart(files[i], keys, merged, |files|, i)
    ensures index.Keys == merged.Keys && forall k <- merged :: KeySaved(files, index, k)
    ensures forall i | 0 <= i < |files| :: forall k <- files[i].tensors ::
      k in merged && files[i].tensors[k] == merged[k]
  {
    var savesPerLayer := SavesPerLayer(layerNum);
    var n := pipelineShards[rank] * savesPerLayer;
    var layerStart := if rank == 0 then 0 else Sum(pipelineShards[..rank]);
    files, index := SaveParts(keys, merged, n, layerStart * savesPerLayer);
  }

  method SaveParts<T>(keys: seq<Key>, merged: map<Key, T>, n: nat, base: nat)
    returns (files: seq<SavedFile<T>>, index: map<Key, nat>)
    requires n > 0 && DistinctKeys(keys) && forall k :: k in keys <==> k in merged
    ensures |files| == n && forall i | 0 <= i < n :: files[i].number == base + i + 1
    ensures forall i | 0 <= i < n :: HoldsPart(files[i], keys, merged, n, i)
    ensures index.Keys == merged.Keys && forall k <- merged :: KeySaved(files, index, k)
    ensures forall i | 0 <= i < n :: forall k <- files[i].tensors :: k in merged && files[i].tensors[k] == merged[k]
  {
    files, index := [], map[];
    NothingIndexed(keys, n, base);
    hide PartStart, HoldsPart, IndexUpTo, KeySaved;
    for i := 0 to n
      invariant |files| == i && IndexUpTo(index, keys, n, base, i)
      invariant forall p | 0 <= p < i :: files[p].number == base + p + 1 && HoldsPart(files[p], keys, merged, n, p)
    {
      var f := SavePart(keys, merged, n, base, i);
      files := files + [f];
      index := IndexPart(index, keys, n, base, i);
    }
    forall k <- merged ensures KeySaved(files, index, k) {
      KeyIsSaved(files, index, keys, merged, n, base, k);
    }
    forall i | 0 <= i < n ensures forall k <- files[i].tensors :: k in merged && files[i].tensors[k] == merged[k] {
      HeldTensors(files[i], keys, merged, n, i);
    }
    IndexKeys(files, index, keys, merged, n, base);
  }

  lemma NothingIndexed(keys: seq<Key>, n: nat, base: nat)
    requires n > 0
    ensures IndexUpTo(map[], keys, n, base, 0)
  {
  }

  lemma IndexKeys<T>(files: seq<SavedFile<T>>, index: map<Key, nat>, keys: seq<Key>, merged: map<Key, T>, n: nat,
                     base: nat)
    requires n > 0 && IndexUpTo(index, keys, n, base, n) && (forall k :: k in keys <==> k in merged)
    requires forall k <- merged :: KeySaved(files, index, k)
    ensures index.Keys == merged.Keys
  {
    hide PartStart;
  }

  method SavePart<T>(keys: seq<Key>, merged: map<Key, T>, n: nat, base: nat, i: nat) returns (f: SavedFile<T>)
    requires n > 0 && i < n && forall k :: k in keys <==> k in merged
    ensures f.number == base + i + 1 && HoldsPart(f, keys, merged, n, i)
  {
    PartBounds(|keys|, n, i);
    hide PartStart;
    var part := keys[PartStart(|keys|, n, i)..PartStart(|keys|, n, i + 1)];
    assert forall k <- part :: k in keys;
    var tensors := BuildFile(part, merged);
    f := SavedFile(base + i + 1, tensors);
  }

  /** The file of part p holds key j exactly when j lies in part p. */
  lemma HeldIff<T>(f: SavedFile<T>, keys: seq<Key>, merged: map<Key, T>, n: nat, p: nat, i: nat, j: nat)
    requires n > 0 && i < n && p < n && DistinctKeys(keys) && j < |keys| && HoldsPart(f, keys, merged, n, p)
    requires PartStart(|keys|, n, i) <= j < PartStart(|keys|, n, i + 1)
    ensures keys[j] in f.tensors <==> p == i
  {
    PartBounds(|keys|, n, p);
    hide PartStart;
    var lo, hi := PartStart(|keys|, n, p), PartStart(|keys|, n, p + 1);
    if keys[j] in keys[lo..hi] {
      var x :| 0 <= x < hi - lo && keys[lo..hi][x] == keys[j];
      assert lo + x == j;
      PartUnique(|keys|, n, j, i, p);
    }
    if p == i {
      assert keys[lo..hi][j - lo] == keys[j];
    }
  }

  lemma IndexedAt(index: map<Key, nat>, keys: seq<Key>, n: nat, base: nat, i: nat, j: nat)
    requires n > 0 && i < n && j < |keys| && IndexUpTo(index, keys, n, base, n)
    requires PartStart(|keys|, n, i) <= j < PartStart(|keys|, n, i + 1)
    ensures keys[j] in index && index[keys[j]] == base + i + 1
  {
    hide PartStart;
    assert IndexedOne(index, keys, base, i, j);
  }

  ghost predicate FilesOk<T>(files: seq<SavedFile<T>>, keys: seq<Key>, merged: map<Key, T>, n: nat, base: nat) {
    n > 0 && |files| == n && forall p | 0 <= p < n ::
      files[p].number == base + p + 1 && HoldsPart(files[p], keys, merged, n, p)
  }

  lemma KeyPlace<T>(files: seq<SavedFile<T>>, index: map<Key, nat>, keys: seq<Key>, merged: map<Key, T>, n: nat,
                    base: nat, j: nat)
    returns (i: nat)
    requires FilesOk(files, keys, merged, n, base) && DistinctKeys(keys) && IndexUpTo(index, keys, n, base, n)
    requires j < |keys|
    ensures i < n && keys[j] in index && index[keys[j]] == base + i + 1
    ensures forall p | 0 <= p < n :: keys[j] in files[p].tensors <==> p == i
  {
    hide PartStart, HoldsPart, IndexUpTo, DistinctKeys;
    i := PartOfKey(|keys|, n, j);
    IndexedAt(index, keys, n, base, i, j);
    forall p | 0 <= p < n ensures keys[j] in files[p].tensors <==> p == i {
      HeldIff(files[p], keys, merged, n, p, i, j);
    }
  }

  /** Where one key ends up: in the file of the index, and in no other. */
  ghost predicate KeySaved<T>(files: seq<SavedFile<T>>, index: map<Key, nat>, k: Key) {
    && k in index && (exists i | 0 <= i < |files| :: k in files[i].tensors)
    && forall i | 0 <= i < |files| :: k in files[i].tensors <==> index[k] == files[i].number
  }

  lemma KeyIsSaved<T>(files: seq<SavedFile<T>>, index: map<Key, nat>, keys: seq<Key>, merged: map<Key, T>, n: nat,
                      base: nat, k: Key)
    requires FilesOk(files, keys, merged, n, base) && DistinctKeys(keys) && IndexUpTo(index, keys, n, base, n)
    requires k in keys
    ensures KeySaved(files, index, k)
  {
    hide HoldsPart, IndexUpTo, DistinctKeys;
    var j :| 0 <= j < |keys| && keys[j] == k;
    var i := KeyPlace(files, index, keys, merged, n, base, j);
    assert k in files[i].tensors;
  }

  /** File p of n has its share of the keys, and the first |keys| % n files one more. */
  lemma FileShare<T>(f: SavedFile<T>, keys: seq<Key>, merged: map<Key, T>, n: nat, p: nat)
    requires n > 0 && p < n && DistinctKeys(keys) && HoldsPart(f, keys, merged, n, p)
    ensures |f.tensors| == |keys| / n + if p < |keys| % n then 1 else 0
  {
    PartStartStep(|keys|, n, p);
    hide PartStart;
    var part := keys[PartStart(|keys|, n, p)..PartStart(|keys|, n, p + 1)];
    assert f.tensors.Keys == set k | k in part;
    DistinctCard(part);
    assert |f.tensors| == |f.tensors.Keys|;
  }

  lemma {:induction false} DistinctCard(keys: seq<Key>)
    requires DistinctKeys(keys)
    ensures |set k | k in keys| == |keys|
  {
    if keys != [] {
      var n := |keys| - 1;
      DistinctCard(keys[..n]);
      assert keys == keys[..n] + [keys[n]];
      assert (set k | k in keys) == (set k | k in keys[..n]) + {keys[n]};
    }
  }

  lemma HeldTensors<T>(f: SavedFile<T>, keys: seq<Key>, merged: map<Key, T>, n: nat, p: nat)
    requires n > 0 && p < n && HoldsPart(f, keys, merged, n, p)
    ensures forall k <- f.tensors :: k in merged && f.tensors[k] == merged[k]
  {
  }

  // ---------- file numbers over all ranks ----------

  function Scaled(sizes: seq<nat>, m: nat): seq<nat> {
    seq(|sizes|, r requires 0 <= r < |sizes| => Times(sizes[r], m))
  }

  function Times(a: nat, b: nat): nat {
    a * b
  }

  lemma {:induction false} ScaledSum(sizes: seq<nat>, m: nat, r: nat)
    requires r <= |sizes|
    ensures Sum(Scaled(sizes, m)[..r]) == Times(Sum(sizes[..r]), m)
  {
    hide Times;
    if r == 0 {
      TimesZero(m);
    } else {
      ScaledSum(sizes, m, r - 1);
      SumStep(sizes, r - 1);
      SumStep(Scaled(sizes, m), r - 1);
      TimesPlus(Sum(sizes[..r - 1]), sizes[r - 1], m);
    }
  }

  lemma TimesIs(a: nat, b: nat)
    ensures Times(a, b) == a * b
  {
  }

  lemma TimesZero(m: nat)
    ensures Times(0, m) == 0
  {
  }

  lemma TimesPlus(a: nat, b: nat, m: nat)
    ensures Times(a + b, m) == Times(a, m) + Times(b, m)
  {
  }

  lemma FileNumberIsPlace(shards: seq<nat>, m: nat, r: nat, i: nat)
    requires r < |shards| && i < Times(shards[r], m)
    ensures FileNumber(Sum(shards[..r]), m, i) == Place(Scaled(shards, m), r, i) + 1
  {
    ScaledSum(shards, m, r);
  }

  /** The files of all ranks are numbered 1..saves_total, each number once. */
  lemma FileNumbersDistinct(shards: seq<nat>, m: nat, r: nat, i: nat, r': nat, i': nat)
    requires r < |shards| && i < Times(shards[r], m) && r' < |shards| && i' < Times(shards[r'], m)
    ensures 1 <= FileNumber(Sum(shards[..r]), m, i) <= Times(Sum(shards), m)
    ensures FileNumber(Sum(shards[..r]), m, i) == FileNumber(Sum(shards[..r']), m, i') ==> r == r' && i == i'
  {
    FileNumberIsPlace(shards, m, r, i);
    FileNumberIsPlace(shards, m, r', i');
    PlaceInRange(Scaled(shards, m), r, i);
    ScaledSum(shards, m, |shards|);
    assert shards[..|shards|] == shards && Scaled(shards, m)[..|shards|] == Scaled(shards, m);
    if FileNumber(Sum(shards[..r]), m, i) == FileNumber(Sum(shards[..r']), m, i') {
      PlaceInjective(Scaled(shards, m), r, i, r', i');
    }
  }

  lemma FileNumbersCover(shards: seq<nat>, m: nat, number: nat) returns (r: nat, i: nat)
    requires 1 <= number <= Times(Sum(shards), m)
    ensures r < |shards| && i < Times(shards[r], m) && FileNumber(Sum(shards[..r]), m, i) == number
  {
    ScaledSum(shards, m, |shards|);
    assert shards[..|shards|] == shards && Scaled(shards, m)[..|shards|] == Scaled(shards, m);
    r, i := PlaceSurjective(Scaled(shards, m), number - 1);
    FileNumberIsPlace(shards, m, r, i);
  }

  // ---------- the weight map of all ranks ----------

  /** `{k: v for i in all_save_indexes for k, v in i.items()}`: of two ranks with a key the later one wins. */
  function MergedIndex(indexes: seq<map<Key, nat>>): map<Key, nat> {
    if indexes == [] then map[] else MergedIndex(indexes[..|indexes| - 1]) + indexes[|indexes| - 1]
  }

  method MergeIndexes(indexes: seq<map<Key, nat>>) returns (weightMap: map<Key, nat>)
    ensures weightMap == MergedIndex(indexes)
  {
    weightMap := map[];
    for r := 0 to |indexes|
      invariant weightMap == MergedIndex(indexes[..r])
    {
      assert indexes[..r + 1][..r] == indexes[..r];
      weightMap := weightMap + indexes[r];
    }
    assert indexes[..|indexes|] == indexes;
  }

  /** The merged index has every key, as the last rank that has it recorded it. */
  lemma {:induction false} MergedAt(indexes: seq<map<Key, nat>>, k: Key)
    ensures k in MergedIndex(indexes) <==> exists r | 0 <= r < |indexes| :: k in indexes[r]
    ensures forall r | 0 <= r < |indexes| && k in indexes[r] && (forall q | r < q < |indexes| :: k !in indexes[q]) ::
      MergedIndex(indexes)[k] == indexes[r][k]
  {
    if indexes != [] {
      var n := |indexes| - 1;
      var init := indexes[..n];
      MergedAt(init, k);
      assert forall r | 0 <= r < n :: init[r] == indexes[r];
    }
  }

  /** What one rank has saved: its numbered files, every key of its state dict in the one file its index names. */
  ghost predicate RankSaved<T>(files: seq<SavedFile<T>>, index: map<Key, nat>, merged: map<Key, T>, shards: seq<nat>,
                               r: nat, m: nat)
    requires r < |shards|
  {
    && |files| == Times(shards[r], m)
    && (forall i | 0 <= i < |files| :: files[i].number == FileNumber(Sum(shards[..r]), m, i))
    && index.Keys == merged.Keys && (forall k <- merged :: KeySaved(files, index, k))
    && forall i | 0 <= i < |files| :: forall k <- files[i].tensors :: k in merged && files[i].tensors[k] == merged[k]
  }

  ghost predicate AllSaved<T>(files: seq<seq<SavedFile<T>>>, indexes: seq<map<Key, nat>>, merged: seq<map<Key, T>>,
                              shards: seq<nat>, m: nat) {
    && |files| == |indexes| == |merged| == |shards|
    && forall r | 0 <= r < |shards| :: RankSaved(files[r], indexes[r], merged[r], shards, r, m)
  }

  /** File i of rank r holds the key. */
  ghost predicate HeldBy<T>(files: seq<seq<SavedFile<T>>>, r: nat, i: nat, k: Key) {
    r < |files| && i < |files[r]| && k in files[r][i].tensors
  }

  /** Among the files of all ranks exactly one holds the key: the one that the weight map names. */
  ghost predicate InOneFile<T>(files: seq<seq<SavedFile<T>>>, weightMap: map<Key, nat>, k: Key) {
    && k in weightMap && (exists r: nat, i: nat :: HeldBy(files, r, i, k))
    && forall r: nat, i: nat | r < |files| && i < |files[r]| ::
      HeldBy(files, r, i, k) <==> files[r][i].number == weightMap[k]
  }

  ghost predicate OnOneRank<T>(merged: seq<map<Key, T>>, k: Key) {
    forall r, q | 0 <= r < q < |merged| :: k in merged[r] ==> k !in merged[q]
  }

  lemma HeldOnRank<T>(files: seq<SavedFile<T>>, index: map<Key, nat>, merged: map<Key, T>, shards: seq<nat>, r: nat,
                      m: nat, k: Key)
    returns (i: nat)
    requires r < |shards| && RankSaved(files, index, merged, shards, r, m) && k in merged
    ensures i < |files| && k in files[i].tensors && k in index && index[k] == files[i].number
    ensures files[i].tensors[k] == merged[k]
  {
    assert KeySaved(files, index, k);
    i :| 0 <= i < |files| && k in files[i].tensors;
  }

  lemma NumbersApart<T>(files: seq<seq<SavedFile<T>>>, indexes: seq<map<Key, nat>>, merged: seq<map<Key, T>>,
                        shards: seq<nat>, m: nat, r: nat, i: nat, q: nat, j: nat)
    requires AllSaved(files, indexes, merged, shards, m)
    requires r < |files| && i < |files[r]| && q < |files| && j < |files[q]| && files[r][i].number == files[q][j].number
    ensures r == q && i == j
  {
    hide Times, FileNumber, KeySaved;
    assert RankSaved(files[r], indexes[r], merged[r], shards, r, m)
      && RankSaved(files[q], indexes[q], merged[q], shards, q, m);
    FileNumbersDistinct(shards, m, r, i, q, j);
  }

  /** The last rank that has the key. */
  lemma {:induction false} LastRank<T>(merged: seq<map<Key, T>>, k: Key, r: nat) returns (last: nat)
    requires r < |merged| && k in merged[r]
    ensures r <= last < |merged| && k in merged[last] && forall q | last < q < |merged| :: k !in merged[q]
    decreases |merged| - r
  {
    if q :| r < q < |merged| && k in merged[q] {
      last := LastRank(merged, k, q);
    } else {
      last := r;
    }
  }

  /** The weight map names a file of the last rank that has the key, and that file holds it. */
  lemma NamedFile<T>(files: seq<seq<SavedFile<T>>>, indexes: seq<map<Key, nat>>, merged: seq<map<Key, T>>,
                     shards: seq<nat>, m: nat, k: Key, r: nat)
    returns (last: nat, i: nat)
    requires AllSaved(files, indexes, merged, shards, m) && r < |merged| && k in merged[r]
    ensures r <= last < |files| && i < |files[last]| && HeldBy(files, last, i, k)
    ensures files[last][i].tensors[k] == merged[last][k]
    ensures k in MergedIndex(indexes) && MergedIndex(indexes)[k] == files[last][i].number
    ensures k in merged[last] && forall q | last < q < |merged| :: k !in merged[q]
  {
    hide RankSaved, MergedIndex;
    last := LastRank(merged, k, r);
    assert RankSaved(files[last], indexes[last], merged[last], shards, last, m);
    i := HeldOnRank(files[last], indexes[last], merged[last], shards, last, m, k);
    forall q | 0 <= q < |indexes| ensures k in indexes[q] <==> k in merged[q] {
      assert RankSaved(files[q], indexes[q], merged[q], shards, q, m);
      IndexOf(files[q], indexes[q], merged[q], shards, q, m);
    }
    MergedAt(indexes, k);
  }

  lemma IndexOf<T>(files: seq<SavedFile<T>>, index: map<Key, nat>, merged: map<Key, T>, shards: seq<nat>, r: nat,
                   m: nat)
    requires r < |shards| && RankSaved(files, index, merged, shards, r, m)
    ensures index.Keys == merged.Keys
    ensures forall i | 0 <= i < |files| :: forall k <- files[i].tensors :: k in merged
  {
  }

  /** A key is in exactly one file of the checkpoint, the one of the weight map, exactly when one rank only has it. */
  lemma OneFileIff<T>(files: seq<seq<SavedFile<T>>>, indexes: seq<map<Key, nat>>, merged: seq<map<Key, T>>,
                      shards: seq<nat>, m: nat, k: Key, r: nat)
    requires AllSaved(files, indexes, merged, shards, m) && r < |merged| && k in merged[r]
    ensures InOneFile(files, MergedIndex(indexes), k) <==> OnOneRank(merged, k)
  {
    hide RankSaved, MergedIndex;
    var last, i := NamedFile(files, indexes, merged, shards, m, k, r);
    if OnOneRank(merged, k) {
      forall q: nat, j: nat | q < |files| && j < |files[q]|
        ensures HeldBy(files, q, j, k) <==> files[q][j].number == MergedIndex(indexes)[k]
      {
        OnlyNamed(files, indexes, merged, shards, m, k, last, i, q, j);
      }
    }
    if InOneFile(files, MergedIndex(indexes), k) {
      forall q, p | 0 <= q < p < |merged| && k in merged[q] ensures k !in merged[p] {
        if k in merged[p] {
          assert RankSaved(files[q], indexes[q], merged[q], shards, q, m)
            && RankSaved(files[p], indexes[p], merged[p], shards, p, m);
          var a := HeldOnRank(files[q], indexes[q], merged[q], shards, q, m, k);
          var b := HeldOnRank(files[p], indexes[p], merged[p], shards, p, m, k);
          assert HeldBy(files, q, a, k) && HeldBy(files, p, b, k);
          NumbersApart(files, indexes, merged, shards, m, q, a, p, b);
        }
      }
    }
  }

  lemma OnlyNamed<T>(files: seq<seq<SavedFile<T>>>, indexes: seq<map<Key, nat>>, merged: seq<map<Key, T>>,
                     shards: seq<nat>, m: nat, k: Key, last: nat, i: nat, q: nat, j: nat)
    requires AllSaved(files, indexes, merged, shards, m) && OnOneRank(merged, k)
    requires last < |files| && i < |files[last]| && HeldBy(files, last, i, k) && k in merged[last]
    requires q < |files| && j < |files[q]|
    ensures HeldBy(files, q, j, k) <==> files[q][j].number == files[last][i].number
  {
    assert RankSaved(files[q], indexes[q], merged[q], shards, q, m)
      && RankSaved(files[last], indexes[last], merged[last], shards, last, m);
    if HeldBy(files, q, j, k) {
      IndexOf(files[q], indexes[q], merged[q], shards, q, m);
      assert q == last;
      assert KeySaved(files[last], indexes[last], k);
    }
    if files[q][j].number == files[last][i].number {
      NumbersApart(files, indexes, merged, shards, m, q, j, last, i);
    }
  }

  /**
   The whole save: all ranks write their files and the weight map is merged. Every key of any rank is in the
   weight map, which names a file that holds it, and it is in no other file exactly when one rank only has it.
  */
  method SaveAllRanks<T>(keys: seq<seq<Key>>, merged: seq<map<Key, T>>, pipelineShards: seq<nat>, layerNum: nat)
    returns (files: seq<seq<SavedFile<T>>>, weightMap: map<Key, nat>)
    requires |keys| == |merged| == |pipelineShards|
    requires forall r | 0 <= r < |pipelineShards| ::
      pipelineShards[r] > 0 && DistinctKeys(keys[r]) && Listed(keys[r], merged[r])
    ensures |files| == |pipelineShards|
    ensures forall r | 0 <= r < |files| :: |files[r]| == pipelineShards[r] * if layerNum < 30 then 1 else 2
    ensures forall k: Key :: k in weightMap <==> exists r | 0 <= r < |merged| :: k in merged[r]
    ensures forall k: Key, r | 0 <= r < |merged| && k in merged[r] ::
      InOneFile(files, weightMap, k) <==> OnOneRank(merged, k)
    ensures forall k <- weightMap :: exists r: nat, i: nat ::
      HeldBy(files, r, i, k) && files[r][i].number == weightMap[k] && r < |merged| && k in merged[r]
        && files[r][i].tensors[k] == merged[r][k]
  {
    var m := SavesPerLayer(layerNum);
    files := [];
    var indexes: seq<map<Key, nat>> := [];
    hide DistinctKeys, Listed, RankSaved, Sum, HoldsPart, KeySaved, InOneFile, OnOneRank, HeldBy, MergedIndex;
    for r := 0 to |pipelineShards|
      invariant |files| == |indexes| == r
      invariant forall q | 0 <= q < r :: RankSaved(files[q], indexes[q], merged[q], pipelineShards, q, m)
    {
      var rankFiles, index := SaveRank(keys[r], merged[r], pipelineShards, r, layerNum);
      RankIsSaved(rankFiles, index, merged[r], pipelineShards, r, m);
      files := files + [rankFiles];
      indexes := indexes + [index];
    }
    weightMap := MergeIndexes(indexes);
    SavedMeans(files, indexes, merged, pipelineShards, m);
  }

  /** A key on two ranks, tied embeddings say, is not in exactly one file, the one of the weight map. */
  method SharedKeyNotInOneFile<T>(k: Key, first: T, second: T)
    returns (files: seq<seq<SavedFile<T>>>, weightMap: map<Key, nat>)
    ensures |files| == 2 && k in weightMap && !InOneFile(files, weightMap, k)
  {
    var merged := [map[k := first], map[k := second]];
    hide InOneFile;
    files, weightMap := SaveAllRanks([[k], [k]], merged, [1, 1], 2);
    assert k in merged[0] && k in merged[1];
  }

  lemma RankIsSaved<T>(files: seq<SavedFile<T>>, index: map<Key, nat>, merged: map<Key, T>, shards: seq<nat>, r: nat,
                       m: nat)
    requires r < |shards| && |files| == shards[r] * m
    requires forall i | 0 <= i < |files| :: files[i].number == Sum(shards[..r]) * m + i + 1
    requires index.Keys == merged.Keys && forall k <- merged :: KeySaved(files, index, k)
    requires forall i | 0 <= i < |files| :: forall k <- files[i].tensors ::
      k in merged && files[i].tensors[k] == merged[k]
    ensures RankSaved(files, index, merged, shards, r, m)
  {
    hide KeySaved;
  }

  lemma SavedMeans<T>(files: seq<seq<SavedFile<T>>>, indexes: seq<map<Key, nat>>, merged: seq<map<Key, T>>,
                      shards: seq<nat>, m: nat)
    requires AllSaved(files, indexes, merged, shards, m)
    ensures forall r | 0 <= r < |files| :: |files[r]| == shards[r] * m
    ensures forall k: Key :: k in MergedIndex(indexes) <==> exists r | 0 <= r < |merged| :: k in merged[r]
    ensures forall k: Key, r | 0 <= r < |merged| && k in merged[r] ::
      InOneFile(files, MergedIndex(indexes), k) <==> OnOneRank(merged, k)
    ensures forall k <- MergedIndex(indexes) :: exists r: nat, i: nat ::
      HeldBy(files, r, i, k) && files[r][i].number == MergedIndex(indexes)[k] && r < |merged| && k in merged[r]
      && files[r][i].tensors[k] == merged[r][k]
  {
    hide MergedIndex, KeySaved, InOneFile, OnOneRank, Times, FileNumber;
    forall r | 0 <= r < |files| ensures |files[r]| == shards[r] * m && indexes[r].Keys == merged[r].Keys {
      assert RankSaved(files[r], indexes[r], merged[r], shards, r, m);
      TimesIs(shards[r], m);
    }
    forall k: Key ensures k in MergedIndex(indexes) <==> exists r | 0 <= r < |merged| :: k in merged[r] {
      MergedAt(indexes, k);
      assert forall r | 0 <= r < |merged| :: k in indexes[r] <==> k in merged[r];
    }
    forall k: Key, r | 0 <= r < |merged| && k in merged[r]
      ensures InOneFile(files, MergedIndex(indexes), k) <==> OnOneRank(merged, k)
    {
      OneFileIff(files, indexes, merged, shards, m, k, r);
    }
    forall k <- MergedIndex(indexes) ensures exists r: nat, i: nat ::
      HeldBy(files, r, i, k) && files[r][i].number == MergedIndex(indexes)[k] && r < |merged| && k in merged[r]
      && files[r][i].tensors[k] == merged[r][k]
    {
      var r :| 0 <= r < |merged| && k in merged[r];
      var last, i := NamedFile(files, indexes, merged, shards, m, k, r);
    }
  }

  /** The state dicts that the ranks merge from their model chunks. */
  ghost predicate MergedBy<T>(merged: seq<map<Key, T>>, stages: seq<seq<nat>>, chunks: seq<seq<seq<Entry<T>>>>) {
    && |merged| == |stages| == |chunks|
    && forall r | 0 <= r < |stages| ::
      ChunksAre(chunks[r], stages[r]) && merged[r] == Written(Writes(chunks[r], Sum(StageSizes(stages)[..r])))
  }

  /** When every model chunk has layers, each tensor of a layer is in one file only, the one of the weight map. */
  lemma LayersInOneFile<T>(files: seq<seq<SavedFile<T>>>, indexes: seq<map<Key, nat>>, merged: seq<map<Key, T>>, m: nat,
                           stages: seq<seq<nat>>, chunks: seq<seq<seq<Entry<T>>>>, k: Key, r: nat)
    requires MergedBy(merged, stages, chunks) && AllSaved(files, indexes, merged, StageSizes(stages), m)
    requires forall q, c | 0 <= q < |stages| && 0 <= c < |stages[q]| :: stages[q][c] > 0
    requires r < |merged| && k in merged[r] && k.0.Some?
    ensures InOneFile(files, MergedIndex(indexes), k)
  {
    hide Written, Writes, ChunksAre, AllSaved, MergedIndex, InOneFile;
    forall q, p | 0 <= q < p < |merged| && k in merged[q] ensures k !in merged[p] {
      if k in merged[p] {
        RanksApart(stages, q, chunks[q], p, chunks[p], k);
      }
    }
    OneFileIff(files, indexes, merged, StageSizes(stages), m, k, r);
  }
}
