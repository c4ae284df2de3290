/**
 Padding, splitting, chunking and concatenating batches (verl/verl/protocol.py). A batch has tensors with a
 common number of rows, non-tensor arrays, and meta information; a row is an element of T.
*/
module DataProto {
  import opened Arithmetic
  import opened Weights

  datatype Batch<T> = Batch(size: nat, tensors: map<string, seq<T>>)

  /** A value of a metric; aggregating metrics makes lists of such values. */
  datatype Metric<M> = Item(value: M) | List(items: seq<Metric<M>>)

  type MetricsDict<M> = map<string, Metric<M>>

  /** The "metrics" entry of `meta_info`: no such key, None, one dictionary, or a list of them. */
  datatype Metrics<M> = Absent | Nothing | Single(dict: MetricsDict<M>) | Several(dicts: seq<MetricsDict<M>>)

  /** `meta` is the meta information without "metrics". */
  datatype Data<T, M> =
    Data(batch: Option<Batch<T>>, nonTensor: map<string, seq<T>>, meta: map<string, M>, metrics: Metrics<M>)

  /** `len(data)` is n, and everything in it has n rows. */
  predicate HasLength<T, M>(d: Data<T, M>, n: nat) {
    && (d.batch.Some? ==>
          d.batch.value.size == n && forall k <- d.batch.value.tensors :: |d.batch.value.tensors[k]| == n)
    && (forall k <- d.nonTensor :: |d.nonTensor[k]| == n)
    && (d.batch.None? && d.nonTensor == map[] ==> n == 0)
  }

  // ---------- slices ----------

  /** `s[lo:hi]` for 0 <= lo <= hi, with Python's clamping. */
  function Slice<T>(s: seq<T>, lo: nat, hi: nat): seq<T>
    requires lo <= hi
  {
    s[Min(lo, |s|)..Min(hi, |s|)]
  }

  function SliceAll<T>(m: map<string, seq<T>>, lo: nat, hi: nat): map<string, seq<T>>
    requires lo <= hi
  {
    map k | k in m :: Slice(m[k], lo, hi)
  }

  /** `data[lo:hi]`. */
  function SliceData<T, M>(d: Data<T, M>, lo: nat, hi: nat): Data<T, M>
    requires lo <= hi
  {
    var batch := match d.batch
      case None => None
      case Some(b) => Some(Batch(Min(hi, b.size) - Min(lo, b.size), SliceAll(b.tensors, lo, hi)));
    Data(batch, SliceAll(d.nonTensor, lo, hi), d.meta, d.metrics)
  }

  /** The part has rows lo..hi of every tensor and array, and the same meta information and metrics. */
  ghost predicate RowsOf<T, M>(part: Data<T, M>, d: Data<T, M>, lo: nat, hi: nat) {
    && (part.batch.Some? <==> d.batch.Some?) && part.meta == d.meta && part.metrics == d.metrics && lo <= hi
    && (d.batch.Some? ==>
          && part.batch.value.size == hi - lo && part.batch.value.tensors.Keys == d.batch.value.tensors.Keys
          && forall k <- d.batch.value.tensors ::
            hi <= |d.batch.value.tensors[k]| && part.batch.value.tensors[k] == d.batch.value.tensors[k][lo..hi])
    && part.nonTensor.Keys == d.nonTensor.Keys
    && forall k <- d.nonTensor :: hi <= |d.nonTensor[k]| && part.nonTensor[k] == d.nonTensor[k][lo..hi]
  }

  lemma SliceRows<T, M>(d: Data<T, M>, n: nat, lo: nat, hi: nat)
    requires HasLength(d, n) && lo <= hi <= n
    ensures RowsOf(SliceData(d, lo, hi), d, lo, hi)
  {
  }

  // ---------- concatenation ----------

  /** `torch.cat` or `np.concatenate` of what the parts have under the key. */
  function Cat<T>(parts: seq<map<string, seq<T>>>, k: string): seq<T> {
    if parts == [] then []
    else
      var rest, last := Cat(parts[..|parts| - 1], k), parts[|parts| - 1];
      if k in last then rest + last[k] else rest
  }

  function CatAll<T>(parts: seq<map<string, seq<T>>>, keys: set<string>): map<string, seq<T>> {
    map k | k in keys :: Cat(parts, k)
  }

  function Tensors<T, M>(list: seq<Data<T, M>>): seq<map<string, seq<T>>> {
    seq(|list|, i requires 0 <= i < |list| => if list[i].batch.Some? then list[i].batch.value.tensors else map[])
  }

  function NonTensors<T, M>(list: seq<Data<T, M>>): seq<map<string, seq<T>>> {
    seq(|list|, i requires 0 <= i < |list| => list[i].nonTensor)
  }

  function Size<T, M>(list: seq<Data<T, M>>): nat {
    if list == [] then 0
    else
      var d := list[|list| - 1];
      Size(list[..|list| - 1]) + if d.batch.Some? then d.batch.value.size else 0
  }

  /** The union of the meta information. */
  function Metas<T, M>(list: seq<Data<T, M>>): map<string, M> {
    if list == [] then map[] else Metas(list[..|list| - 1]) + list[|list| - 1].meta
  }

  /** What one part adds to `all_metrics`. */
  function Entries<M>(m: Metrics<M>): seq<MetricsDict<M>> {
    match m
    case Absent => []
    case Nothing => []
    case Single(dict) => [dict]
    case Several(dicts) => dicts
  }

  function AllMetrics<T, M>(list: seq<Data<T, M>>): seq<MetricsDict<M>> {
    if list == [] then [] else AllMetrics(list[..|list| - 1]) + Entries(list[|list| - 1].metrics)
  }

  /** The assertion of `list_of_dict_to_dict_of_list`. */
  predicate FirstHasAllKeys<M>(dicts: seq<MetricsDict<M>>) {
    forall i | 0 <= i < |dicts| :: dicts[i].Keys <= dicts[0].Keys
  }

  function ValuesOf<M>(dicts: seq<MetricsDict<M>>, k: string): seq<Metric<M>> {
    if dicts == [] then []
    else
      var n := |dicts| - 1;
      ValuesOf(dicts[..n], k) + if k in dicts[n] then [dicts[n][k]] else []
  }

  /** `list_of_dict_to_dict_of_list`, when there is something to aggregate. */
  function Aggregated<M>(dicts: seq<MetricsDict<M>>): Metrics<M> {
    if dicts == [] then Absent else Single(map k | k in dicts[0] :: List(ValuesOf(dicts, k)))
  }

  predicate Agree<M(==)>(a: map<string, M>, b: map<string, M>) {
    forall k <- a :: k in b ==> a[k] == b[k]
  }

  predicate MetasAgree<T, M(==)>(list: seq<Data<T, M>>) {
    forall i | 0 <= i < |list| :: Agree(Metas(list[..i]), list[i].meta)
  }

  /** When the first has tensors, all must have the same ones; no later one may have a new non-tensor key. */
  predicate KeysOk<T, M>(list: seq<Data<T, M>>)
    requires list != []
  {
    forall i | 0 <= i < |list| ::
      && (list[0].batch.Some? ==>
            list[i].batch.Some? && list[i].batch.value.tensors.Keys == list[0].batch.value.tensors.Keys)
      && list[i].nonTensor.Keys <= list[0].nonTensor.Keys
  }

  function Joined<T, M>(list: seq<Data<T, M>>): Data<T, M>
    requires list != []
  {
    var batch := if list[0].batch.None? then None
      else Some(Batch(Size(list), CatAll(Tensors(list), list[0].batch.value.tensors.Keys)));
    Data(batch, CatAll(NonTensors(list), list[0].nonTensor.Keys), Metas(list), Aggregated(AllMetrics(list)))
  }

  /** `check_consistency`. */
  predicate Consistent<T, M>(d: Data<T, M>) {
    d.batch.Some? ==> forall k <- d.nonTensor :: |d.nonTensor[k]| == d.batch.value.size
  }

  /** `DataProto.concat`; None where it raises. */
  function Concatenated<T, M(==)>(list: seq<Data<T, M>>): Option<Data<T, M>> {
    if list == [] || !KeysOk(list) || !MetasAgree(list) || !FirstHasAllKeys(AllMetrics(list))
       || !Consistent(Joined(list))
    then None else Some(Joined(list))
  }

  // ---------- consecutive segments ----------

  /** Bounds 0 = b0 <= b1 <= ... = n of m segments. */
  ghost predicate BoundsOk(bounds: seq<nat>, m: nat, n: nat) {
    |bounds| == m + 1 && bounds[0] == 0 && bounds[m] == n && forall i | 0 <= i < m :: StepOk(bounds, i, n)
  }

  ghost predicate StepOk(bounds: seq<nat>, i: nat, n: nat)
    requires i + 1 < |bounds|
  {
    bounds[i] <= bounds[i + 1] <= n
  }

  /** The list cuts d at the bounds. */
  ghost predicate Segments<T, M>(list: seq<Data<T, M>>, d: Data<T, M>, bounds: seq<nat>, n: nat) {
    BoundsOk(bounds, |list|, n) && forall i | 0 <= i < |list| :: IsSegment(list[i], d, bounds, i, n)
  }

  ghost predicate IsSegment<T, M>(part: Data<T, M>, d: Data<T, M>, bounds: seq<nat>, i: nat, n: nat) {
    i + 1 < |bounds| && StepOk(bounds, i, n) && part == SliceData(d, bounds[i], bounds[i + 1])
  }

  ghost predicate IsPart<T>(part: map<string, seq<T>>, k: string, s: seq<T>, bounds: seq<nat>, i: nat) {
    i + 1 < |bounds| && StepOk(bounds, i, |s|) && k in part && part[k] == s[bounds[i]..bounds[i + 1]]
  }

  lemma {:induction false} CatSegments<T>(parts: seq<map<string, seq<T>>>, k: string, s: seq<T>, bounds: seq<nat>,
                                          i: nat)
    requires BoundsOk(bounds, |parts|, |s|) && i <= |parts|
    requires forall j | 0 <= j < |parts| :: IsPart(parts[j], k, s, bounds, j)
    ensures bounds[i] <= |s| && Cat(parts[..i], k) == s[..bounds[i]]
  {
    if i > 0 {
      CatSegments(parts, k, s, bounds, i - 1);
      assert parts[..i][..i - 1] == parts[..i - 1] && parts[..i][i - 1] == parts[i - 1];
      assert IsPart(parts[i - 1], k, s, bounds, i - 1);
      assert s[..bounds[i]] == s[..bounds[i - 1]] + s[bounds[i - 1]..bounds[i]];
    }
  }

  lemma {:induction false} SizeSegments<T, M>(list: seq<Data<T, M>>, d: Data<T, M>, bounds: seq<nat>, n: nat, i: nat)
    requires Segments(list, d, bounds, n) && d.batch.Some? && d.batch.value.size == n && i <= |list|
    ensures Size(list[..i]) == bounds[i]
  {
    hide SliceAll;
    if i > 0 {
      SizeSegments(list, d, bounds, n, i - 1);
      assert list[..i][..i - 1] == list[..i - 1];
      assert IsSegment(list[i - 1], d, bounds, i - 1, n);
    }
  }

  lemma {:induction false} MetaSegments<T, M>(list: seq<Data<T, M>>, meta: map<string, M>, i: nat)
    requires i <= |list| && forall j | 0 <= j < |list| :: list[j].meta == meta
    ensures Metas(list[..i]) == if i == 0 then map[] else meta
  {
    if i > 0 {
      MetaSegments(list, meta, i - 1);
      assert list[..i][..i - 1] == list[..i - 1];
    }
  }

  lemma MetasOfSegments<T, M>(list: seq<Data<T, M>>, d: Data<T, M>, bounds: seq<nat>, n: nat)
    requires list != [] && Segments(list, d, bounds, n)
    ensures MetasAgree(list) && Metas(list) == d.meta
  {
    hide SliceAll;
    assert list[..|list|] == list;
    forall j | 0 <= j < |list| ensures list[j].meta == d.meta {
      assert IsSegment(list[j], d, bounds, j, n);
    }
    forall i | 0 <= i < |list| ensures Agree(Metas(list[..i]), list[i].meta) {
      MetaSegments(list, d.meta, i);
    }
    MetaSegments(list, d.meta, |list|);
  }

  // ---------- aggregated metrics ----------

  function Copies<M>(dicts: seq<MetricsDict<M>>, p: nat): seq<MetricsDict<M>> {
    if p == 0 then [] else Copies(dicts, p - 1) + dicts
  }

  lemma {:induction false} MetricsOfSegments<T, M>(list: seq<Data<T, M>>, metrics: Metrics<M>, i: nat)
    requires i <= |list| && forall j | 0 <= j < |list| :: list[j].metrics == metrics
    ensures AllMetrics(list[..i]) == Copies(Entries(metrics), i)
  {
    if i > 0 {
      MetricsOfSegments(list, metrics, i - 1);
      assert list[..i][..i - 1] == list[..i - 1];
    }
  }

  lemma {:induction false} CopiesAre<M>(dicts: seq<MetricsDict<M>>, p: nat)
    requires p > 0
    ensures Copies(dicts, p) == [] <==> dicts == []
    ensures dicts != [] ==> Copies(dicts, p)[0] == dicts[0]
    ensures forall i | 0 <= i < |Copies(dicts, p)| :: Copies(dicts, p)[i] in dicts
    ensures forall i | 0 <= i < |dicts| :: dicts[i] in Copies(dicts, p)
  {
    if p > 1 {
      CopiesAre(dicts, p - 1);
      var rest := Copies(dicts, p - 1);
      forall i | 0 <= i < |rest + dicts| ensures (rest + dicts)[i] in dicts {
        assert i >= |rest| ==> (rest + dicts)[i] == dicts[i - |rest|];
      }
      forall i | 0 <= i < |dicts| ensures dicts[i] in rest + dicts {
        assert (rest + dicts)[|rest| + i] == dicts[i];
      }
    } else {
      assert Copies(dicts, 1) == Copies(dicts, 0) + dicts == dicts;
    }
  }

  /** Aggregating copies does not fail exactly when aggregating one of them does not. */
  lemma CopiesHaveKeys<M>(dicts: seq<MetricsDict<M>>, p: nat)
    requires p > 0
    ensures FirstHasAllKeys(Copies(dicts, p)) <==> FirstHasAllKeys(dicts)
  {
    CopiesAre(dicts, p);
    var copies := Copies(dicts, p);
    if FirstHasAllKeys(dicts) {
      forall i | 0 <= i < |copies| ensures copies[i].Keys <= copies[0].Keys {
        assert copies[i] in dicts;
        var j :| 0 <= j < |dicts| && dicts[j] == copies[i];
      }
    }
    if FirstHasAllKeys(copies) {
      forall i | 0 <= i < |dicts| ensures dicts[i].Keys <= dicts[0].Keys {
        assert dicts[i] in copies;
        var j :| 0 <= j < |copies| && copies[j] == dicts[i];
      }
    }
  }

  lemma {:induction false} ValuesNonEmpty<M>(dicts: seq<MetricsDict<M>>, k: string)
    requires dicts != [] && k in dicts[0]
    ensures dicts[0][k] in ValuesOf(dicts, k)
  {
    if |dicts| > 1 {
      ValuesNonEmpty(dicts[..|dicts| - 1], k);
    } else {
      assert dicts[..0] == [];
    }
  }

  function Depth<M>(m: Metric<M>): nat {
    match m
    case Item(_) => 0
    case List(items) => 1 + Deepest(items)
  }

  function Deepest<M>(items: seq<Metric<M>>): nat {
    if items == [] then 0
    else
      var rest, last := Deepest(items[..|items| - 1]), Depth(items[|items| - 1]);
      if last > rest then last else rest
  }

  lemma {:induction false} DepthOfItem<M>(items: seq<Metric<M>>, m: Metric<M>)
    requires m in items
    ensures Depth(m) <= Deepest(items)
  {
    var n := |items| - 1;
    if m != items[n] {
      assert items == items[..n] + [items[n]];
      DepthOfItem(items[..n], m);
    }
  }

  /** "metrics" is missing, or an empty dictionary. */
  predicate NoMetrics<M>(m: Metrics<M>) {
    m.Absent? || (m.Single? && m.dict == map[])
  }

  /** Aggregation changes the metrics of the copies unless there are none: every value becomes a list. */
  lemma AggregatedIff<M>(m: Metrics<M>, p: nat)
    requires p > 0
    ensures Aggregated(Copies(Entries(m), p)) == m <==> NoMetrics(m)
    ensures NoMetrics(m) ==> FirstHasAllKeys(Copies(Entries(m), p))
  {
    var copies := Copies(Entries(m), p);
    CopiesAre(Entries(m), p);
    CopiesHaveKeys(Entries(m), p);
    if m.Single? {
      assert copies[0] == m.dict;
      forall k | k in m.dict ensures m.dict[k] != List(ValuesOf(copies, k)) {
        ValuesNonEmpty(copies, k);
        DepthOfItem(ValuesOf(copies, k), m.dict[k]);
      }
      if m.dict != map[] {
        var k :| k in m.dict;
        assert Aggregated(copies).dict[k] == List(ValuesOf(copies, k));
      }
    }
  }

  /** Concatenating consecutive segments of some data restores everything but the metrics, which are aggregated. */
  lemma SegmentsRestore<T, M>(list: seq<Data<T, M>>, d: Data<T, M>, bounds: seq<nat>, n: nat)
    requires list != [] && Segments(list, d, bounds, n) && HasLength(d, n)
    ensures Concatenated(list) ==
      if FirstHasAllKeys(Entries(d.metrics)) then Some(d.(metrics := Aggregated(Copies(Entries(d.metrics), |list|))))
        else None
    ensures Concatenated(list) == Some(d) <==> NoMetrics(d.metrics)
  {
    MetasOfSegments(list, d, bounds, n);
    SegmentMetrics(list, d, bounds, n);
    AggregatedIff(d.metrics, |list|);
    CopiesHaveKeys(Entries(d.metrics), |list|);
    SegmentKeys(list, d, bounds, n);
    SegmentNonTensors(list, d, bounds, n);
    if d.batch.Some? {
      SegmentTensors(list, d, bounds, n);
    }
    hide Segments, CatAll, MetasAgree, KeysOk, Metas, Size, AllMetrics, Aggregated, FirstHasAllKeys, NoMetrics;
    hide Entries, Copies;
    assert Joined(list) == d.(metrics := Aggregated(Copies(Entries(d.metrics), |list|)));
  }

  lemma SegmentMetrics<T, M>(list: seq<Data<T, M>>, d: Data<T, M>, bounds: seq<nat>, n: nat)
    requires Segments(list, d, bounds, n)
    ensures AllMetrics(list) == Copies(Entries(d.metrics), |list|)
  {
    hide SliceAll, Entries;
    forall j | 0 <= j < |list| ensures list[j].metrics == d.metrics {
      assert IsSegment(list[j], d, bounds, j, n);
    }
    MetricsOfSegments(list, d.metrics, |list|);
    assert list[..|list|] == list;
  }

  lemma SegmentKeys<T, M>(list: seq<Data<T, M>>, d: Data<T, M>, bounds: seq<nat>, n: nat)
    requires list != [] && Segments(list, d, bounds, n)
    ensures KeysOk(list) && list[0].nonTensor.Keys == d.nonTensor.Keys && (list[0].batch.Some? <==> d.batch.Some?)
    ensures d.batch.Some? ==> list[0].batch.value.tensors.Keys == d.batch.value.tensors.Keys
  {
    forall i | 0 <= i < |list|
      ensures list[i].nonTensor.Keys == d.nonTensor.Keys && (list[i].batch.Some? <==> d.batch.Some?)
      ensures d.batch.Some? ==> list[i].batch.value.tensors.Keys == d.batch.value.tensors.Keys
    {
      assert IsSegment(list[i], d, bounds, i, n);
      hide Slice;
    }
  }

  lemma SegmentPart<T, M>(list: seq<Data<T, M>>, d: Data<T, M>, bounds: seq<nat>, n: nat, k: string, j: nat)
    requires Segments(list, d, bounds, n) && HasLength(d, n) && d.batch.Some? && k in d.batch.value.tensors
    requires j < |list|
    ensures IsPart(Tensors(list)[j], k, d.batch.value.tensors[k], bounds, j)
  {
    assert IsSegment(list[j], d, bounds, j, n);
    hide Segments;
  }

  lemma SegmentTensor<T, M>(list: seq<Data<T, M>>, d: Data<T, M>, bounds: seq<nat>, n: nat, k: string)
    requires Segments(list, d, bounds, n) && HasLength(d, n) && d.batch.Some? && k in d.batch.value.tensors
    ensures Cat(Tensors(list), k) == d.batch.value.tensors[k]
  {
    hide IsPart, IsSegment;
    var parts := Tensors(list);
    forall j | 0 <= j < |list| ensures IsPart(parts[j], k, d.batch.value.tensors[k], bounds, j) {
      SegmentPart(list, d, bounds, n, k, j);
    }
    CatSegments(parts, k, d.batch.value.tensors[k], bounds, |list|);
    assert parts[..|list|] == parts;
  }

  lemma SegmentTensors<T, M>(list: seq<Data<T, M>>, d: Data<T, M>, bounds: seq<nat>, n: nat)
    requires list != [] && Segments(list, d, bounds, n) && HasLength(d, n) && d.batch.Some?
    ensures Size(list) == n && CatAll(Tensors(list), d.batch.value.tensors.Keys) == d.batch.value.tensors
  {
    SizeSegments(list, d, bounds, n, |list|);
    assert list[..|list|] == list;
    hide Cat, IsSegment, Tensors;
    forall k | k in d.batch.value.tensors ensures Cat(Tensors(list), k) == d.batch.value.tensors[k] {
      SegmentTensor(list, d, bounds, n, k);
    }
  }

  lemma SegmentNonTensors<T, M>(list: seq<Data<T, M>>, d: Data<T, M>, bounds: seq<nat>, n: nat)
    requires list != [] && Segments(list, d, bounds, n) && HasLength(d, n)
    ensures CatAll(NonTensors(list), d.nonTensor.Keys) == d.nonTensor
  {
    assert NonTensors(list)[..|list|] == NonTensors(list);
    forall k | k in d.nonTensor ensures Cat(NonTensors(list), k) == d.nonTensor[k] {
      forall j | 0 <= j < |list| ensures IsPart(NonTensors(list)[j], k, d.nonTensor[k], bounds, j) {
        assert IsSegment(list[j], d, bounds, j, n);
      }
      hide IsPart, Segments;
      CatSegments(NonTensors(list), k, d.nonTensor[k], bounds, |list|);
    }
  }

  // ---------- the loops of concat ----------

  /** `np.concatenate` of the lists that `list_of_dict_to_dict_of_list` makes, or `torch.cat`, key by key. */
  method CatKeys<T>(parts: seq<map<string, seq<T>>>, keys: set<string>) returns (r: map<string, seq<T>>)
    ensures r == CatAll(parts, keys)
  {
    r := map k | k in keys :: [];
    for i := 0 to |parts|
      invariant r == CatAll(parts[..i], keys)
    {
      assert parts[..i + 1][..i] == parts[..i];
      r := map k | k in keys :: if k in parts[i] then r[k] + parts[i][k] else r[k];
    }
    assert parts[..|parts|] == parts;
  }

  /** The merge of the meta information; None on conflicting values. */
  method MergeMetas<T, M(==)>(list: seq<Data<T, M>>) returns (r: Option<map<string, M>>)
    ensures r == if MetasAgree(list) then Some(Metas(list)) else None
  {
    hide Agree, Metas;
    NoMetas<T, M>();
    var merged: map<string, M> := map[];
    for i := 0 to |list|
      invariant merged == Metas(list[..i])
      invariant forall j | 0 <= j < i :: Agree(Metas(list[..j]), list[j].meta)
    {
      MetasStep(list, i);
      if !Agree(merged, list[i].meta) {
        return None;
      }
      merged := merged + list[i].meta;
    }
    assert list[..|list|] == list;
    r := Some(merged);
  }

  lemma NoMetas<T, M>()
    ensures Metas<T, M>([]) == map[]
  {
  }

  lemma MetasStep<T, M>(list: seq<Data<T, M>>, i: nat)
    requires i < |list|
    ensures Metas(list[..i + 1]) == Metas(list[..i]) + list[i].meta
  {
    assert list[..i + 1][..i] == list[..i];
  }

  method CollectMetrics<T, M>(list: seq<Data<T, M>>) returns (all: seq<MetricsDict<M>>)
    ensures all == AllMetrics(list)
  {
    all := [];
    for i := 0 to |list|
      invariant all == AllMetrics(list[..i])
    {
      assert list[..i + 1][..i] == list[..i];
      all := all + Entries(list[i].metrics);
    }
    assert list[..|list|] == list;
  }

  /** The values of each key, in order. */
  function ListsOf<M>(keys: set<string>, dicts: seq<MetricsDict<M>>): map<string, seq<Metric<M>>> {
    map k | k in keys :: ValuesOf(dicts, k)
  }

  function Appended<M>(output: map<string, seq<Metric<M>>>, dict: MetricsDict<M>): map<string, seq<Metric<M>>> {
    map k | k in output :: if k in dict then output[k] + [dict[k]] else output[k]
  }

  lemma ListsBegin<M>(keys: set<string>, dicts: seq<MetricsDict<M>>)
    ensures ListsOf(keys, dicts[..0]) == map k | k in keys :: []
  {
  }

  lemma ListsStep<M>(keys: set<string>, dicts: seq<MetricsDict<M>>, i: nat)
    requires i < |dicts|
    ensures ListsOf(keys, dicts[..i + 1]) == Appended(ListsOf(keys, dicts[..i]), dicts[i])
  {
    var a, b := ListsOf(keys, dicts[..i + 1]), Appended(ListsOf(keys, dicts[..i]), dicts[i]);
    forall k | k in keys ensures a[k] == b[k] {
      ValuesStep(dicts, i, k);
    }
    assert a.Keys == keys && b.Keys == keys;
  }

  lemma ValuesStep<M>(dicts: seq<MetricsDict<M>>, i: nat, k: string)
    requires i < |dicts|
    ensures ValuesOf(dicts[..i + 1], k) == ValuesOf(dicts[..i], k) + if k in dicts[i] then [dicts[i][k]] else []
  {
    assert dicts[..i + 1][..i] == dicts[..i];
  }

  /** `list_of_dict_to_dict_of_list`; None when its assertion fails. */
  method ListOfDictToDictOfList<M>(dicts: seq<MetricsDict<M>>) returns (r: Option<map<string, seq<Metric<M>>>>)
    requires dicts != []
    ensures r == if FirstHasAllKeys(dicts) then Some(ListsOf(dicts[0].Keys, dicts)) else None
  {
    hide ListsOf, Appended;
    var keys := dicts[0].Keys;
    var output: map<string, seq<Metric<M>>> := map k | k in keys :: [];
    ListsBegin(keys, dicts);
    for i := 0 to |dicts|
      invariant forall j | 0 <= j < i :: dicts[j].Keys <= keys
      invariant output == ListsOf(keys, dicts[..i])
    {
      if !(dicts[i].Keys <= keys) {
        assert !FirstHasAllKeys(dicts);
        return None;
      }
      ListsStep(keys, dicts, i);
      output := Appended(output, dicts[i]);
    }
    assert dicts[..|dicts|] == dicts;
    assert FirstHasAllKeys(dicts);
    assert output == ListsOf(dicts[0].Keys, dicts);
    r := Some(output);
  }

  /** The aggregation of the metrics of all parts. */
  method MergeMetrics<T, M>(list: seq<Data<T, M>>) returns (r: Option<Metrics<M>>)
    ensures r == if FirstHasAllKeys(AllMetrics(list)) then Some(Aggregated(AllMetrics(list))) else None
  {
    var all := CollectMetrics(list);
    hide AllMetrics, ValuesOf;
    if all == [] {
      return Some(Absent);
    }
    var lists := ListOfDictToDictOfList(all);
    if lists.None? {
      return None;
    }
    var dict: MetricsDict<M> := map k | k in lists.value :: List(lists.value[k]);
    assert dict == map k | k in all[0] :: List(ListsOf(all[0].Keys, all)[k]);
    assert Single(dict) == Aggregated(all);
    r := Some(Single(dict));
  }

  method Concat<T, M(==)>(list: seq<Data<T, M>>) returns (r: Option<Data<T, M>>)
    ensures r == Concatenated(list)
  {
    if list == [] || !KeysOk(list) {
      return None;
    }
    hide KeysOk, CatAll, MetasAgree, Metas, Tensors, NonTensors, Size, AllMetrics, FirstHasAllKeys, Aggregated;
    var batch := None;
    if list[0].batch.Some? {
      var tensors := CatKeys(Tensors(list), list[0].batch.value.tensors.Keys);
      batch := Some(Batch(Size(list), tensors));
    }
    var nonTensor := CatKeys(NonTensors(list), list[0].nonTensor.Keys);
    var meta := MergeMetas(list);
    if meta.None? {
      return None;
    }
    var metrics := MergeMetrics(list);
    if metrics.None? || !Consistent(Data(batch, nonTensor, meta.value, metrics.value)) {
      return None;
    }
    r := Some(Data(batch, nonTensor, meta.value, metrics.value));
  }

  // ---------- what concatenation gives, for any parts ----------

  /** How many rows each part has under the key. */
  function RowCounts<T>(parts: seq<map<string, seq<T>>>, k: string): seq<nat> {
    seq(|parts|, p requires 0 <= p < |parts| => if k in parts[p] then |parts[p][k]| else 0)
  }

  lemma CatMore<T>(parts: seq<map<string, seq<T>>>, k: string)
    requires parts != []
    ensures var n := |parts| - 1;
      && Cat(parts, k) == Cat(parts[..n], k) + (if k in parts[n] then parts[n][k] else [])
      && RowCounts(parts, k)[..n] == RowCounts(parts[..n], k)
      && RowCounts(parts, k)[n] == if k in parts[n] then |parts[n][k]| else 0
  {
  }

  /** Row j of part p comes after all rows of the parts before it. */
  lemma {:induction false} CatRow<T>(parts: seq<map<string, seq<T>>>, k: string, p: nat, j: nat)
    ensures |Cat(parts, k)| == Sum(RowCounts(parts, k))
    ensures p < |parts| && k in parts[p] && j < |parts[p][k]| ==>
      var at := Sum(RowCounts(parts, k)[..p]) + j;
      at < |Cat(parts, k)| && Cat(parts, k)[at] == parts[p][k][j]
  {
    hide Cat, RowCounts;
    if parts == [] {
      NoRowCounts(parts, k);
    } else {
      var n := |parts| - 1;
      CatMore(parts, k);
      CatRow(parts[..n], k, p, j);
      RowCountsLength(parts, k);
      SumStep(RowCounts(parts, k), n);
      assert RowCounts(parts, k)[..n + 1] == RowCounts(parts, k);
      if p < n && k in parts[p] && j < |parts[p][k]| {
        assert parts[..n][p] == parts[p];
        assert RowCounts(parts, k)[..n][..p] == RowCounts(parts, k)[..p];
      }
    }
  }

  lemma RowCountsLength<T>(parts: seq<map<string, seq<T>>>, k: string)
    ensures |RowCounts(parts, k)| == |parts|
  {
  }

  lemma NoRowCounts<T>(parts: seq<map<string, seq<T>>>, k: string)
    requires parts == []
    ensures Sum(RowCounts(parts, k)) == 0 && Cat(parts, k) == []
  {
  }

  /** The rows of all parts, one part after the other. */
  ghost predicate RowsInOrder<T>(parts: seq<map<string, seq<T>>>, k: string, rows: seq<T>) {
    && |rows| == Sum(RowCounts(parts, k))
    && forall p, j | 0 <= p < |parts| && k in parts[p] && 0 <= j < |parts[p][k]| :: RowAt(parts, k, rows, p, j)
  }

  ghost predicate RowAt<T>(parts: seq<map<string, seq<T>>>, k: string, rows: seq<T>, p: nat, j: nat)
    requires p < |parts| && k in parts[p] && j < |parts[p][k]|
  {
    p <= |RowCounts(parts, k)|
    && var at := Sum(RowCounts(parts, k)[..p]) + j; at < |rows| && rows[at] == parts[p][k][j]
  }

  lemma CatRows<T>(parts: seq<map<string, seq<T>>>, k: string)
    ensures RowsInOrder(parts, k, Cat(parts, k))
  {
    CatRow(parts, k, 0, 0);
    RowCountsLength(parts, k);
    hide Cat, RowCounts;
    forall p, j | 0 <= p < |parts| && k in parts[p] && 0 <= j < |parts[p][k]|
      ensures RowAt(parts, k, Cat(parts, k), p, j)
    {
      CatRow(parts, k, p, j);
    }
  }

  lemma NoMetasYet<T, M>(list: seq<Data<T, M>>)
    ensures Metas(list[..0]) == map[]
  {
  }

  /** The merged meta information has every key of every part, with the value it has there when all agree. */
  lemma {:induction false} MetasAre<T, M>(list: seq<Data<T, M>>, n: nat, k: string)
    requires n <= |list|
    ensures k in Metas(list[..n]) <==> exists p | 0 <= p < n :: k in list[p].meta
    ensures MetasAgree(list) ==> forall p | 0 <= p < n && k in list[p].meta ::
      k in Metas(list[..n]) && Metas(list[..n])[k] == list[p].meta[k]
  {
    hide Metas;
    NoMetasYet(list);
    if n > 0 {
      MetasAre(list, n - 1, k);
      MetasStep(list, n - 1);
      assert MetasAgree(list) ==> Agree(Metas(list[..n - 1]), list[n - 1].meta);
    }
  }

  /** No two parts have different values under one key. */
  ghost predicate NoConflict<T, M>(list: seq<Data<T, M>>) {
    forall p, q, k | 0 <= p < q < |list| && k in list[p].meta && k in list[q].meta :: list[p].meta[k] == list[q].meta[k]
  }

  lemma {:induction false} LastValue<T, M>(list: seq<Data<T, M>>, n: nat, k: string) returns (p: nat)
    requires n <= |list| && k in Metas(list[..n])
    ensures p < n && k in list[p].meta && Metas(list[..n])[k] == list[p].meta[k]
  {
    hide Metas;
    NoMetasYet(list);
    if n > 0 {
      MetasStep(list, n - 1);
      if k in list[n - 1].meta {
        p := n - 1;
      } else {
        p := LastValue(list, n - 1, k);
      }
    }
  }

  lemma ConflictIff<T, M>(list: seq<Data<T, M>>)
    ensures MetasAgree(list) <==> NoConflict(list)
  {
    hide Metas;
    if MetasAgree(list) {
      forall p, q, k | 0 <= p < q < |list| && k in list[p].meta && k in list[q].meta
        ensures list[p].meta[k] == list[q].meta[k]
      {
        MetasAre(list, q, k);
        assert Agree(Metas(list[..q]), list[q].meta);
      }
    }
    if NoConflict(list) {
      forall q | 0 <= q < |list| ensures Agree(Metas(list[..q]), list[q].meta) {
        forall k <- Metas(list[..q]) ensures k in list[q].meta ==> Metas(list[..q])[k] == list[q].meta[k] {
          var p := LastValue(list, q, k);
        }
      }
    }
  }

  /** What each part adds to the metrics, whatever form its entry has, comes after what the parts before it add. */
  lemma {:induction false} MetricsInOrder<T, M>(list: seq<Data<T, M>>, n: nat)
    requires n < |list|
    ensures AllMetrics(list[..0]) == []
    ensures AllMetrics(list[..n + 1]) == AllMetrics(list[..n]) +
      match list[n].metrics
      case Absent => []
      case Nothing => []
      case Single(dict) => [dict]
      case Several(dicts) => dicts
  {
    assert list[..n + 1][..n] == list[..n];
  }

  /**
   The concatenation of any parts: the rows of all parts, one after the other, under every key of the first; the
   meta information of all; the metrics of all, as lists.
  */
  ghost predicate ConcatIs<T, M>(list: seq<Data<T, M>>, r: Data<T, M>)
    requires list != []
  {
    && (r.batch.Some? <==> list[0].batch.Some?)
    && (list[0].batch.Some? ==>
          && r.batch.value.size == Size(list)
          && r.batch.value.tensors.Keys == list[0].batch.value.tensors.Keys
          && forall k <- r.batch.value.tensors :: RowsInOrder(Tensors(list), k, r.batch.value.tensors[k]))
    && r.nonTensor.Keys == list[0].nonTensor.Keys
    && (forall k <- r.nonTensor :: RowsInOrder(NonTensors(list), k, r.nonTensor[k]))
    && (forall k: string :: k in r.meta <==> exists p | 0 <= p < |list| :: k in list[p].meta)
    && (forall p, k | 0 <= p < |list| && k in list[p].meta :: k in r.meta && r.meta[k] == list[p].meta[k])
  }

  lemma ConcatenatedIs<T, M>(list: seq<Data<T, M>>)
    requires Concatenated(list).Some?
    ensures ConcatIs(list, Concatenated(list).value) && NoConflict(list)
  {
    hide Cat, Metas, RowsInOrder, Tensors, NonTensors, Size, Aggregated, AllMetrics;
    ConflictIff(list);
    assert list[..|list|] == list;
    forall k: string
      ensures RowsInOrder(Tensors(list), k, Cat(Tensors(list), k))
      ensures RowsInOrder(NonTensors(list), k, Cat(NonTensors(list), k))
      ensures k in Metas(list) <==> exists p | 0 <= p < |list| :: k in list[p].meta
      ensures forall p | 0 <= p < |list| && k in list[p].meta :: k in Metas(list) && Metas(list)[k] == list[p].meta[k]
    {
      CatRows(Tensors(list), k);
      CatRows(NonTensors(list), k);
      MetasAre(list, |list|, k);
    }
  }

  /** A list of two metric dictionaries from one part, and one dictionary from the next. */
  lemma NestedMetrics<T, M>(a: Data<T, M>, b: Data<T, M>, k: string, u: Metric<M>, v: Metric<M>, w: Metric<M>)
    requires a.metrics == Several([map[k := u], map[k := v]]) && b.metrics == Single(map[k := w])
    ensures Aggregated(AllMetrics([a, b])) == Single(map[k := List([u, v, w])])
  {
    hide AllMetrics, ValuesOf;
    TwoParts(a, b, [map[k := u], map[k := v]], map[k := w]);
    var dicts := [map[k := u], map[k := v], map[k := w]];
    assert [map[k := u], map[k := v]] + [map[k := w]] == dicts;
    ThreeValues(dicts, k, u, v, w);
    ListedOne(dicts, k, [u, v, w]);
  }

  lemma TwoParts<T, M>(a: Data<T, M>, b: Data<T, M>, dicts: seq<MetricsDict<M>>, dict: MetricsDict<M>)
    requires a.metrics == Several(dicts) && b.metrics == Single(dict)
    ensures AllMetrics([a, b]) == dicts + [dict]
  {
    hide AllMetrics;
    MetricsInOrder([a, b], 0);
    MetricsInOrder([a, b], 1);
    assert [a, b][..2] == [a, b];
  }

  lemma ListedOne<M>(dicts: seq<MetricsDict<M>>, k: string, values: seq<Metric<M>>)
    requires dicts != [] && dicts[0].Keys == {k} && ValuesOf(dicts, k) == values
    ensures Aggregated(dicts) == Single(map[k := List(values)])
  {
    hide ValuesOf;
    var dict: MetricsDict<M> := map x | x in dicts[0] :: List(ValuesOf(dicts, x));
    assert dict == map[k := List(values)];
  }

  lemma ThreeValues<M>(dicts: seq<MetricsDict<M>>, k: string, u: Metric<M>, v: Metric<M>, w: Metric<M>)
    requires dicts == [map[k := u], map[k := v], map[k := w]]
    ensures ValuesOf(dicts, k) == [u, v, w]
  {
    hide ValuesOf;
    NoValues(dicts, k);
    ValuesStep(dicts, 0, k);
    ValuesStep(dicts, 1, k);
    ValuesStep(dicts, 2, k);
    assert dicts[..3] == dicts;
  }

  lemma NoValues<M>(dicts: seq<MetricsDict<M>>, k: string)
    ensures ValuesOf(dicts[..0], k) == []
  {
  }

  // ---------- padding ----------

  /** m rows, row i of which is row i mod |s|. */
  function Cycle<T>(s: seq<T>, m: nat): (r: seq<T>)
    requires s != [] || m == 0
    ensures |r| == m
  {
    seq(m, i requires 0 <= i < m => s[i % |s|])
  }

  function CycleAll<T>(t: map<string, seq<T>>, m: nat): map<string, seq<T>>
    requires m == 0 || forall k <- t :: t[k] != []
  {
    map k | k in t :: Cycle(t[k], m)
  }

  /** The data extended to m rows by starting over from its first row. */
  function CycleData<T, M>(d: Data<T, M>, n: nat, m: nat): Data<T, M>
    requires HasLength(d, n) && (n > 0 || m == 0)
  {
    var batch := match d.batch
      case None => None
      case Some(b) => Some(Batch(m, CycleAll(b.tensors, m)));
    Data(batch, CycleAll(d.nonTensor, m), d.meta, d.metrics)
  }

  /** r has m rows, of which row i is row i mod n of the n rows of d. */
  ghost predicate RowsRepeat<T, M>(r: Data<T, M>, d: Data<T, M>, n: nat, m: nat) {
    && (r.batch.Some? <==> d.batch.Some?) && r.meta == d.meta && (n > 0 || m == 0)
    && (d.batch.Some? ==>
          && r.batch.value.size == m && r.batch.value.tensors.Keys == d.batch.value.tensors.Keys
          && forall k <- d.batch.value.tensors :: Repeats(r.batch.value.tensors[k], d.batch.value.tensors[k], n, m))
    && r.nonTensor.Keys == d.nonTensor.Keys
    && forall k <- d.nonTensor :: Repeats(r.nonTensor[k], d.nonTensor[k], n, m)
  }

  ghost predicate Repeats<T>(r: seq<T>, s: seq<T>, n: nat, m: nat)
    requires n > 0 || m == 0
  {
    |r| == m && |s| == n && forall i | 0 <= i < m :: r[i] == s[i % n]
  }

  lemma CycleRows<T, M>(d: Data<T, M>, n: nat, m: nat)
    requires HasLength(d, n) && (n > 0 || m == 0)
    ensures RowsRepeat(CycleData(d, n, m), d, n, m)
  {
  }

  lemma CycleLength<T, M>(d: Data<T, M>, n: nat, m: nat)
    requires HasLength(d, n) && n > 0
    ensures HasLength(CycleData(d, n, m), m)
  {
  }

  lemma CycleOf<T>(s: seq<T>, m: nat, from: nat, to: nat)
    requires s != [] && from % |s| == 0 && from <= to <= m && to - from <= |s|
    ensures Slice(Cycle(s, m), from, to) == Slice(s, 0, to - from)
  {
    var l, r := Slice(Cycle(s, m), from, to), Slice(s, 0, to - from);
    forall i: nat | i < to - from ensures l[i] == r[i] {
      if i < |s| {
        MultiplePlus(from, |s|, i);
      }
    }
  }

  /** A slice of the cycle that starts at a multiple of n is a slice of the data from its first row. */
  lemma CycleSegment<T, M>(d: Data<T, M>, n: nat, m: nat, from: nat, to: nat)
    requires HasLength(d, n) && n > 0 && from % n == 0 && from <= to <= m && to - from <= n
    ensures SliceData(CycleData(d, n, m), from, to) == SliceData(d, 0, to - from)
  {
    CycleSlices(d.nonTensor, n, m, from, to);
    if d.batch.Some? {
      CycleSlices(d.batch.value.tensors, n, m, from, to);
    }
    hide SliceAll, CycleAll;
  }

  lemma CycleSlices<T>(t: map<string, seq<T>>, n: nat, m: nat, from: nat, to: nat)
    requires n > 0 && (forall k <- t :: |t[k]| == n) && from % n == 0 && from <= to <= m && to - from <= n
    ensures SliceAll(CycleAll(t, m), from, to) == SliceAll(t, 0, to - from)
  {
    hide Slice, Cycle;
    forall k | k in t ensures Slice(Cycle(t[k], m), from, to) == Slice(t[k], 0, to - from) {
      CycleOf(t[k], m, from, to);
    }
  }

  lemma WholeSlice<T, M>(d: Data<T, M>, n: nat)
    requires HasLength(d, n)
    ensures SliceData(d, 0, n) == d
  {
    SliceSelf(d.nonTensor, n);
    if d.batch.Some? {
      SliceSelf(d.batch.value.tensors, n);
    }
  }

  /** The loop that collects the padding: the data and the parts of it that follow make up the cycle. */
  method PaddingProtos<T, M>(data: Data<T, M>, n: nat, padSize: nat)
    returns (protos: seq<Data<T, M>>, ghost bounds: seq<nat>)
    requires HasLength(data, n) && n > 0
    ensures Segments([data] + protos, CycleData(data, n, n + padSize), bounds, n + padSize)
  {
    hide CycleData, SliceData, HasLength, PartialSegments;
    protos := [];
    var remaining := padSize;
    bounds := [0, n];
    ghost var m := n + padSize;
    FirstSegment(data, n, m);
    DivUnique(n, n, 1, 0);
    assert [data] + protos == [data];
    while remaining > 0
      invariant 0 <= remaining <= padSize && |bounds| == |protos| + 2 && bounds[|protos| + 1] == m - remaining
      invariant remaining > 0 ==> (m - remaining) % n == 0
      invariant PartialSegments([data] + protos, CycleData(data, n, m), bounds, m)
    {
      var take := Min(remaining, n);
      ghost var from := m - remaining;
      CycleSegment(data, n, m, from, from + take);
      AddSegment([data] + protos, CycleData(data, n, m), bounds, m, SliceData(data, 0, take), from + take);
      assert [data] + (protos + [SliceData(data, 0, take)]) == ([data] + protos) + [SliceData(data, 0, take)];
      MultiplePlus(from, n, 0);
      protos := protos + [SliceData(data, 0, take)];
      bounds := bounds + [from + take];
      remaining := remaining - take;
    }
    AllSegments([data] + protos, CycleData(data, n, m), bounds, m);
  }

  /**
   `pad_dataproto_to_divisor`, where n is `len(data)`: row i of the result is row i mod n. Where rows are added
   the metrics are aggregated, which is the only thing that can fail, and changes nothing when there are none.
  */
  method PadToDivisor<T, M(==)>(data: Data<T, M>, n: nat, divisor: nat) returns (r: Option<Data<T, M>>, padSize: nat)
    requires HasLength(data, n) && divisor > 0
    ensures padSize < divisor && (n + padSize) % divisor == 0 && (n == 0 ==> padSize == 0)
    ensures r.None? <==> padSize > 0 && !FirstHasAllKeys(Entries(data.metrics))
    ensures r.Some? ==> r.value.(metrics := data.metrics) == CycleData(data, n, n + padSize)
    ensures r.Some? ==> RowsRepeat(r.value, data, n, n + padSize)
    ensures r == Some(CycleData(data, n, n + padSize)) <==> padSize == 0 || NoMetrics(data.metrics)
  {
    hide CycleData, Concatenated, HasLength, FirstHasAllKeys, NoMetrics, Entries, Segments;
    hide RowsRepeat;
    PadSize(n, divisor);
    if n % divisor == 0 {
      CycleWhole(data, n);
      CycleRows(data, n, n);
      return Some(data), 0;
    }
    padSize := divisor - n % divisor;
    CycleRows(data, n, n + padSize);
    var protos, bounds := PaddingProtos(data, n, padSize);
    PaddedMeans(data, n, padSize, [data] + protos, bounds);
    r := Concat([data] + protos);
    if r.Some? {
      OtherMetrics(r.value, data, n, n + padSize);
    }
  }

  lemma PadSize(n: nat, divisor: nat)
    requires divisor > 0
    ensures n == 0 ==> n % divisor == 0
    ensures 0 < divisor - n % divisor <= divisor && (n + (divisor - n % divisor)) % divisor == 0
  {
    DivUnique(0, divisor, 0, 0);
    RoundUp(n, divisor);
  }

  lemma PaddedMeans<T, M>(d: Data<T, M>, n: nat, padSize: nat, list: seq<Data<T, M>>, bounds: seq<nat>)
    requires HasLength(d, n) && n > 0 && list != [] && Segments(list, CycleData(d, n, n + padSize), bounds, n + padSize)
    ensures Concatenated(list).None? <==> !FirstHasAllKeys(Entries(d.metrics))
    ensures Concatenated(list).Some? ==> Concatenated(list).value.(metrics := d.metrics) == CycleData(d, n, n + padSize)
    ensures Concatenated(list) == Some(CycleData(d, n, n + padSize)) <==> NoMetrics(d.metrics)
  {
    CycleLength(d, n, n + padSize);
    CycleMetrics(d, n, n + padSize);
    hide CycleData, Concatenated, HasLength, FirstHasAllKeys, NoMetrics, Entries, Aggregated, Segments;
    SegmentsRestore(list, CycleData(d, n, n + padSize), bounds, n + padSize);
  }

  lemma OtherMetrics<T, M>(r: Data<T, M>, d: Data<T, M>, n: nat, m: nat)
    requires RowsRepeat(r.(metrics := d.metrics), d, n, m)
    ensures RowsRepeat(r, d, n, m)
  {
  }

  lemma CycleMetrics<T, M>(d: Data<T, M>, n: nat, m: nat)
    requires HasLength(d, n) && (n > 0 || m == 0)
    ensures CycleData(d, n, m).metrics == d.metrics
  {
  }

  lemma CycleWhole<T, M>(d: Data<T, M>, n: nat)
    requires HasLength(d, n)
    ensures CycleData(d, n, n) == d
  {
    CycleSelf(d.nonTensor, n);
    if d.batch.Some? {
      CycleSelf(d.batch.value.tensors, n);
    }
  }

  lemma CycleSelf<T>(t: map<string, seq<T>>, n: nat)
    requires forall k <- t :: |t[k]| == n
    ensures CycleAll(t, n) == t
  {
    hide Cycle;
    forall k | k in t ensures Cycle(t[k], n) == t[k] {
      CycleOnce(t[k]);
    }
  }

  lemma CycleOnce<T>(s: seq<T>)
    ensures Cycle(s, |s|) == s
  {
    forall i | 0 <= i < |s| ensures Cycle(s, |s|)[i] == s[i] {
      DivUnique(i, |s|, 0, i);
    }
  }

  lemma SliceSelf<T>(t: map<string, seq<T>>, n: nat)
    requires forall k <- t :: |t[k]| == n
    ensures SliceAll(t, 0, n) == t
  {
    forall k | k in t ensures Slice(t[k], 0, n) == t[k] {
    }
  }

  /** Segments up to the last bound, which need not be n yet. */
  ghost predicate PartialSegments<T, M>(list: seq<Data<T, M>>, d: Data<T, M>, bounds: seq<nat>, n: nat) {
    && |bounds| == |list| + 1 && bounds[0] == 0
    && (forall i | 0 <= i < |list| :: StepOk(bounds, i, n))
    && forall i | 0 <= i < |list| :: IsSegment(list[i], d, bounds, i, n)
  }

  lemma FirstSegment<T, M>(d: Data<T, M>, n: nat, m: nat)
    requires HasLength(d, n) && 0 < n <= m
    ensures PartialSegments([d], CycleData(d, n, m), [0, n], m)
  {
    hide CycleData, SliceData;
    CycleSegment(d, n, m, 0, n);
    WholeSlice(d, n);
  }

  lemma AddSegment<T, M>(list: seq<Data<T, M>>, d: Data<T, M>, bounds: seq<nat>, n: nat, part: Data<T, M>, to: nat)
    requires PartialSegments(list, d, bounds, n) && bounds[|list|] <= to <= n
    requires part == SliceData(d, bounds[|list|], to)
    ensures PartialSegments(list + [part], d, bounds + [to], n)
  {
    hide SliceData;
    var bounds', list' := bounds + [to], list + [part];
    forall i | 0 <= i < |list'| ensures StepOk(bounds', i, n) && IsSegment(list'[i], d, bounds', i, n) {
      if i < |list| {
        assert StepOk(bounds, i, n) && IsSegment(list[i], d, bounds, i, n);
      }
    }
  }

  lemma AllSegments<T, M>(list: seq<Data<T, M>>, d: Data<T, M>, bounds: seq<nat>, n: nat)
    requires PartialSegments(list, d, bounds, n) && bounds[|list|] == n
    ensures Segments(list, d, bounds, n)
  {
  }

  /** `unpad_dataproto`, where n is `len(data)`. */
  function Unpad<T, M>(data: Data<T, M>, n: nat, padSize: nat): Data<T, M>
    requires padSize <= n
  {
    if padSize != 0 then SliceData(data, 0, n - padSize) else data
  }

  /** Unpadding gives back the rows that were padded. */
  lemma UnpadRestores<T, M>(d: Data<T, M>, n: nat, padSize: nat)
    requires HasLength(d, n) && (n > 0 || padSize == 0)
    ensures Unpad(CycleData(d, n, n + padSize), n + padSize, padSize) == d
  {
    hide CycleData, SliceData, HasLength;
    if padSize == 0 {
      CycleWhole(d, n);
    } else {
      CycleSegment(d, n, n + padSize, 0, n);
      WholeSlice(d, n);
    }
  }

  // ---------- split and chunk ----------

  /** `split`: slices of k rows from row i on, where n is `len(data)`. */
  function Split<T, M>(data: Data<T, M>, n: nat, k: nat, i: nat): seq<Data<T, M>>
    requires k > 0
    decreases if i < n then n - i else 0
  {
    if i >= n then [] else [SliceData(data, i, i + k)] + Split(data, n, k, i + k)
  }

  lemma SliceClamped<T, M>(d: Data<T, M>, n: nat, lo: nat, hi: nat)
    requires HasLength(d, n) && lo <= n <= hi
    ensures SliceData(d, lo, hi) == SliceData(d, lo, n)
  {
    assert SliceAll(d.nonTensor, lo, hi) == SliceAll(d.nonTensor, lo, n);
    if d.batch.Some? {
      assert SliceAll(d.batch.value.tensors, lo, hi) == SliceAll(d.batch.value.tensors, lo, n);
    }
  }

  /** Piece j has rows j * k to (j + 1) * k, or to the end. */
  lemma {:induction false} SplitPieces<T, M>(d: Data<T, M>, n: nat, k: nat, i: nat, j: nat)
    requires HasLength(d, n) && k > 0 && i <= n
    ensures |Split(d, n, k, i)| == Ceil(n - i, k)
    ensures j < |Split(d, n, k, i)| ==>
      i + j * k <= n && RowsOf(Split(d, n, k, i)[j], d, i + j * k, Min(i + (j + 1) * k, n))
    decreases n - i
  {
    hide HasLength, SliceData, RowsOf, Ceil;
    PieceShift(j, k);
    if i == n {
      NoPieces(k);
    } else {
      if i + k >= n {
        SliceClamped(d, n, i, i + k);
        OnePiece(n - i, k);
        assert Split(d, n, k, i + k) == [] && Split(d, n, k, i) == [SliceData(d, i, i + k)];
        SliceRows(d, n, i, n);
      } else {
        SplitPieces(d, n, k, i + k, if j > 0 then j - 1 else 0);
        CeilLess(n - i, k);
        SliceRows(d, n, i, i + k);
      }
    }
  }

  lemma PieceShift(j: nat, k: nat)
    ensures if j == 0 then j * k == 0 && (j + 1) * k == k
      else (j - 1) * k + k == j * k && j * k + k == (j + 1) * k
  {
  }

  lemma NoPieces(k: nat)
    requires k > 0
    ensures Ceil(0, k) == 0
  {
    DivUnique(k - 1, k, 0, k - 1);
  }

  lemma OnePiece(a: nat, k: nat)
    requires 0 < a <= k
    ensures Ceil(a, k) == 1
  {
    DivUnique(a + k - 1, k, 1, a - 1);
  }

  /** What has been cut off so far, followed by the split of the rest, are segments of the data. */
  lemma {:induction false} SplitSegments<T, M>(d: Data<T, M>, n: nat, k: nat, i: nat, before: seq<Data<T, M>>,
                                               bounds: seq<nat>)
    returns (all: seq<nat>)
    requires HasLength(d, n) && k > 0 && i <= n && PartialSegments(before, d, bounds, n) && bounds[|before|] == i
    ensures Segments(before + Split(d, n, k, i), d, all, n)
    decreases n - i
  {
    hide HasLength, SliceData;
    if i == n {
      assert before + Split(d, n, k, i) == before;
      AllSegments(before, d, bounds, n);
      all := bounds;
    } else {
      var part, to := SliceData(d, i, i + k), Min(i + k, n);
      if i + k >= n {
        SliceClamped(d, n, i, i + k);
      }
      AddSegment(before, d, bounds, n, part, to);
      SplitEnds(d, n, k, i + k, to);
      assert before + Split(d, n, k, i) == (before + [part]) + Split(d, n, k, i + k);
      all := SplitSegments(d, n, k, to, before + [part], bounds + [to]);
    }
  }

  lemma SplitEnds<T, M>(d: Data<T, M>, n: nat, k: nat, i: nat, i': nat)
    requires k > 0 && (i == i' || (i >= n && i' >= n))
    ensures Split(d, n, k, i) == Split(d, n, k, i')
  {
  }

  /**
   Concatenating the splits restores the data, for any split size, exactly when there is a row to split and
   no metrics to aggregate.
  */
  lemma SplitConcat<T, M>(d: Data<T, M>, n: nat, k: nat)
    requires HasLength(d, n) && k > 0
    ensures Concatenated(Split(d, n, k, 0)) == Some(d) <==> n > 0 && NoMetrics(d.metrics)
    ensures n == 0 ==> Concatenated(Split(d, n, k, 0)).None?
    ensures n > 0 && FirstHasAllKeys(Entries(d.metrics)) ==>
      Concatenated(Split(d, n, k, 0)).Some? && Concatenated(Split(d, n, k, 0)).value.(metrics := d.metrics) == d
  {
    if n > 0 {
      var bounds: seq<nat> := [0];
      var none: seq<Data<T, M>> := [];
      assert PartialSegments(none, d, bounds, n);
      var all := SplitSegments(d, n, k, 0, none, bounds);
      assert none + Split(d, n, k, 0) == Split(d, n, k, 0);
      hide Concatenated, Segments, Entries, Aggregated, FirstHasAllKeys, NoMetrics, HasLength;
      SegmentsRestore(Split(d, n, k, 0), d, all, n);
    }
  }

  // ---------- chunk ----------

  /**
   Where chunk i starts: the tensors' library cuts after every ceil(n / chunks) rows, and other arrays are cut at
   the same places; without tensors `np.array_split` cuts as evenly as possible.
  */
  function ChunkStart<T, M>(data: Data<T, M>, n: nat, chunks: nat, i: nat): nat
    requires chunks > 0 && i <= chunks
  {
    if data.batch.Some? then Min(i * Ceil(n, chunks), n) else PartStart(n, chunks, i)
  }

  /** How many pieces of tensors that gives. */
  function Pieces(n: nat, chunks: nat): nat
    requires chunks > 0 && n > 0
  {
    CeilPositive(n, chunks);
    Ceil(n, Ceil(n, chunks))
  }

  lemma ChunkBounds<T, M>(data: Data<T, M>, n: nat, chunks: nat, i: nat)
    requires chunks > 0 && i < chunks
    ensures ChunkStart(data, n, chunks, i) <= ChunkStart(data, n, chunks, i + 1) <= n
  {
    if data.batch.Some? {
      MulMono(i, i + 1, Ceil(n, chunks));
    } else {
      PartBounds(n, chunks, i);
    }
  }

  lemma ChunkEnds<T, M>(data: Data<T, M>, n: nat, chunks: nat)
    requires chunks > 0
    ensures ChunkStart(data, n, chunks, 0) == 0 && ChunkStart(data, n, chunks, chunks) == n
  {
    CeilBounds(n, chunks);
    PartStartEnds(n, chunks);
    assert chunks * Ceil(n, chunks) == Ceil(n, chunks) * chunks;
  }

  function Chunks<T, M>(data: Data<T, M>, n: nat, chunks: nat): seq<Data<T, M>>
    requires chunks > 0
  {
    seq(chunks, i requires 0 <= i < chunks =>
      ChunkBounds(data, n, chunks, i);
      SliceData(data, ChunkStart(data, n, chunks, i), ChunkStart(data, n, chunks, i + 1)))
  }

  /** The tensors give as many pieces as were asked for exactly when all but the last chunk can be full. */
  lemma PiecesIff(n: nat, chunks: nat)
    requires chunks > 0 && n > 0
    ensures Pieces(n, chunks) == chunks <==> (chunks - 1) * Ceil(n, chunks) < n
  {
    CeilPositive(n, chunks);
    var size := Ceil(n, chunks);
    CeilBounds(n, chunks);
    CeilBounds(n, size);
    var p := Pieces(n, chunks);
    assert p * size == (p - 1) * size + size;
    assert size * chunks == chunks * size == (chunks - 1) * size + size;
    if p < chunks {
      MulMono(p, chunks - 1, size);
    } else if p > chunks {
      MulMono(chunks, p - 1, size);
    }
  }

  /** An even cut is the same for both libraries, and it gives all the pieces. */
  lemma EvenChunks<T, M>(data: Data<T, M>, n: nat, chunks: nat, i: nat)
    requires chunks > 0 && n % chunks == 0 && i <= chunks
    ensures ChunkStart(data, n, chunks, i) == i * (n / chunks)
    ensures n > 0 ==> Pieces(n, chunks) == chunks
  {
    var q := n / chunks;
    assert n == q * chunks;
    DivUnique(n + chunks - 1, chunks, q, chunks - 1);
    assert Ceil(n, chunks) == q;
    assert q * chunks == chunks * q == (chunks - 1) * q + q;
    MulMono(i, chunks, q);
    if n > 0 {
      PiecesIff(n, chunks);
    }
  }

  /**
   The rows of each chunk: with tensors ceil(n / chunks) in all but the last, which has at least one; without,
   the first n % chunks have one more than the others.
  */
  lemma ChunkRows<T, M>(data: Data<T, M>, n: nat, chunks: nat, i: nat)
    requires chunks > 0 && i < chunks && (data.batch.Some? ==> n > 0 && Pieces(n, chunks) == chunks)
    ensures var rows := ChunkStart(data, n, chunks, i + 1) - ChunkStart(data, n, chunks, i);
      if data.batch.None? then rows == n / chunks + if i < n % chunks then 1 else 0
      else if i < chunks - 1 then rows == Ceil(n, chunks) else 0 < rows <= Ceil(n, chunks)
  {
    if data.batch.None? {
      PartStartStep(n, chunks, i);
    } else {
      PiecesIff(n, chunks);
      ChunkEnds(data, n, chunks);
      var size := Ceil(n, chunks);
      assert (i + 1) * size == i * size + size;
      MulMono(i, chunks - 1, size);
      if i < chunks - 1 {
        MulMono(i + 1, chunks - 1, size);
      }
    }
  }

  /**
   `chunk`, where n is `len(data)` and `padding` tells whether automatic padding is enabled; None when an
   assertion or an index fails. Zero rows of tensors are the library's business.
  */
  method Chunk<T, M>(data: Data<T, M>, n: nat, chunks: nat, padding: bool) returns (r: Option<seq<Data<T, M>>>)
    requires HasLength(data, n) && chunks > 0 && (data.batch.Some? ==> n > 0)
    ensures r.Some? <==>
      (padding || n % chunks == 0) && (data.batch.Some? ==> (chunks - 1) * Ceil(n, chunks) < n)
    ensures n % chunks == 0 ==> r.Some?
    ensures r.Some? ==> r.value == Chunks(data, n, chunks)
    ensures r.Some? ==> forall i | 0 <= i < chunks ::
      RowsOf(r.value[i], data, ChunkStart(data, n, chunks, i), ChunkStart(data, n, chunks, i + 1))
  {
    hide HasLength, SliceData, Ceil, ChunkStart, Pieces, RowsOf;
    if data.batch.Some? {
      PiecesIff(n, chunks);
    }
    if n % chunks == 0 {
      EvenChunks(data, n, chunks, 0);
    }
    if !padding && n % chunks != 0 {
      return None;
    }
    if data.batch.Some? && Pieces(n, chunks) != chunks {
      return None;
    }
    var list: seq<Data<T, M>> := [];
    for i := 0 to chunks
      invariant list == Chunks(data, n, chunks)[..i]
    {
      ChunkBounds(data, n, chunks, i);
      var part := ChunkPart(data, ChunkStart(data, n, chunks, i), ChunkStart(data, n, chunks, i + 1));
      list := list + [part];
    }
    ChunkParts(data, n, chunks);
    r := Some(list);
  }

  lemma ChunkParts<T, M>(data: Data<T, M>, n: nat, chunks: nat)
    requires HasLength(data, n) && chunks > 0
    ensures forall i | 0 <= i < chunks ::
      RowsOf(Chunks(data, n, chunks)[i], data, ChunkStart(data, n, chunks, i), ChunkStart(data, n, chunks, i + 1))
  {
    hide HasLength, SliceData, ChunkStart, RowsOf;
    forall i | 0 <= i < chunks
      ensures RowsOf(Chunks(data, n, chunks)[i], data, ChunkStart(data, n, chunks, i),
                     ChunkStart(data, n, chunks, i + 1))
    {
      ChunkBounds(data, n, chunks, i);
      SliceRows(data, n, ChunkStart(data, n, chunks, i), ChunkStart(data, n, chunks, i + 1));
    }
  }

  /** Chunk i of the tensors, and what `np.array_split` gives for the other arrays. */
  method ChunkPart<T, M>(data: Data<T, M>, lo: nat, hi: nat) returns (part: Data<T, M>)
    requires lo <= hi
    ensures part == SliceData(data, lo, hi)
  {
    var batch := match data.batch
      case None => None
      case Some(b) => Some(Batch(Min(hi, b.size) - Min(lo, b.size), SliceAll(b.tensors, lo, hi)));
    part := Data(batch, SliceAll(data.nonTensor, lo, hi), data.meta, data.metrics);
  }

  /** Concatenating the chunks, even or not, restores the data exactly when it has no metrics. */
  lemma ChunkConcat<T, M>(d: Data<T, M>, n: nat, chunks: nat)
    requires HasLength(d, n) && chunks > 0
    ensures Concatenated(Chunks(d, n, chunks)) == Some(d) <==> NoMetrics(d.metrics)
  {
    hide HasLength, SliceData, Ceil, ChunkStart, Concatenated, NoMetrics;
    var list := Chunks(d, n, chunks);
    var bounds := seq(chunks + 1, i requires 0 <= i <= chunks => ChunkStart(d, n, chunks, i));
    ChunkEnds(d, n, chunks);
    forall i | 0 <= i < chunks ensures StepOk(bounds, i, n) && IsSegment(list[i], d, bounds, i, n) {
      ChunkBounds(d, n, chunks, i);
    }
    SegmentsRestore(list, d, bounds, n);
  }

  /** Five rows of tensors give three pieces instead of four: `chunk(4)` fails even with automatic padding. */
  method FiveRowsInFourChunks<T, M>(data: Data<T, M>) returns (r: Option<seq<Data<T, M>>>)
    requires HasLength(data, 5) && data.batch.Some?
    ensures Pieces(5, 4) == 3 && r.None?
  {
    assert Ceil(5, 4) == 2 && Ceil(5, 2) == 3;
    r := Chunk(data, 5, 4, true);
  }
}
