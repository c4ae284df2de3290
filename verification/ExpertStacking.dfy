/**
 Stacking the expert weights of each mixture-of-experts layer into one tensor
 (verl/scripts/veomni/moe_merge.py) and unstacking them again (verl/scripts/veomni/moe_split.py).
*/
module ExpertStacking {
  import opened Arithmetic
  import opened Weights

  // ---------- keys ----------

  function Digit(n: nat): char
    requires n < 10
  {
    "0123456789"[n]
  }

  /** A number as an f-string prints it. */
  function Decimal(n: nat): (s: string)
    ensures |s| > 0 && forall c <- s :: IsDigit(c)
  {
    if n < 10 then [Digit(n)] else Decimal(n / 10) + [Digit(n % 10)]
  }

  function ExpertKey(layer: nat, expert: nat, proj: string): string {
    "model.layers." + Decimal(layer) + ".mlp.experts." + Decimal(expert) + "." + proj + ".weight"
  }

  function StackedKey(layer: nat, proj: string): string {
    "model.layers." + Decimal(layer) + ".mlp.experts." + proj
  }

  lemma {:induction false} DecimalInjective(m: nat, n: nat)
    requires Decimal(m) == Decimal(n)
    ensures m == n
  {
    hide Decimal;
    DecimalLast(m);
    DecimalLast(n);
    DigitInjective(m % 10, n % 10);
    if m >= 10 && n >= 10 {
      DecimalInjective(m / 10, n / 10);
    }
  }

  lemma DigitInjective(a: nat, b: nat)
    requires a < 10 && b < 10
    ensures Digit(a) == Digit(b) ==> a == b
  {
  }

  lemma DecimalLast(n: nat)
    ensures Decimal(n)[|Decimal(n)| - 1] == Digit(n % 10)
    ensures n < 10 ==> |Decimal(n)| == 1
    ensures n >= 10 ==> |Decimal(n)| >= 2 && Decimal(n)[..|Decimal(n)| - 1] == Decimal(n / 10)
  {
  }

  predicate IsDigit(c: char) {
    '0' <= c <= '9'
  }

  function LeadingDigits(s: string): nat {
    if s == [] || !IsDigit(s[0]) then 0 else 1 + LeadingDigits(s[1..])
  }

  lemma {:induction false} LeadingDigitsOf(a: string, s: string)
    requires (forall c <- a :: IsDigit(c)) && s != [] && !IsDigit(s[0])
    ensures LeadingDigits(a + s) == |a|
  {
    if a == [] {
      assert a + s == s;
    } else {
      assert (a + s)[1..] == a[1..] + s;
      LeadingDigitsOf(a[1..], s);
    }
  }

  /** A number that is followed by something that is not a digit can be read off. */
  lemma NumberReadOff(a: string, b: string, s: string, t: string)
    requires (forall c <- a :: IsDigit(c)) && (forall c <- b :: IsDigit(c))
    requires s != [] && t != [] && !IsDigit(s[0]) && !IsDigit(t[0]) && a + s == b + t
    ensures a == b && s == t
  {
    LeadingDigitsOf(a, s);
    LeadingDigitsOf(b, t);
    assert a == (a + s)[..|a|] && b == (b + t)[..|b|] && s == (a + s)[|a|..] && t == (b + t)[|b|..];
  }

  lemma SameTail(p: string, s: string, t: string)
    requires p + s == p + t
    ensures s == t
  {
    assert s == (p + s)[|p|..] && t == (p + t)[|p|..];
  }

  lemma SameLayer(i: nat, i': nat, s: string, t: string)
    requires "model.layers." + Decimal(i) + ".mlp.experts." + s == "model.layers." + Decimal(i') + ".mlp.experts." + t
    ensures i == i' && s == t
  {
    hide Decimal, LeadingDigits;
    var p, m := "model.layers.", ".mlp.experts.";
    assert p + Decimal(i) + m + s == p + (Decimal(i) + (m + s))
      && p + Decimal(i') + m + t == p + (Decimal(i') + (m + t));
    SameTail(p, Decimal(i) + (m + s), Decimal(i') + (m + t));
    NumberReadOff(Decimal(i), Decimal(i'), m + s, m + t);
    SameTail(m, s, t);
    DecimalInjective(i, i');
  }

  lemma ExpertTail(layer: nat, expert: nat, proj: string)
    ensures ExpertKey(layer, expert, proj) == "model.layers." + Decimal(layer) + ".mlp.experts."
      + (Decimal(expert) + ("." + proj + ".weight"))
  {
  }

  const PROJECTIONS: seq<string> := ["gate_proj", "up_proj", "down_proj"]

  lemma ExpertKeyInjective(i: nat, j: nat, p: string, i': nat, j': nat, p': string)
    requires ExpertKey(i, j, p) == ExpertKey(i', j', p')
    ensures i == i' && j == j' && p == p'
  {
    ExpertTail(i, j, p);
    ExpertTail(i', j', p');
    var s, s' := "." + p + ".weight", "." + p' + ".weight";
    SameLayer(i, i', Decimal(j) + s, Decimal(j') + s');
    NumberReadOff(Decimal(j), Decimal(j'), s, s');
    DecimalInjective(j, j');
    assert s == "." + (p + ".weight") && s' == "." + (p' + ".weight");
    SameTail(".", p + ".weight", p' + ".weight");
    assert |p| == |p'|;
    assert p == (p + ".weight")[..|p|] && p' == (p' + ".weight")[..|p'|];
  }

  lemma StackedKeyInjective(i: nat, p: string, i': nat, p': string)
    requires StackedKey(i, p) == StackedKey(i', p')
    ensures i == i' && p == p'
  {
    SameLayer(i, i', p, p');
  }

  lemma KeysDiffer(i: nat, j: nat, p: string, i': nat, p': string)
    requires p' in PROJECTIONS
    ensures ExpertKey(i, j, p) != StackedKey(i', p')
  {
    ExpertTail(i, j, p);
    LeadingDigitsOf(Decimal(j), "." + p + ".weight");
    assert LeadingDigits(p') == 0;
    if ExpertKey(i, j, p) == StackedKey(i', p') {
      SameLayer(i, i', Decimal(j) + ("." + p + ".weight"), p');
    }
  }

  // ---------- tensors ----------

  datatype Strided = Array(shape: seq<nat>, data: seq<int>)

  type Array = t: Strided | |t.data| == Numel(t.shape) witness Array([], [0])

  function ConcatData(ts: seq<Array>): seq<int> {
    if ts == [] then [] else ConcatData(ts[..|ts| - 1]) + ts[|ts| - 1].data
  }

  predicate Stackable(ts: seq<Array>) {
    ts != [] && forall j | 0 <= j < |ts| :: ts[j].shape == ts[0].shape
  }

  /** `torch.stack`, when there is something to stack and all shapes agree. */
  function Stack(ts: seq<Array>): Array
    requires Stackable(ts)
  {
    ConcatDataAt(ts, 0, Numel(ts[0].shape));
    Array([|ts|] + ts[0].shape, ConcatData(ts))
  }

  /** `stacked[j]`. */
  function Index(t: Array, j: nat): Array
    requires t.shape != [] && j < t.shape[0]
  {
    var n := Numel(t.shape[1..]);
    MulBounds(j, n, t.shape[0]);
    Array(t.shape[1..], t.data[j * n..(j + 1) * n])
  }

  lemma MulBounds(j: nat, n: nat, k: nat)
    requires j < k
    ensures 0 <= j * n <= (j + 1) * n <= k * n && (j + 1) * n == j * n + n
  {
    MulMono(j, j + 1, n);
    MulMono(j + 1, k, n);
  }

  lemma ConcatDataLast(ts: seq<Array>, m: nat)
    requires m == |ts| - 1
    ensures ConcatData(ts) == ConcatData(ts[..m]) + ts[m].data
  {
  }

  lemma SliceOfConcat<T>(a: seq<T>, b: seq<T>, lo: nat, hi: nat)
    requires lo <= hi <= |a|
    ensures (a + b)[lo..hi] == a[lo..hi]
    ensures (a + b)[|a|..|a| + |b|] == b
  {
  }

  lemma {:induction false} ConcatDataAt(ts: seq<Array>, j: nat, n: nat)
    requires j < |ts| && forall i | 0 <= i < |ts| :: |ts[i].data| == n
    ensures |ConcatData(ts)| == |ts| * n && 0 <= j * n <= (j + 1) * n <= |ts| * n
    ensures ConcatData(ts)[j * n..(j + 1) * n] == ts[j].data
  {
    hide ConcatData, Numel;
    var m := |ts| - 1;
    var init, last := ConcatData(ts[..m]), ts[m].data;
    MulBounds(j, n, |ts|);
    MulBounds(m, n, |ts|);
    ConcatDataLast(ts, m);
    if m == 0 {
      NothingConcatenated(ts);
    } else {
      ConcatDataAt(ts[..m], Min(j, m - 1), n);
      MulBounds(Min(j, m - 1), n, m);
      SliceOfConcat(init, last, Min(j, m - 1) * n, (Min(j, m - 1) + 1) * n);
    }
  }

  lemma NothingConcatenated(ts: seq<Array>)
    ensures ConcatData(ts[..0]) == []
  {
  }

  lemma StackIndex(ts: seq<Array>, j: nat)
    requires Stackable(ts) && j < |ts|
    ensures Stack(ts).shape == [|ts|] + ts[0].shape && Index(Stack(ts), j) == ts[j]
  {
    var n := Numel(ts[0].shape);
    ConcatDataAt(ts, j, n);
    var t := Stack(ts);
    assert t.shape[1..] == ts[0].shape;
  }

  // ---------- merging and splitting one projection ----------

  type Dict = map<string, Array>

  datatype Item = Item(layer: nat, proj: string)

  predicate AllPresent(sd: Dict, x: Item, experts: nat) {
    forall j | 0 <= j < experts :: ExpertKey(x.layer, j, x.proj) in sd
  }

  function ExpertKeys(x: Item, experts: nat): set<string> {
    set j | 0 <= j < experts :: ExpertKey(x.layer, j, x.proj)
  }

  function Picked(sd: Dict, x: Item, experts: nat): seq<Array>
    requires AllPresent(sd, x, experts)
  {
    seq(experts, j requires 0 <= j < experts => sd[ExpertKey(x.layer, j, x.proj)])
  }

  /** All the experts' weights are there, and have the same shape. */
  predicate Mergeable(sd: Dict, x: Item, experts: nat) {
    AllPresent(sd, x, experts) && Stackable(Picked(sd, x, experts))
  }

  function Merged(sd: Dict, x: Item, experts: nat): Dict
    requires Mergeable(sd, x, experts)
  {
    (sd - ExpertKeys(x, experts))[StackedKey(x.layer, x.proj) := Stack(Picked(sd, x, experts))]
  }

  function MergeAll(sd: Dict, items: seq<Item>, experts: nat): Option<Dict>
    decreases |items|
  {
    if items == [] then Some(sd)
    else if !Mergeable(sd, items[0], experts) then None
    else MergeAll(Merged(sd, items[0], experts), items[1..], experts)
  }

  predicate HasRows(t: Array, n: nat) {
    n == 0 || (t.shape != [] && n <= t.shape[0])
  }

  /** Splitting needs a row for every expert; a layer without a stacked tensor is left alone. */
  predicate Splittable(sd: Dict, x: Item, experts: nat) {
    var key := StackedKey(x.layer, x.proj);
    key in sd ==> HasRows(sd[key], experts)
  }

  function Rows(t: Array, x: Item, experts: nat): Dict
    requires HasRows(t, experts)
  {
    ExpertKeysInjective(x);
    map j: nat | 0 <= j < experts :: ExpertKey(x.layer, j, x.proj) := Index(t, j)
  }

  function WithRows(d: Dict, t: Array, x: Item, experts: nat): Dict
    requires HasRows(t, experts)
  {
    d + Rows(t, x, experts)
  }

  lemma ExpertKeysInjective(x: Item)
    ensures forall j: nat, j': nat | ExpertKey(x.layer, j, x.proj) == ExpertKey(x.layer, j', x.proj) :: j == j'
  {
    forall j: nat, j': nat | ExpertKey(x.layer, j, x.proj) == ExpertKey(x.layer, j', x.proj) ensures j == j' {
      ExpertKeyInjective(x.layer, j, x.proj, x.layer, j', x.proj);
    }
  }

  function SplitOne(sd: Dict, x: Item, experts: nat): Dict
    requires Splittable(sd, x, experts)
  {
    var key := StackedKey(x.layer, x.proj);
    if key !in sd then sd else WithRows(sd - {key}, sd[key], x, experts)
  }

  function SplitAll(sd: Dict, items: seq<Item>, experts: nat): Option<Dict>
    decreases |items|
  {
    if items == [] then Some(sd)
    else if !Splittable(sd, items[0], experts) then None
    else SplitAll(SplitOne(sd, items[0], experts), items[1..], experts)
  }

  function LayerItems(layer: nat): seq<Item> {
    [Item(layer, "gate_proj"), Item(layer, "up_proj"), Item(layer, "down_proj")]
  }

  /** The order of both scripts: layer by layer, gate, up, down. */
  function Items(from: nat, to: nat): seq<Item>
    decreases if from < to then to - from else 0
  {
    if from >= to then []
    else LayerItems(from) + Items(from + 1, to)
  }

  // ---------- the scripts ----------

  /** The pops of one projection, and the assignment of the stacked tensor. */
  method MergeProjection(sd: Dict, x: Item, experts: nat) returns (r: Option<Dict>)
    ensures r == if Mergeable(sd, x, experts) then Some(Merged(sd, x, experts)) else None
  {
    ExpertKeysInjective(x);
    hide ExpertKey, StackedKey;
    var d := sd;
    var ts: seq<Array> := [];
    for j := 0 to experts
      invariant AllPresent(sd, x, j) && d == sd - ExpertKeys(x, j) && ts == Picked(sd, x, j)
    {
      var key := ExpertKey(x.layer, j, x.proj);
      if key !in d {
        return None;
      }
      ts := ts + [d[key]];
      d := d - {key};
    }
    if !Stackable(ts) {
      return None;
    }
    r := Some(d[StackedKey(x.layer, x.proj) := Stack(ts)]);
  }

  /** The stacking loop of moe_merge.py; None where it raises. */
  method MergeExperts(stateDict: Dict, moeLayerStart: nat, numLayers: nat, experts: nat) returns (r: Option<Dict>)
    ensures r == MergeAll(stateDict, Items(moeLayerStart, numLayers), experts)
  {
    hide Mergeable, Merged;
    var d := stateDict;
    var i := moeLayerStart;
    while i < numLayers
      invariant MergeAll(d, Items(i, numLayers), experts) ==
        MergeAll(stateDict, Items(moeLayerStart, numLayers), experts)
    {
      ghost var items := Items(i, numLayers);
      for p := 0 to 3
        invariant MergeAll(d, items[p..], experts) == MergeAll(stateDict, Items(moeLayerStart, numLayers), experts)
      {
        assert items[p..][0] == Item(i, PROJECTIONS[p]) && items[p..][1..] == items[p + 1..];
        r := MergeProjection(d, Item(i, PROJECTIONS[p]), experts);
        if r.None? {
          return;
        }
        d := r.value;
      }
      assert items[3..] == Items(i + 1, numLayers);
      i := i + 1;
    }
    r := Some(d);
  }

  /** One stacked tensor is popped, and its rows go in under the experts' keys. */
  method SplitProjection(sd: Dict, x: Item, experts: nat) returns (r: Option<Dict>)
    ensures r == if Splittable(sd, x, experts) then Some(SplitOne(sd, x, experts)) else None
  {
    var key := StackedKey(x.layer, x.proj);
    if key !in sd {
      return Some(sd);
    }
    hide ExpertKey, StackedKey, Index, WithRows, SplitOne;
    SplitOneIs(sd, x, experts);
    var t := sd[key];
    var d := sd - {key};
    NoRows(d, t, x);
    for j := 0 to experts
      invariant HasRows(t, j) && d == WithRows(sd - {key}, t, x, j)
    {
      if t.shape == [] || j >= t.shape[0] {
        return None;
      }
      OneMoreRow(sd - {key}, t, x, j);
      d := d[ExpertKey(x.layer, j, x.proj) := Index(t, j)];
    }
    r := Some(d);
  }

  lemma SplitOneIs(sd: Dict, x: Item, experts: nat)
    requires StackedKey(x.layer, x.proj) in sd
    ensures var key := StackedKey(x.layer, x.proj);
      HasRows(sd[key], experts) ==> SplitOne(sd, x, experts) == WithRows(sd - {key}, sd[key], x, experts)
  {
    hide StackedKey, WithRows;
  }

  lemma NoRows(d: Dict, t: Array, x: Item)
    ensures WithRows(d, t, x, 0) == d
  {
  }

  lemma RowsMore(t: Array, x: Item, j: nat)
    requires HasRows(t, j + 1)
    ensures HasRows(t, j) && Rows(t, x, j + 1) == Rows(t, x, j)[ExpertKey(x.layer, j, x.proj) := Index(t, j)]
  {
    hide ExpertKey, Index;
    ExpertKeysInjective(x);
    var more, fewer := Rows(t, x, j + 1), Rows(t, x, j);
    assert ExpertKey(x.layer, j, x.proj) in more;
    forall k | k in more ensures k in fewer || k == ExpertKey(x.layer, j, x.proj) {
      var i: nat :| i < j + 1 && k == ExpertKey(x.layer, i, x.proj);
    }
  }

  lemma OneMoreRow(d: Dict, t: Array, x: Item, j: nat)
    requires HasRows(t, j + 1)
    ensures WithRows(d, t, x, j + 1) == WithRows(d, t, x, j)[ExpertKey(x.layer, j, x.proj) := Index(t, j)]
  {
    RowsMore(t, x, j);
    hide Rows, ExpertKey, Index;
  }

  /** The unstacking loop of moe_split.py; None where it raises. */
  method SplitExperts(stateDict: Dict, numLayers: nat, experts: nat) returns (r: Option<Dict>)
    ensures r == SplitAll(stateDict, Items(0, numLayers), experts)
  {
    hide Splittable, SplitOne;
    var d := stateDict;
    var i := 0;
    while i < numLayers
      invariant i <= numLayers
      invariant SplitAll(d, Items(i, numLayers), experts) == SplitAll(stateDict, Items(0, numLayers), experts)
    {
      ghost var items := Items(i, numLayers);
      for p := 0 to 3
        invariant SplitAll(d, items[p..], experts) == SplitAll(stateDict, Items(0, numLayers), experts)
      {
        assert items[p..][0] == Item(i, PROJECTIONS[p]) && items[p..][1..] == items[p + 1..];
        r := SplitProjection(d, Item(i, PROJECTIONS[p]), experts);
        if r.None? {
          return;
        }
        d := r.value;
      }
      assert items[3..] == Items(i + 1, numLayers);
      i := i + 1;
    }
    r := Some(d);
  }

  // ---------- the round trip ----------

  ghost predicate Known(x: Item) {
    x.proj in PROJECTIONS
  }

  /** Two items have no key in common. */
  ghost predicate Apart(x: Item, y: Item) {
    && (forall j: nat, j': nat :: ExpertKey(x.layer, j, x.proj) != ExpertKey(y.layer, j', y.proj))
    && (forall j: nat :: ExpertKey(x.layer, j, x.proj) != StackedKey(y.layer, y.proj))
    && (forall j: nat :: ExpertKey(y.layer, j, y.proj) != StackedKey(x.layer, x.proj))
    && StackedKey(x.layer, x.proj) != StackedKey(y.layer, y.proj)
  }

  lemma DifferentApart(x: Item, y: Item)
    requires Known(x) && Known(y) && x != y
    ensures Apart(x, y)
  {
    forall j: nat, j': nat ensures ExpertKey(x.layer, j, x.proj) != ExpertKey(y.layer, j', y.proj) {
      if ExpertKey(x.layer, j, x.proj) == ExpertKey(y.layer, j', y.proj) {
        ExpertKeyInjective(x.layer, j, x.proj, y.layer, j', y.proj);
      }
    }
    forall j: nat ensures ExpertKey(x.layer, j, x.proj) != StackedKey(y.layer, y.proj) {
      KeysDiffer(x.layer, j, x.proj, y.layer, y.proj);
    }
    forall j: nat ensures ExpertKey(y.layer, j, y.proj) != StackedKey(x.layer, x.proj) {
      KeysDiffer(y.layer, j, y.proj, x.layer, x.proj);
    }
    if StackedKey(x.layer, x.proj) == StackedKey(y.layer, y.proj) {
      StackedKeyInjective(x.layer, x.proj, y.layer, y.proj);
    }
  }

  /** Unstacking what has just been stacked. */
  lemma SplitMergeOne(sd: Dict, x: Item, experts: nat)
    requires Known(x) && Mergeable(sd, x, experts) && StackedKey(x.layer, x.proj) !in sd
    ensures Splittable(Merged(sd, x, experts), x, experts) && SplitOne(Merged(sd, x, experts), x, experts) == sd
  {
    var key := StackedKey(x.layer, x.proj);
    var ts := Picked(sd, x, experts);
    forall j: nat | j < experts
      ensures HasRows(Stack(ts), experts) && Index(Stack(ts), j) == sd[ExpertKey(x.layer, j, x.proj)]
    {
      StackIndex(ts, j);
    }
    StackIndex(ts, 0);
    forall j: nat ensures ExpertKey(x.layer, j, x.proj) != key {
      KeysDiffer(x.layer, j, x.proj, x.layer, x.proj);
    }
    hide ExpertKey, StackedKey, Stack, Index, Stackable;
    RowsRestore(sd, x, experts, Stack(ts), key);
  }

  lemma RowsRestore(sd: Dict, x: Item, experts: nat, t: Array, key: string)
    requires AllPresent(sd, x, experts) && HasRows(t, experts) && key !in sd
    requires forall j: nat | j < experts :: Index(t, j) == sd[ExpertKey(x.layer, j, x.proj)]
    ensures WithRows((sd - ExpertKeys(x, experts))[key := t] - {key}, t, x, experts) == sd
  {
    hide ExpertKey, Index;
    assert (sd - ExpertKeys(x, experts))[key := t] - {key} == sd - ExpertKeys(x, experts);
  }

  /** Stacking one projection does not touch what another needs. */
  lemma MergeLeaves(sd: Dict, x: Item, y: Item, experts: nat)
    requires Apart(x, y) && Mergeable(sd, y, experts)
    ensures Mergeable(Merged(sd, y, experts), x, experts) <==> Mergeable(sd, x, experts)
    ensures StackedKey(x.layer, x.proj) in Merged(sd, y, experts) <==> StackedKey(x.layer, x.proj) in sd
    ensures Splittable(Merged(sd, y, experts), x, experts) <==> Splittable(sd, x, experts)
  {
    hide ExpertKey, StackedKey, Stack, Stackable, HasRows;
    var m := Merged(sd, y, experts);
    assert forall j: nat :: ExpertKey(x.layer, j, x.proj) in m <==> ExpertKey(x.layer, j, x.proj) in sd;
    if AllPresent(sd, x, experts) {
      assert Picked(m, x, experts) == Picked(sd, x, experts);
    }
  }

  /** Unstacking x and stacking y commute. */
  lemma SplitMergeCommute(sd: Dict, x: Item, y: Item, experts: nat)
    requires Apart(x, y) && Mergeable(sd, y, experts) && Splittable(sd, x, experts)
    ensures Splittable(Merged(sd, y, experts), x, experts) && Mergeable(SplitOne(sd, x, experts), y, experts)
    ensures SplitOne(Merged(sd, y, experts), x, experts) == Merged(SplitOne(sd, x, experts), y, experts)
  {
    MergeLeaves(sd, x, y, experts);
    SplitLeaves(sd, x, y, experts);
    hide ExpertKey, StackedKey, Stack, Stackable, HasRows, Index, Splittable, Mergeable;
    var key := StackedKey(x.layer, x.proj);
    if key in sd {
      assert Merged(sd, y, experts)[key] == sd[key];
      KeySetsApart(x, y, experts);
      var rows := Rows(sd[key], x, experts);
      RowKeys(sd[key], x, experts);
      SwapUpdates(sd, key, rows, ExpertKeys(y, experts), StackedKey(y.layer, y.proj), Stack(Picked(sd, y, experts)));
    }
  }

  lemma KeySetsApart(x: Item, y: Item, experts: nat)
    requires Apart(x, y)
    ensures ExpertKeys(x, experts) !! ExpertKeys(y, experts)
    ensures StackedKey(x.layer, x.proj) !in ExpertKeys(y, experts)
    ensures StackedKey(y.layer, y.proj) !in ExpertKeys(x, experts)
    ensures StackedKey(x.layer, x.proj) != StackedKey(y.layer, y.proj)
  {
    hide ExpertKey, StackedKey;
  }

  lemma RowKeys(t: Array, x: Item, experts: nat)
    requires HasRows(t, experts)
    ensures Rows(t, x, experts).Keys == ExpertKeys(x, experts)
  {
    hide ExpertKey, Index;
  }

  /** Updates of a dictionary at different keys can be swapped. */
  lemma SwapUpdates(sd: Dict, key: string, rows: Dict, gone: set<string>, key': string, t: Array)
    requires rows.Keys !! gone && key !in gone && key' !in rows.Keys && key != key'
    ensures (((sd - gone)[key' := t]) - {key}) + rows == (((sd - {key}) + rows) - gone)[key' := t]
  {
  }

  lemma SplitLeaves(sd: Dict, x: Item, y: Item, experts: nat)
    requires Apart(x, y) && Mergeable(sd, y, experts) && Splittable(sd, x, experts)
    ensures Mergeable(SplitOne(sd, x, experts), y, experts)
    ensures Picked(SplitOne(sd, x, experts), y, experts) == Picked(sd, y, experts)
  {
    hide ExpertKey, StackedKey, Stackable, HasRows, Index;
    var d := SplitOne(sd, x, experts);
    assert forall j: nat | j < experts :: ExpertKey(y.layer, j,
        y.proj) in d && d[ExpertKey(y.layer, j, y.proj)] == sd[ExpertKey(y.layer, j, y.proj)];
    assert Picked(d, y, experts) == Picked(sd, y, experts);
  }

  ghost predicate Distinct(items: seq<Item>) {
    && (forall k | 0 <= k < |items| :: Known(items[k]))
    && forall k, l | 0 <= k < l < |items| :: items[k] != items[l]
  }

  lemma {:induction false} SplitThrough(sd: Dict, x: Item, rest: seq<Item>, experts: nat)
    requires Known(x) && Distinct(rest) && x !in rest && MergeAll(sd, rest, experts).Some? && Splittable(sd, x, experts)
    ensures Splittable(MergeAll(sd, rest, experts).value, x, experts)
    ensures MergeAll(SplitOne(sd, x, experts), rest, experts) ==
      Some(SplitOne(MergeAll(sd, rest, experts).value, x, experts))
    decreases |rest|
  {
    hide Mergeable, Merged, Splittable, SplitOne, Apart;
    if rest != [] {
      DifferentApart(x, rest[0]);
      SplitMergeCommute(sd, x, rest[0], experts);
      SplitThrough(Merged(sd, rest[0], experts), x, rest[1..], experts);
    }
  }

  lemma {:induction false} RoundTripItems(sd: Dict, items: seq<Item>, experts: nat)
    requires Distinct(items) && MergeAll(sd, items, experts).Some?
    requires forall x <- items :: StackedKey(x.layer, x.proj) !in sd
    ensures SplitAll(MergeAll(sd, items, experts).value, items, experts) == Some(sd)
    decreases |items|
  {
    hide Mergeable, Merged, Splittable, SplitOne, StackedKey;
    if items != [] {
      var x, rest := items[0], items[1..];
      assert x !in rest;
      SplitMergeOne(sd, x, experts);
      SplitThrough(Merged(sd, x, experts), x, rest, experts);
      assert forall y <- rest :: y in items;
      RoundTripItems(sd, rest, experts);
    }
  }

  /** Stacking all items succeeds exactly when every one of them could be stacked at the start. */
  lemma {:induction false} MergeAllIff(sd: Dict, items: seq<Item>, experts: nat, z: Item)
    requires Distinct(items) && Known(z)
    ensures MergeAll(sd, items, experts).Some? <==> forall k | 0 <= k < |items| :: Mergeable(sd, items[k], experts)
    ensures MergeAll(sd, items, experts).Some? && z !in items ==>
      (StackedKey(z.layer, z.proj) in MergeAll(sd, items, experts).value <==> StackedKey(z.layer, z.proj) in sd)
    decreases |items|
  {
    hide Mergeable, Merged, StackedKey, Apart;
    if items != [] && Mergeable(sd, items[0], experts) {
      var y, rest := items[0], items[1..];
      MergeAllIff(Merged(sd, y, experts), rest, experts, z);
      forall k | 0 <= k < |rest|
        ensures Mergeable(Merged(sd, y, experts), rest[k], experts) <==> Mergeable(sd, items[k + 1], experts)
      {
        DifferentApart(rest[k], y);
        MergeLeaves(sd, rest[k], y, experts);
      }
      if z !in items {
        DifferentApart(z, y);
        MergeLeaves(sd, z, y, experts);
        assert z !in rest;
      }
    }
  }

  lemma LayerInFront(layer: nat, rest: seq<Item>)
    requires Distinct(rest) && forall x <- rest :: layer < x.layer
    ensures Distinct(LayerItems(layer) + rest)
  {
    var three := LayerItems(layer);
    var s := three + rest;
    assert "gate_proj"[0] != "up_proj"[0] && "up_proj"[0] != "down_proj"[0] && "gate_proj"[0] != "down_proj"[0];
    forall k | 0 <= k < |s| ensures Known(s[k]) {
      assert k >= 3 ==> s[k] == rest[k - 3];
    }
    hide Known;
    forall k, l | 0 <= k < l < |s| ensures s[k] != s[l] {
      if l >= 3 {
        assert s[l] == rest[l - 3] && rest[l - 3] in rest;
        assert k >= 3 ==> s[k] == rest[k - 3];
      }
    }
  }

  lemma {:induction false} ItemsDistinct(from: nat, to: nat)
    ensures Distinct(Items(from, to)) && (forall x <- Items(from, to) :: from <= x.layer < to)
    decreases if from < to then to - from else 0
  {
    hide Distinct, LayerItems;
    if from < to {
      ItemsDistinct(from + 1, to);
      LayerOf(from);
      LayerInFront(from, Items(from + 1, to));
    } else {
      NothingDistinct();
    }
  }

  lemma LayerOf(layer: nat)
    ensures forall x <- LayerItems(layer) :: x.layer == layer
  {
  }

  lemma NothingDistinct()
    ensures Distinct([])
  {
  }

  lemma {:induction false} ItemsSplit(from: nat, mid: nat, to: nat)
    requires from <= mid <= to
    ensures Items(from, to) == Items(from, mid) + Items(mid, to)
    decreases mid - from
  {
    if from < mid {
      ItemsSplit(from + 1, mid, to);
    }
  }

  lemma EarlierItem(start: nat, numLayers: nat, x: Item)
    requires x in Items(0, start)
    ensures Known(x) && x !in Items(start, numLayers)
  {
    ItemsDistinct(0, start);
    ItemsDistinct(start, numLayers);
  }

  lemma {:induction false} SplitNothing(d: Dict, items: seq<Item>, more: seq<Item>, experts: nat)
    requires forall x <- items :: StackedKey(x.layer, x.proj) !in d
    ensures SplitAll(d, items + more, experts) == SplitAll(d, more, experts)
    decreases |items|
  {
    hide StackedKey;
    if items == [] {
      assert items + more == more;
    } else {
      assert (items + more)[0] == items[0] && (items + more)[1..] == items[1..] + more;
      assert items[0] in items && forall x <- items[1..] :: x in items;
      SplitNothing(d, items[1..], more, experts);
    }
  }

  lemma NoItemsAbove(start: nat, numLayers: nat)
    ensures Items(start, numLayers) == Items(Min(start, numLayers), numLayers)
  {
  }

  /**
   Unstacking restores the state dict, for any number of layers and experts and any first expert layer:
   given that every expert's weights are there with one shape per projection, and no stacked key is there
   beforehand.
  */
  lemma StackingRoundTrip(sd: Dict, start: nat, numLayers: nat, experts: nat)
    requires forall x <- Items(start, numLayers) :: Mergeable(sd, x, experts)
    requires forall x <- Items(0, numLayers) :: StackedKey(x.layer, x.proj) !in sd
    ensures MergeAll(sd, Items(start, numLayers), experts).Some?
    ensures SplitAll(MergeAll(sd, Items(start, numLayers), experts).value, Items(0, numLayers), experts) == Some(sd)
  {
    hide Mergeable, StackedKey;
    var first := Min(start, numLayers);
    var items, before := Items(first, numLayers), Items(0, first);
    NoItemsAbove(start, numLayers);
    ItemsDistinct(first, numLayers);
    ItemsDistinct(0, first);
    ItemsSplit(0, first, numLayers);
    MergeAllIff(sd, items, experts, Item(numLayers, "gate_proj"));
    var merged := MergeAll(sd, items, experts).value;
    assert forall x <- before :: x in Items(0, numLayers);
    assert forall x <- items :: x in Items(0, numLayers);
    forall x <- before ensures StackedKey(x.layer, x.proj) !in merged {
      EarlierItem(first, numLayers, x);
      MergeAllIff(sd, items, experts, x);
    }
    SplitNothing(merged, before, items, experts);
    RoundTripItems(sd, items, experts);
  }

  // ---------- what the two scripts produce ----------

  /** What `int` reads from a string of digits. */
  function ReadNumber(s: string): nat
    requires forall c <- s :: IsDigit(c)
  {
    if s == [] then 0
    else
      var n, c := |s| - 1, s[|s| - 1];
      assert c in s;
      assert IsDigit(c) && c >= '0';
      10 * ReadNumber(s[..n]) + (c as int - '0' as int)
  }

  /** A number is printed with the digits that stand for it, and without leading zeros. */
  lemma {:induction false} DecimalReadBack(n: nat)
    ensures ReadNumber(Decimal(n)) == n
    ensures if n == 0 then Decimal(n) == "0" else Decimal(n)[0] != '0'
  {
    var s := Decimal(n);
    if n >= 10 {
      DecimalReadBack(n / 10);
      assert s[..|s| - 1] == Decimal(n / 10) && s[0] == Decimal(n / 10)[0];
    } else {
      assert s[..0] == "";
    }
  }

  ghost predicate SameAt(d: Dict, sd: Dict, k: string) {
    (k in d <==> k in sd) && (k in sd ==> d[k] == sd[k])
  }

  ghost predicate Touches(x: Item, experts: nat, k: string) {
    k == StackedKey(x.layer, x.proj) || k in ExpertKeys(x, experts)
  }

  lemma TouchesOne(x: Item, y: Item, experts: nat, k: string)
    requires Known(x) && Known(y) && x != y && Touches(x, experts, k)
    ensures !Touches(y, experts, k)
  {
    DifferentApart(x, y);
    hide ExpertKey, StackedKey;
  }

  lemma {:induction false} MergedOther(sd: Dict, items: seq<Item>, experts: nat, k: string)
    requires MergeAll(sd, items, experts).Some? && forall x <- items :: !Touches(x, experts, k)
    ensures SameAt(MergeAll(sd, items, experts).value, sd, k)
    decreases |items|
  {
    hide Mergeable, StackedKey, ExpertKeys, Stack, Picked;
    if items != [] {
      assert items[0] in items && forall x <- items[1..] :: x in items;
      MergedOther(Merged(sd, items[0], experts), items[1..], experts, k);
    }
  }

  lemma PickedAfter(sd: Dict, x: Item, y: Item, experts: nat)
    requires Apart(x, y) && Mergeable(sd, y, experts)
      && (Mergeable(sd, x, experts) || Mergeable(Merged(sd, y, experts), x, experts))
    ensures Mergeable(sd, x, experts) && Mergeable(Merged(sd, y, experts), x, experts)
    ensures Picked(Merged(sd, y, experts), x, experts) == Picked(sd, x, experts)
  {
    MergeLeaves(sd, x, y, experts);
    hide ExpertKey, StackedKey, Stack, Stackable;
  }

  lemma MergedOne(sd: Dict, x: Item, experts: nat)
    requires Known(x) && Mergeable(sd, x, experts)
    ensures var m, key := Merged(sd, x, experts), StackedKey(x.layer, x.proj);
      key in m && m[key] == Stack(Picked(sd, x, experts)) && forall k <- ExpertKeys(x, experts) :: k !in m
  {
    forall j: nat ensures ExpertKey(x.layer, j, x.proj) != StackedKey(x.layer, x.proj) {
      KeysDiffer(x.layer, j, x.proj, x.layer, x.proj);
    }
    hide ExpertKey, StackedKey, Stack, Stackable;
  }

  /** Stacking a list of projections: the result holds each stacked tensor, and none of the experts' own. */
  lemma {:induction false} MergedItem(sd: Dict, items: seq<Item>, experts: nat, x: Item)
    requires Distinct(items) && MergeAll(sd, items, experts).Some? && x in items
    ensures var d, key := MergeAll(sd, items, experts).value, StackedKey(x.layer, x.proj);
      && Mergeable(sd, x, experts)
      && key in d && d[key] == Stack(Picked(sd, x, experts)) && forall k <- ExpertKeys(x, experts) :: k !in d
    decreases |items|
  {
    hide Mergeable, Merged, StackedKey, ExpertKeys, Stack, Picked, Apart, Known;
    var y, rest := items[0], items[1..];
    var m := Merged(sd, y, experts);
    if x == y {
      MergedOne(sd, x, experts);
      forall k | Touches(x, experts, k) ensures SameAt(MergeAll(m, rest, experts).value, m, k) {
        forall z <- rest ensures !Touches(z, experts, k) {
          TouchesOne(x, z, experts, k);
        }
        MergedOther(m, rest, experts, k);
      }
      assert forall k <- ExpertKeys(x, experts) :: Touches(x, experts, k);
      assert Touches(x, experts, StackedKey(x.layer, x.proj));
    } else {
      MergedItem(m, rest, experts, x);
      DifferentApart(x, y);
      PickedAfter(sd, x, y, experts);
    }
  }

  lemma {:induction false} ItemsMembers(from: nat, to: nat, x: Item)
    ensures x in Items(from, to) <==> from <= x.layer < to && x.proj in {"gate_proj", "up_proj", "down_proj"}
    decreases if from < to then to - from else 0
  {
    if from < to {
      ItemsMembers(from + 1, to, x);
      ThreeItems(from, x);
      hide LayerItems;
    }
  }

  lemma ThreeItems(layer: nat, x: Item)
    ensures x in LayerItems(layer) <==> x.layer == layer && x.proj in {"gate_proj", "up_proj", "down_proj"}
  {
    var three := LayerItems(layer);
    assert three[0] in three && three[1] in three && three[2] in three;
  }

  /** The data of `row` are part j of t's. */
  ghost predicate RowIs(t: Array, j: nat, row: Array) {
    var n := |row.data|;
    0 <= j * n <= (j + 1) * n <= |t.data| && t.data[j * n..(j + 1) * n] == row.data
  }

  lemma StackRow(ts: seq<Array>, j: nat)
    requires Stackable(ts) && j < |ts|
    ensures Stack(ts).shape == [|ts|] + ts[j].shape && RowIs(Stack(ts), j, ts[j])
  {
    ConcatDataAt(ts, j, Numel(ts[0].shape));
  }

  /** There are experts, each with a weight, and all weights have one shape. */
  ghost predicate CanStack(sd: Dict, layer: nat, proj: string, experts: nat) {
    experts > 0 && exists shape :: ExpertShapes(sd, layer, proj, experts, shape)
  }

  ghost predicate ExpertShapes(sd: Dict, layer: nat, proj: string, experts: nat, shape: seq<nat>) {
    forall j | 0 <= j < experts :: ExpertShape(sd, layer, proj, j, shape)
  }

  ghost predicate ExpertShape(sd: Dict, layer: nat, proj: string, j: nat, shape: seq<nat>) {
    var key := "model.layers." + Decimal(layer) + ".mlp.experts." + Decimal(j) + "." + proj + ".weight";
    key in sd && sd[key].shape == shape
  }

  lemma CanStackIff(sd: Dict, layer: nat, proj: string, experts: nat)
    ensures Mergeable(sd, Item(layer, proj), experts) <==> CanStack(sd, layer, proj, experts)
  {
    var x := Item(layer, proj);
    if Mergeable(sd, x, experts) {
      var ts := Picked(sd, x, experts);
      forall j | 0 <= j < experts ensures ExpertShape(sd, layer, proj, j, ts[0].shape) {
        assert ts[j] == sd[ExpertKey(layer, j, proj)];
      }
      assert ExpertShapes(sd, layer, proj, experts, ts[0].shape);
    }
    if CanStack(sd, layer, proj, experts) {
      var shape :| ExpertShapes(sd, layer, proj, experts, shape);
      forall j | 0 <= j < experts
        ensures ExpertKey(layer, j, proj) in sd && sd[ExpertKey(layer, j, proj)].shape == shape
      {
        assert ExpertShape(sd, layer, proj, j, shape);
      }
      assert AllPresent(sd, x, experts);
    }
  }

  /** Row j of the stacked tensor in d is what was expert j's weight in sd; the expert's own entry is gone. */
  ghost predicate RowStacked(sd: Dict, d: Dict, layer: nat, proj: string, experts: nat, j: nat) {
    var key := "model.layers." + Decimal(layer) + ".mlp.experts." + proj;
    var expertKey := "model.layers." + Decimal(layer) + ".mlp.experts." + Decimal(j) + "." + proj + ".weight";
    && key in d && expertKey in sd && expertKey !in d
    && d[key].shape == [experts] + sd[expertKey].shape && RowIs(d[key], j, sd[expertKey])
  }

  /** k is one of the names that the scripts read or write for these layers. */
  ghost predicate ExpertName(k: string, from: nat, to: nat, experts: nat) {
    exists layer, proj | from <= layer < to && proj in {"gate_proj", "up_proj", "down_proj"} ::
      NameOf(k, layer, proj, experts)
  }

  ghost predicate NameOf(k: string, layer: nat, proj: string, experts: nat) {
    || k == "model.layers." + Decimal(layer) + ".mlp.experts." + proj
    || exists j | 0 <= j < experts ::
        k == "model.layers." + Decimal(layer) + ".mlp.experts." + Decimal(j) + "." + proj + ".weight"
  }

  lemma TouchesName(x: Item, experts: nat, k: string)
    ensures Touches(x, experts, k) <==> NameOf(k, x.layer, x.proj, experts)
  {
    if k in ExpertKeys(x, experts) {
      var j :| 0 <= j < experts && k == ExpertKey(x.layer, j, x.proj);
      assert k == "model.layers." + Decimal(x.layer) + ".mlp.experts." + Decimal(j) + "." + x.proj + ".weight";
    }
    forall j | 0 <= j < experts
      ensures "model.layers." + Decimal(x.layer) + ".mlp.experts." + Decimal(j) + "." + x.proj + ".weight"
        in ExpertKeys(x, experts)
    {
      assert ExpertKey(x.layer, j, x.proj) in ExpertKeys(x, experts);
    }
  }

  lemma ItemStacked(sd: Dict, items: seq<Item>, experts: nat, x: Item, j: nat)
    requires Distinct(items) && MergeAll(sd, items, experts).Some? && x in items && j < experts
    ensures RowStacked(sd, MergeAll(sd, items, experts).value, x.layer, x.proj, experts, j)
  {
    MergedItem(sd, items, experts, x);
    var ts := Picked(sd, x, experts);
    hide Stack, RowIs, Stackable, MergeAll, Mergeable;
    StackRow(ts, j);
    assert ts[j] == sd[ExpertKey(x.layer, j, x.proj)];
    assert ExpertKey(x.layer, j, x.proj) in ExpertKeys(x, experts);
  }

  /** When stacking succeeds. */
  lemma StackingSucceedsIff(sd: Dict, start: nat, numLayers: nat, experts: nat)
    ensures MergeAll(sd, Items(start, numLayers), experts).Some? <==>
      forall layer, proj | start <= layer < numLayers && proj in {"gate_proj", "up_proj", "down_proj"} ::
        CanStack(sd, layer, proj, experts)
  {
    hide MergeAll, Mergeable, CanStack, Known;
    var items := Items(start, numLayers);
    ItemsDistinct(start, numLayers);
    KnownGate(numLayers);
    MergeAllIff(sd, items, experts, Item(numLayers, "gate_proj"));
    forall layer, proj ensures Mergeable(sd, Item(layer, proj), experts) <==> CanStack(sd, layer, proj, experts) {
      CanStackIff(sd, layer, proj, experts);
    }
    forall x: Item
      ensures x in items <==> start <= x.layer < numLayers && x.proj in {"gate_proj", "up_proj", "down_proj"}
    {
      ItemsMembers(start, numLayers, x);
    }
    if MergeAll(sd, items, experts).Some? {
      forall layer, proj | start <= layer < numLayers && proj in {"gate_proj", "up_proj", "down_proj"}
        ensures CanStack(sd, layer, proj, experts)
      {
        assert Item(layer, proj) in items;
      }
    }
    forall k | 0 <= k < |items| ensures items[k] in items && items[k] == Item(items[k].layer, items[k].proj) {
    }
  }

  lemma KnownGate(layer: nat)
    ensures Known(Item(layer, "gate_proj"))
  {
    assert PROJECTIONS[0] in PROJECTIONS;
  }

  /**
   The stacked checkpoint, with its keys written out: row j of "model.layers.<layer>.mlp.experts.<proj>" is the
   tensor of expert j, whose own entry is gone, for every layer from the first one with experts; everything else
   is as before.
  */
  lemma StackedCheckpoint(sd: Dict, start: nat, numLayers: nat, experts: nat)
    requires MergeAll(sd, Items(start, numLayers), experts).Some?
    ensures forall layer, proj, j | start <= layer < numLayers && proj in {"gate_proj", "up_proj", "down_proj"}
      && 0 <= j < experts ::
      RowStacked(sd, MergeAll(sd, Items(start, numLayers), experts).value, layer, proj, experts, j)
    ensures forall k | !ExpertName(k, start, numLayers, experts) ::
      SameAt(MergeAll(sd, Items(start, numLayers), experts).value, sd, k)
  {
    hide MergeAll, RowStacked, NameOf, Touches, SameAt, Distinct;
    var items := Items(start, numLayers);
    ItemsDistinct(start, numLayers);
    forall layer, proj, j | start <= layer < numLayers && proj in {"gate_proj", "up_proj", "down_proj"}
      && 0 <= j < experts
      ensures RowStacked(sd, MergeAll(sd, items, experts).value, layer, proj, experts, j)
    {
      ItemsMembers(start, numLayers, Item(layer, proj));
      ItemStacked(sd, items, experts, Item(layer, proj), j);
    }
    forall k | !ExpertName(k, start, numLayers, experts)
      ensures SameAt(MergeAll(sd, items, experts).value, sd, k)
    {
      forall x <- items ensures !Touches(x, experts, k) {
        ItemsMembers(start, numLayers, x);
        TouchesName(x, experts, k);
      }
      MergedOther(sd, items, experts, k);
    }
  }

  lemma SplitKeeps(sd: Dict, x: Item, experts: nat, k: string)
    requires Splittable(sd, x, experts) && (StackedKey(x.layer, x.proj) in sd ==> !Touches(x, experts, k))
    ensures SameAt(SplitOne(sd, x, experts), sd, k)
  {
    hide StackedKey, ExpertKeys, HasRows, Index;
    if StackedKey(x.layer, x.proj) in sd {
      RowKeys(sd[StackedKey(x.layer, x.proj)], x, experts);
      hide Rows;
    }
  }

  lemma StackedElsewhere(sd: Dict, x: Item, y: Item, experts: nat)
    requires Known(x) && Known(y) && x != y && Splittable(sd, y, experts)
    ensures SameAt(SplitOne(sd, y, experts), sd, StackedKey(x.layer, x.proj))
    ensures Splittable(SplitOne(sd, y, experts), x, experts) <==> Splittable(sd, x, experts)
  {
    hide StackedKey, SplitOne, Known;
    assert Touches(x, experts, StackedKey(x.layer, x.proj));
    TouchesOne(x, y, experts, StackedKey(x.layer, x.proj));
    SplitKeeps(sd, y, experts, StackedKey(x.layer, x.proj));
  }

  /** Unstacking succeeds exactly when every stacked tensor has a row for each expert. */
  lemma {:induction false} SplitAllIff(sd: Dict, items: seq<Item>, experts: nat)
    requires Distinct(items)
    ensures SplitAll(sd, items, experts).Some? <==> forall x <- items :: Splittable(sd, x, experts)
    decreases |items|
  {
    hide Splittable, SplitOne, StackedKey, Known;
    if items != [] {
      var y, rest := items[0], items[1..];
      assert items == [y] + rest;
      if Splittable(sd, y, experts) {
        SplitAllIff(SplitOne(sd, y, experts), rest, experts);
        forall x <- rest ensures Splittable(SplitOne(sd, y, experts), x, experts) <==> Splittable(sd, x, experts) {
          StackedElsewhere(sd, x, y, experts);
        }
      }
    }
  }

  lemma {:induction false} SplitOther(sd: Dict, items: seq<Item>, experts: nat, k: string)
    requires Distinct(items) && SplitAll(sd, items, experts).Some?
    requires forall x <- items :: StackedKey(x.layer, x.proj) in sd ==> !Touches(x, experts, k)
    ensures SameAt(SplitAll(sd, items, experts).value, sd, k)
    decreases |items|
  {
    hide Splittable, SplitOne, StackedKey, Known, Touches;
    if items != [] {
      var y, rest := items[0], items[1..];
      assert items == [y] + rest;
      SplitKeeps(sd, y, experts, k);
      forall x <- rest ensures SameAt(SplitOne(sd, y, experts), sd, StackedKey(x.layer, x.proj)) {
        StackedElsewhere(sd, x, y, experts);
      }
      SplitOther(SplitOne(sd, y, experts), rest, experts, k);
    }
  }

  /** The rows of one stacked tensor, under the experts' keys. */
  ghost predicate RowsOut(sd: Dict, d: Dict, x: Item, experts: nat) {
    var key := StackedKey(x.layer, x.proj);
    && key !in d
    && (key in sd ==>
          && HasRows(sd[key], experts)
          && forall j: nat | j < experts ::
            ExpertKey(x.layer, j, x.proj) in d && d[ExpertKey(x.layer, j, x.proj)] == Index(sd[key], j))
  }

  lemma SplitOneOut(sd: Dict, x: Item, experts: nat)
    requires Known(x) && Splittable(sd, x, experts)
    ensures RowsOut(sd, SplitOne(sd, x, experts), x, experts)
  {
    forall j: nat ensures ExpertKey(x.layer, j, x.proj) != StackedKey(x.layer, x.proj) {
      KeysDiffer(x.layer, j, x.proj, x.layer, x.proj);
    }
    ExpertKeysInjective(x);
    hide ExpertKey, StackedKey, Index;
  }

  lemma {:induction false} SplitItem(sd: Dict, items: seq<Item>, experts: nat, x: Item)
    requires Distinct(items) && SplitAll(sd, items, experts).Some? && x in items
    ensures RowsOut(sd, SplitAll(sd, items, experts).value, x, experts)
    decreases |items|
  {
    hide Splittable, SplitOne, StackedKey, ExpertKey, Known, Touches, RowsOut;
    var y, rest := items[0], items[1..];
    assert items == [y] + rest;
    var m := SplitOne(sd, y, experts);
    if x == y {
      SplitOneOut(sd, x, experts);
      forall k | Touches(x, experts, k) ensures SameAt(SplitAll(m, rest, experts).value, m, k) {
        forall z <- rest ensures !Touches(z, experts, k) {
          TouchesOne(x, z, experts, k);
        }
        SplitOther(m, rest, experts, k);
      }
      RowsOutKept(sd, m, SplitAll(m, rest, experts).value, x, experts);
    } else {
      SplitItem(m, rest, experts, x);
      StackedElsewhere(sd, x, y, experts);
      SameRowsOut(sd, m, SplitAll(m, rest, experts).value, x, experts);
    }
  }

  lemma RowsOutKept(sd: Dict, m: Dict, d: Dict, x: Item, experts: nat)
    requires RowsOut(sd, m, x, experts) && forall k | Touches(x, experts, k) :: SameAt(d, m, k)
    ensures RowsOut(sd, d, x, experts)
  {
    hide ExpertKey, StackedKey, Index;
    assert Touches(x, experts, StackedKey(x.layer, x.proj));
    forall j: nat | j < experts ensures SameAt(d, m, ExpertKey(x.layer, j, x.proj)) {
      assert ExpertKey(x.layer, j, x.proj) in ExpertKeys(x, experts);
      assert Touches(x, experts, ExpertKey(x.layer, j, x.proj));
    }
  }

  lemma SameRowsOut(sd: Dict, m: Dict, d: Dict, x: Item, experts: nat)
    requires RowsOut(m, d, x, experts) && SameAt(m, sd, StackedKey(x.layer, x.proj))
    ensures RowsOut(sd, d, x, experts)
  {
    hide ExpertKey, StackedKey, Index;
  }

  /** A stacked tensor, if there is one, has a row for each expert. */
  ghost predicate CanUnstack(sd: Dict, layer: nat, proj: string, experts: nat) {
    var key := "model.layers." + Decimal(layer) + ".mlp.experts." + proj;
    key in sd ==> experts == 0 || (sd[key].shape != [] && experts <= sd[key].shape[0])
  }

  /** When unstacking succeeds. */
  lemma UnstackingSucceedsIff(sd: Dict, numLayers: nat, experts: nat)
    ensures SplitAll(sd, Items(0, numLayers), experts).Some? <==>
      forall layer, proj | 0 <= layer < numLayers && proj in {"gate_proj", "up_proj", "down_proj"} ::
        CanUnstack(sd, layer, proj, experts)
  {
    hide SplitAll, Known, Distinct;
    var items := Items(0, numLayers);
    ItemsDistinct(0, numLayers);
    SplitAllIff(sd, items, experts);
    forall x: Item
      ensures x in items <==> 0 <= x.layer < numLayers && x.proj in {"gate_proj", "up_proj", "down_proj"}
      ensures Splittable(sd, x, experts) <==> CanUnstack(sd, x.layer, x.proj, experts)
    {
      ItemsMembers(0, numLayers, x);
    }
    hide Splittable, CanUnstack, Items;
    if SplitAll(sd, items, experts).Some? {
      forall layer, proj | 0 <= layer < numLayers && proj in {"gate_proj", "up_proj", "down_proj"}
        ensures CanUnstack(sd, layer, proj, experts)
      {
        assert Item(layer, proj) in items && Splittable(sd, Item(layer, proj), experts);
      }
    }
  }

  ghost predicate NotStacked(d: Dict, layer: nat, proj: string) {
    "model.layers." + Decimal(layer) + ".mlp.experts." + proj !in d
  }

  /** Where sd has a stacked tensor, its row j is expert j's weight in d. */
  ghost predicate RowUnstacked(sd: Dict, d: Dict, layer: nat, proj: string, j: nat) {
    var key := "model.layers." + Decimal(layer) + ".mlp.experts." + proj;
    var expertKey := "model.layers." + Decimal(layer) + ".mlp.experts." + Decimal(j) + "." + proj + ".weight";
    key in sd ==>
      && expertKey in d && sd[key].shape != [] && j < sd[key].shape[0]
      && d[expertKey].shape == sd[key].shape[1..] && RowIs(sd[key], j, d[expertKey])
  }

  /** k is a stacked tensor's name in sd, or the name of one of its experts. */
  ghost predicate UnstackedName(sd: Dict, k: string, numLayers: nat, experts: nat) {
    exists layer, proj | 0 <= layer < numLayers && proj in {"gate_proj", "up_proj", "down_proj"} ::
      !NotStacked(sd, layer, proj) && NameOf(k, layer, proj, experts)
  }

  lemma IndexRow(t: Array, j: nat)
    requires t.shape != [] && j < t.shape[0]
    ensures Index(t, j).shape == t.shape[1..] && RowIs(t, j, Index(t, j))
  {
    MulBounds(j, Numel(t.shape[1..]), t.shape[0]);
    assert Numel(t.shape) == t.shape[0] * Numel(t.shape[1..]);
  }

  lemma RowsOutUnstacked(sd: Dict, d: Dict, x: Item, experts: nat, j: nat)
    requires RowsOut(sd, d, x, experts) && j < experts
    ensures RowUnstacked(sd, d, x.layer, x.proj, j)
  {
    hide Index, RowIs;
    var key := StackedKey(x.layer, x.proj);
    if key in sd {
      IndexRow(sd[key], j);
      assert ExpertKey(x.layer, j, x.proj) in d;
    }
  }

  /** The unstacked checkpoint, from any dictionary: stacked tensors are replaced by their rows, all else stays. */
  lemma UnstackedCheckpoint(sd: Dict, numLayers: nat, experts: nat)
    requires SplitAll(sd, Items(0, numLayers), experts).Some?
    ensures forall layer, proj, j | 0 <= layer < numLayers && proj in {"gate_proj", "up_proj", "down_proj"}
      && 0 <= j < experts ::
      RowUnstacked(sd, SplitAll(sd, Items(0, numLayers), experts).value, layer, proj, j)
    ensures forall layer, proj | 0 <= layer < numLayers && proj in {"gate_proj", "up_proj", "down_proj"} ::
      NotStacked(SplitAll(sd, Items(0, numLayers), experts).value, layer, proj)
    ensures forall k | !UnstackedName(sd, k, numLayers, experts) ::
      SameAt(SplitAll(sd, Items(0, numLayers), experts).value, sd, k)
  {
    hide SplitAll, RowUnstacked, NameOf, Touches, SameAt, Distinct;
    var items := Items(0, numLayers);
    ItemsDistinct(0, numLayers);
    forall layer, proj | 0 <= layer < numLayers && proj in {"gate_proj", "up_proj", "down_proj"}
      ensures RowsOut(sd, SplitAll(sd, items, experts).value, Item(layer, proj), experts)
      ensures NotStacked(SplitAll(sd, items, experts).value, layer, proj)
    {
      ItemsMembers(0, numLayers, Item(layer, proj));
      SplitItem(sd, items, experts, Item(layer, proj));
    }
    forall layer, proj, j | 0 <= layer < numLayers && proj in {"gate_proj", "up_proj", "down_proj"}
      && 0 <= j < experts
      ensures RowUnstacked(sd, SplitAll(sd, items, experts).value, layer, proj, j)
    {
      RowsOutUnstacked(sd, SplitAll(sd, items, experts).value, Item(layer, proj), experts, j);
    }
    forall k | !UnstackedName(sd, k, numLayers, experts)
      ensures SameAt(SplitAll(sd, items, experts).value, sd, k)
    {
      forall x <- items ensures StackedKey(x.layer, x.proj) in sd ==> !Touches(x, experts, k) {
        ItemsMembers(0, numLayers, x);
        TouchesName(x, experts, k);
      }
      SplitOther(sd, items, experts, k);
    }
  }
}
