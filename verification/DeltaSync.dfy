/**
 A delta sync as a whole (verl/verl/checkpoint_engine/delta_checkpoint_engine.py): every trainer rank diffs
 its shards against its snapshot and issues gathers in lockstep; rank 0 turns what it gathers into entries;
 the rollout side applies them. Ranks outside a parameter's gather group, and ranks that do not contribute
 to it, count as ranks with an empty shard.
*/
module DeltaSync {
  import opened Arithmetic
  import opened Weights
  import opened DeltaWire
  import opened DeltaStream
  import opened SparseGather

  type Shards = seq<seq<Value>>

  /** A tensor that the converter makes: each of its elements is a copy of an element of some rank's shard. */
  datatype HfTensor = HfTensor(name: string, shape: seq<nat>, source: seq<(nat, nat)>)

  /**
   Without a converter (`to_hf is None`) the shards tile the full tensor. With one, rank 0 rebuilds every
   rank's shard in the size of its own local shard, whether or not it contributes that.
  */
  datatype Profile = Placed(shape: seq<nat>) | Converted(tensors: seq<HfTensor>, localSize: nat)

  datatype Param = Param(name: string, dtype: Dtype, group: Option<nat>, profile: Profile)

  predicate SourceOk(t: HfTensor, shards: Shards) {
    && |t.source| == Numel(t.shape)
    && forall j | 0 <= j < |t.source| :: t.source[j].0 < |shards| && t.source[j].1 < |shards[t.source[j].0]|
  }

  function ToHf(t: HfTensor, shards: Shards): (r: seq<Value>)
    requires SourceOk(t, shards)
    ensures |r| == Numel(t.shape)
  {
    seq(|t.source|, j requires 0 <= j < |t.source| => shards[t.source[j].0][t.source[j].1])
  }

  /** What the trainer guarantees of a parameter's shards. */
  predicate ShardsOk(p: Param, shards: Shards) {
    && shards != []
    && match p.profile
      case Placed(shape) =>
        |Concat(shards)| == Numel(shape) && (p.group.None? ==> forall r | 0 < r < |shards| :: shards[r] == [])
      case Converted(tensors, localSize) =>
        && (forall r | 0 <= r < |shards| :: |shards[r]| <= localSize)
        && forall a | 0 <= a < |tensors| :: SourceOk(tensors[a], shards)
  }

  function Count(p: Param): nat {
    if p.profile.Placed? then 1 else |p.profile.tensors|
  }

  function NameOf(p: Param, a: nat): string
    requires a < Count(p)
  {
    if p.profile.Placed? then p.name else p.profile.tensors[a].name
  }

  function ShapeOf(p: Param, a: nat): seq<nat>
    requires a < Count(p)
  {
    if p.profile.Placed? then p.profile.shape else p.profile.tensors[a].shape
  }

  /** The trainer's tensor a of parameter p. */
  function Exported(p: Param, shards: Shards, a: nat): (r: seq<Value>)
    requires ShardsOk(p, shards) && a < Count(p)
    ensures |r| == Numel(ShapeOf(p, a))
  {
    if p.profile.Placed? then Concat(shards) else ToHf(p.profile.tensors[a], shards)
  }

  /**
   The elements of that tensor: without a converter those of rank r's shard follow those of the ranks before it,
   with one each is a copy of the element its source names.
  */
  lemma ExportedAt(p: Param, shards: Shards, a: nat)
    requires ShardsOk(p, shards) && a < Count(p)
    ensures p.profile.Placed? ==> forall r, x | 0 <= r < |shards| && 0 <= x < |shards[r]| ::
      PlacedAt(shards, r, x, Exported(p, shards, a))
    ensures p.profile.Converted? ==> var source := p.profile.tensors[a].source;
      |Exported(p, shards, a)| == |source|
      && forall j | 0 <= j < |source| :: Exported(p, shards, a)[j] == shards[source[j].0][source[j].1]
  {
    hide Concat, Numel;
    if p.profile.Placed? {
      forall r, x | 0 <= r < |shards| && 0 <= x < |shards[r]| ensures PlacedAt(shards, r, x, Exported(p, shards, a)) {
        ConcatAt(shards, r, x);
      }
    }
  }

  ghost predicate PlacedAt(shards: Shards, r: nat, x: nat, full: seq<Value>)
    requires r < |shards| && x < |shards[r]|
  {
    var at := Sum(ShardSizes(shards)[..r]) + x;
    at < |full| && full[at] == shards[r][x]
  }

  // ---------- what one sync sends for a tensor ----------

  /** The NaN-sentinel buffer: the shard of rank 0's size with only the changed elements filled in. */
  function Rebuilt(d: Delta, n: nat): (r: seq<Value>)
    requires |d.idx| == |d.values| && forall i | 0 <= i < |d.idx| :: d.idx[i] < n
    ensures |r| == n
  {
    Scatter(Unchanged(n), d.idx, d.values)
  }

  /** `(~isnan(fl)).nonzero()` and the values there. */
  function Marked(fl: seq<Value>): (d: Delta)
    ensures |d.idx| == |d.values|
  {
    if fl == [] then Delta([], [])
    else
      var n := |fl| - 1;
      var d := Marked(fl[..n]);
      if fl[n].NaN? then d else Delta(d.idx + [n], d.values + [fl[n]])
  }

  lemma {:induction false} MarkedExact(fl: seq<Value>, i: nat)
    ensures At(Marked(fl).idx, Marked(fl).values, i) == if i < |fl| && fl[i].Number? then Some(fl[i]) else None
  {
    hide At;
    if fl == [] {
      AtNothing(i);
    } else {
      var n := |fl| - 1;
      MarkedExact(fl[..n], i);
      AtOneMore(Marked(fl[..n]).idx, Marked(fl[..n]).values, n, fl[n], i);
    }
  }

  lemma {:induction false} MarkedIncreasing(fl: seq<Value>)
    ensures Increasing(Marked(fl).idx) && Below(Marked(fl).idx, |fl|)
  {
    if fl != [] {
      MarkedIncreasing(fl[..|fl| - 1]);
    }
  }

  ghost predicate Comparable(p: Param, was: Shards, now: Shards) {
    ShardsOk(p, was) && ShardsOk(p, now) && SameShape(was, now)
  }

  ghost function RebuiltShards(was: Shards, now: Shards, size: nat): Shards
    requires SameShape(was, now) && forall r | 0 <= r < |now| :: |now[r]| <= size
  {
    seq(|now|, r requires 0 <= r < |now| =>
      DiffIncreasing(now[r], was[r], 0);
      Rebuilt(Diff(now[r], was[r], 0), size))
  }

  /** The delta that rank 0 arrives at for tensor a. */
  ghost function TensorDelta(p: Param, was: Shards, now: Shards, a: nat): (d: Delta)
    requires Comparable(p, was, now) && a < Count(p)
    ensures |d.idx| == |d.values|
  {
    if p.profile.Placed? then
      ConcatSameShape(now, was);
      Diff(Concat(now), Concat(was), 0)
    else Marked(ToHf(p.profile.tensors[a], RebuiltShards(was, now, p.profile.localSize)))
  }

  ghost function TensorEntry(p: Param, was: Shards, now: Shards, a: nat): Entry
    requires Comparable(p, was, now) && a < Count(p)
  {
    var d := TensorDelta(p, was, now, a);
    Entry(NameOf(p, a), p.dtype, ShapeOf(p, a), Some(d.idx), d.values)
  }

  lemma RebuiltAt(was: Shards, now: Shards, size: nat, r: nat, x: nat)
    requires SameShape(was, now) && r < |now| && x < |now[r]|
    requires forall q | 0 <= q < |now| :: |now[q]| <= size
    ensures RebuiltShards(was, now, size)[r][x] == if now[r][x] != was[r][x] then now[r][x] else UNCHANGED
  {
    var d := Diff(now[r], was[r], 0);
    DiffIncreasing(now[r], was[r], 0);
    DiffExact(now[r], was[r], 0, x);
    ScatterAt(Unchanged(size), d.idx, d.values, x);
  }

  /** The entry is well formed, and its effect on element j: a changed number overwrites, all else stays. */
  lemma EntryEffect(p: Param, was: Shards, now: Shards, a: nat, v: Value, j: nat)
    requires Comparable(p, was, now) && a < Count(p) && j < Numel(ShapeOf(p, a))
    ensures var d, x, y := TensorDelta(p, was, now, a), Exported(p, was, a)[j], Exported(p, now, a)[j];
      Updated(v, d.idx, d.values, j) == if x != y && y.Number? then y else v
  {
    hide Numel, At, Diff, Marked, Concat;
    if p.profile.Placed? {
      ConcatSameShape(now, was);
      DiffExact(Concat(now), Concat(was), 0, j);
    } else {
      var t := p.profile.tensors[a];
      RebuiltAt(was, now, p.profile.localSize, t.source[j].0, t.source[j].1);
      MarkedExact(ToHf(t, RebuiltShards(was, now, p.profile.localSize)), j);
    }
  }

  lemma EntryValid(p: Param, was: Shards, now: Shards, a: nat)
    requires Comparable(p, was, now) && a < Count(p)
    ensures var e := TensorEntry(p, was, now, a);
      ValidEntry(e) && e.positions.Some? && Increasing(e.positions.value)
  {
    hide Numel;
    if p.profile.Placed? {
      ConcatSameShape(now, was);
      DiffIncreasing(Concat(now), Concat(was), 0);
    } else {
      MarkedIncreasing(ToHf(p.profile.tensors[a], RebuiltShards(was, now, p.profile.localSize)));
    }
  }

  // ---------- what one sync does to the live weights ----------

  /** The first sync sends tensors densely; later ones send what differs from the previous shards. */
  ghost predicate Sendable(p: Param, prev: Option<Shards>, now: Shards) {
    ShardsOk(p, now) && (prev.Some? ==> Comparable(p, prev.value, now))
  }

  ghost function SentEntry(p: Param, prev: Option<Shards>, now: Shards, a: nat): Entry
    requires Sendable(p, prev, now) && a < Count(p)
  {
    if prev.None? then Entry(NameOf(p, a), p.dtype, ShapeOf(p, a), None, Exported(p, now, a))
    else TensorEntry(p, prev.value, now, a)
  }

  /** Element j of tensor a on the rollout side after the entry, when it was v before. */
  ghost function Stepped(p: Param, prev: Option<Shards>, now: Shards, a: nat, j: nat, v: Value): Value
    requires Sendable(p, prev, now) && a < Count(p) && j < Numel(ShapeOf(p, a))
  {
    var y := Exported(p, now, a)[j];
    if prev.None? then y
    else if Exported(p, prev.value, a)[j] != y && y.Number? then y else v
  }

  ghost function ParamEntries(p: Param, prev: Option<Shards>, now: Shards, c: nat): seq<Entry>
    requires Sendable(p, prev, now) && c <= Count(p)
  {
    if c == 0 then [] else ParamEntries(p, prev, now, c - 1) + [SentEntry(p, prev, now, c - 1)]
  }

  type World = seq<Shards>

  ghost predicate AllSendable(params: seq<Param>, prev: Option<World>, now: World) {
    && |now| == |params| && (prev.Some? ==> |prev.value| == |params|)
    && forall i | 0 <= i < |params| :: Sendable(params[i], Prev(prev, i), now[i])
  }

  ghost function Prev(prev: Option<World>, i: nat): Option<Shards>
    requires prev.Some? ==> i < |prev.value|
  {
    if prev.None? then None else Some(prev.value[i])
  }

  /** The entries of the parameters in the given order. */
  ghost function OrderEntries(params: seq<Param>, prev: Option<World>, now: World, order: seq<nat>): seq<Entry>
    requires AllSendable(params, prev, now) && Below(order, |params|)
  {
    if order == [] then []
    else
      var i := order[|order| - 1];
      OrderEntries(params, prev, now, order[..|order| - 1])
        + ParamEntries(params[i], Prev(prev, i), now[i], Count(params[i]))
  }

  ghost predicate DistinctTensors(params: seq<Param>) {
    forall i, a, j, b | 0 <= i < |params| && 0 <= a < Count(params[i]) && 0 <= j < |params| && 0 <= b < Count(params[j])
        && NameOf(params[i], a) == NameOf(params[j], b) :: i == j && a == b
  }

  /** The live weights have every tensor, with the right number of elements. */
  ghost predicate HasTensors(m: LiveWeights, p: Param) {
    forall a | 0 <= a < Count(p) :: NameOf(p, a) in m && |m[NameOf(p, a)]| == Numel(ShapeOf(p, a))
  }

  ghost predicate HasAllTensors(m: LiveWeights, params: seq<Param>) {
    forall i | 0 <= i < |params| :: HasTensors(m, params[i])
  }

  lemma SentFits(m: LiveWeights, p: Param, prev: Option<Shards>, now: Shards, a: nat)
    requires HasTensors(m, p) && Sendable(p, prev, now) && a < Count(p)
    ensures Fits(m, SentEntry(p, prev, now, a))
  {
    hide Numel;
    if prev.Some? {
      EntryValid(p, prev.value, now, a);
    }
  }

  lemma SentEffect(m: LiveWeights, p: Param, prev: Option<Shards>, now: Shards, a: nat, j: nat)
    requires HasTensors(m, p) && Sendable(p, prev, now) && a < Count(p) && j < Numel(ShapeOf(p, a))
    ensures Fits(m, SentEntry(p, prev, now, a))
    ensures ApplyEntry(m, SentEntry(p, prev, now, a))[NameOf(p, a)][j] ==
      Stepped(p, prev, now, a, j, m[NameOf(p, a)][j])
  {
    SentFits(m, p, prev, now, a);
    hide Numel, Comparable, TensorDelta, Exported, ShardsOk;
    ApplyEntryAt(m, SentEntry(p, prev, now, a), j);
    if prev.Some? {
      EntryEffect(p, prev.value, now, a, m[NameOf(p, a)][j], j);
    }
  }

  lemma ParamSplit(p: Param, prev: Option<Shards>, now: Shards, c: nat)
    requires Sendable(p, prev, now) && 0 < c <= Count(p)
    ensures var es := ParamEntries(p, prev, now, c);
      es != [] && es[..|es| - 1] == ParamEntries(p, prev, now, c - 1) && es[|es| - 1] == SentEntry(p, prev, now, c - 1)
  {
    hide Sendable, SentEntry;
  }

  lemma FitOneMore(m: LiveWeights, es: seq<Entry>, e: Entry)
    requires AllFit(m, es) && Fits(m, e)
    ensures AllFit(m, es + [e])
  {
    hide Fits;
  }

  lemma SentName(p: Param, prev: Option<Shards>, now: Shards, a: nat)
    requires Sendable(p, prev, now) && a < Count(p)
    ensures SentEntry(p, prev, now, a).name == NameOf(p, a)
  {
    hide Exported, TensorDelta;
  }

  lemma {:induction false} ParamNames(p: Param, prev: Option<Shards>, now: Shards, c: nat)
    requires Sendable(p, prev, now) && c <= Count(p)
    ensures forall e <- ParamEntries(p, prev, now, c) :: exists a | 0 <= a < c :: e.name == NameOf(p, a)
  {
    hide Sendable, SentEntry, NameOf, Count;
    if c > 0 {
      ParamNames(p, prev, now, c - 1);
      SentName(p, prev, now, c - 1);
    }
  }

  lemma {:induction false} ParamEntriesFit(m: LiveWeights, p: Param, prev: Option<Shards>, now: Shards, c: nat)
    requires HasTensors(m, p) && Sendable(p, prev, now) && c <= Count(p)
    ensures AllFit(m, ParamEntries(p, prev, now, c))
    ensures forall e <- ParamEntries(p, prev, now, c) :: exists a | 0 <= a < c :: e.name == NameOf(p, a)
  {
    hide Fits, Sendable, HasTensors, SentEntry, NameOf, Count;
    ParamNames(p, prev, now, c);
    if c > 0 {
      ParamEntriesFit(m, p, prev, now, c - 1);
      SentFits(m, p, prev, now, c - 1);
      FitOneMore(m, ParamEntries(p, prev, now, c - 1), SentEntry(p, prev, now, c - 1));
    }
  }

  /** A tensor that no entry names keeps its value. */
  lemma {:induction false} Untouched(m: LiveWeights, es: seq<Entry>, name: string)
    requires AllFit(m, es) && name in m && forall e <- es :: e.name != name
    ensures Apply(m, es)[name] == m[name]
  {
    hide Fits, SameSizes;
    if es != [] {
      Untouched(m, es[..|es| - 1], name);
      assert Fits(m, es[|es| - 1]);
      LastFits(m, es);
      assert es[|es| - 1] in es;
    }
  }

  lemma LastFits(m: LiveWeights, es: seq<Entry>)
    requires AllFit(m, es) && es != []
    ensures AllFit(m, es[..|es| - 1]) && Fits(Apply(m, es[..|es| - 1]), es[|es| - 1])
    ensures Apply(m, es) == ApplyEntry(Apply(m, es[..|es| - 1]), es[|es| - 1])
  {
    hide Numel, ValidEntry, ApplyEntry;
    assert Fits(m, es[|es| - 1]);
  }

  lemma StillHas(m: LiveWeights, m': LiveWeights, p: Param)
    requires HasTensors(m, p) && SameSizes(m, m')
    ensures HasTensors(m', p)
  {
    hide Numel;
  }

  lemma ParamLast(m: LiveWeights, p: Param, prev: Option<Shards>, now: Shards, c: nat)
    requires HasTensors(m, p) && Sendable(p, prev, now) && 0 < c <= Count(p)
    ensures AllFit(m, ParamEntries(p, prev, now, c)) && AllFit(m, ParamEntries(p, prev, now, c - 1))
    ensures var m1 := Apply(m, ParamEntries(p, prev, now, c - 1));
      && HasTensors(m1, p) && Fits(m1, SentEntry(p, prev, now, c - 1))
      && Apply(m, ParamEntries(p, prev, now, c)) == ApplyEntry(m1, SentEntry(p, prev, now, c - 1))
  {
    hide Fits, AllFit, Sendable, Numel, Apply, ApplyEntry, SentEntry, ParamEntries, HasTensors, SameSizes, Count;
    ParamEntriesFit(m, p, prev, now, c);
    ParamEntriesFit(m, p, prev, now, c - 1);
    ParamSplit(p, prev, now, c);
    LastFits(m, ParamEntries(p, prev, now, c));
    StillHas(m, Apply(m, ParamEntries(p, prev, now, c - 1)), p);
  }

  /** After its entries, tensor a of a parameter has been stepped, and no other tensor has changed. */
  lemma {:induction false} ParamEffect(m: LiveWeights, params: seq<Param>, i: nat, prev: Option<Shards>, now: Shards,
                                       c: nat, a: nat, j: nat)
    requires DistinctTensors(params) && i < |params| && HasTensors(m, params[i]) && Sendable(params[i], prev, now)
    requires a < c <= Count(params[i]) && j < Numel(ShapeOf(params[i], a))
    ensures AllFit(m, ParamEntries(params[i], prev, now, c))
    ensures Apply(m, ParamEntries(params[i], prev, now, c))[NameOf(params[i], a)][j] ==
      Stepped(params[i], prev, now, a, j, m[NameOf(params[i], a)][j])
  {
    hide Fits, Sendable, Stepped, Numel, ApplyEntry, Apply, ParamEntries, TensorDelta, Exported;
    var p := params[i];
    ParamLast(m, p, prev, now, c);
    var m1 := Apply(m, ParamEntries(p, prev, now, c - 1));
    assert SentEntry(p, prev, now, c - 1).name == NameOf(p, c - 1);
    if a < c - 1 {
      ParamEffect(m, params, i, prev, now, c - 1, a, j);
      assert NameOf(p, a) != NameOf(p, c - 1);
      EntryLeaves(m1, SentEntry(p, prev, now, c - 1), NameOf(p, a));
    } else {
      EarlierLeave(m, params, i, prev, now, c - 1, a);
      SentEffect(m1, p, prev, now, a, j);
    }
  }

  lemma EarlierLeave(m: LiveWeights, params: seq<Param>, i: nat, prev: Option<Shards>, now: Shards, c: nat, a: nat)
    requires DistinctTensors(params) && i < |params| && HasTensors(m, params[i]) && Sendable(params[i], prev, now)
    requires c <= a < Count(params[i])
    ensures AllFit(m, ParamEntries(params[i], prev, now, c))
    ensures Apply(m, ParamEntries(params[i], prev, now, c))[NameOf(params[i], a)] == m[NameOf(params[i], a)]
  {
    hide Fits, Sendable, Apply, ParamEntries;
    ParamEntriesFit(m, params[i], prev, now, c);
    Untouched(m, ParamEntries(params[i], prev, now, c), NameOf(params[i], a));
  }

  lemma EntryLeaves(m: LiveWeights, e: Entry, name: string)
    requires Fits(m, e) && name in m && e.name != name
    ensures ApplyEntry(m, e)[name] == m[name]
  {
  }

  lemma {:induction false} OrderEntriesFit(m: LiveWeights, params: seq<Param>, prev: Option<World>, now: World,
                                           order: seq<nat>)
    requires AllSendable(params, prev, now) && HasAllTensors(m, params) && Below(order, |params|)
    ensures AllFit(m, OrderEntries(params, prev, now, order))
    ensures forall e <- OrderEntries(params, prev, now, order) ::
      exists k, a | 0 <= k < |order| && 0 <= a < Count(params[order[k]]) :: e.name == NameOf(params[order[k]], a)
  {
    hide Fits, Sendable, HasTensors;
    if order != [] {
      var i := order[|order| - 1];
      OrderEntriesFit(m, params, prev, now, order[..|order| - 1]);
      ParamEntriesFit(m, params[i], Prev(prev, i), now[i], Count(params[i]));
    }
  }

  ghost predicate NoRepeats(order: seq<nat>) {
    forall k, l | 0 <= k < l < |order| :: order[k] != order[l]
  }

  /** The entries of the last parameter in the order come after those of the others. */
  lemma OrderLast(m: LiveWeights, params: seq<Param>, prev: Option<World>, now: World, order: seq<nat>)
    requires AllSendable(params, prev, now) && HasAllTensors(m, params) && Below(order, |params|) && order != []
    ensures var rest, x := order[..|order| - 1], order[|order| - 1];
      var es := ParamEntries(params[x], Prev(prev, x), now[x], Count(params[x]));
      && AllFit(m, OrderEntries(params, prev, now, order)) && AllFit(m, OrderEntries(params, prev, now, rest))
      && var m1 := Apply(m, OrderEntries(params, prev, now, rest));
        && AllFit(m1, es) && SameSizes(m, m1) && Apply(m, OrderEntries(params, prev, now, order)) == Apply(m1, es)
  {
    hide Fits, AllFit, Sendable, HasTensors, Apply, ParamEntries, SameSizes, Count;
    var rest, x := order[..|order| - 1], order[|order| - 1];
    OrderEntriesFit(m, params, prev, now, order);
    OrderEntriesFit(m, params, prev, now, rest);
    assert Sendable(params[x], Prev(prev, x), now[x]) && HasTensors(m, params[x]);
    ParamEntriesFit(m, params[x], Prev(prev, x), now[x], Count(params[x]));
    ApplyConcat(m, OrderEntries(params, prev, now, rest),
                ParamEntries(params[x], Prev(prev, x), now[x], Count(params[x])));
  }

  /** The last parameter in the order has not been sent before: its tensors are still as they were. */
  lemma NotYetSent(m: LiveWeights, params: seq<Param>, prev: Option<World>, now: World, rest: seq<nat>, i: nat, a: nat)
    requires DistinctTensors(params) && AllSendable(params, prev, now) && HasAllTensors(m, params)
    requires Below(rest, |params|) && i < |params| && a < Count(params[i]) && i !in rest
    ensures AllFit(m, OrderEntries(params, prev, now, rest)) && NameOf(params[i], a) in m
    ensures Apply(m, OrderEntries(params, prev, now, rest))[NameOf(params[i], a)] == m[NameOf(params[i], a)]
  {
    hide Fits, AllFit, Sendable, Apply, OrderEntries, Numel;
    OrderEntriesFit(m, params, prev, now, rest);
    assert HasTensors(m, params[i]);
    Untouched(m, OrderEntries(params, prev, now, rest), NameOf(params[i], a));
  }

  /** The entries of one parameter leave the tensors of another one alone. */
  lemma OtherParam(m: LiveWeights, params: seq<Param>, prev: Option<World>, now: World, x: nat, i: nat, a: nat)
    requires DistinctTensors(params) && AllSendable(params, prev, now) && HasAllTensors(m, params)
    requires x < |params| && i < |params| && a < Count(params[i]) && x != i
    ensures var es := ParamEntries(params[x], Prev(prev, x), now[x], Count(params[x]));
      AllFit(m, es) && NameOf(params[i], a) in m && Apply(m, es)[NameOf(params[i], a)] == m[NameOf(params[i], a)]
  {
    hide Fits, AllFit, Sendable, Apply, ParamEntries, Numel;
    assert Sendable(params[x], Prev(prev, x), now[x]) && HasTensors(m, params[i]) && HasTensors(m, params[x]);
    ParamEntriesFit(m, params[x], Prev(prev, x), now[x], Count(params[x]));
    Untouched(m, ParamEntries(params[x], Prev(prev, x), now[x], Count(params[x])), NameOf(params[i], a));
  }

  lemma StillHasAll(m: LiveWeights, m': LiveWeights, params: seq<Param>)
    requires HasAllTensors(m, params) && SameSizes(m, m')
    ensures HasAllTensors(m', params)
  {
    forall i | 0 <= i < |params| ensures HasTensors(m', params[i]) {
      StillHas(m, m', params[i]);
    }
  }

  lemma OrderParts(order: seq<nat>, n: nat)
    requires Below(order, n) && NoRepeats(order) && order != []
    ensures var rest, x := order[..|order| - 1], order[|order| - 1];
      Below(rest, n) && NoRepeats(rest) && x !in rest && x < n && forall i :: i in order ==> i == x || i in rest
  {
    assert order == order[..|order| - 1] + [order[|order| - 1]];
  }

  /** Whatever the order in which the parameters are sent, each tensor is stepped once. */
  lemma {:induction false} SyncEffect(m: LiveWeights, params: seq<Param>, prev: Option<World>, now: World,
                                      order: seq<nat>, i: nat, a: nat, j: nat)
    requires DistinctTensors(params) && AllSendable(params, prev, now) && HasAllTensors(m, params)
    requires Below(order, |params|) && NoRepeats(order)
    requires i in order && i < |params| && a < Count(params[i]) && j < Numel(ShapeOf(params[i], a))
    ensures AllFit(m, OrderEntries(params, prev, now, order))
    ensures Apply(m, OrderEntries(params, prev, now, order))[NameOf(params[i], a)][j] ==
      Stepped(params[i], Prev(prev, i), now[i], a, j, m[NameOf(params[i], a)][j])
  {
    hide Fits, AllFit, Sendable, Stepped, Numel, Apply, ParamEntries, OrderEntries, NoRepeats, DistinctTensors, Count;
    hide SameSizes, HasTensors;
    var rest, x := order[..|order| - 1], order[|order| - 1];
    OrderParts(order, |params|);
    OrderLast(m, params, prev, now, order);
    var m1 := Apply(m, OrderEntries(params, prev, now, rest));
    StillHasAll(m, m1, params);
    if x == i {
      NotYetSent(m, params, prev, now, rest, i, a);
      assert Sendable(params[i], Prev(prev, i), now[i]) && HasTensors(m1, params[i]);
      ParamEffect(m1, params, i, Prev(prev, i), now[i], Count(params[i]), a, j);
    } else {
      SyncEffect(m, params, prev, now, rest, i, a, j);
      OtherParam(m1, params, prev, now, x, i, a);
    }
  }

  // ---------- agreement after any number of syncs ----------

  ghost predicate Agrees(m: LiveWeights, params: seq<Param>, ws: World)
    requires AllSendable(params, None, ws)
  {
    && HasAllTensors(m, params)
    && forall i, a | 0 <= i < |params| && 0 <= a < Count(params[i]) ::
      TensorAgrees(m, params[i], ws[i], a)
  }

  ghost predicate TensorAgrees(m: LiveWeights, p: Param, shards: Shards, a: nat)
    requires ShardsOk(p, shards) && HasTensors(m, p) && a < Count(p)
  {
    forall j | 0 <= j < Numel(ShapeOf(p, a)) :: m[NameOf(p, a)][j] == Exported(p, shards, a)[j]
  }

  /** No element changes to a NaN in this sync: the masked copy would take it for unchanged. */
  ghost predicate NoChangeToNaN(params: seq<Param>, was: World, now: World)
    requires AllSendable(params, Some(was), now)
  {
    forall i, a | 0 <= i < |params| && 0 <= a < Count(params[i]) :: TensorChangesToNumbers(params[i], was[i], now[i], a)
  }

  ghost predicate TensorChangesToNumbers(p: Param, was: Shards, now: Shards, a: nat)
    requires Comparable(p, was, now) && a < Count(p)
  {
    forall j | 0 <= j < Numel(ShapeOf(p, a)) ::
      Exported(p, was, a)[j] != Exported(p, now, a)[j] ==> Exported(p, now, a)[j].Number?
  }

  /** Every parameter is sent exactly once. */
  ghost predicate Complete(order: seq<nat>, n: nat) {
    Below(order, n) && NoRepeats(order) && forall i | 0 <= i < n :: i in order
  }

  ghost function Synced(m: LiveWeights, params: seq<Param>, prev: Option<World>, now: World,
                        order: seq<nat>): (r: LiveWeights)
    requires AllSendable(params, prev, now) && HasAllTensors(m, params) && Below(order, |params|)
    ensures HasAllTensors(r, params)
  {
    OrderEntriesFit(m, params, prev, now, order);
    Apply(m, OrderEntries(params, prev, now, order))
  }

  lemma SyncedTensor(m: LiveWeights, params: seq<Param>, was: World, now: World, order: seq<nat>, i: nat, a: nat)
    requires DistinctTensors(params) && AllSendable(params, Some(was), now) && AllSendable(params, None, was)
    requires Agrees(m, params, was)
    requires Complete(order, |params|) && i < |params| && a < Count(params[i])
    ensures TensorAgrees(Synced(m, params, Some(was), now, order), params[i], now[i], a)
      <==> TensorChangesToNumbers(params[i], was[i], now[i], a)
  {
    hide Numel, OrderEntries, Exported, Apply, Synced;
    assert i in order && TensorAgrees(m, params[i], was[i], a);
    forall j: nat | j < Numel(ShapeOf(params[i], a))
      ensures var x, y := Exported(params[i], was[i], a)[j], Exported(params[i], now[i], a)[j];
        Synced(m, params, Some(was), now, order)[NameOf(params[i], a)][j] == if x != y && y.Number? then y else x
    {
      SyncedElement(m, params, Some(was), now, order, i, a, j);
    }
  }

  lemma SyncedElement(m: LiveWeights, params: seq<Param>, prev: Option<World>, now: World, order: seq<nat>, i: nat,
                      a: nat, j: nat)
    requires DistinctTensors(params) && AllSendable(params, prev, now) && HasAllTensors(m, params)
    requires Complete(order, |params|) && i < |params| && a < Count(params[i]) && j < Numel(ShapeOf(params[i], a))
    ensures Synced(m, params, prev, now, order)[NameOf(params[i], a)][j] ==
      Stepped(params[i], Prev(prev, i), now[i], a, j, m[NameOf(params[i], a)][j])
  {
    SyncEffect(m, params, prev, now, order, i, a, j);
  }

  /** One sparse sync keeps the rollout weights equal to the trainer's exactly when no element changes to a NaN. */
  lemma SyncKeepsAgreement(m: LiveWeights, params: seq<Param>, was: World, now: World, order: seq<nat>)
    requires DistinctTensors(params) && AllSendable(params, Some(was), now) && AllSendable(params, None, was)
    requires Agrees(m, params, was) && Complete(order, |params|)
    ensures AllSendable(params, None, now)
    ensures Agrees(Synced(m, params, Some(was), now, order), params, now) <==> NoChangeToNaN(params, was, now)
  {
    assert forall i | 0 <= i < |params| :: Sendable(params[i], Prev(Some(was), i), now[i]);
    hide Numel, TensorAgrees, TensorChangesToNumbers, Synced;
    forall i, a | 0 <= i < |params| && 0 <= a < Count(params[i])
      ensures TensorAgrees(Synced(m, params, Some(was), now, order), params[i], now[i], a)
        <==> TensorChangesToNumbers(params[i], was[i], now[i], a)
    {
      SyncedTensor(m, params, was, now, order, i, a);
    }
  }

  lemma OneElement(v: Value, shards: Shards, p: Param)
    requires shards == [[v]] && p.profile == Placed([1]) && p.group.None?
    ensures ShardsOk(p, shards) && Numel([1]) == 1 && Exported(p, shards, 0) == [v]
  {
    assert [1][1..] == [] && Numel([1]) == 1 * Numel([]);
    assert shards[..0] == [] && Concat(shards) == [] + [v];
  }

  /** One parameter of one element, which becomes a NaN: the rollout side keeps the old number. */
  lemma ChangeToNaNIsLost(m: LiveWeights, now: Value)
    requires m == map["p" := [Number(1)]] && now.NaN?
    ensures var params, was, world := [Param("p", Dtype("float32", 4), None, Placed([1]))], [[[Number(1)]]], [[[now]]];
      && DistinctTensors(params) && AllSendable(params, Some(was), world) && AllSendable(params, None, was)
      && AllSendable(params, None, world) && Agrees(m, params, was) && HasAllTensors(m, params)
      && !Agrees(Synced(m, params, Some(was), world, [0]), params, world)
  {
    var p := Param("p", Dtype("float32", 4), None, Placed([1]));
    var params, was, world := [p], [[[Number(1)]]], [[[now]]];
    OneElement(Number(1), was[0], p);
    OneElement(now, world[0], p);
    assert Sendable(p, Some(was[0]), world[0]) && Sendable(p, None, was[0]);
    hide Numel, Exported, ShardsOk, Synced;
    assert HasTensors(m, p) && TensorAgrees(m, p, was[0], 0);
    SyncKeepsAgreement(m, params, was, world, [0]);
    assert !TensorChangesToNumbers(p, was[0], world[0], 0) by {
      assert Exported(p, was[0], 0)[0] != Exported(p, world[0], 0)[0];
    }
    assert params[0] == p;
  }

  /** A run: the first world is seeded densely, each later one is synced against its predecessor. */
  ghost predicate HistoryOk(params: seq<Param>, history: seq<World>) {
    && history != [] && AllSendable(params, None, history[0])
    && forall k | 0 < k < |history| :: AllSendable(params, Some(history[k - 1]), history[k])
  }

  ghost predicate OrdersOk(params: seq<Param>, orders: seq<seq<nat>>) {
    forall k | 0 <= k < |orders| :: Complete(orders[k], |params|)
  }

  ghost function Received(m: LiveWeights, params: seq<Param>, history: seq<World>,
                          orders: seq<seq<nat>>): (r: LiveWeights)
    requires HistoryOk(params, history) && OrdersOk(params, orders) && |orders| == |history| && HasAllTensors(m, params)
    ensures HasAllTensors(r, params)
  {
    var n := |history| - 1;
    if n == 0 then Synced(m, params, None, history[0], orders[0])
    else
      var before := Received(m, params, history[..n], orders[..n]);
      assert AllSendable(params, Some(history[n - 1]), history[n]);
      Synced(before, params, Some(history[n - 1]), history[n], orders[n])
  }

  lemma SeedAgrees(m: LiveWeights, params: seq<Param>, ws: World, order: seq<nat>)
    requires DistinctTensors(params) && AllSendable(params, None, ws) && HasAllTensors(m, params)
    requires Complete(order, |params|)
    ensures Agrees(Synced(m, params, None, ws, order), params, ws)
  {
    assert forall i | 0 <= i < |params| :: Sendable(params[i], Prev(None, i), ws[i]);
    hide Numel, Synced, Exported, OrderEntries;
    forall i, a, j: nat | 0 <= i < |params| && 0 <= a < Count(params[i]) && j < Numel(ShapeOf(params[i], a))
      ensures Synced(m, params, None, ws, order)[NameOf(params[i], a)][j] == Exported(params[i], ws[i], a)[j]
    {
      SyncedElement(m, params, None, ws, order, i, a, j);
    }
  }

  /** As long as no sync changes an element to a NaN, the rollout weights equal the trainer's after every one. */
  lemma {:induction false} SyncsAgree(m: LiveWeights, params: seq<Param>, history: seq<World>, orders: seq<seq<nat>>)
    requires HistoryOk(params, history) && OrdersOk(params, orders) && |orders| == |history| && HasAllTensors(m, params)
    requires DistinctTensors(params)
    requires forall k | 0 < k < |history| :: NoChangeToNaN(params, history[k - 1], history[k])
    ensures AllSendable(params, None, history[|history| - 1])
    ensures Agrees(Received(m, params, history, orders), params, history[|history| - 1])
  {
    hide Numel, Synced, Agrees, Complete, NoChangeToNaN;
    var n := |history| - 1;
    if n == 0 {
      SeedAgrees(m, params, history[0], orders[0]);
    } else {
      SyncsAgree(m, params, history[..n], orders[..n]);
      var before := Received(m, params, history[..n], orders[..n]);
      SyncKeepsAgreement(before, params, history[n - 1], history[n], orders[n]);
    }
  }

  /** The successive values of one element on the trainer. */
  ghost function Trace(params: seq<Param>, history: seq<World>, i: nat, a: nat, j: nat): (r: seq<Value>)
    requires HistoryOk(params, history) && i < |params| && a < Count(params[i]) && j < Numel(ShapeOf(params[i], a))
    ensures |r| == |history|
  {
    seq(|history|, k requires 0 <= k < |history| =>
      assert k > 0 ==> AllSendable(params, Some(history[k - 1]), history[k]);
      assert Sendable(params[i], if k == 0 then None else Prev(Some(history[k - 1]), i), history[k][i]);
      Exported(params[i], history[k][i], a)[j])
  }

  /** The most recent value that is a number, or the seeded value when none has followed it. */
  ghost function LastNumber(vs: seq<Value>): Value
    requires vs != []
  {
    if |vs| == 1 || vs[|vs| - 1].Number? then vs[|vs| - 1] else LastNumber(vs[..|vs| - 1])
  }

  lemma {:induction false} LastNumberCurrent(vs: seq<Value>)
    requires vs != []
    ensures vs[|vs| - 1].NaN? ==>
      (LastNumber(vs).NaN? <==> vs[0].NaN? && forall k | 1 <= k < |vs| :: vs[k].NaN?)
    ensures (forall k | 1 <= k < |vs| :: vs[k].NaN?) ==> LastNumber(vs) == vs[0]
  {
    if |vs| > 1 && vs[|vs| - 1].NaN? {
      var n := |vs| - 1;
      var init := vs[..n];
      LastNumberCurrent(init);
      assert forall k | 1 <= k < n :: init[k] == vs[k];
      assert (forall k | 1 <= k < |vs| :: vs[k].NaN?) <==> (forall k | 1 <= k < n :: init[k].NaN?);
    }
  }

  /** When the value that the rollout side ends up with is the trainer's current one. */
  lemma CurrentIff(vs: seq<Value>)
    requires vs != []
    ensures LastNumber(vs) == vs[|vs| - 1] <==>
      vs[|vs| - 1].Number? || (vs[0] == vs[|vs| - 1] && forall k | 1 <= k < |vs| :: vs[k].NaN?)
  {
    LastNumberCurrent(vs);
  }

  /**
   After any sequence of syncs, from any initial live weights and in any sending orders: each element on
   the rollout side is the last number that the trainer's element has been.
  */
  lemma {:induction false} ReceivedIsLastNumber(
      m: LiveWeights, params: seq<Param>, history: seq<World>, orders: seq<seq<nat>>, i: nat, a: nat, j: nat)
    requires HistoryOk(params, history) && OrdersOk(params, orders) && |orders| == |history| && HasAllTensors(m, params)
    requires DistinctTensors(params) && i < |params| && a < Count(params[i]) && j < Numel(ShapeOf(params[i], a))
    ensures Received(m, params, history, orders)[NameOf(params[i], a)][j] == LastNumber(Trace(params, history, i, a, j))
  {
    hide Numel, Synced, Exported, Sendable, Complete;
    var n := |history| - 1;
    var vs := Trace(params, history, i, a, j);
    if n == 0 {
      SyncedElement(m, params, None, history[0], orders[0], i, a, j);
    } else {
      var before := Received(m, params, history[..n], orders[..n]);
      ReceivedIsLastNumber(m, params, history[..n], orders[..n], i, a, j);
      assert vs[..n] == Trace(params, history[..n], i, a, j);
      assert AllSendable(params, Some(history[n - 1]), history[n]);
      SyncedElement(before, params, Some(history[n - 1]), history[n], orders[n], i, a, j);
    }
  }
}
