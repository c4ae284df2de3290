/**
 Rank 0 in a delta sync (verl/verl/checkpoint_engine/delta_checkpoint_engine.py): it gathers what the ranks
 pass in, streams it out as flushes, and the rollout side applies them.
*/
module DeltaRankZero {
  import opened Weights
  import opened DeltaWire
  import opened DeltaStream
  import opened SparseGather
  import opened DeltaSync
  import opened DeltaLockstep

  // ---------- slices of many entries ----------

  predicate AllPositioned(es: seq<Entry>) {
    forall k | 0 <= k < |es| :: es[k].positions.Some? && |es[k].positions.value| == |es[k].values|
  }

  function AllSlices(es: seq<Entry>): seq<Entry>
    requires AllPositioned(es)
  {
    if es == [] then [] else AllSlices(es[..|es| - 1]) + Slices(es[|es| - 1], 0, MAX_ENTRY_ELEMS)
  }

  ghost predicate Sliceable(es: seq<Entry>) {
    AllPositioned(es) && forall k | 0 <= k < |es| :: Increasing(es[k].positions.value)
  }

  lemma {:induction false} AllSlicesInvisible(m: LiveWeights, es: seq<Entry>)
    requires Sliceable(es) && AllFit(m, es)
    ensures AllFit(m, AllSlices(es)) && Apply(m, AllSlices(es)) == Apply(m, es)
  {
    hide Fits, ApplyEntry, Slices, SameSizes, Increasing;
    if es != [] {
      var n := |es| - 1;
      LastFits(m, es);
      AllSlicesInvisible(m, es[..n]);
      var m1 := Apply(m, es[..n]);
      SlicingInvisible(m1, es[n]);
      assert Fits(m, es[n]);
      SlicesFit(m, es[n]);
      ApplyConcat(m, AllSlices(es[..n]), Slices(es[n], 0, MAX_ENTRY_ELEMS));
    }
  }

  lemma SlicesFit(m: LiveWeights, e: Entry)
    requires Fits(m, e) && e.positions.Some?
    ensures AllFit(m, Slices(e, 0, MAX_ENTRY_ELEMS))
  {
    hide Numel;
    SlicesRestore(e, 0, MAX_ENTRY_ELEMS);
  }

  lemma {:induction false} AllSlicesConcat(a: seq<Entry>, b: seq<Entry>)
    requires AllPositioned(a) && AllPositioned(b)
    ensures AllPositioned(a + b) && AllSlices(a + b) == AllSlices(a) + AllSlices(b)
  {
    hide Slices;
    assert AllPositioned(a + b);
    if b == [] {
      assert a + b == a;
    } else {
      var n := |b| - 1;
      assert (a + b)[..|a| + n] == a + b[..n] && (a + b)[|a| + n] == b[n];
      AllSlicesConcat(a, b[..n]);
    }
  }

  // ---------- what the gathers return ----------

  /** Rank r's delta of a parameter, in terms of the shards of all ranks. */
  function ShardDelta(p: Param, was: Shards, now: Shards, r: nat): (d: Delta)
    requires r < |was| && r < |now| && |was[r]| == |now[r]|
    ensures |d.idx| == |d.values|
  {
    Diff(now[r], was[r], if p.profile.Placed? then |Concat(now[..r])| else 0)
  }

  /** A rank's own view of a parameter fits the view of all ranks. */
  lemma RankDeltaIsShardDelta(p: Param, local: LocalShard, snap: map<string, seq<Value>>, was: Shards, now: Shards,
                              r: nat)
    requires HasSnapshot(p, local, snap) && r < |was| && r < |now| && |was[r]| == |now[r]|
    requires now[r] == if local.contributes then local.data else []
    requires was[r] == if local.contributes then snap[p.name] else []
    requires p.profile.Placed? && local.contributes && local.data != [] ==> local.offset == |Concat(now[..r])|
    ensures RankDelta(p, local, snap) == ShardDelta(p, was, now, r)
  {
  }

  ghost predicate AllComparable(params: seq<Param>, was: World, now: World, world: nat) {
    && world > 0 && AllSendable(params, Some(was), now)
    && forall i | 0 <= i < |params| :: |now[i]| == world
  }

  /** The deltas that rank r passes to the gather of a batch. */
  ghost function BatchDeltas(params: seq<Param>, was: World, now: World, world: nat, members: seq<nat>,
                             r: nat): seq<Delta>
    requires AllComparable(params, was, now, world) && Below(members, |params|) && r < world
  {
    seq(|members|, k requires 0 <= k < |members| =>
      assert Sendable(params[members[k]], Prev(Some(was), members[k]), now[members[k]]);
      ShardDelta(params[members[k]], was[members[k]], now[members[k]], r))
  }

  ghost function Payloads(params: seq<Param>, was: World, now: World, world: nat, members: seq<nat>): seq<seq<Delta>>
    requires AllComparable(params, was, now, world) && Below(members, |params|)
  {
    seq(world, r requires 0 <= r < world => BatchDeltas(params, was, now, world, members, r))
  }

  /** The gather of a placed parameter returns the diff of its full tensor. */
  lemma GatheredPlaced(p: Param, was: Shards, now: Shards, column: seq<Delta>)
    requires Comparable(p, was, now) && p.profile.Placed? && |column| == |now|
    requires forall r | 0 <= r < |now| :: column[r] == ShardDelta(p, was, now, r)
    ensures Joined(column) == TensorDelta(p, was, now, 0)
    ensures p.group.None? ==> column[0] == TensorDelta(p, was, now, 0)
  {
    hide Numel, Diff, Joined, Concat;
    assert column == ShardDiffs(now, was);
    GatheredIsFullDiff(now, was);
    if p.group.None? {
      forall r | 0 < r < |column| ensures column[r] == Delta([], []) {
        NothingToDiff(|Concat(now[..r])|);
      }
      OnlyFirst(column);
    }
  }

  lemma NothingToDiff(offset: nat)
    ensures Diff([], [], offset) == Delta([], [])
  {
  }

  lemma {:induction false} OnlyFirst(column: seq<Delta>)
    requires column != [] && forall r | 0 < r < |column| :: column[r] == Delta([], [])
    ensures Joined(column) == column[0]
  {
    if |column| > 1 {
      OnlyFirst(column[..|column| - 1]);
    } else {
      assert Joined(column[..0]) == Delta([], []);
    }
  }

  // ---------- consuming a batch ----------

  /** The assertion of `_assemble_flush` holds for every tensor. */
  ghost predicate PositionsFit(params: seq<Param>) {
    forall i, a | 0 <= i < |params| && 0 <= a < Count(params[i]) :: Numel(ShapeOf(params[i], a)) < INT32_LIMIT
  }

  lemma {:induction false} ParamEntriesSliceable(p: Param, prev: Shards, now: Shards, c: nat)
    requires Comparable(p, prev, now) && c <= Count(p)
    ensures Sliceable(ParamEntries(p, Some(prev), now, c))
  {
    hide Numel, TensorDelta, Comparable;
    if c > 0 {
      ParamEntriesSliceable(p, prev, now, c - 1);
      EntryValid(p, prev, now, c - 1);
    }
  }

  lemma {:induction false} OrderEntriesSliceable(params: seq<Param>, prev: World, now: World, order: seq<nat>)
    requires AllSendable(params, Some(prev), now) && Below(order, |params|)
    ensures Sliceable(OrderEntries(params, Some(prev), now, order))
  {
    hide Sliceable;
    if order == [] {
      NothingSliceable();
    } else {
      var i := order[|order| - 1];
      var rest := order[..|order| - 1];
      OrderEntriesSliceable(params, prev, now, rest);
      assert Sendable(params[i], Prev(Some(prev), i), now[i]);
      ParamEntriesSliceable(params[i], prev[i], now[i], Count(params[i]));
      SliceableConcat(OrderEntries(params, Some(prev), now, rest),
                      ParamEntries(params[i], Some(prev[i]), now[i], Count(params[i])));
    }
  }

  lemma NothingSliceable()
    ensures Sliceable([])
  {
  }

  lemma SliceableConcat(a: seq<Entry>, b: seq<Entry>)
    requires Sliceable(a) && Sliceable(b)
    ensures Sliceable(a + b)
  {
  }

  ghost function SlicedOrder(params: seq<Param>, prev: World, now: World, order: seq<nat>): seq<Entry>
    requires AllSendable(params, Some(prev), now) && Below(order, |params|)
  {
    OrderEntriesSliceable(params, prev, now, order);
    AllSlices(OrderEntries(params, Some(prev), now, order))
  }

  ghost function SlicedParam(p: Param, prev: Shards, now: Shards, c: nat): seq<Entry>
    requires Comparable(p, prev, now) && c <= Count(p)
  {
    ParamEntriesSliceable(p, prev, now, c);
    AllSlices(ParamEntries(p, Some(prev), now, c))
  }

  lemma SlicedParamStep(p: Param, prev: Shards, now: Shards, c: nat)
    requires Comparable(p, prev, now) && c < Count(p)
    ensures var e := TensorEntry(p, prev, now, c);
      && e.positions.Some? && |e.positions.value| == |e.values|
      && SlicedParam(p, prev, now, c + 1) == SlicedParam(p, prev, now, c) + Slices(e, 0, MAX_ENTRY_ELEMS)
    ensures SlicedParam(p, prev, now, 0) == []
  {
    hide TensorDelta, ShardsOk;
    ParamEntriesSliceable(p, prev, now, c);
    ParamEntriesSliceable(p, prev, now, c + 1);
    var es := ParamEntries(p, Some(prev), now, c + 1);
    assert es[..|es| - 1] == ParamEntries(p, Some(prev), now, c) && es[|es| - 1] == TensorEntry(p, prev, now, c);
  }

  lemma Positioned(es: seq<Entry>)
    requires Sliceable(es)
    ensures AllPositioned(es)
  {
  }

  lemma OrderMore(params: seq<Param>, prev: World, now: World, order: seq<nat>, k: nat)
    requires AllSendable(params, Some(prev), now) && Below(order, |params|) && k < |order|
    ensures Below(order[..k], |params|) && Below(order[..k + 1], |params|) && order[k] < |params| == |prev| == |now|
    ensures var i := order[k];
      && Comparable(params[i], prev[i], now[i]) && Sendable(params[i], Some(prev[i]), now[i])
      && OrderEntries(params, Some(prev), now, order[..k + 1]) ==
         OrderEntries(params, Some(prev), now, order[..k])
         + ParamEntries(params[i], Some(prev[i]), now[i], Count(params[i]))
  {
    hide ParamEntries, ShardsOk;
    assert Sendable(params[order[k]], Prev(Some(prev), order[k]), now[order[k]]);
    assert order[..k + 1][..k] == order[..k];
  }

  lemma SlicedOrderStep(params: seq<Param>, prev: World, now: World, order: seq<nat>, k: nat)
    requires AllSendable(params, Some(prev), now) && Below(order, |params|) && k < |order|
    ensures var i := order[k];
      && Comparable(params[i], prev[i], now[i])
      && SlicedOrder(params, prev, now, order[..k + 1]) ==
        SlicedOrder(params, prev, now, order[..k]) + SlicedParam(params[i], prev[i], now[i], Count(params[i]))
  {
    hide AllSendable, Sendable, Comparable, Sliceable, OrderEntries, ParamEntries, AllSlices;
    var i := order[k];
    OrderMore(params, prev, now, order, k);
    OrderEntriesSliceable(params, prev, now, order[..k]);
    Positioned(OrderEntries(params, Some(prev), now, order[..k]));
    ParamEntriesSliceable(params[i], prev[i], now[i], Count(params[i]));
    Positioned(ParamEntries(params[i], Some(prev[i]), now[i], Count(params[i])));
    AllSlicesConcat(OrderEntries(params, Some(prev), now, order[..k]),
                    ParamEntries(params[i], Some(prev[i]), now[i], Count(params[i])));
  }

  lemma {:induction false} SlicedOrderConcat(params: seq<Param>, prev: World, now: World, a: seq<nat>, b: seq<nat>)
    requires AllSendable(params, Some(prev), now) && Below(a, |params|) && Below(b, |params|)
    ensures SlicedOrder(params, prev, now, a + b) == SlicedOrder(params, prev, now, a)
      + SlicedOrder(params, prev, now, b)
  {
    hide SlicedOrder, SlicedParam, AllSendable;
    if b == [] {
      assert a + b == a;
      SlicedNothing(params, prev, now);
    } else {
      var n := |b| - 1;
      SlicedOrderConcat(params, prev, now, a, b[..n]);
      SlicedOrderStep(params, prev, now, b, n);
      SlicedOrderStep(params, prev, now, a + b, |a| + n);
      assert (a + b)[..|a| + n] == a + b[..n] && (a + b)[..|a| + n + 1] == a + b && b[..n + 1] == b;
    }
  }

  lemma SlicedNothing(params: seq<Param>, prev: World, now: World)
    requires AllSendable(params, Some(prev), now)
    ensures SlicedOrder(params, prev, now, []) == []
  {
  }

  lemma PayloadColumn(params: seq<Param>, was: World, now: World, world: nat, members: seq<nat>, k: nat)
    requires AllComparable(params, was, now, world) && Below(members, |params|) && k < |members|
    ensures var ds, m := Payloads(params, was, now, world, members), members[k];
      && Comparable(params[m], was[m], now[m]) && |now[m]| == world
      && |ds| == world && (forall r | 0 <= r < world :: |ds[r]| == |members| && Paired(ds[r]))
      && forall r | 0 <= r < world :: Column(ds, k)[r] == ds[r][k] == ShardDelta(params[m], was[m], now[m], r)
  {
    assert Sendable(params[members[k]], Prev(Some(was), members[k]), now[members[k]]);
    hide ShardDelta, ShardsOk;
  }

  ghost predicate IsTensorDelta(params: seq<Param>, was: World, now: World, m: nat, d: Delta) {
    && m < |params| == |was| == |now| && Comparable(params[m], was[m], now[m]) && params[m].profile.Placed?
    && d == TensorDelta(params[m], was[m], now[m], 0)
  }

  /** The entry of a placed parameter goes into the stream. */
  method ConsumeFull(params: seq<Param>, m: nat, d: Delta, stream: FlushStream, ghost was: World, ghost now: World)
    requires IsTensorDelta(params, was, now, m, d) && PositionsFit(params) && stream.Valid() && !stream.dense
    modifies stream
    ensures stream.Valid()
    ensures stream.Stream() == old(stream.Stream()) + SlicedParam(params[m], was[m], now[m], Count(params[m]))
  {
    var p := params[m];
    assert Numel(ShapeOf(p, 0)) < INT32_LIMIT;
    EntryValid(p, was[m], now[m], 0);
    SlicedParamStep(p, was[m], now[m], 0);
    hide Numel, ShardsOk, TensorDelta, StateOk, Contents, SlicedParam, SameShape, PositionsFit;
    assert DeltaEntry(p.name, p.dtype, p.profile.shape, (d.idx, d.values)) == TensorEntry(p, was[m], now[m], 0);
    stream.Consume(p.name, p.dtype, p.profile.shape, Numel(p.profile.shape), Some((d.idx, d.values)));
  }

  lemma GatheredMember(params: seq<Param>, b: Batch, payloads: seq<seq<Delta>>, was: World, now: World, batchK: nat,
                       k: nat)
    requires AllComparable(params, was, now, |payloads|) && BatchOk(params, b, batchK) && !b.grouped
    requires payloads == Payloads(params, was, now, |payloads|, b.members) && k < |b.members|
    ensures |payloads[0]| == |b.members| && forall r | 0 <= r < |payloads| :: k < |payloads[r]|
    ensures IsTensorDelta(params, was, now, b.members[k], Joined(Column(payloads, k)))
    ensures b.group.None? ==> IsTensorDelta(params, was, now, b.members[k], payloads[0][k])
  {
    var m := b.members[k];
    PayloadColumn(params, was, now, |payloads|, b.members, k);
    assert params[m].group == b.group;
    hide Numel, Payloads, ShardDelta, TensorDelta, Joined, Comparable;
    GatheredPlaced(params[m], was[m], now[m], Column(payloads, k));
  }

  /** The deltas of a batch of placed parameters: rank 0's own when there is no group, else gathered. */
  method GatherPlaced(params: seq<Param>, b: Batch, payloads: seq<seq<Delta>>, ghost was: World, ghost now: World,
                      batchK: nat)
    returns (gathered: seq<Delta>)
    requires AllComparable(params, was, now, |payloads|) && BatchOk(params, b, batchK) && !b.grouped
    requires payloads == Payloads(params, was, now, |payloads|, b.members)
    ensures |gathered| == |b.members|
    ensures forall k | 0 <= k < |gathered| :: IsTensorDelta(params, was, now, b.members[k], gathered[k])
  {
    PayloadColumn(params, was, now, |payloads|, b.members, 0);
    hide Numel, Payloads, ShardDelta, AllComparable, Joined, IsTensorDelta;
    if b.group.None? {
      gathered := payloads[0];
    } else {
      var contributions := seq(|payloads|, r requires 0 <= r < |payloads| => Contribute(payloads[r]));
      gathered := GatherBatched(contributions, |b.members|, payloads);
    }
    forall k | 0 <= k < |gathered| ensures IsTensorDelta(params, was, now, b.members[k], gathered[k]) {
      GatheredMember(params, b, payloads, was, now, batchK, k);
    }
  }

  method ConsumeAll(params: seq<Param>, members: seq<nat>, gathered: seq<Delta>, stream: FlushStream, ghost was: World,
                    ghost now: World)
    requires AllSendable(params, Some(was), now) && Below(members, |params|) && |gathered| == |members|
    requires forall k | 0 <= k < |members| :: IsTensorDelta(params, was, now, members[k], gathered[k])
    requires PositionsFit(params) && stream.Valid() && !stream.dense
    modifies stream
    ensures stream.Valid() && stream.Stream() == old(stream.Stream()) + SlicedOrder(params, was, now, members)
  {
    hide SlicedOrder, SlicedParam, Comparable, IsTensorDelta, StateOk, Contents, AllSendable, PositionsFit;
    SlicedNothing(params, was, now);
    ghost var before := stream.Stream();
    for k := 0 to |members|
      invariant stream.Valid() && stream.Stream() == before + SlicedOrder(params, was, now, members[..k])
    {
      SlicedOrderStep(params, was, now, members, k);
      ConsumeFull(params, members[k], gathered[k], stream, was, now);
    }
    assert members[..|members|] == members;
  }

  /** `_flush_group` on rank 0. */
  method ConsumePlaced(params: seq<Param>, b: Batch, payloads: seq<seq<Delta>>, stream: FlushStream,
                       ghost was: World, ghost now: World, batchK: nat)
    requires AllComparable(params, was, now, |payloads|) && BatchOk(params, b, batchK) && !b.grouped
    requires payloads == Payloads(params, was, now, |payloads|, b.members)
    requires PositionsFit(params) && stream.Valid() && !stream.dense
    modifies stream
    ensures stream.Valid() && stream.Stream() == old(stream.Stream()) + SlicedOrder(params, was, now, b.members)
  {
    AllComparableSendable(params, was, now, |payloads|);
    hide Payloads, SlicedOrder, AllComparable, IsTensorDelta, StateOk, Contents, AllSendable, PositionsFit;
    var gathered := GatherPlaced(params, b, payloads, was, now, batchK);
    ConsumeAll(params, b.members, gathered, stream, was, now);
  }

  /** What the buffers of a converted parameter hold, and what they have to hold for its converter. */
  ghost predicate IsRebuilt(params: seq<Param>, was: World, now: World, m: nat, shards: Shards) {
    && m < |params| == |was| == |now| && Comparable(params[m], was[m], now[m]) && params[m].profile.Converted?
    && shards == RebuiltShards(was[m], now[m], params[m].profile.localSize)
  }

  lemma RebuiltMember(params: seq<Param>, b: Batch, payloads: seq<seq<Delta>>, was: World, now: World, batchK: nat,
                      k: nat)
    requires AllComparable(params, was, now, |payloads|) && BatchOk(params, b, batchK) && b.grouped
    requires payloads == Payloads(params, was, now, |payloads|, b.members) && k < |b.members|
    ensures b.members[k] < |params| == |now| == |was|
    ensures Comparable(params[b.members[k]], was[b.members[k]], now[b.members[k]])
    ensures params[b.members[k]].profile.Converted? && |now[b.members[k]]| == |payloads|
    ensures forall r | 0 <= r < |payloads| :: k < |payloads[r]|
    ensures forall r | 0 <= r < |payloads| :: payloads[r][k] == Diff(now[b.members[k]][r], was[b.members[k]][r], 0)
    ensures forall r | 0 <= r < |payloads| :: Below(payloads[r][k].idx, params[b.members[k]].profile.localSize)
  {
    var m := b.members[k];
    PayloadColumn(params, was, now, |payloads|, b.members, k);
    hide Payloads, Joined;
    assert params[m].profile.Converted?;
    forall r | 0 <= r < |payloads|
      ensures payloads[r][k] == Diff(now[m][r], was[m][r], 0) && Below(payloads[r][k].idx, params[m].profile.localSize)
    {
      DiffIncreasing(now[m][r], was[m][r], 0);
      assert Column(payloads, k)[r] == ShardDelta(params[m], was[m], now[m], r);
    }
  }

  /** The NaN-sentinel buffers of one converted parameter, one for each rank. */
  method RebuildShards(perRank: seq<Delta>, shardNumel: nat, ghost was: Shards, ghost now: Shards)
    returns (shardList: Shards)
    requires SameShape(was, now) && |perRank| == |now| && forall r | 0 <= r < |now| :: |now[r]| <= shardNumel
    requires forall r | 0 <= r < |now| :: perRank[r] == Diff(now[r], was[r], 0) && Below(perRank[r].idx, shardNumel)
    ensures shardList == RebuiltShards(was, now, shardNumel)
  {
    shardList := [];
    for r := 0 to |perRank|
      invariant |shardList| == r && forall q | 0 <= q < r :: shardList[q] == RebuiltShards(was, now, shardNumel)[q]
    {
      shardList := shardList + [Rebuilt(perRank[r], shardNumel)];
    }
  }

  ghost predicate TensorsFit(p: Param) {
    forall a | 0 <= a < Count(p) :: Numel(ShapeOf(p, a)) < INT32_LIMIT
  }

  ghost predicate BuffersOf(p: Param, was: Shards, now: Shards, shards: Shards) {
    Comparable(p, was, now) && p.profile.Converted? && shards == RebuiltShards(was, now, p.profile.localSize)
  }

  lemma BuffersComparable(p: Param, was: Shards, now: Shards, shards: Shards)
    requires BuffersOf(p, was, now, shards)
    ensures Comparable(p, was, now) && p.profile.Converted?
  {
  }

  /** Every tensor that the converter makes of the buffers goes into the stream where it is not NaN. */
  method ConsumeHf(p: Param, shardList: Shards, stream: FlushStream, ghost was: Shards, ghost now: Shards)
    requires Comparable(p, was, now) && BuffersOf(p, was, now, shardList) && TensorsFit(p) && stream.Valid()
    requires !stream.dense
    modifies stream
    ensures stream.Valid() && stream.Stream() == old(stream.Stream()) + SlicedParam(p, was, now, Count(p))
  {
    hide BuffersOf, SlicedParam, Comparable, StateOk, Contents, TensorsFit, TensorEntry, Slices;
    BuffersComparable(p, was, now, shardList);
    ghost var before := stream.Stream();
    SlicedNoTensors(p, was, now);
    for a := 0 to |p.profile.tensors|
      invariant stream.Valid() && stream.Stream() == before + SlicedParam(p, was, now, a)
    {
      SlicedParamStep(p, was, now, a);
      ConsumeTensor(p, a, shardList, stream, was, now, TensorEntry(p, was, now, a));
    }
  }

  lemma SlicedNoTensors(p: Param, was: Shards, now: Shards)
    requires Comparable(p, was, now)
    ensures SlicedParam(p, was, now, 0) == []
  {
  }

  lemma RebuiltFits(p: Param, was: Shards, now: Shards, a: nat)
    requires Comparable(p, was, now) && p.profile.Converted? && a < Count(p)
    ensures SourceOk(p.profile.tensors[a], RebuiltShards(was, now, p.profile.localSize))
  {
    hide Numel;
  }

  /** One converted tensor: what is not NaN in it is its delta. */
  method ConsumeTensor(p: Param, a: nat, shardList: Shards, stream: FlushStream, ghost was: Shards, ghost now: Shards,
                       ghost e: Entry)
    requires Comparable(p, was, now) && BuffersOf(p, was, now, shardList) && TensorsFit(p) && stream.Valid()
    requires !stream.dense
    requires a < Count(p) && e == TensorEntry(p, was, now, a) && e.positions.Some? && |e.positions.value| == |e.values|
    modifies stream
    ensures stream.Valid() && stream.Stream() == old(stream.Stream()) + Slices(e, 0, MAX_ENTRY_ELEMS)
  {
    var t := p.profile.tensors[a];
    assert Numel(ShapeOf(p, a)) < INT32_LIMIT;
    RebuiltFits(p, was, now, a);
    EntryValid(p, was, now, a);
    hide Numel, ShardsOk, StateOk, Contents, Slices, SameShape, TensorsFit, RebuiltShards, Marked, SourceOk;
    var d := Marked(ToHf(t, shardList));
    assert DeltaEntry(t.name, p.dtype, t.shape, (d.idx, d.values)) == e;
    stream.Consume(t.name, p.dtype, t.shape, Numel(t.shape), Some((d.idx, d.values)));
  }

  /** `_flush_nan_group` on rank 0. */
  method ConsumeConverted(params: seq<Param>, b: Batch, payloads: seq<seq<Delta>>, stream: FlushStream,
                          ghost was: World, ghost now: World, batchK: nat)
    requires AllComparable(params, was, now, |payloads|) && BatchOk(params, b, batchK) && b.grouped
    requires payloads == Payloads(params, was, now, |payloads|, b.members)
    requires PositionsFit(params) && stream.Valid() && !stream.dense
    modifies stream
    ensures stream.Valid() && stream.Stream() == old(stream.Stream()) + SlicedOrder(params, was, now, b.members)
  {
    AllComparableSendable(params, was, now, |payloads|);
    var rebuilt := RebuildBatch(params, b, payloads, was, now, batchK);
    ConsumeRebuilt(params, b.members, rebuilt, stream, was, now);
  }

  lemma RebuildOk(params: seq<Param>, was: World, now: World, m: nat)
    requires m < |params| == |was| == |now| && Comparable(params[m], was[m], now[m]) && params[m].profile.Converted?
    ensures SameShape(was[m], now[m])
    ensures forall r | 0 <= r < |now[m]| :: |now[m][r]| <= params[m].profile.localSize
    ensures IsRebuilt(params, was, now, m, RebuiltShards(was[m], now[m], params[m].profile.localSize))
  {
    hide Numel;
  }

  lemma BatchContributed(params: seq<Param>, b: Batch, payloads: seq<seq<Delta>>, was: World, now: World, batchK: nat)
    requires AllComparable(params, was, now, |payloads|) && BatchOk(params, b, batchK)
    requires payloads == Payloads(params, was, now, |payloads|, b.members)
    ensures forall r | 0 <= r < |payloads| :: |payloads[r]| == |b.members| && Paired(payloads[r])
    ensures |payloads| > 0
  {
    PayloadColumn(params, was, now, |payloads|, b.members, 0);
    hide Payloads, Paired;
  }

  method RebuildBatch(params: seq<Param>, b: Batch, payloads: seq<seq<Delta>>,
                      ghost was: World, ghost now: World, batchK: nat) returns (rebuilt: seq<Shards>)
    requires AllComparable(params, was, now, |payloads|) && BatchOk(params, b, batchK) && b.grouped
    requires payloads == Payloads(params, was, now, |payloads|, b.members)
    ensures |rebuilt| == |b.members|
    ensures forall k | 0 <= k < |rebuilt| :: IsRebuilt(params, was, now, b.members[k], rebuilt[k])
  {
    hide Numel, Payloads, Joined, IsRebuilt, AllComparable, BatchOk, RebuiltShards;
    BatchContributed(params, b, payloads, was, now, batchK);
    var contributions := seq(|payloads|, r requires 0 <= r < |payloads| => Contribute(payloads[r]));
    var gathered := GatherGrouped(contributions, |b.members|, payloads);
    rebuilt := [];
    for k := 0 to |b.members|
      invariant |rebuilt| == k && forall q | 0 <= q < k :: IsRebuilt(params, was, now, b.members[q], rebuilt[q])
    {
      var m := b.members[k];
      RebuiltMember(params, b, payloads, was, now, batchK, k);
      RebuildOk(params, was, now, m);
      var shardList := RebuildShards(gathered[k], params[m].profile.localSize, was[m], now[m]);
      rebuilt := rebuilt + [shardList];
    }
  }

  lemma RebuiltBuffers(params: seq<Param>, m: nat, shards: Shards, was: World, now: World)
    requires IsRebuilt(params, was, now, m, shards) && PositionsFit(params)
    ensures BuffersOf(params[m], was[m], now[m], shards) && TensorsFit(params[m])
  {
  }

  method ConsumeMember(params: seq<Param>, m: nat, shardList: Shards, stream: FlushStream, ghost was: World,
                       ghost now: World)
    requires IsRebuilt(params, was, now, m, shardList) && PositionsFit(params) && stream.Valid() && !stream.dense
    modifies stream
    ensures stream.Valid()
    ensures stream.Stream() == old(stream.Stream()) + SlicedParam(params[m], was[m], now[m], Count(params[m]))
  {
    RebuiltBuffers(params, m, shardList, was, now);
    hide SlicedParam, Comparable, BuffersOf, StateOk, Contents, PositionsFit, TensorsFit;
    ConsumeHf(params[m], shardList, stream, was[m], now[m]);
  }

  method ConsumeRebuilt(params: seq<Param>, members: seq<nat>, rebuilt: seq<Shards>, stream: FlushStream,
                        ghost was: World, ghost now: World)
    requires AllSendable(params, Some(was), now) && Below(members, |params|) && |rebuilt| == |members|
    requires forall k | 0 <= k < |members| :: IsRebuilt(params, was, now, members[k], rebuilt[k])
    requires PositionsFit(params) && stream.Valid() && !stream.dense
    modifies stream
    ensures stream.Valid() && stream.Stream() == old(stream.Stream()) + SlicedOrder(params, was, now, members)
  {
    hide SlicedOrder, SlicedParam, Comparable, IsRebuilt, BuffersOf, StateOk, Contents, AllSendable, PositionsFit;
    hide TensorsFit;
    SlicedNothing(params, was, now);
    ghost var before := stream.Stream();
    for k := 0 to |members|
      invariant stream.Valid() && stream.Stream() == before + SlicedOrder(params, was, now, members[..k])
    {
      SlicedOrderStep(params, was, now, members, k);
      ConsumeMember(params, members[k], rebuilt[k], stream, was, now);
    }
    assert members[..|members|] == members;
  }

  lemma AllComparableSendable(params: seq<Param>, was: World, now: World, world: nat)
    requires AllComparable(params, was, now, world)
    ensures AllSendable(params, Some(was), now)
  {
  }

  // ---------- a whole sync ----------

  /** What the ranks pass in over the sync: one list of deltas per batch and rank. */
  ghost predicate AllPayloads(params: seq<Param>, payloads: seq<seq<seq<Delta>>>, batches: seq<Batch>, was: World,
                              now: World, world: nat) {
    && AllComparable(params, was, now, world) && |payloads| == |batches|
    && forall c | 0 <= c < |batches| :: PayloadOk(params, payloads[c], batches[c], was, now, world)
  }

  ghost predicate PayloadOk(params: seq<Param>, payload: seq<seq<Delta>>, b: Batch, was: World, now: World, world: nat)
    requires AllComparable(params, was, now, world)
  {
    Below(b.members, |params|) && payload == Payloads(params, was, now, world, b.members)
  }

  method ConsumeBatch(params: seq<Param>, b: Batch, payload: seq<seq<Delta>>, stream: FlushStream,
                      ghost was: World, ghost now: World, ghost world: nat, batchK: nat)
    requires AllComparable(params, was, now, world) && PayloadOk(params, payload, b, was, now, world)
    requires BatchOk(params, b, batchK)
    requires PositionsFit(params) && stream.Valid() && !stream.dense
    modifies stream
    ensures AllSendable(params, Some(was), now) && Below(b.members, |params|)
    ensures stream.Valid() && stream.Stream() == old(stream.Stream()) + SlicedOrder(params, was, now, b.members)
  {
    AllComparableSendable(params, was, now, world);
    assert |payload| == world;
    hide AllSendable, SlicedOrder, StateOk, Contents, PositionsFit, Payloads;
    if b.grouped {
      ConsumeConverted(params, b, payload, stream, was, now, batchK);
    } else {
      ConsumePlaced(params, b, payload, stream, was, now, batchK);
    }
  }

  method ConsumeBatches(params: seq<Param>, payloads: seq<seq<seq<Delta>>>, batches: seq<Batch>, stream: FlushStream,
                        ghost was: World, ghost now: World, ghost world: nat, batchK: nat)
    requires AllPayloads(params, payloads, batches, was, now, world) && AllSendable(params, Some(was), now)
    requires forall c | 0 <= c < |batches| :: BatchOk(params, batches[c], batchK)
    requires PositionsFit(params) && stream.Valid() && !stream.dense && Below(Members(batches), |params|)
    modifies stream
    ensures stream.Valid() && stream.Stream() == old(stream.Stream()) + SlicedOrder(params, was, now, Members(batches))
  {
    hide AllSendable, AllComparable, SlicedOrder, StateOk, Contents, PositionsFit, PayloadOk, BatchOk;
    ghost var before := stream.Stream();
    SlicedNothing(params, was, now);
    for c := 0 to |batches|
      invariant stream.Valid() && Below(Members(batches[..c]), |params|)
      invariant stream.Stream() == before + SlicedOrder(params, was, now, Members(batches[..c]))
    {
      ConsumeBatch(params, batches[c], payloads[c], stream, was, now, world, batchK);
      MembersStep(batches, c);
      SlicedOrderConcat(params, was, now, Members(batches[..c]), batches[c].members);
    }
    assert batches[..|batches|] == batches;
  }

  /** `send_weights` on rank 0 after the first sync. */
  method SendWeights(params: seq<Param>, payloads: seq<seq<seq<Delta>>>, batchK: nat, bucketSize: nat,
                     ghost was: World, ghost now: World, ghost world: nat)
    returns (messages: seq<Message>)
    requires AllPayloads(params, payloads, Plan(params, batchK), was, now, world) && PositionsFit(params)
    ensures AllSendable(params, Some(was), now) && Complete(Members(Plan(params, batchK)), |params|)
    ensures Framed(messages, false, bucketSize)
    ensures CarriedBy(messages) == SlicedOrder(params, was, now, Members(Plan(params, batchK)))
  {
    var batches := Plan(params, batchK);
    AllComparableSendable(params, was, now, world);
    PlanOk(params, batchK);
    var stream := new FlushStream(bucketSize, false);
    hide AllSendable, AllPayloads, SlicedOrder, StateOk, Contents, PositionsFit, BatchOk, Plan, Framed, CarriedBy;
    ConsumeBatches(params, payloads, batches, stream, was, now, world, batchK);
    stream.Finish();
    messages := stream.published;
  }

  lemma MembersStep(batches: seq<Batch>, c: nat)
    requires c < |batches|
    ensures Members(batches[..c + 1]) == Members(batches[..c]) + batches[c].members
  {
    assert batches[..c + 1][..c] == batches[..c];
  }

  /** The entries that were streamed have the effect of one sync. */
  lemma CarriedIsSync(m: LiveWeights, params: seq<Param>, was: World, now: World, order: seq<nat>)
    requires AllSendable(params, Some(was), now) && HasAllTensors(m, params) && Below(order, |params|)
    ensures AllFit(m, SlicedOrder(params, was, now, order))
    ensures Apply(m, SlicedOrder(params, was, now, order)) == Synced(m, params, Some(was), now, order)
  {
    OrderEntriesFit(m, params, Some(was), now, order);
    OrderEntriesSliceable(params, was, now, order);
    AllSlicesInvisible(m, OrderEntries(params, Some(was), now, order));
  }

  /** From the deltas of all ranks to the live weights of a rollout worker. */
  method SyncRollout(params: seq<Param>, payloads: seq<seq<seq<Delta>>>, batchK: nat, bucketSize: nat,
                     model: RolloutModel, ghost was: World, ghost now: World, ghost world: nat)
    requires AllPayloads(params, payloads, Plan(params, batchK), was, now, world) && PositionsFit(params)
    requires HasAllTensors(model.weights, params)
    modifies model
    ensures AllSendable(params, Some(was), now) && Complete(Members(Plan(params, batchK)), |params|)
    ensures model.weights == Synced(old(model.weights), params, Some(was), now, Members(Plan(params, batchK)))
  {
    var messages := SendWeights(params, payloads, batchK, bucketSize, was, now, world);
    hide AllSendable, AllComparable, SlicedOrder, Framed, CarriedBy, Plan, Synced;
    CarriedIsSync(model.weights, params, was, now, Members(Plan(params, batchK)));
    var rest, applied := ReceiveWeights(model, messages, messages, false, bucketSize);
  }

  /** Rank r's shards and snapshots are its parts of the old and the new world. */
  ghost predicate ViewOk(params: seq<Param>, locals: seq<LocalShard>, snap: map<string, seq<Value>>, was: World,
                         now: World, r: nat) {
    && Ready(params, locals, snap) && |was| == |now| == |params|
    && forall i | 0 <= i < |params| :: ShardView(params[i], locals[i], snap, was[i], now[i], r)
  }

  ghost predicate ShardView(p: Param, local: LocalShard, snap: map<string, seq<Value>>, was: Shards, now: Shards,
                            r: nat)
    requires HasSnapshot(p, local, snap)
  {
    && r < |was| && r < |now|
    && now[r] == (if local.contributes then local.data else [])
    && was[r] == (if local.contributes then snap[p.name] else [])
    && (p.profile.Placed? && local.contributes && local.data != [] ==> local.offset == |Concat(now[..r])|)
  }

  /** What a rank's loop passes to its c-th gather is what rank 0 counts on. */
  lemma CallPayload(params: seq<Param>, batchK: nat, calls: seq<Call>, locals: seq<LocalShard>,
                    snap: map<string, seq<Value>>, was: World, now: World, world: nat, r: nat, c: nat)
    requires AllComparable(params, was, now, world) && r < world && ViewOk(params, locals, snap, was, now, r)
    requires CallsAre(calls, Plan(params, batchK), RankDeltas(params, locals, snap)) && c < |calls|
    ensures Below(calls[c].batch.members, |params|)
    ensures calls[c].payload == BatchDeltas(params, was, now, world, calls[c].batch.members, r)
  {
    hide Plan, ShardDelta, RankDelta, Sendable;
    assert CallIs(calls[c], Plan(params, batchK)[c], RankDeltas(params, locals, snap));
    var members := calls[c].batch.members;
    forall k | 0 <= k < |members|
      ensures calls[c].payload[k] == BatchDeltas(params, was, now, world, members, r)[k]
    {
      var i := members[k];
      assert Sendable(params[i], Prev(Some(was), i), now[i]);
      assert ShardView(params[i], locals[i], snap, was[i], now[i], r);
      SendableSameShape(params[i], was[i], now[i], r);
      RankDeltaIsShardDelta(params[i], locals[i], snap, was[i], now[i], r);
    }
  }

  lemma SendableSameShape(p: Param, was: Shards, now: Shards, r: nat)
    requires Sendable(p, Some(was), now) && r < |now|
    ensures r < |was| && |was[r]| == |now[r]|
  {
  }

  // ---------- the dense seed ----------

  function Range(n: nat): seq<nat> {
    seq(n, i => i)
  }

  /** Only a parameter that is gathered by position needs offsets. */
  ghost predicate SeedOffsets(p: Param, shards: Shards, offsets: seq<nat>) {
    p.profile.Placed? && p.group.Some? ==> TileAt(shards, offsets)
  }

  /** `_send_dense_seed` on rank 0: parameter by parameter, in the order of the stream. */
  method SendDenseSeed(params: seq<Param>, shards: World, offsets: seq<seq<nat>>, bucketSize: nat)
    returns (messages: seq<Message>)
    requires AllSendable(params, None, shards) && |offsets| == |params|
    requires forall i | 0 <= i < |params| :: SeedOffsets(params[i], shards[i], offsets[i])
    ensures Framed(messages, true, bucketSize)
    ensures CarriedBy(messages) == OrderEntries(params, None, shards, Range(|params|))
  {
    var stream := new FlushStream(bucketSize, true);
    hide StateOk, Contents, Framed, CarriedBy;
    for i := 0 to |params|
      invariant fresh(stream) && stream.Valid() && stream.bucketSize == bucketSize && stream.dense
      invariant stream.Stream() == OrderEntries(params, None, shards, Range(i))
    {
      assert Sendable(params[i], Prev(None, i), shards[i]);
      SeedParam(params[i], shards[i], offsets[i], stream);
      assert Range(i + 1)[..i] == Range(i);
    }
    stream.Finish();
    messages := stream.published;
  }

  method SeedParam(p: Param, shards: Shards, offsets: seq<nat>, stream: FlushStream)
    requires ShardsOk(p, shards) && SeedOffsets(p, shards, offsets) && stream.Valid() && stream.dense
    modifies stream
    ensures stream.Valid() && stream.Stream() == old(stream.Stream()) + ParamEntries(p, None, shards, Count(p))
  {
    hide StateOk, Contents, Numel;
    if p.profile.Placed? {
      SeedPlaced(p, shards, offsets, stream);
      assert ParamEntries(p, None, shards, 1) == [SentEntry(p, None, shards, 0)];
    } else {
      SeedConverted(p, shards, stream);
    }
  }

  method SeedPlaced(p: Param, shards: Shards, offsets: seq<nat>, stream: FlushStream)
    requires ShardsOk(p, shards) && SeedOffsets(p, shards, offsets) && stream.Valid() && stream.dense
    requires p.profile.Placed?
    modifies stream
    ensures stream.Valid() && stream.Stream() == old(stream.Stream()) + [SentEntry(p, None, shards, 0)]
  {
    hide StateOk, Contents, Numel, Concat;
    if p.group.None? {
      OnlyFirstShard(shards);
      stream.BucketDense(p.name, p.dtype, p.profile.shape, shards[0]);
    } else {
      var full := GatherDense(shards, offsets, Numel(p.profile.shape));
      stream.BucketDense(p.name, p.dtype, p.profile.shape, full[..]);
    }
  }

  method SeedConverted(p: Param, shards: Shards, stream: FlushStream)
    requires ShardsOk(p, shards) && stream.Valid() && stream.dense && p.profile.Converted?
    modifies stream
    ensures stream.Valid() && stream.Stream() == old(stream.Stream()) + ParamEntries(p, None, shards, Count(p))
  {
    hide StateOk, Contents, Numel, SourceOk, ParamEntries, SentEntry, ToHf;
    ghost var before := stream.Stream();
    var tensors := p.profile.tensors;
    NoSeedEntries(p, shards);
    for a := 0 to |tensors|
      invariant stream.Valid() && stream.dense && stream.Stream() == before + ParamEntries(p, None, shards, a)
    {
      SeedEntry(p, shards, a);
      stream.BucketDense(tensors[a].name, p.dtype, tensors[a].shape, ToHf(tensors[a], shards));
    }
  }

  lemma NoSeedEntries(p: Param, shards: Shards)
    requires ShardsOk(p, shards) && p.profile.Converted?
    ensures ParamEntries(p, None, shards, 0) == []
  {
  }

  lemma SeedEntry(p: Param, shards: Shards, a: nat)
    requires ShardsOk(p, shards) && p.profile.Converted? && a < |p.profile.tensors|
    ensures Sendable(p, None, shards)
    ensures var t := p.profile.tensors[a];
      && SourceOk(t, shards) && |ToHf(t, shards)| == Numel(t.shape)
      && ParamEntries(p, None, shards, a + 1) ==
         ParamEntries(p, None, shards, a) + [Entry(t.name, p.dtype, t.shape, None, ToHf(t, shards))]
  {
  }

  lemma {:induction false} OnlyFirstShard(shards: Shards)
    requires shards != [] && forall r | 0 < r < |shards| :: shards[r] == []
    ensures Concat(shards) == shards[0]
  {
    if |shards| > 1 {
      OnlyFirstShard(shards[..|shards| - 1]);
    } else {
      assert Concat(shards[..0]) == [];
    }
  }

  /** The first sync, from the shards of all ranks to the live weights of a rollout worker. */
  method SeedRollout(params: seq<Param>, shards: World, offsets: seq<seq<nat>>, bucketSize: nat, model: RolloutModel)
    requires AllSendable(params, None, shards) && |offsets| == |params| && HasAllTensors(model.weights, params)
    requires forall i | 0 <= i < |params| :: SeedOffsets(params[i], shards[i], offsets[i])
    modifies model
    ensures model.weights == Synced(old(model.weights), params, None, shards, Range(|params|))
  {
    var messages := SendDenseSeed(params, shards, offsets, bucketSize);
    OrderEntriesFit(model.weights, params, None, shards, Range(|params|));
    hide AllSendable, Framed, CarriedBy;
    var rest, applied := ReceiveWeights(model, messages, messages, true, bucketSize);
  }
}
