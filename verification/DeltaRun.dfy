/**
 A trainer and a rollout worker over a whole history of syncs
 (verl/verl/checkpoint_engine/delta_checkpoint_engine.py): the first one seeds the snapshots and the rollout
 weights, every later one diffs each rank's shards against the snapshots that the one before has left.
*/
module DeltaRun {
  import opened Weights
  import opened DeltaWire
  import opened SparseGather
  import opened DeltaSync
  import opened DeltaLockstep
  import opened DeltaRankZero

  /** The local shards at one sync, rank by rank and parameter by parameter. */
  type Cluster = seq<seq<LocalShard>>

  predicate Wide(params: seq<Param>, cluster: Cluster) {
    cluster != [] && forall r | 0 <= r < |cluster| :: |cluster[r]| == |params|
  }

  function ShardsOf(cluster: Cluster, i: nat): Shards
    requires forall r | 0 <= r < |cluster| :: i < |cluster[r]|
  {
    seq(|cluster|, r requires 0 <= r < |cluster| => if cluster[r][i].contributes then cluster[r][i].data else [])
  }

  function OffsetsOf(cluster: Cluster, i: nat): seq<nat>
    requires forall r | 0 <= r < |cluster| :: i < |cluster[r]|
  {
    seq(|cluster|, r requires 0 <= r < |cluster| => if cluster[r][i].contributes then cluster[r][i].offset else 0)
  }

  function WorldOf(params: seq<Param>, cluster: Cluster): World
    requires Wide(params, cluster)
  {
    seq(|params|, i requires 0 <= i < |params| => ShardsOf(cluster, i))
  }

  /** What the trainer guarantees of one parameter: valid shards, at offsets where they follow one another. */
  ghost predicate ParamOk(p: Param, cluster: Cluster, i: nat)
    requires cluster != [] && forall r | 0 <= r < |cluster| :: i < |cluster[r]|
  {
    && ShardsOk(p, ShardsOf(cluster, i))
    && (p.profile.Placed? ==> TileAt(ShardsOf(cluster, i), OffsetsOf(cluster, i)))
    && (p.profile.Converted? ==> |cluster[0][i].data| == p.profile.localSize)
  }

  ghost predicate ClusterOk(params: seq<Param>, cluster: Cluster) {
    Wide(params, cluster) && forall i | 0 <= i < |params| :: ParamOk(params[i], cluster, i)
  }

  /** Which ranks contribute to a parameter, and how much, is the same at every sync. */
  ghost predicate SameLayout(a: Cluster, b: Cluster) {
    |a| == |b| && forall r | 0 <= r < |a| :: SameLocals(a[r], b[r])
  }

  ghost predicate SameLocals(a: seq<LocalShard>, b: seq<LocalShard>) {
    |a| == |b| && forall i | 0 <= i < |a| :: a[i].contributes == b[i].contributes && |a[i].data| == |b[i].data|
  }

  /** A rank's snapshots are its shards. */
  ghost predicate Current(params: seq<Param>, locals: seq<LocalShard>, snap: map<string, seq<Value>>) {
    && |locals| == |params|
    && forall i | 0 <= i < |params| :: params[i].name in snap && snap[params[i].name] == locals[i].data
  }

  // ---------- the snapshots are the shards of the sync before ----------

  lemma ParamCarried(p: Param, before: Cluster, after: Cluster, snap: map<string, seq<Value>>, i: nat, r: nat)
    requires before != [] && after != [] && r < |after| && SameLayout(before, after)
    requires (forall q | 0 <= q < |before| :: i < |before[q]|) && forall q | 0 <= q < |after| :: i < |after[q]|
    requires ParamOk(p, after, i) && p.name in snap && snap[p.name] == before[r][i].data
    ensures HasSnapshot(p, after[r][i], snap)
    ensures ShardView(p, after[r][i], snap, ShardsOf(before, i), ShardsOf(after, i), r)
  {
    hide ShardsOk, Concat;
    assert SameLocals(before[r], after[r]);
    assert OffsetsOf(after, i)[r] == if after[r][i].contributes then after[r][i].offset else 0;
  }

  /** What a rank's snapshots held after one sync is what the next one takes its shards to have been. */
  lemma ViewCarried(params: seq<Param>, before: Cluster, after: Cluster, snap: map<string, seq<Value>>, r: nat)
    requires ClusterOk(params, before) && ClusterOk(params, after) && SameLayout(before, after) && r < |after|
    requires Current(params, before[r], snap)
    ensures ViewOk(params, after[r], snap, WorldOf(params, before), WorldOf(params, after), r)
  {
    hide ParamOk, ShardView, HasSnapshot, SameLayout;
    assert |after| == |before| by { LayoutRanks(before, after); }
    forall i | 0 <= i < |params|
      ensures HasSnapshot(params[i], after[r][i], snap)
      ensures ShardView(params[i], after[r][i], snap, ShardsOf(before, i), ShardsOf(after, i), r)
    {
      ParamCarried(params[i], before, after, snap, i, r);
    }
  }

  lemma LayoutRanks(a: Cluster, b: Cluster)
    requires SameLayout(a, b)
    ensures |a| == |b|
  {
  }

  lemma WorldSendable(params: seq<Param>, cluster: Cluster)
    requires ClusterOk(params, cluster)
    ensures AllSendable(params, None, WorldOf(params, cluster))
  {
    hide ShardsOk;
    forall i | 0 <= i < |params| ensures Sendable(params[i], None, WorldOf(params, cluster)[i]) {
      assert ParamOk(params[i], cluster, i);
    }
  }

  lemma ShardsComparable(p: Param, before: Cluster, after: Cluster, i: nat)
    requires before != [] && after != [] && SameLayout(before, after)
    requires (forall q | 0 <= q < |before| :: i < |before[q]|) && forall q | 0 <= q < |after| :: i < |after[q]|
    requires ParamOk(p, before, i) && ParamOk(p, after, i)
    ensures Comparable(p, ShardsOf(before, i), ShardsOf(after, i))
  {
    hide ShardsOk, TileAt;
    forall r | 0 <= r < |before| ensures |ShardsOf(before, i)[r]| == |ShardsOf(after, i)[r]| {
      assert SameLocals(before[r], after[r]);
    }
  }

  lemma WorldsComparable(params: seq<Param>, before: Cluster, after: Cluster)
    requires ClusterOk(params, before) && ClusterOk(params, after) && SameLayout(before, after)
    ensures AllComparable(params, WorldOf(params, before), WorldOf(params, after), |after|)
    ensures AllSendable(params, Some(WorldOf(params, before)), WorldOf(params, after))
  {
    hide ParamOk, Comparable, SameLayout, ShardsOk;
    forall i | 0 <= i < |params|
      ensures Sendable(params[i], Prev(Some(WorldOf(params, before)), i), WorldOf(params, after)[i])
    {
      assert ParamOk(params[i], before, i) && ParamOk(params[i], after, i);
      ShardsComparable(params[i], before, after, i);
      ComparableSendable(params[i], ShardsOf(before, i), ShardsOf(after, i));
    }
  }

  lemma ComparableSendable(p: Param, was: Shards, now: Shards)
    requires Comparable(p, was, now)
    ensures Sendable(p, Some(was), now)
  {
    hide ShardsOk;
  }

  // ---------- one sync ----------

  /** What the ranks pass to gather after gather. */
  function Collected(calls: seq<seq<Call>>, n: nat): seq<seq<seq<Delta>>>
    requires forall r | 0 <= r < |calls| :: |calls[r]| == n
  {
    seq(n, c requires 0 <= c < n => seq(|calls|, r requires 0 <= r < |calls| => calls[r][c].payload))
  }

  /** Each rank's calls are those of its shards against the snapshots it had. */
  ghost predicate Issued(params: seq<Param>, locals: seq<LocalShard>, snap: map<string, seq<Value>>, batchK: nat,
                         calls: seq<Call>) {
    Ready(params, locals, snap) && CallsAre(calls, Plan(params, batchK), RankDeltas(params, locals, snap))
  }

  lemma RankPayload(params: seq<Param>, batchK: nat, calls: seq<Call>, before: Cluster, after: Cluster,
                    snap: map<string, seq<Value>>, r: nat, c: nat)
    requires ClusterOk(params, before) && ClusterOk(params, after) && SameLayout(before, after) && r < |after|
    requires Current(params, before[r], snap) && Issued(params, after[r], snap, batchK, calls)
    requires c < |Plan(params, batchK)|
    ensures |calls| == |Plan(params, batchK)| && Below(Plan(params, batchK)[c].members, |params|)
    ensures AllComparable(params, WorldOf(params, before), WorldOf(params, after), |after|)
    ensures calls[c].payload ==
      BatchDeltas(params, WorldOf(params, before), WorldOf(params, after), |after|, Plan(params, batchK)[c].members, r)
  {
    hide ParamOk, Plan, BatchDeltas, RankDeltas, AllComparable, ViewOk, WorldOf, SameLayout, Current;
    WorldsComparable(params, before, after);
    ViewCarried(params, before, after, snap, r);
    CallPayload(params, batchK, calls, after[r], snap, WorldOf(params, before), WorldOf(params, after), |after|, r, c);
    assert CallIs(calls[c], Plan(params, batchK)[c], RankDeltas(params, after[r], snap));
  }

  lemma PayloadsCollected(params: seq<Param>, batchK: nat, calls: seq<seq<Call>>, before: Cluster, after: Cluster,
                          snaps: seq<map<string, seq<Value>>>)
    requires ClusterOk(params, before) && ClusterOk(params, after) && SameLayout(before, after)
    requires |calls| == |snaps| == |after| == |before|
    requires forall r | 0 <= r < |after| ::
      Current(params, before[r], snaps[r]) && Issued(params, after[r], snaps[r], batchK, calls[r])
    ensures forall r | 0 <= r < |after| :: |calls[r]| == |Plan(params, batchK)|
    ensures AllPayloads(params, Collected(calls, |Plan(params, batchK)|), Plan(params, batchK),
                        WorldOf(params, before), WorldOf(params, after), |after|)
  {
    WorldsComparable(params, before, after);
    hide ParamOk, Plan, BatchDeltas, AllComparable, WorldOf, SameLayout, Current, Issued, SameShape;
    var was, now, batches := WorldOf(params, before), WorldOf(params, after), Plan(params, batchK);
    forall r | 0 <= r < |after| ensures |calls[r]| == |batches| {
      IssuedLength(params, after[r], snaps[r], batchK, calls[r]);
    }
    forall c | 0 <= c < |batches|
      ensures PayloadOk(params, Collected(calls, |batches|)[c], batches[c], was, now, |after|)
    {
      forall r | 0 <= r < |after| ensures Below(batches[c].members, |params|)
        && calls[r][c].payload == BatchDeltas(params, was, now, |after|, batches[c].members, r)
      {
        RankPayload(params, batchK, calls[r], before, after, snaps[r], r, c);
      }
      RanksPresent(params, after);
    }
  }

  lemma IssuedLength(params: seq<Param>, locals: seq<LocalShard>, snap: map<string, seq<Value>>, batchK: nat,
                     calls: seq<Call>)
    requires Issued(params, locals, snap, batchK, calls)
    ensures |calls| == |Plan(params, batchK)|
  {
  }

  lemma RanksPresent(params: seq<Param>, cluster: Cluster)
    requires ClusterOk(params, cluster)
    ensures |cluster| > 0
  {
  }

  ghost predicate DistinctRanks(ranks: seq<TrainerRank>) {
    forall a, b | 0 <= a < b < |ranks| :: ranks[a] != ranks[b]
  }

  /** All ranks diff their shards and bring their snapshots up to date. */
  method IssueAll(params: seq<Param>, ranks: seq<TrainerRank>, cluster: Cluster, batchK: nat, ghost before: Cluster)
    returns (payloads: seq<seq<seq<Delta>>>)
    requires DistinctParams(params) && ClusterOk(params, before) && ClusterOk(params, cluster)
    requires SameLayout(before, cluster) && |ranks| == |cluster| == |before| && DistinctRanks(ranks)
    requires forall r | 0 <= r < |ranks| :: Current(params, before[r], ranks[r].shardSnap)
    modifies ranks
    ensures forall r | 0 <= r < |ranks| :: Current(params, cluster[r], ranks[r].shardSnap)
    ensures AllPayloads(params, payloads, Plan(params, batchK), WorldOf(params, before), WorldOf(params, cluster),
                        |cluster|)
  {
    ghost var snaps := SnapsOf(ranks);
    hide ParamOk, SameLayout, Plan, CallsAre, RankDeltas, WorldOf, AllPayloads, Issued, Current, Ready;
    var calls: seq<seq<Call>> := [];
    for r := 0 to |ranks|
      invariant |calls| == r
      invariant forall j | 0 <= j < r :: Current(params, cluster[j], ranks[j].shardSnap)
      invariant forall j | r <= j < |ranks| :: ranks[j].shardSnap == snaps[j]
      invariant forall j | 0 <= j < r :: Issued(params, cluster[j], snaps[j], batchK, calls[j])
    {
      ReadyRank(params, before, cluster, snaps[r], r);
      var issued := ranks[r].IssueGathers(params, cluster[r], batchK);
      IssuedBy(params, cluster[r], snaps[r], batchK, issued);
      CurrentBy(params, cluster[r], ranks[r].shardSnap);
      calls := calls + [issued];
    }
    PayloadsCollected(params, batchK, calls, before, cluster, snaps);
    payloads := Collected(calls, |Plan(params, batchK)|);
  }

  ghost function SnapsOf(ranks: seq<TrainerRank>): (snaps: seq<map<string, seq<Value>>>)
    reads ranks
    ensures |snaps| == |ranks| && forall r | 0 <= r < |ranks| :: snaps[r] == ranks[r].shardSnap
  {
    if ranks == [] then [] else SnapsOf(ranks[..|ranks| - 1]) + [ranks[|ranks| - 1].shardSnap]
  }

  lemma CurrentBy(params: seq<Param>, locals: seq<LocalShard>, snap: map<string, seq<Value>>)
    requires |locals| == |params|
    requires forall i | 0 <= i < |params| :: params[i].name in snap && snap[params[i].name] == locals[i].data
    ensures Current(params, locals, snap)
  {
  }

  lemma ReadyRank(params: seq<Param>, before: Cluster, after: Cluster, snap: map<string, seq<Value>>, r: nat)
    requires ClusterOk(params, before) && ClusterOk(params, after) && SameLayout(before, after)
    requires r < |after| == |before|
    requires Current(params, before[r], snap)
    ensures Ready(params, after[r], snap) && |after[r]| == |params|
  {
    ViewCarried(params, before, after, snap, r);
  }

  lemma IssuedBy(params: seq<Param>, locals: seq<LocalShard>, snap: map<string, seq<Value>>, batchK: nat,
                 calls: seq<Call>)
    requires Ready(params, locals, snap) && CallsAre(calls, Plan(params, batchK), RankDeltas(params, locals, snap))
    ensures Issued(params, locals, snap, batchK, calls)
  {
  }

  /** One sparse sync, from the snapshots that the sync before has left to the live weights of the rollout worker. */
  method Sync(params: seq<Param>, ranks: seq<TrainerRank>, cluster: Cluster, batchK: nat, bucketSize: nat,
              model: RolloutModel, ghost before: Cluster)
    requires DistinctParams(params) && PositionsFit(params) && ClusterOk(params, before) && ClusterOk(params, cluster)
    requires SameLayout(before, cluster) && |ranks| == |cluster| == |before| && DistinctRanks(ranks)
    requires forall r | 0 <= r < |ranks| :: Current(params, before[r], ranks[r].shardSnap)
    requires HasAllTensors(model.weights, params)
    modifies ranks, model
    ensures forall r | 0 <= r < |ranks| :: Current(params, cluster[r], ranks[r].shardSnap)
    ensures AllSendable(params, Some(WorldOf(params, before)), WorldOf(params, cluster))
    ensures Complete(Members(Plan(params, batchK)), |params|)
    ensures model.weights == Synced(old(model.weights), params, Some(WorldOf(params, before)), WorldOf(params, cluster),
                                    Members(Plan(params, batchK)))
  {
    hide ParamOk, SameLayout, Plan, Current, WorldOf, AllPayloads, Synced, PositionsFit;
    var payloads := IssueAll(params, ranks, cluster, batchK, before);
    SyncRollout(params, payloads, batchK, bucketSize, model, WorldOf(params, before), WorldOf(params, cluster),
                |cluster|);
  }

  // ---------- a whole history ----------

  ghost predicate HistoryRuns(params: seq<Param>, history: seq<Cluster>) {
    && history != [] && (forall k | 0 <= k < |history| :: ClusterOk(params, history[k]))
    && forall k | 0 < k < |history| :: SameLayout(history[k - 1], history[k])
  }

  ghost function Worlds(params: seq<Param>, history: seq<Cluster>): (ws: seq<World>)
    requires forall k | 0 <= k < |history| :: ClusterOk(params, history[k])
    ensures |ws| == |history|
  {
    seq(|history|, k requires 0 <= k < |history| =>
      assert ClusterOk(params, history[k]);
      WorldOf(params, history[k]))
  }

  /** The seed goes parameter by parameter, later syncs batch by batch. */
  ghost function Orders(params: seq<Param>, batchK: nat, n: nat): (orders: seq<seq<nat>>)
    ensures |orders| == n
  {
    seq(n, k requires 0 <= k < n => if k == 0 then Range(|params|) else Members(Plan(params, batchK)))
  }

  lemma OrdersComplete(params: seq<Param>, batchK: nat, n: nat)
    ensures OrdersOk(params, Orders(params, batchK, n))
  {
    hide Plan;
    PlanOk(params, batchK);
    RangeComplete(|params|);
  }

  lemma RangeComplete(n: nat)
    ensures Complete(Range(n), n)
  {
    forall i | 0 <= i < n ensures i in Range(n) {
      assert Range(n)[i] == i;
    }
  }

  /** The state of the run after the first k syncs. */
  ghost predicate RunOk(params: seq<Param>, history: seq<Cluster>, batchK: nat, k: nat, start: LiveWeights,
                        now: LiveWeights)
    requires 0 < k <= |history| && HistoryRuns(params, history) && HasAllTensors(start, params)
  {
    && HistoryOk(params, Worlds(params, history)[..k]) && OrdersOk(params, Orders(params, batchK, k))
    && HasAllTensors(now, params)
    && now == DeltaSync.Received(start, params, Worlds(params, history)[..k], Orders(params, batchK, k))
  }

  lemma RunBegins(params: seq<Param>, history: seq<Cluster>, batchK: nat, start: LiveWeights, now: LiveWeights)
    requires HistoryRuns(params, history) && HasAllTensors(start, params)
    requires AllSendable(params, None, WorldOf(params, history[0]))
    requires now == Synced(start, params, None, WorldOf(params, history[0]), Range(|params|))
    ensures RunOk(params, history, batchK, 1, start, now)
  {
    OrdersComplete(params, batchK, 1);
    hide ParamOk, SameLayout, Synced, AllSendable, Plan;
    assert Worlds(params, history)[..1] == [WorldOf(params, history[0])];
  }

  lemma HistoryMore(params: seq<Param>, worlds: seq<World>, k: nat)
    requires k > 0 && |worlds| == k + 1 && HistoryOk(params, worlds[..k])
    requires AllSendable(params, Some(worlds[k - 1]), worlds[k])
    ensures HistoryOk(params, worlds)
  {
    hide AllSendable;
    assert worlds[..k][0] == worlds[0];
    forall i | 0 < i < |worlds| ensures AllSendable(params, Some(worlds[i - 1]), worlds[i]) {
      if i < k {
        assert AllSendable(params, Some(worlds[..k][i - 1]), worlds[..k][i]);
      }
    }
  }

  lemma ReceivedMore(m: LiveWeights, params: seq<Param>, worlds: seq<World>, orders: seq<seq<nat>>, k: nat)
    requires k > 0 && |worlds| == |orders| == k + 1 && HasAllTensors(m, params) && OrdersOk(params, orders)
    requires HistoryOk(params, worlds[..k]) && OrdersOk(params, orders[..k])
    requires AllSendable(params, Some(worlds[k - 1]), worlds[k]) && Below(orders[k], |params|)
    ensures HistoryOk(params, worlds)
    ensures DeltaSync.Received(m, params, worlds, orders) ==
      Synced(DeltaSync.Received(m, params, worlds[..k], orders[..k]), params, Some(worlds[k - 1]), worlds[k], orders[k])
  {
    hide AllSendable, Synced, OrdersOk, HistoryOk, HasTensors;
    HistoryMore(params, worlds, k);
  }

  lemma WorldsAt(params: seq<Param>, history: seq<Cluster>, k: nat)
    requires k < |history| && HistoryRuns(params, history)
    ensures Worlds(params, history)[k] == WorldOf(params, history[k])
  {
  }

  lemma OrdersAt(params: seq<Param>, batchK: nat, k: nat)
    requires k > 0
    ensures Orders(params, batchK, k + 1)[..k] == Orders(params, batchK, k)
    ensures Orders(params, batchK, k + 1)[k] == Members(Plan(params, batchK))
  {
    hide Plan, Members;
  }

  lemma RunStep(params: seq<Param>, history: seq<Cluster>, batchK: nat, k: nat, start: LiveWeights, was: LiveWeights,
                now: LiveWeights)
    requires 0 < k < |history| && HistoryRuns(params, history) && HasAllTensors(start, params)
    requires RunOk(params, history, batchK, k, start, was) && HasAllTensors(was, params)
    requires AllSendable(params, Some(WorldOf(params, history[k - 1])), WorldOf(params, history[k]))
    requires Below(Members(Plan(params, batchK)), |params|)
    requires now == Synced(was, params, Some(WorldOf(params, history[k - 1])), WorldOf(params, history[k]),
                           Members(Plan(params, batchK)))
    ensures RunOk(params, history, batchK, k + 1, start, now)
  {
    hide ParamOk, SameLayout, Synced, AllSendable, Plan, Orders, OrdersOk, HistoryOk, Worlds, DeltaSync.Received;
    hide HasTensors, Members;
    OrdersComplete(params, batchK, k + 1);
    OrdersComplete(params, batchK, k);
    OrdersAt(params, batchK, k);
    WorldsAt(params, history, k - 1);
    WorldsAt(params, history, k);
    var worlds, orders := Worlds(params, history)[..k + 1], Orders(params, batchK, k + 1);
    assert worlds[..k] == Worlds(params, history)[..k];
    ReceivedMore(start, params, worlds, orders, k);
  }

  /** Creates the ranks and seeds their snapshots. */
  method SeedRanks(params: seq<Param>, cluster: Cluster) returns (ranks: seq<TrainerRank>)
    requires DistinctParams(params) && Wide(params, cluster)
    ensures |ranks| == |cluster| && DistinctRanks(ranks) && forall r | 0 <= r < |ranks| :: fresh(ranks[r])
    ensures forall r | 0 <= r < |ranks| :: Current(params, cluster[r], ranks[r].shardSnap)
  {
    ranks := [];
    for r := 0 to |cluster|
      invariant |ranks| == r && DistinctRanks(ranks) && forall j | 0 <= j < r :: fresh(ranks[j])
      invariant forall j | 0 <= j < r :: Current(params, cluster[j], ranks[j].shardSnap)
    {
      var rank := new TrainerRank();
      rank.Seed(params, cluster[r]);
      ranks := ranks + [rank];
    }
  }

  method SeedSync(params: seq<Param>, cluster: Cluster, bucketSize: nat, model: RolloutModel)
    requires ClusterOk(params, cluster) && HasAllTensors(model.weights, params)
    modifies model
    ensures AllSendable(params, None, WorldOf(params, cluster))
    ensures model.weights == Synced(old(model.weights), params, None, WorldOf(params, cluster), Range(|params|))
  {
    WorldSendable(params, cluster);
    var offsets := seq(|params|, i requires 0 <= i < |params| => OffsetsOf(cluster, i));
    forall i | 0 <= i < |params| ensures SeedOffsets(params[i], WorldOf(params, cluster)[i], offsets[i]) {
      assert ParamOk(params[i], cluster, i);
    }
    hide ParamOk, AllSendable, Synced;
    SeedRollout(params, WorldOf(params, cluster), offsets, bucketSize, model);
  }

  /** What a finished run promises: the value of every element on the rollout side, whatever was there before. */
  lemma RunMeans(params: seq<Param>, history: seq<Cluster>, batchK: nat, start: LiveWeights, now: LiveWeights)
    requires HistoryRuns(params, history) && HasAllTensors(start, params) && DistinctTensors(params)
    requires RunOk(params, history, batchK, |history|, start, now)
    ensures HistoryOk(params, Worlds(params, history))
    ensures LastNumbers(now, params, Worlds(params, history))
    ensures AllSendable(params, None, Worlds(params, history)[|history| - 1])
    ensures NeverToNaN(params, Worlds(params, history)) ==> Agrees(now, params, Worlds(params, history)[|history| - 1])
  {
    hide ParamOk, SameLayout, AllSendable, DeltaSync.Received, Trace, Agrees, Worlds, DistinctTensors, Orders;
    hide OrdersOk, NoChangeToNaN;
    var worlds, orders := Worlds(params, history), Orders(params, batchK, |history|);
    assert worlds[..|history|] == worlds;
    forall i, a, j: nat | 0 <= i < |params| && 0 <= a < Count(params[i]) && j < Numel(ShapeOf(params[i], a))
      ensures now[NameOf(params[i], a)][j] == LastNumber(Trace(params, worlds, i, a, j))
    {
      ReceivedIsLastNumber(start, params, worlds, orders, i, a, j);
    }
    LastSendable(params, history);
    if NeverToNaN(params, worlds) {
      SyncsAgree(start, params, worlds, orders);
    }
  }

  lemma LastSendable(params: seq<Param>, history: seq<Cluster>)
    requires HistoryRuns(params, history)
    ensures AllSendable(params, None, Worlds(params, history)[|history| - 1])
  {
    hide ParamOk, SameLayout, AllSendable;
    WorldSendable(params, history[|history| - 1]);
  }

  /** Every element is the last number that the trainer's element has been. */
  ghost predicate LastNumbers(m: LiveWeights, params: seq<Param>, worlds: seq<World>)
    requires HistoryOk(params, worlds)
  {
    && HasAllTensors(m, params)
    && forall i, a, j | 0 <= i < |params| && 0 <= a < Count(params[i]) && 0 <= j < Numel(ShapeOf(params[i], a)) ::
      m[NameOf(params[i], a)][j] == LastNumber(Trace(params, worlds, i, a, j))
  }

  ghost predicate NeverToNaN(params: seq<Param>, worlds: seq<World>)
    requires HistoryOk(params, worlds)
  {
    forall k | 0 < k < |worlds| :: NoChangeToNaN(params, worlds[k - 1], worlds[k])
  }

  /**
   The run: W ranks and a rollout worker over a history of weights. Afterwards every rank's snapshots are its
   current shards, every element of the rollout weights is the last number that it has been on the trainer,
   and as long as no element changed to a NaN the rollout weights are the trainer's.
  */
  method Run(params: seq<Param>, history: seq<Cluster>, batchK: nat, bucketSize: nat, model: RolloutModel)
    returns (ranks: seq<TrainerRank>)
    requires HistoryRuns(params, history) && DistinctParams(params) && DistinctTensors(params) && PositionsFit(params)
    requires HasAllTensors(model.weights, params)
    modifies model
    ensures |ranks| == |history[|history| - 1]|
    ensures forall r | 0 <= r < |ranks| :: Current(params, history[|history| - 1][r], ranks[r].shardSnap)
    ensures HistoryOk(params, Worlds(params, history)) && LastNumbers(model.weights, params, Worlds(params, history))
    ensures AllSendable(params, None, Worlds(params, history)[|history| - 1])
    ensures NeverToNaN(params, Worlds(params, history)) ==>
      Agrees(model.weights, params, Worlds(params, history)[|history| - 1])
  {
    ghost var start := model.weights;
    ranks := SeedRanks(params, history[0]);
    SeedSync(params, history[0], bucketSize, model);
    RunBegins(params, history, batchK, start, model.weights);
    hide ParamOk, SameLayout, AllSendable, Synced, Plan, Current, RunOk, PositionsFit, Complete;
    for k := 1 to |history|
      invariant |ranks| == |history[k - 1]| && DistinctRanks(ranks) && forall r | 0 <= r < |ranks| :: fresh(ranks[r])
      invariant forall r | 0 <= r < |ranks| :: Current(params, history[k - 1][r], ranks[r].shardSnap)
      invariant RunOk(params, history, batchK, k, start, model.weights) && HasAllTensors(model.weights, params)
    {
      ghost var was := model.weights;
      LayoutRanks(history[k - 1], history[k]);
      Sync(params, ranks, history[k], batchK, bucketSize, model, history[k - 1]);
      PlanBelow(params, batchK);
      RunStep(params, history, batchK, k, start, was, model.weights);
      RunHas(params, history, batchK, k + 1, start, model.weights);
    }
    RunMeans(params, history, batchK, start, model.weights);
  }

  lemma PlanBelow(params: seq<Param>, batchK: nat)
    ensures Below(Members(Plan(params, batchK)), |params|)
  {
    PlanOk(params, batchK);
  }

  lemma RunHas(params: seq<Param>, history: seq<Cluster>, batchK: nat, k: nat, start: LiveWeights, now: LiveWeights)
    requires 0 < k <= |history| && HistoryRuns(params, history) && HasAllTensors(start, params)
    requires RunOk(params, history, batchK, k, start, now)
    ensures HasAllTensors(now, params)
  {
  }
}
