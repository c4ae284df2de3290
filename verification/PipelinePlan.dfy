/**
 Distributing layers over pipeline stages (verl/verl/model_merger/megatron_model_merger.py): the first and
 the last stage share what equally filled middle stages leave over.
*/
module PipelinePlan {
  import opened Arithmetic

  /** `sorted(...)[0]` of an empty list is the IndexError. */
  datatype Outcome = Plan(shards: seq<nat>) | ValueError | IndexError

  datatype Candidate = Candidate(shards: seq<nat>, diff: int)

  function Abs(x: int): nat {
    if x < 0 then -x else x
  }

  /** The layers that middle stages of m layers each leave to the first and the last stage. */
  function Rest(layers: nat, pp: nat, m: nat): int
    requires pp >= 3
  {
    layers - m * (pp - 2)
  }

  /** The condition under which the search keeps m. */
  predicate Kept(layers: nat, pp: nat, m: nat)
    requires pp >= 3
  {
    var rest := Rest(layers, pp, m);
    0 < rest / 2 <= m && 0 < rest - rest / 2 <= m
  }

  /** The stages with m layers in each middle one. */
  function Stages(layers: nat, pp: nat, m: nat): seq<nat>
    requires pp >= 3 && Kept(layers, pp, m)
  {
    var rest := Rest(layers, pp, m);
    [rest / 2] + seq(pp - 2, _ => m) + [rest - rest / 2]
  }

  function Diff(layers: nat, pp: nat, m: nat): nat
    requires pp >= 3
  {
    Abs(Rest(layers, pp, m) / 2 - m)
  }

  /** The first element with the least key: what a stable sort puts in front. */
  function FirstLeast(s: seq<Candidate>): (k: nat)
    requires s != []
    ensures k < |s| && forall i | 0 <= i < |s| :: s[k].diff <= s[i].diff && (i < k ==> s[k].diff < s[i].diff)
  {
    if |s| == 1 then 0
    else
      var k := FirstLeast(s[..|s| - 1]);
      assert forall i | 0 <= i < |s| - 1 :: s[..|s| - 1][i] == s[i];
      if s[|s| - 1].diff < s[k].diff then |s| - 1 else k
  }

  /** A middle size is kept exactly from ceil(layers / pp) on, as long as both ends get a layer. */
  lemma KeptIff(layers: nat, pp: nat, m: nat)
    requires pp >= 3
    ensures Kept(layers, pp, m) <==> Ceil(layers, pp) <= m && m * (pp - 2) + 2 <= layers
  {
    CeilBounds(layers, pp);
    assert m * (pp - 2) == m * pp - 2 * m;
    var c := Ceil(layers, pp);
    if c <= m {
      MulMono(c, m, pp);
    } else {
      MulMono(m, c - 1, pp);
      assert (c - 1) * pp == c * pp - pp;
    }
  }

  /** Larger middle stages are less even. */
  lemma DiffIncreases(layers: nat, pp: nat, m: nat, m': nat)
    requires pp >= 3 && m < m' && Kept(layers, pp, m) && Kept(layers, pp, m')
    ensures Diff(layers, pp, m) < Diff(layers, pp, m')
  {
    MulMono(m, m', pp - 2);
  }

  /** The candidates that the loop collects below m, in the order in which it finds them. */
  function Candidates(layers: nat, pp: nat, m: nat): seq<Candidate>
    requires pp >= 3
  {
    if m == 0 then []
    else
      var found := Candidates(layers, pp, m - 1);
      if Kept(layers, pp, m - 1) then found + [Candidate(Stages(layers, pp, m - 1), Diff(layers, pp, m - 1))] else found
  }

  lemma {:induction false} CandidatesAre(layers: nat, pp: nat, m: nat)
    requires pp >= 3
    ensures forall x <- Candidates(layers, pp, m) ::
      exists k: nat :: k < m && Kept(layers, pp, k) && x == Candidate(Stages(layers, pp, k), Diff(layers, pp, k))
    ensures forall k: nat | k < m && Kept(layers, pp, k) ::
      Candidate(Stages(layers, pp, k), Diff(layers, pp, k)) in Candidates(layers, pp, m)
  {
    hide Kept, Stages, Diff;
    if m > 0 {
      CandidatesAre(layers, pp, m - 1);
    }
  }

  /** The candidate with the smallest kept middle size has strictly the least key. */
  lemma LeastCandidate(layers: nat, pp: nat, c: nat, found: seq<Candidate>)
    requires pp >= 3 && Kept(layers, pp, c) && found == Candidates(layers, pp, layers) && c < layers
    requires forall k: nat | k < layers && Kept(layers, pp, k) :: c <= k
    ensures found != [] && found[FirstLeast(found)].shards == Stages(layers, pp, c)
  {
    hide Kept, Stages, Diff, Candidates;
    CandidatesAre(layers, pp, layers);
    var best := Candidate(Stages(layers, pp, c), Diff(layers, pp, c));
    assert best in found;
    var b :| 0 <= b < |found| && found[b] == best;
    var w := found[FirstLeast(found)];
    assert w.diff <= found[b].diff && w in found;
    var k: nat :| k < layers && Kept(layers, pp, k) && w == Candidate(Stages(layers, pp, k), Diff(layers, pp, k));
    if c < k {
      DiffIncreases(layers, pp, c, k);
    }
  }

  /** Keeping ceil(layers / pp) takes it below the number of layers. */
  lemma KeptInRange(layers: nat, pp: nat, c: nat)
    requires pp >= 3 && c * (pp - 2) + 2 <= layers
    ensures c < layers
  {
    MulMono(1, pp - 2, c);
  }

  lemma KeptSmaller(layers: nat, pp: nat, c: nat, k: nat)
    requires pp >= 3 && c <= k && k * (pp - 2) + 2 <= layers
    ensures c * (pp - 2) + 2 <= layers
  {
    MulMono(c, k, pp - 2);
  }

  /** The winner has middle stages of exactly ceil(layers / pp), and exists exactly when they leave two layers over. */
  lemma Winner(layers: nat, pp: nat)
    requires 3 <= pp <= layers
    ensures var found, c := Candidates(layers, pp, layers), Ceil(layers, pp);
      && (found != [] <==> c * (pp - 2) + 2 <= layers) && (found != [] <==> Kept(layers, pp, c))
      && (found != [] ==> found[FirstLeast(found)].shards == Stages(layers, pp, c))
  {
    hide Kept, Stages, Diff, Candidates, Ceil;
    var found, c := Candidates(layers, pp, layers), Ceil(layers, pp);
    KeptIff(layers, pp, c);
    if Kept(layers, pp, c) {
      KeptInRange(layers, pp, c);
      forall k: nat | k < layers && Kept(layers, pp, k) ensures c <= k {
        KeptIff(layers, pp, k);
      }
      LeastCandidate(layers, pp, c, found);
    } else if found != [] {
      CandidatesAre(layers, pp, layers);
      assert found[0] in found;
      var k: nat :|
        k < layers && Kept(layers, pp, k) && found[0] == Candidate(Stages(layers, pp, k), Diff(layers, pp, k));
      KeptIff(layers, pp, k);
      KeptSmaller(layers, pp, c, k);
    }
  }

  lemma {:induction false} SumOfEqual(n: nat, m: nat)
    ensures Sum(seq(n, _ => m)) == n * m
  {
    if n > 0 {
      var s := seq(n, _ => m);
      assert s[..n - 1] == seq(n - 1, _ => m);
      SumOfEqual(n - 1, m);
    }
  }

  lemma {:induction false} SumCons(x: nat, s: seq<nat>)
    ensures Sum([x] + s) == x + Sum(s)
  {
    if s == [] {
      assert [x] + s == [x] && [x][..0] == [];
    } else {
      assert ([x] + s)[..|s|] == [x] + s[..|s| - 1];
      SumCons(x, s[..|s| - 1]);
    }
  }

  lemma SumEnds(first: nat, middle: seq<nat>, last: nat)
    ensures Sum([first] + middle + [last]) == first + Sum(middle) + last
  {
    SumCons(first, middle);
    var s := [first] + middle;
    assert (s + [last])[..|s|] == s;
  }

  lemma SumPair(a: nat, b: nat)
    ensures Sum([a, b]) == a + b
  {
    SumEnds(a, [], b);
    assert [a] + [] + [b] == [a, b];
  }

  lemma StagesSum(layers: nat, pp: nat, m: nat)
    requires pp >= 3 && Kept(layers, pp, m)
    ensures Sum(Stages(layers, pp, m)) == layers
  {
    hide Sum;
    var rest := Rest(layers, pp, m);
    SumOfEqual(pp - 2, m);
    SumEnds(rest / 2, seq(pp - 2, _ => m), rest - rest / 2);
  }

  lemma StagesAre(layers: nat, pp: nat, m: nat)
    requires pp >= 3 && Kept(layers, pp, m)
    ensures var s := Stages(layers, pp, m);
      && |s| == pp && (forall i | 0 <= i < pp :: 0 < s[i] <= m) && (forall i | 0 < i < pp - 1 :: s[i] == m)
      && s[0] <= s[pp - 1] <= s[0] + 1
  {
    hide Rest;
  }

  /** The stages and the key that the loop computes for a middle size it keeps. */
  lemma FoundIs(layers: nat, pp: nat, m: nat, firstLast: int)
    requires pp >= 3 && firstLast == layers - m * (pp - 2)
    ensures Kept(layers, pp, m) <==> 0 < firstLast / 2 <= m && 0 < firstLast - firstLast / 2 <= m
    ensures Kept(layers, pp, m) ==>
      Stages(layers, pp, m) == [firstLast / 2] + seq(pp - 2, _ => m) + [firstLast - firstLast / 2]
    ensures Diff(layers, pp, m) == Abs(firstLast / 2 - m)
  {
  }

  /** The search over the size of the middle stages. */
  method FindStrategies(layers: nat, pp: nat) returns (strategies: seq<Candidate>)
    requires pp >= 3
    ensures strategies == Candidates(layers, pp, layers)
  {
    hide Diff, Stages;
    var middleSize := pp - 2;
    strategies := [];
    for m := 0 to layers
      invariant strategies == Candidates(layers, pp, m)
    {
      var firstLast := layers - m * middleSize;
      FoundIs(layers, pp, m, firstLast);
      var first := firstLast / 2;
      var last := firstLast - firstLast / 2;
      if 0 < first <= m && 0 < last <= m {
        strategies := strategies + [Candidate([first] + seq(middleSize, _ => m) + [last], Abs(first - m))];
      }
    }
  }

  /** What is asked of the shards of a plan. */
  ghost predicate PlanFor(shards: seq<nat>, layers: nat, pp: nat)
    requires pp >= 1
  {
    && |shards| == pp && Sum(shards) == layers
    && (forall i | 0 <= i < pp :: 0 < shards[i] <= Ceil(layers, pp))
    && (forall i | 0 < i < pp - 1 :: shards[i] == Ceil(layers, pp))
    && (pp >= 2 ==> shards[0] <= shards[pp - 1] <= shards[0] + 1)
  }

  lemma OneStage(layers: nat)
    requires layers >= 1
    ensures PlanFor([layers], layers, 1)
  {
    SumCons(layers, []);
    assert [layers] + [] == [layers];
  }

  lemma TwoStages(layers: nat)
    requires layers >= 2
    ensures PlanFor([layers / 2, layers - layers / 2], layers, 2)
  {
    SumPair(layers / 2, layers - layers / 2);
    hide Sum;
    assert Ceil(layers, 2) == (layers + 1) / 2 == layers - layers / 2;
  }

  lemma StagesPlan(layers: nat, pp: nat)
    requires 3 <= pp && Kept(layers, pp, Ceil(layers, pp))
    ensures PlanFor(Stages(layers, pp, Ceil(layers, pp)), layers, pp)
  {
    hide Stages, Kept, Ceil;
    StagesSum(layers, pp, Ceil(layers, pp));
    StagesAre(layers, pp, Ceil(layers, pp));
  }

  /** `get_dynamic_pipeline_shards`: which error when, and otherwise a plan as even as the code promises. */
  method GetDynamicPipelineShards(layers: int, pp: int) returns (r: Outcome)
    ensures layers < pp || pp < 1 <==> r.ValueError?
    ensures r.IndexError? <==> 3 <= pp <= layers && Ceil(layers, pp) * (pp - 2) + 2 > layers
    ensures r.Plan? ==> PlanFor(r.shards, layers, pp)
  {
    if layers < pp {
      return ValueError;
    }
    if pp < 1 {
      return ValueError;
    }
    hide PlanFor, Candidates, Stages, Ceil, FirstLeast, Kept;
    if pp == 1 {
      OneStage(layers);
      return Plan([layers]);
    }
    if pp == 2 {
      TwoStages(layers);
      return Plan([layers / 2, layers - layers / 2]);
    }
    var strategies := FindStrategies(layers, pp);
    Winner(layers, pp);
    if strategies == [] {
      return IndexError;
    }
    StagesPlan(layers, pp);
    return Plan(strategies[FirstLeast(strategies)].shards);
  }

  /** No distribution has a smaller largest stage. */
  lemma {:induction false} LeastLargest(shards: seq<nat>, layers: nat, bound: nat)
    requires shards != [] && Sum(shards) == layers && forall i | 0 <= i < |shards| :: shards[i] <= bound
    ensures Ceil(layers, |shards|) <= bound
  {
    SumBound(shards, bound);
    CeilBounds(layers, |shards|);
    assert (bound + 1) * |shards| == bound * |shards| + |shards|;
    if bound < Ceil(layers, |shards|) {
      MulMono(bound + 1, Ceil(layers, |shards|), |shards|);
    }
  }

  lemma {:induction false} SumBound(shards: seq<nat>, bound: nat)
    requires forall i | 0 <= i < |shards| :: shards[i] <= bound
    ensures Sum(shards) <= bound * |shards|
  {
    if shards != [] {
      SumBound(shards[..|shards| - 1], bound);
      assert bound * |shards| == bound * (|shards| - 1) + bound;
    }
  }

  /** The search fails although enough layers are there: five layers on four stages. */
  lemma FiveLayersOnFourStages()
    ensures Candidates(5, 4, 5) == [] && Sum([1, 1, 1, 2]) == 5
  {
    hide Candidates, Sum, Stages, Kept, FirstLeast;
    assert Ceil(5, 4) == 2;
    Winner(5, 4);
    SumPair(1, 1);
    SumEnds(1, [1, 1], 2);
    assert [1] + [1, 1] + [2] == [1, 1, 1, 2];
  }
}
