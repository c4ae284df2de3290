/**
 What the receivers of a Mooncake call yield, end to end: this engine does not cut weights, lists the entries of
 a bucket in a dictionary by name, and views each weight in place, in one of the two halves of its buffer
 (verl/verl/checkpoint_engine/mooncake_checkpoint_engine.py).
*/
module MooncakeWeights {
  import opened Arithmetic
  import opened Weights
  import opened Packing
  import opened Transfer
  import opened MooncakeChain

  // ---------- whole weights ----------

  /** This engine does not cut weights: each is one entry. */
  function WholeChunks(ws: seq<Weight>): (r: seq<Chunk>)
    ensures |r| == |ws|
  {
    seq(|ws|, i requires 0 <= i < |ws| => ChunkAt(ws[i], 0, |ws[i].tensor.data|))
  }

  lemma WholePacking(ws: seq<Weight>, bucketSize: nat)
    requires forall w <- ws :: |w.tensor.data| <= bucketSize
    ensures forall b <- Pack(WholeChunks(ws), bucketSize) :: Tiled(b) && Size(b) <= bucketSize
    ensures |Pack(WholeChunks(ws), bucketSize)| >= 1
    ensures Unplace(Flatten(Pack(WholeChunks(ws), bucketSize))) == WholeChunks(ws)
  {
    var chunks := WholeChunks(ws);
    forall c <- chunks ensures |c.data| == c.meta.chunkSize <= bucketSize {
      var i :| 0 <= i < |chunks| && chunks[i] == c;
      assert ws[i] in ws;
    }
    PackLayout([], chunks, bucketSize);
    PackContents([], chunks, bucketSize);
    assert Unplace(chunks) == chunks;
    assert Unplace([]) + chunks == chunks;
  }

  /** No bucket holds two weights of one name. */
  ghost predicate NamesApart(buckets: seq<Bucket>) {
    forall b <- buckets :: DistinctChunkNames(b)
  }

  lemma {:induction false} ListingsIff(buckets: seq<Bucket>)
    ensures |Flatten(Listings(buckets))| <= |Flatten(buckets)|
    ensures |Flatten(Listings(buckets))| == |Flatten(buckets)| <==> NamesApart(buckets)
    ensures NamesApart(buckets) ==> Listings(buckets) == buckets
  {
    hide DistinctChunkNames, Listed;
    if buckets != [] {
      ListedIff(buckets[0]);
      ListingsIff(buckets[1..]);
      assert Listings(buckets)[1..] == Listings(buckets[1..]);
      assert buckets == [buckets[0]] + buckets[1..];
      assert NamesApart(buckets) <==> DistinctChunkNames(buckets[0]) && NamesApart(buckets[1..]);
    }
  }

  lemma DistinctParts(a: Bucket, b: Bucket)
    requires DistinctChunkNames(a + b)
    ensures DistinctChunkNames(a) && DistinctChunkNames(b)
  {
    var s := a + b;
    forall i, j | 0 <= i < j < |a| ensures a[i].meta.name != a[j].meta.name {
      assert s[i].meta.name != s[j].meta.name;
    }
    forall i, j | 0 <= i < j < |b| ensures b[i].meta.name != b[j].meta.name {
      assert s[|a| + i].meta.name != s[|a| + j].meta.name;
    }
  }

  lemma {:induction false} DistinctFlatten(buckets: seq<Bucket>)
    requires DistinctChunkNames(Flatten(buckets))
    ensures NamesApart(buckets)
  {
    hide DistinctChunkNames;
    if buckets != [] {
      DistinctParts(buckets[0], Flatten(buckets[1..]));
      DistinctFlatten(buckets[1..]);
      assert buckets == [buckets[0]] + buckets[1..];
    }
  }

  /** Weights of distinct names never meet the condition, whatever the bucket size. */
  lemma DistinctNamesApart(ws: seq<Weight>, bucketSize: nat)
    requires DistinctNames(ws) && forall w <- ws :: |w.tensor.data| <= bucketSize
    ensures NamesApart(Pack(WholeChunks(ws), bucketSize))
  {
    WholePacking(ws, bucketSize);
    var all := Flatten(Pack(WholeChunks(ws), bucketSize));
    forall i, j | 0 <= i < j < |all| ensures all[i].meta.name != all[j].meta.name {
      assert Unplace(all)[i] == WholeChunks(ws)[i] && Unplace(all)[j] == WholeChunks(ws)[j];
      assert ws[i].name != ws[j].name;
    }
    DistinctFlatten(Pack(WholeChunks(ws), bucketSize));
  }

  // ---------- views ----------

  ghost predicate Fitting(bucketSize: nat, k: nat, b: Bucket) {
    forall x <- b :: ViewFits(bucketSize, k, x.meta)
  }

  /** Every weight lies, in its half of the receivers' buffers, where its items can start. */
  ghost predicate HalvesAligned(buckets: seq<Bucket>, bucketSize: nat) {
    forall k: nat | k < |buckets| :: Fitting(bucketSize, k, buckets[k])
  }

  /** A rank's views so far: those of the buckets it has consumed, and those of the current one. */
  ghost predicate ViewsFit(c: Config, q: Rank) {
    && (forall k: nat | k < q.count && k < |c.buckets| :: Fitting(c.bucketSize, k, Listed(c.buckets[k])))
    && (q.count >= 0 ==> Fitting(c.bucketSize, q.count, YieldedHere(c, q)))
  }

  ghost predicate ViewedOk(c: Config, q: Rank) {
    q.viewed <==> ViewsFit(c, q)
  }

  ghost predicate AllViewedOk(c: Config, s: State) {
    |s.ranks| == c.ranks && forall r | 0 < r < c.ranks :: ViewedOk(c, s.ranks[r])
  }

  lemma FittingAppend(bucketSize: nat, k: nat, b: Bucket, x: Chunk)
    ensures Fitting(bucketSize, k, b + [x]) <==> Fitting(bucketSize, k, b) && ViewFits(bucketSize, k, x.meta)
  {
    hide ViewFits;
    assert x in b + [x];
    assert forall y <- b :: y in b + [x];
  }

  lemma ViewedSame(c: Config, q: Rank, q': Rank)
    requires ViewedOk(c, q) && q'.count == q.count && q'.viewed == q.viewed
    requires YieldedHere(c, q') == YieldedHere(c, q)
    ensures ViewedOk(c, q')
  {
    hide YieldedHere, Fitting;
  }

  lemma EntryViewed(c: Config, r: nat, q: Rank)
    requires 0 < r && RankOk(c, r, q) && q.pc == Yield && q.pos < |q.info.meta.entries| && ViewedOk(c, q)
    ensures RankShape(c, q) && ViewedOk(c, YieldedOne(c, q))
  {
    hide Fitting, Listed, Keeps, Yielded, ViewFits;
    var b := Listed(c.buckets[q.count]);
    assert b[..q.pos + 1] == b[..q.pos] + [b[q.pos]];
    FittingAppend(c.bucketSize, q.count, b[..q.pos], b[q.pos]);
  }

  lemma EndYieldViewed(c: Config, r: nat, q: Rank)
    requires 0 < r && RankOk(c, r, q) && q.pc == Yield && q.pos == |q.info.meta.entries| && ViewedOk(c, q)
    ensures ViewedOk(c, q.(pc := Signal))
  {
    hide Fitting, Listed, Keeps, Yielded;
    assert Listed(c.buckets[q.count])[..q.pos] == Listed(c.buckets[q.count]);
    ViewedSame(c, q, q.(pc := Signal));
  }

  lemma SignalViewed(c: Config, r: nat, q: Rank)
    requires 0 < r && RankOk(c, r, q) && q.pc == Signal && ViewedOk(c, q)
    ensures ViewedOk(c, Signalled(q))
  {
    hide Listed, Keeps, Yielded, ViewFits;
    assert YieldedHere(c, q) == Listed(c.buckets[q.count]);
  }

  lemma ForwardViewed(c: Config, r: nat, q: Rank)
    requires 0 < r && RankOk(c, r, q) && q.pc == Forward && ViewedOk(c, q)
    ensures ViewedOk(c, q.(pc := Yield, pos := 0))
  {
    hide Fitting, Listed, Keeps, Yielded;
    ViewedSame(c, q, q.(pc := Yield, pos := 0));
  }

  lemma NothingYieldedHere(c: Config, q: Rank, q': Rank)
    requires q.pc !in {Yield, Signal} && q'.pc !in {Yield, Signal} && q'.count == q.count && q'.viewed == q.viewed
    requires ViewedOk(c, q)
    ensures ViewedOk(c, q')
  {
    hide Fitting;
    ViewedSame(c, q, q');
  }

  lemma OwnViewed(c: Config, s: State, a: Action, r: nat)
    requires Enabled(c, s, a) && 0 < r < c.ranks && r < |s.ranks| && ViewedOk(c, s.ranks[r])
    requires a == TakeSlot(r) || a == Receive(r) || (a.CopyByte? && a.r == r) || a == EndRead(r)
    ensures |Apply(c, s, a).ranks| == c.ranks && ViewedOk(c, Apply(c, s, a).ranks[r])
  {
    hide ViewedOk, RankShape, AllCopied;
    NothingYieldedHere(c, s.ranks[r], Apply(c, s, a).ranks[r]);
  }

  /** A step of another rank changes no more than the slots of rank r. */
  lemma OthersLeave(c: Config, s: State, a: Action, r: nat)
    requires Enabled(c, s, a) && 0 < r < c.ranks && r < |s.ranks|
    requires a.FillEntry? || a.EndFill? || a.SendBucket? || a.r != r
    ensures |Apply(c, s, a).ranks| == c.ranks
    ensures Apply(c, s, a).ranks[r] == s.ranks[r].(slots := Apply(c, s, a).ranks[r].slots)
  {
    hide RankShape, Filled, Sent, SlotTaken, Received, Copied, YieldedOne, Signalled, InfoOf, AllCopied;
  }

  lemma EndsViewed(c: Config, s: State, a: Action, r: nat)
    requires Enabled(c, s, a) && 0 < r < c.ranks && r < |s.ranks| && RankOk(c, r, s.ranks[r]) && ViewedOk(c, s.ranks[r])
    requires a == ForwardInfo(r) || a == YieldEntry(r) || a == EndYield(r) || a == SignalDone(r)
    ensures |Apply(c, s, a).ranks| == c.ranks && ViewedOk(c, Apply(c, s, a).ranks[r])
  {
    hide RankOk, ViewedOk, YieldedOne, Signalled, RankShape;
    match a
    case ForwardInfo(_) => ForwardViewed(c, r, s.ranks[r]);
    case YieldEntry(_) => EntryViewed(c, r, s.ranks[r]);
    case EndYield(_) => EndYieldViewed(c, r, s.ranks[r]);
    case SignalDone(_) => SignalViewed(c, r, s.ranks[r]);
  }

  lemma RankViewed(c: Config, s: State, a: Action, r: nat)
    requires Enabled(c, s, a) && 0 < r < c.ranks && r < |s.ranks| && RankOk(c, r, s.ranks[r]) && ViewedOk(c, s.ranks[r])
    ensures |Apply(c, s, a).ranks| == c.ranks && ViewedOk(c, Apply(c, s, a).ranks[r])
  {
    hide RankOk, ViewedOk, Enabled, Apply;
    if a.FillEntry? || a.EndFill? || a.SendBucket? || a.r != r {
      OthersLeave(c, s, a, r);
      SlotsViewed(c, s.ranks[r], Apply(c, s, a).ranks[r]);
    } else if a.ForwardInfo? || a.YieldEntry? || a.EndYield? || a.SignalDone? {
      EndsViewed(c, s, a, r);
    } else {
      OwnViewed(c, s, a, r);
    }
  }

  lemma SlotsViewed(c: Config, q: Rank, q': Rank)
    requires ViewedOk(c, q) && q' == q.(slots := q'.slots)
    ensures ViewedOk(c, q')
  {
    ViewedSame(c, q, q');
  }

  lemma {:induction false} RunKeepsViewed(c: Config, s: State, run: seq<Action>)
    requires Inv(c, s) && AllViewedOk(c, s) && Legal(c, s, run)
    ensures AllViewedOk(c, Exec(c, s, run))
    decreases |run|
  {
    hide RankOk, LinkOk, ViewedOk, Enabled, Apply;
    if run != [] {
      StepKeepsInv(c, s, run[0]);
      forall r | 0 < r < c.ranks ensures ViewedOk(c, Apply(c, s, run[0]).ranks[r]) {
        assert RankOk(c, r, s.ranks[r]);
        RankViewed(c, s, run[0], r);
      }
      RunKeepsViewed(c, Apply(c, s, run[0]), run[1..]);
    }
  }

  lemma InitViewed(c: Config, s: State)
    requires Init(c, s)
    ensures AllViewedOk(c, s)
  {
    forall r | 0 < r < c.ranks ensures ViewedOk(c, s.ranks[r]) {
      assert InitRank(r, s.ranks[r]);
    }
  }

  lemma FinishedViews(c: Config, r: nat, q: Rank)
    requires 0 < r && RankOk(c, r, q) && q.pc == Finished && ViewedOk(c, q)
    ensures q.viewed <==> HalvesAligned(Listings(c.buckets), c.bucketSize)
  {
    hide Keeps, Yielded, Listed, ViewFits;
    assert YieldedHere(c, q) == [];
    assert forall k: nat | k < |c.buckets| :: Listings(c.buckets)[k] == Listed(c.buckets[k]);
  }

  /**
   No view is refused on any receiver in any reachable state when all weights lie where their items can start;
   and a complete call in which none was refused shows that they do.
  */
  lemma ViewsIff(c: Config, s: State, run: seq<Action>)
    requires ValidConfig(c) && Init(c, s) && Legal(c, s, run)
    ensures var last := Exec(c, s, run);
      && |last.ranks| == c.ranks
      && (HalvesAligned(Listings(c.buckets), c.bucketSize) ==> forall r | 0 < r < c.ranks :: last.ranks[r].viewed)
      && (AllFinished(c, last) ==> forall r | 0 < r < c.ranks ::
            last.ranks[r].viewed <==> HalvesAligned(Listings(c.buckets), c.bucketSize))
  {
    hide RankOk, LinkOk, Enabled, Init, Legal, Exec, Apply, Listings, ViewedOk, HalvesAligned;
    InitInv(c, s);
    RunKeepsInv(c, s, run);
    InitViewed(c, s);
    RunKeepsViewed(c, s, run);
    var last := Exec(c, s, run);
    forall r | 0 < r < c.ranks
      ensures HalvesAligned(Listings(c.buckets), c.bucketSize) ==> last.ranks[r].viewed
      ensures last.ranks[r].pc == Finished ==>
        (last.ranks[r].viewed <==> HalvesAligned(Listings(c.buckets), c.bucketSize))
    {
      assert RankOk(c, r, last.ranks[r]);
      if HalvesAligned(Listings(c.buckets), c.bucketSize) {
        AlignedViews(c, last.ranks[r]);
      }
      if last.ranks[r].pc == Finished {
        FinishedViews(c, r, last.ranks[r]);
      }
    }
  }

  lemma AlignedViews(c: Config, q: Rank)
    requires ViewedOk(c, q) && HalvesAligned(Listings(c.buckets), c.bucketSize)
    ensures q.viewed
  {
    hide ViewFits, Listed;
    forall k: nat | k < |c.buckets| ensures Fitting(c.bucketSize, k, Listed(c.buckets[k])) {
      assert Listings(c.buckets)[k] == Listed(c.buckets[k]);
    }
    forall x <- YieldedHere(c, q) ensures q.count >= 0 ==> ViewFits(c.bucketSize, q.count, x.meta) {
      assert x in Listed(c.buckets[q.count]);
    }
  }

  /** What a caller can look after: an m that divides the bucket size and all weights, and that their items divide. */
  lemma MultiplesFit(ws: seq<Weight>, bucketSize: nat, m: nat)
    requires m > 0 && bucketSize % m == 0 && MultiplesOf(ws, m)
    ensures HalvesAligned(Pack(WholeChunks(ws), bucketSize), bucketSize)
  {
    var chunks, buckets := WholeChunks(ws), Pack(WholeChunks(ws), bucketSize);
    forall c <- chunks ensures MultipleOf(c, m) {
      var i :| 0 <= i < |chunks| && chunks[i] == c;
      assert ws[i] in ws;
    }
    PackMultiples([], chunks, bucketSize, m);
    forall k: nat, x: Chunk | k < |buckets| && x in buckets[k] ensures ViewFits(bucketSize, k, x.meta) {
      InFlatten(buckets, k, x);
      assert PlacedBy(x, m);
      if k % 2 == 1 {
        SumOfMultiples(bucketSize, x.meta.offset.value, m);
      }
      MultipleViewable(k % 2 * bucketSize + x.meta.offset.value, m, x.meta.dtype);
    }
  }

  lemma {:induction false} InFlatten(buckets: seq<Bucket>, k: nat, x: Chunk)
    requires k < |buckets| && x in buckets[k]
    ensures x in Flatten(buckets)
  {
    if k > 0 {
      InFlatten(buckets[1..], k - 1, x);
    }
  }

  /** Two four-byte numbers in buckets of six: the second one's half starts at byte 6, where no number can start. */
  lemma OddHalfIsRefused(w: Weight, w': Weight)
    requires |w.tensor.data| == |w'.tensor.data| == 4 && w.tensor.dtype == w'.tensor.dtype == Dtype("float32", 4)
    ensures !HalvesAligned(Pack(WholeChunks([w, w']), 6), 6)
  {
    var a, b := ChunkAt(w, 0, 4), ChunkAt(w', 0, 4);
    assert WholeChunks([w, w']) == [a, b];
    TwoApart(a, b, 6);
    var second := Place(b, 0);
    hide Pack;
    assert Pack(WholeChunks([w, w']), 6)[1] == [second] && second in [second];
    assert !ViewFits(6, 1, second.meta) && !Fitting(6, 1, [second]);
  }

  // ---------- end to end ----------

  /**
   Starting from clear slots, every receiver yields what the dictionaries of the buckets list. That is all
   weights of rank 0 in order, with names, shapes, types and bytes and no view refused, exactly when no bucket
   holds two of one name and every weight lies, in its half of the buffer, where its items can start.
  */
  lemma ChainTransfersWholeWeights(ws: seq<Weight>, bucketSize: nat, ranks: nat, s: State, run: seq<Action>)
    requires ranks >= 2 && forall w <- ws :: |w.tensor.data| <= bucketSize
    requires var c := Config(ranks, bucketSize, Pack(WholeChunks(ws), bucketSize));
      Init(c, s) && Legal(c, s, run) && forall a :: !Enabled(c, Exec(c, s, run), a)
    ensures var buckets := Pack(WholeChunks(ws), bucketSize);
      var last := Exec(Config(ranks, bucketSize, buckets), s, run);
      |last.ranks| == ranks && forall r | 0 < r < ranks ::
        && last.ranks[r].yielded == Flatten(Listings(buckets))
        && (Unplace(last.ranks[r].yielded) == WholeChunks(ws) <==> NamesApart(buckets))
        && (last.ranks[r].viewed <==> HalvesAligned(Listings(buckets), bucketSize))
        && (last.ranks[r].viewed && Unplace(last.ranks[r].yielded) == WholeChunks(ws) <==>
            NamesApart(buckets) && HalvesAligned(buckets, bucketSize))
  {
    hide RankOk, LinkOk, Enabled, Init, Legal, Exec, Apply, NamesApart, Listings, Pack, HalvesAligned;
    WholePacking(ws, bucketSize);
    var c := Config(ranks, bucketSize, Pack(WholeChunks(ws), bucketSize));
    ChainDelivers(c, s, run);
    ViewsIff(c, s, run);
    ListingsIff(c.buckets);
    assert |Exec(c, s, run).ranks| == ranks;
    assert forall r | 0 < r < ranks :: Exec(c, s, run).ranks[r].yielded == Flatten(Listings(c.buckets));
  }

  /** Two weights of one name in one bucket: only the second is listed, so only it is ever yielded. */
  lemma RepeatedNameIsLost(w: Weight, w': Weight, bucketSize: nat)
    requires w.name == w'.name && |w.tensor.data| + |w'.tensor.data| <= bucketSize
    ensures var buckets := Pack(WholeChunks([w, w']), bucketSize);
      && |buckets| == 1 && !NamesApart(buckets)
      && Unplace(Flatten(Listings(buckets))) == WholeChunks([w'])
  {
    hide Pack;
    var a, b := ChunkAt(w, 0, |w.tensor.data|), ChunkAt(w', 0, |w'.tensor.data|);
    assert WholeChunks([w, w']) == [a, b];
    TwoInOne(a, b, bucketSize);
    var first, second := Place(a, 0), Place(b, |a.data|);
    ListedTwice(first, second);
    assert Listings([[first, second]]) == [[second]];
    assert Flatten([[second]]) == [second] by { assert [[second]][1..] == [] && [second] + [] == [second]; }
    assert [first, second] in [[first, second]] && [first, second][0].meta.name == [first, second][1].meta.name;
  }

  lemma ListedTwice(first: Chunk, second: Chunk)
    requires first.meta.name == second.meta.name
    ensures Listed([first, second]) == [second]
  {
    assert [first, second][..1] == [first] && [first][..0] == [];
    assert Listed([first]) == Put([], first) == [first];
    assert [first][1..] == [] && [second] + [] == [second];
  }
}
