/**
 Diffing and gathering shards (verl/verl/checkpoint_engine/delta_sync/sparse_gather.py). A collective is
 modelled as rank 0 sees it: a function of what every rank of the group passes in.
*/
module SparseGather {
  import opened Arithmetic
  import opened Weights
  import opened DeltaWire

  /** Changed positions and their new values. */
  datatype Delta = Delta(idx: seq<nat>, values: seq<Value>)

  // ---------- the diff ----------

  /** `shard_delta_indices`: positions, shifted by the offset, where the shard differs bytewise from its snapshot. */
  function Diff(local: seq<Value>, snap: seq<Value>, offset: nat): (d: Delta)
    requires |local| == |snap|
    ensures |d.idx| == |d.values|
  {
    if local == [] then Delta([], [])
    else
      var n := |local| - 1;
      var d := Diff(local[..n], snap[..n], offset);
      if local[n] != snap[n] then Delta(d.idx + [n + offset], d.values + [local[n]]) else d
  }

  /** The diff holds exactly the changed positions, in order, with the new values. */
  lemma {:induction false} DiffExact(local: seq<Value>, snap: seq<Value>, offset: nat, i: nat)
    requires |local| == |snap|
    ensures var d := Diff(local, snap, offset);
      At(d.idx, d.values, i) ==
        if offset <= i < offset + |local| && local[i - offset] != snap[i - offset] then Some(local[i - offset])
          else None
  {
    hide At;
    if local == [] {
      AtNothing(i);
    } else {
      var n := |local| - 1;
      DiffExact(local[..n], snap[..n], offset, i);
      var d := Diff(local[..n], snap[..n], offset);
      AtOneMore(d.idx, d.values, n + offset, local[n], i);
    }
  }

  lemma {:induction false} DiffIncreasing(local: seq<Value>, snap: seq<Value>, offset: nat)
    requires |local| == |snap|
    ensures Increasing(Diff(local, snap, offset).idx) && Below(Diff(local, snap, offset).idx, offset + |local|)
  {
    if local != [] {
      var n := |local| - 1;
      DiffIncreasing(local[..n], snap[..n], offset);
    }
  }

  // ---------- concatenation over ranks ----------

  function Joined(ds: seq<Delta>): Delta {
    if ds == [] then Delta([], [])
    else
      var d := Joined(ds[..|ds| - 1]);
      Delta(d.idx + ds[|ds| - 1].idx, d.values + ds[|ds| - 1].values)
  }

  function Concat(shards: seq<seq<Value>>): seq<Value> {
    if shards == [] then [] else Concat(shards[..|shards| - 1]) + shards[|shards| - 1]
  }

  function ShardSizes(shards: seq<seq<Value>>): seq<nat> {
    seq(|shards|, r requires 0 <= r < |shards| => |shards[r]|)
  }

  /** Element x of rank r's shard comes after all elements of the ranks before it. */
  lemma {:induction false} ConcatAt(shards: seq<seq<Value>>, r: nat, x: nat)
    ensures |Concat(shards)| == Sum(ShardSizes(shards))
    ensures r < |shards| && x < |shards[r]| ==>
      var at := Sum(ShardSizes(shards)[..r]) + x;
      at < |Concat(shards)| && Concat(shards)[at] == shards[r][x]
  {
    if shards != [] {
      var n := |shards| - 1;
      var sizes := ShardSizes(shards);
      ConcatAt(shards[..n], r, x);
      assert sizes[..n] == ShardSizes(shards[..n]);
      if r < n && x < |shards[r]| {
        assert sizes[..n][..r] == sizes[..r];
      }
    }
  }

  ghost predicate SameShape(a: seq<seq<Value>>, b: seq<seq<Value>>) {
    |a| == |b| && forall r | 0 <= r < |a| :: |a[r]| == |b[r]|
  }

  lemma {:induction false} ConcatSameShape(a: seq<seq<Value>>, b: seq<seq<Value>>)
    requires SameShape(a, b)
    ensures |Concat(a)| == |Concat(b)|
  {
    if a != [] {
      ConcatSameShape(a[..|a| - 1], b[..|b| - 1]);
    }
  }

  /** Every rank's diff, at the offset of its shard. */
  function ShardDiffs(local: seq<seq<Value>>, snap: seq<seq<Value>>): seq<Delta>
    requires |local| == |snap| && forall r | 0 <= r < |local| :: |local[r]| == |snap[r]|
  {
    seq(|local|, r requires 0 <= r < |local| => Diff(local[r], snap[r], |Concat(local[..r])|))
  }

  lemma {:induction false} DiffAppend(a: seq<Value>, a': seq<Value>, b: seq<Value>, b': seq<Value>)
    requires |a| == |a'| && |b| == |b'|
    ensures Diff(a + b, a' + b', 0) == Joined([Diff(a, a', 0), Diff(b, b', |a|)])
  {
    var l, r := Diff(a, a', 0), Diff(b, b', |a|);
    assert [l, r][..1] == [l] && [l][..0] == [] && Joined([l]) == l;
    if b == [] {
      assert a + b == a && a' + b' == a';
    } else {
      var n := |b| - 1;
      DiffAppend(a, a', b[..n], b'[..n]);
      var r0 := Diff(b[..n], b'[..n], |a|);
      assert [l, r0][..1] == [l];
      assert (a + b)[..|a| + n] == a + b[..n] && (a' + b')[..|a| + n] == a' + b'[..n];
      assert (a + b)[|a| + n] == b[n] && (a' + b')[|a| + n] == b'[n];
    }
  }

  /** Gathering the shard diffs gives the diff of the full tensor. */
  lemma {:induction false} GatheredIsFullDiff(local: seq<seq<Value>>, snap: seq<seq<Value>>)
    requires SameShape(local, snap)
    ensures |Concat(local)| == |Concat(snap)| && Joined(ShardDiffs(local, snap)) == Diff(Concat(local), Concat(snap), 0)
  {
    hide ShardDiffs, Diff;
    ConcatSameShape(local, snap);
    if local == [] {
      NoShardDiffs(local, snap);
    } else {
      var n := |local| - 1;
      GatheredIsFullDiff(local[..n], snap[..n]);
      ConcatSameShape(local[..n], snap[..n]);
      LastShardDiff(local, snap, n);
      var l, r := Diff(Concat(local[..n]), Concat(snap[..n]), 0), Diff(local[n], snap[n], |Concat(local[..n])|);
      DiffAppend(Concat(local[..n]), Concat(snap[..n]), local[n], snap[n]);
      JoinedMore(ShardDiffs(local[..n], snap[..n]), r);
      JoinedMore([l], r);
      JoinedOne(l);
      assert [l] + [r] == [l, r];
    }
  }

  lemma NoShardDiffs(local: seq<seq<Value>>, snap: seq<seq<Value>>)
    requires local == snap == []
    ensures Joined(ShardDiffs(local, snap)) == Diff(Concat(local), Concat(snap), 0)
  {
  }

  lemma LastShardDiff(local: seq<seq<Value>>, snap: seq<seq<Value>>, n: nat)
    requires SameShape(local, snap) && n == |local| - 1
    ensures ShardDiffs(local, snap) ==
      ShardDiffs(local[..n], snap[..n]) + [Diff(local[n], snap[n], |Concat(local[..n])|)]
  {
    hide Diff, Concat;
    assert forall r | 0 <= r < n :: local[..n][..r] == local[..r];
  }

  lemma JoinedMore(ds: seq<Delta>, d: Delta)
    ensures Joined(ds + [d]) == Delta(Joined(ds).idx + d.idx, Joined(ds).values + d.values)
  {
    assert (ds + [d])[..|ds|] == ds;
  }

  lemma JoinedOne(d: Delta)
    ensures Joined([d]) == d
  {
    assert [d][..0] == [];
  }

  // ---------- the batched gather ----------

  function Lengths(ds: seq<Delta>): seq<nat> {
    seq(|ds|, i requires 0 <= i < |ds| => |ds[i].idx|)
  }

  ghost predicate Paired(ds: seq<Delta>) {
    forall d <- ds :: |d.idx| == |d.values|
  }

  lemma {:induction false} JoinedLength(ds: seq<Delta>)
    requires Paired(ds)
    ensures |Joined(ds).idx| == |Joined(ds).values| == Sum(Lengths(ds))
  {
    if ds != [] {
      var n := |ds| - 1;
      assert Lengths(ds)[..n] == Lengths(ds[..n]);
      assert ds[n] in ds;
      JoinedLength(ds[..n]);
    }
  }

  /** The first i deltas take up the first positions of the payload. */
  lemma JoinedPrefix(ds: seq<Delta>, i: nat)
    requires Paired(ds) && i <= |ds|
    ensures |Joined(ds[..i]).idx| == |Joined(ds[..i]).values| == Sum(Lengths(ds)[..i])
  {
    assert Lengths(ds)[..i] == Lengths(ds[..i]);
    assert forall d <- ds[..i] :: d in ds;
    JoinedLength(ds[..i]);
  }

  lemma JoinedStep(ds: seq<Delta>, i: nat)
    requires i < |ds|
    ensures Joined(ds[..i + 1]) == Delta(Joined(ds[..i]).idx + ds[i].idx, Joined(ds[..i]).values + ds[i].values)
  {
    assert ds[..i + 1][..i] == ds[..i];
  }

  /** Joining more deltas only appends. */
  lemma {:induction false} JoinedGrows(ds: seq<Delta>, i: nat, j: nat)
    requires i <= j <= |ds|
    ensures Joined(ds[..i]).idx <= Joined(ds[..j]).idx && Joined(ds[..i]).values <= Joined(ds[..j]).values
    decreases j
  {
    hide Joined;
    if i < j {
      JoinedGrows(ds, i, j - 1);
      JoinedStep(ds, j - 1);
    }
  }

  /** Parameter i's piece of a rank's concatenated payload. */
  lemma PieceOfJoined(ds: seq<Delta>, i: nat)
    requires Paired(ds) && i < |ds|
    ensures var from, to := Sum(Lengths(ds)[..i]), Sum(Lengths(ds)[..i + 1]);
      && from <= to <= |Joined(ds).idx| == |Joined(ds).values|
      && Joined(ds).idx[from..to] == ds[i].idx && Joined(ds).values[from..to] == ds[i].values
  {
    hide Joined, Sum;
    JoinedPrefix(ds, i);
    JoinedPrefix(ds, i + 1);
    JoinedPrefix(ds, |ds|);
    JoinedStep(ds, i);
    JoinedGrows(ds, i + 1, |ds|);
    assert ds[..|ds|] == ds;
  }

  /** One rank's arguments: its deltas of the batch concatenated, and their lengths. */
  datatype Contribution = Contribution(idxConcat: seq<nat>, valConcat: seq<Value>, counts: seq<nat>)

  function Contribute(ds: seq<Delta>): Contribution {
    Contribution(Joined(ds).idx, Joined(ds).values, Lengths(ds))
  }

  method Offsets(counts: seq<nat>) returns (offs: seq<nat>)
    ensures |offs| == |counts| + 1 && forall i | 0 <= i <= |counts| :: offs[i] == Sum(counts[..i])
  {
    offs := [0];
    for i := 0 to |counts|
      invariant |offs| == i + 1 && forall j | 0 <= j <= i :: offs[j] == Sum(counts[..j])
    {
      assert counts[..i + 1][..i] == counts[..i];
      offs := offs + [offs[i] + counts[i]];
    }
  }

  method MaxTotal(contributions: seq<Contribution>) returns (maxN: nat)
    ensures forall c <- contributions :: Sum(c.counts) <= maxN
    ensures contributions != [] ==> exists c <- contributions :: Sum(c.counts) == maxN
  {
    hide Sum;
    maxN := 0;
    ghost var at := 0;
    for r := 0 to |contributions|
      invariant forall k | 0 <= k < r :: Sum(contributions[k].counts) <= maxN
      invariant if r == 0 then maxN == 0 else at < r && Sum(contributions[at].counts) == maxN
    {
      var total := Total(contributions[r].counts);
      if r == 0 || total > maxN {
        maxN, at := total, r;
      }
    }
    if contributions != [] {
      assert contributions[at] in contributions;
    }
  }

  method Total(counts: seq<nat>) returns (n: nat)
    ensures n == Sum(counts)
  {
    n := 0;
    for i := 0 to |counts|
      invariant n == Sum(counts[..i])
    {
      assert counts[..i + 1][..i] == counts[..i];
      n := n + counts[i];
    }
    assert counts[..|counts|] == counts;
  }

  function Padded<T>(s: seq<T>, n: nat, fill: T): (r: seq<T>)
    requires |s| <= n
    ensures |r| == n && r[..|s|] == s
  {
    s + seq(n - |s|, _ => fill)
  }

  /** Rank r passes the deltas ds[r] of the k parameters of the batch. */
  ghost predicate Contributed(contributions: seq<Contribution>, ds: seq<seq<Delta>>, k: nat) {
    && |contributions| == |ds|
    && forall r | 0 <= r < |ds| :: |ds[r]| == k && Paired(ds[r]) && contributions[r] == Contribute(ds[r])
  }

  function Column(ds: seq<seq<Delta>>, i: nat): seq<Delta>
    requires forall r | 0 <= r < |ds| :: i < |ds[r]|
  {
    seq(|ds|, r requires 0 <= r < |ds| => ds[r][i])
  }

  lemma NothingChanged(contributions: seq<Contribution>, ds: seq<seq<Delta>>, k: nat, i: nat)
    requires Contributed(contributions, ds, k) && i < k && forall c <- contributions :: Sum(c.counts) == 0
    ensures Column(ds, i) == seq(|ds|, _ => Delta([], []))
  {
    forall r | 0 <= r < |ds| ensures ds[r][i] == Delta([], []) {
      assert contributions[r] in contributions;
      PieceOfJoined(ds[r], i);
      JoinedLength(ds[r]);
      assert |ds[r][i].idx| == 0 && ds[r][i] in ds[r];
    }
  }

  /** Slicing parameter i out of rank r's padded payload. */
  lemma PieceOfPadded(contributions: seq<Contribution>, ds: seq<seq<Delta>>, k: nat, r: nat, i: nat, maxN: nat)
    requires Contributed(contributions, ds, k) && r < |ds| && i < k && Sum(contributions[r].counts) <= maxN
    ensures var c := contributions[r];
      var from, to := Sum(c.counts[..i]), Sum(c.counts[..i + 1]);
      && |c.counts| == k && |c.idxConcat| <= maxN && |c.valConcat| <= maxN && from <= to <= |c.idxConcat|
      && Padded(c.idxConcat, maxN, 0)[from..to] == ds[r][i].idx
      && Padded(c.valConcat, maxN, Number(0))[from..to] == ds[r][i].values
  {
    PieceOfJoined(ds[r], i);
    JoinedLength(ds[r]);
    hide Joined, Sum, Padded;
    var c := contributions[r];
    var from, to := Sum(c.counts[..i]), Sum(c.counts[..i + 1]);
    assert Padded(c.idxConcat, maxN, 0)[..|c.idxConcat|][from..to] == c.idxConcat[from..to];
    assert Padded(c.valConcat, maxN, Number(0))[..|c.valConcat|][from..to] == c.valConcat[from..to];
  }

  lemma PayloadLength(contributions: seq<Contribution>, ds: seq<seq<Delta>>, k: nat, r: nat)
    requires Contributed(contributions, ds, k) && r < |ds|
    ensures |contributions[r].idxConcat| == |contributions[r].valConcat| == Sum(contributions[r].counts)
    ensures |contributions[r].counts| == k && contributions[r] in contributions
  {
    JoinedLength(ds[r]);
  }

  /** One parameter's pieces of all the padded payloads. */
  method SliceParam(idxList: seq<seq<nat>>, valList: seq<seq<Value>>, offs: seq<seq<nat>>, i: nat,
                    ghost contributions: seq<Contribution>, k: nat, ghost ds: seq<seq<Delta>>, ghost maxN: nat)
    returns (pieces: seq<Delta>)
    requires Contributed(contributions, ds, k) && i < k && |idxList| == |valList| == |offs| == |contributions|
    requires forall c <- contributions :: Sum(c.counts) <= maxN
    requires forall j | 0 <= j < |contributions| :: Received(contributions[j], idxList[j], valList[j], offs[j], maxN)
    ensures pieces == Column(ds, i)
  {
    hide Sum, Padded, Joined;
    pieces := [];
    for r := 0 to |offs|
      invariant |pieces| == r && forall j | 0 <= j < r :: pieces[j] == ds[j][i]
    {
      PayloadLength(contributions, ds, k, r);
      PieceOfPadded(contributions, ds, k, r, i, maxN);
      assert Received(contributions[r], idxList[r], valList[r], offs[r], maxN);
      pieces := pieces + [Delta(idxList[r][offs[r][i]..offs[r][i + 1]], valList[r][offs[r][i]..offs[r][i + 1]])];
    }
  }

  /** The collectives: every rank's padded payload and cumulative counts on rank 0. */
  method Exchange(contributions: seq<Contribution>, maxN: nat, ghost ds: seq<seq<Delta>>, ghost k: nat)
    returns (idxList: seq<seq<nat>>, valList: seq<seq<Value>>, offs: seq<seq<nat>>)
    requires Contributed(contributions, ds, k) && forall c <- contributions :: Sum(c.counts) <= maxN
    ensures |idxList| == |valList| == |offs| == |contributions|
    ensures forall j | 0 <= j < |contributions| :: Received(contributions[j], idxList[j], valList[j], offs[j], maxN)
  {
    hide Contributed, Sum, Padded;
    idxList, valList, offs := [], [], [];
    for r := 0 to |contributions|
      invariant |idxList| == |valList| == |offs| == r
      invariant forall j | 0 <= j < r :: Received(contributions[j], idxList[j], valList[j], offs[j], maxN)
    {
      ContributedRank(contributions, ds, k, r);
      var c := contributions[r];
      idxList := idxList + [Padded(c.idxConcat, maxN, 0)];
      valList := valList + [Padded(c.valConcat, maxN, Number(0))];
      var o := Offsets(c.counts);
      offs := offs + [o];
    }
  }

  lemma ContributedRank(contributions: seq<Contribution>, ds: seq<seq<Delta>>, k: nat, r: nat)
    requires Contributed(contributions, ds, k) && r < |contributions|
    ensures var c := contributions[r]; |c.idxConcat| == |c.valConcat| == Sum(c.counts) && c in contributions
  {
    PayloadLength(contributions, ds, k, r);
  }

  method NothingGathered(contributions: seq<Contribution>, k: nat, ghost ds: seq<seq<Delta>>)
    returns (out: seq<seq<Delta>>)
    requires Contributed(contributions, ds, k) && forall c <- contributions :: Sum(c.counts) == 0
    ensures |out| == k && forall i | 0 <= i < k :: out[i] == Column(ds, i)
  {
    hide Sum, Contribute, Paired;
    var world := |contributions|;
    out := seq(k, _ => seq(world, _ => Delta([], [])));
    forall i | 0 <= i < k ensures out[i] == Column(ds, i) {
      NothingChanged(contributions, ds, k, i);
    }
  }

  /**
   `gather_v_batched_to_rank0` with `grouped`: the padded payloads are cut at the cumulative counts, which
   gives parameter i's deltas, still separate for each rank.
  */
  method GatherGrouped(contributions: seq<Contribution>, k: nat, ghost ds: seq<seq<Delta>>)
    returns (out: seq<seq<Delta>>)
    requires Contributed(contributions, ds, k)
    ensures |out| == k && forall i | 0 <= i < k :: out[i] == Column(ds, i)
  {
    hide Sum, Padded, Contribute, Paired, Received;
    var maxN := MaxTotal(contributions);
    if maxN == 0 {
      out := NothingGathered(contributions, k, ds);
      return;
    }
    var idxList, valList, offs := Exchange(contributions, maxN, ds, k);
    out := [];
    for i := 0 to k
      invariant |out| == i && forall j | 0 <= j < i :: out[j] == Column(ds, j)
    {
      var pieces := SliceParam(idxList, valList, offs, i, contributions, k, ds, maxN);
      out := out + [pieces];
    }
  }

  /** What rank 0 holds of one rank after the collectives: its padded payload, and where each parameter starts. */
  ghost predicate Received(c: Contribution, idx: seq<nat>, values: seq<Value>, offs: seq<nat>, maxN: nat) {
    && |c.idxConcat| <= maxN && |c.valConcat| <= maxN
    && idx == Padded(c.idxConcat, maxN, 0) && values == Padded(c.valConcat, maxN, Number(0))
    && |offs| == |c.counts| + 1 && forall i | 0 <= i <= |c.counts| :: offs[i] == Sum(c.counts[..i])
  }

  /** `torch.cat` of the pieces that are not empty. */
  method Stitch(pieces: seq<Delta>) returns (joined: Delta)
    requires Paired(pieces)
    ensures joined == Joined(pieces)
  {
    joined := Delta([], []);
    for r := 0 to |pieces|
      invariant joined == Joined(pieces[..r])
    {
      assert pieces[..r + 1][..r] == pieces[..r] && pieces[r] in pieces;
      if |pieces[r].idx| > 0 {
        joined := Delta(joined.idx + pieces[r].idx, joined.values + pieces[r].values);
      }
    }
    assert pieces[..|pieces|] == pieces;
  }

  lemma ColumnPaired(contributions: seq<Contribution>, ds: seq<seq<Delta>>, k: nat, i: nat)
    requires Contributed(contributions, ds, k) && i < k
    ensures Paired(Column(ds, i))
  {
    forall r | 0 <= r < |ds| ensures |ds[r][i].idx| == |ds[r][i].values| {
      assert ds[r][i] in ds[r];
    }
  }

  /** `gather_v_batched_to_rank0`: as K single gathers, each of which concatenates the ranks' deltas. */
  method GatherBatched(contributions: seq<Contribution>, k: nat, ghost ds: seq<seq<Delta>>) returns (out: seq<Delta>)
    requires Contributed(contributions, ds, k)
    ensures |out| == k && forall i | 0 <= i < k :: out[i] == Joined(Column(ds, i))
  {
    hide Paired, Joined, Contribute;
    var grouped := GatherGrouped(contributions, k, ds);
    out := [];
    for i := 0 to k
      invariant |out| == i && forall j | 0 <= j < i :: out[j] == Joined(Column(ds, j))
    {
      ColumnPaired(contributions, ds, k, i);
      var joined := Stitch(grouped[i]);
      out := out + [joined];
    }
  }

  // ---------- the dense gather ----------

  /** The offsets that `derive_placement` gives the ranks: the shards that are there follow one another. */
  ghost predicate TileAt(shards: seq<seq<Value>>, offsets: seq<nat>) {
    |offsets| == |shards| && forall r | 0 <= r < |shards| && shards[r] != [] :: offsets[r] == |Concat(shards[..r])|
  }

  lemma {:induction false} ConcatPrefix(shards: seq<seq<Value>>, r: nat)
    requires r < |shards|
    ensures var from := |Concat(shards[..r])|;
      from + |shards[r]| <= |Concat(shards)| && Concat(shards)[..from] == Concat(shards[..r])
      && Concat(shards)[from..from + |shards[r]|] == shards[r]
      && Concat(shards[..r + 1]) == Concat(shards[..r]) + shards[r]
  {
    var n := |shards| - 1;
    assert shards[..r + 1][..r] == shards[..r];
    if r < n {
      assert shards[..n][..r] == shards[..r];
      ConcatPrefix(shards[..n], r);
    }
  }

  /** `full[offset : offset + count] = ...`. */
  method WriteShard(full: array<Value>, offset: nat, shard: seq<Value>)
    requires offset + |shard| <= full.Length
    modifies full
    ensures full[..offset] == old(full[..offset]) && full[offset..offset + |shard|] == shard
  {
    for j := 0 to |shard|
      invariant full[..offset] == old(full[..offset]) && full[offset..offset + j] == shard[..j]
    {
      full[offset + j] := shard[j];
    }
  }

  /** `gather_dense_to_rank0`: every shard is written at its offset into an uninitialised tensor. */
  method GatherDense(shards: seq<seq<Value>>, offsets: seq<nat>, fullNumel: nat) returns (full: array<Value>)
    requires TileAt(shards, offsets) && fullNumel == |Concat(shards)|
    ensures fresh(full) && full[..] == Concat(shards)
  {
    hide Concat;
    full := new Value[fullNumel];
    NothingConcatenated(shards);
    for r := 0 to |shards|
      invariant |Concat(shards[..r])| <= fullNumel && full[..|Concat(shards[..r])|] == Concat(shards[..r])
    {
      ConcatPrefix(shards, r);
      if shards[r] != [] {
        WriteShard(full, offsets[r], shards[r]);
        assert full[..offsets[r] + |shards[r]|] == full[..offsets[r]] + full[offsets[r]..offsets[r] + |shards[r]|];
      }
    }
    assert shards[..|shards|] == shards;
  }

  lemma NothingConcatenated(shards: seq<seq<Value>>)
    ensures Concat(shards[..0]) == []
  {
  }
}
