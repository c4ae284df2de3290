/**
 The row layout of fused attention and gate/up weights: interleaving query, key and value rows by key/value
 head (verl/scripts/converter_hf_to_mcore.py), and taking them apart again, from one tensor
 (verl/verl/model_merger/megatron_model_merger.py) or from tensor parallel shards
 (verl/scripts/legacy_model_merger.py). A tensor is the sequence of its rows.
*/
module QkvLayout {
  import opened Arithmetic
  import opened Weights

  /** The rows [g * n, (g + 1) * n) of a tensor that is viewed as groups of n rows. */
  function Group<T>(rows: seq<T>, g: nat, n: nat): (r: seq<T>)
    requires (g + 1) * n <= |rows|
    ensures |r| == n
  {
    GroupBounds(g, n);
    rows[g * n..(g + 1) * n]
  }

  lemma GroupBounds(g: nat, n: nat)
    ensures 0 <= g * n && (g + 1) * n == g * n + n
    ensures g == 0 ==> g * n == 0
  {
  }

  /** Fused rows: for each key/value head its a query rows, its b key rows, and its b value rows. */
  function Interleaved<T>(q: seq<T>, k: seq<T>, v: seq<T>, a: nat, b: nat, groups: nat): (r: seq<T>)
    requires |q| == groups * a && |k| == |v| == groups * b
    ensures |r| == groups * (a + 2 * b)
  {
    if groups == 0 then []
    else
      var n := groups - 1;
      GroupBounds(n, a);
      GroupBounds(n, b);
      GroupBounds(n, a + 2 * b);
      Interleaved(q[..n * a], k[..n * b], v[..n * b], a, b, n) + q[n * a..] + k[n * b..] + v[n * b..]
  }

  /** `torch.chunk`: pieces of ceil(|rows| / n) rows, so possibly fewer than n of them. */
  function Chunk<T>(rows: seq<T>, n: nat): seq<seq<T>>
    requires n > 0
  {
    if rows == [] then seq(n, _ => [])
    else
      CeilPositive(|rows|, n);
      Pieces(rows, Ceil(|rows|, n))
  }

  function Pieces<T>(rows: seq<T>, size: nat): seq<seq<T>>
    requires size > 0
  {
    if |rows| <= size then [rows] else [rows[..size]] + Pieces(rows[size..], size)
  }

  /** The rows of piece i. */
  ghost predicate IsPiece<T>(piece: seq<T>, rows: seq<T>, size: nat, i: nat) {
    && 0 <= i * size < |rows| && (i + 1) * size >= i * size
    && piece == rows[i * size..Min((i + 1) * size, |rows|)]
  }

  /** Piece i is the i-th stretch of `size` rows; only the last one can be shorter, and it is not empty. */
  lemma {:induction false} PiecesAre<T>(rows: seq<T>, size: nat, i: nat)
    requires size > 0 && rows != []
    ensures |Pieces(rows, size)| == Ceil(|rows|, size)
    ensures i < |Pieces(rows, size)| ==> IsPiece(Pieces(rows, size)[i], rows, size, i)
  {
    hide Ceil, Pieces, IsPiece;
    if |rows| <= size {
      CeilIs(|rows|, size, 1);
      OnePiece(rows, size);
      PieceZero(rows, size);
    } else {
      CeilLess(|rows|, size);
      FirstPiece(rows, size);
      if i == 0 {
        PiecesAre(rows[size..], size, 0);
        PieceZero(rows, size);
      } else {
        PiecesAre(rows[size..], size, i - 1);
        if i < |Pieces(rows, size)| {
          LaterPiece(Pieces(rows, size)[i], rows, size, i);
        }
      }
    }
  }

  lemma PieceZero<T>(rows: seq<T>, size: nat)
    requires size > 0 && rows != []
    ensures IsPiece(rows[..Min(size, |rows|)], rows, size, 0)
    ensures |rows| <= size ==> IsPiece(rows, rows, size, 0)
  {
    GroupBounds(0, size);
    assert rows[..|rows|] == rows;
  }

  lemma OnePiece<T>(rows: seq<T>, size: nat)
    requires 0 < |rows| <= size
    ensures Pieces(rows, size) == [rows]
  {
  }

  lemma FirstPiece<T>(rows: seq<T>, size: nat)
    requires 0 < size < |rows|
    ensures Pieces(rows, size) == [rows[..size]] + Pieces(rows[size..], size)
  {
  }

  /** Piece i - 1 of what is behind the first piece. */
  lemma LaterPiece<T>(piece: seq<T>, rows: seq<T>, size: nat, i: nat)
    requires 0 < size < |rows| && i > 0 && IsPiece(piece, rows[size..], size, i - 1)
    ensures IsPiece(piece, rows, size, i)
  {
    GroupBounds(i - 1, size);
    GroupBounds(i, size);
    SubRange(rows, size, (i - 1) * size, Min(i * size, |rows| - size));
  }

  lemma SubRange<T>(rows: seq<T>, from: nat, lo: nat, hi: nat)
    requires from <= |rows| && lo <= hi <= |rows| - from
    ensures rows[from..][lo..hi] == rows[from + lo..from + hi]
  {
  }

  /** Cutting n * size rows into n pieces. */
  lemma {:induction false} PieceCount<T>(rows: seq<T>, n: nat, size: nat)
    requires n > 0 && size > 0 && |rows| == n * size
    ensures |Pieces(rows, size)| == n
  {
    GroupBounds(n - 1, size);
    if n > 1 {
      MulMono(1, n - 1, size);
      PieceCount(rows[size..], n - 1, size);
    }
  }

  lemma GroupShift<T>(rows: seq<T>, i: nat, size: nat)
    requires i > 0 && (i + 1) * size <= |rows|
    ensures size <= |rows| && i * size <= |rows[size..]| && Group(rows, i, size) == Group(rows[size..], i - 1, size)
  {
    GroupBounds(i - 1, size);
    GroupBounds(i, size);
    assert i * size + size == (i + 1) * size && (i - 1) * size + size == i * size;
  }

  lemma FirstGroup<T>(rows: seq<T>, size: nat)
    requires size <= |rows|
    ensures Group(rows, 0, size) == rows[..size]
  {
  }

  lemma {:induction false} PieceAt<T>(rows: seq<T>, n: nat, size: nat, i: nat)
    requires i < n && size > 0 && |rows| == n * size
    ensures |Pieces(rows, size)| == n && (i + 1) * size <= |rows| && Pieces(rows, size)[i] == Group(rows, i, size)
  {
    PieceCount(rows, n, size);
    MulMono(i + 1, n, size);
    GroupBounds(n - 1, size);
    GroupBounds(i, size);
    hide Group;
    if i > 0 {
      MulMono(1, n - 1, size);
      GroupBounds(i - 1, size);
      PieceAt(rows[size..], n - 1, size, i - 1);
      GroupShift(rows, i, size);
      assert Pieces(rows, size)[i] == Pieces(rows[size..], size)[i - 1];
    } else {
      FirstGroup(rows, size);
      if n > 1 {
        MulMono(1, n - 1, size);
      }
    }
  }

  lemma ChunkAtGroup<T>(rows: seq<T>, n: nat, size: nat, i: nat)
    requires i < n && size > 0 && |rows| == n * size
    ensures |Chunk(rows, n)| == n && (i + 1) * size <= |rows| && Chunk(rows, n)[i] == Group(rows, i, size)
  {
    MulMono(1, n, size);
    CeilExact(size, n);
    hide Ceil, Pieces, Group;
    PieceAt(rows, n, size, i);
  }

  lemma CeilExact(q: nat, n: nat)
    requires q > 0 && n > 0
    ensures n * q > 0 && Ceil(n * q, n) == q
  {
    MulMono(1, n, q);
    assert n * q == q * n;
    DivUnique(n * q + n - 1, n, q, n - 1);
  }

  // ---------- splitting ----------

  datatype Qkv<T> = Qkv(q: seq<T>, k: seq<T>, v: seq<T>)

  /** `chunk.split([a, b, b])` for every chunk, the parts appended; None when the sizes do not add up. */
  function SplitChunks<T>(chunks: seq<seq<T>>, a: nat, b: nat): Option<Qkv<T>> {
    if chunks == [] then Some(Qkv([], [], []))
    else
      var n := |chunks| - 1;
      var rest := SplitChunks(chunks[..n], a, b);
      if rest.None? || |chunks[n]| != a + 2 * b then None
      else Some(Qkv(rest.value.q + chunks[n][..a], rest.value.k + chunks[n][a..a + b],
                    rest.value.v + chunks[n][a + b..]))
  }

  /** The split succeeds exactly when every chunk has a + 2 * b rows. */
  lemma {:induction false} SplitsIff<T>(chunks: seq<seq<T>>, a: nat, b: nat)
    ensures SplitChunks(chunks, a, b).Some? <==> forall c | 0 <= c < |chunks| :: |chunks[c]| == a + 2 * b
  {
    if chunks != [] {
      SplitsIff(chunks[..|chunks| - 1], a, b);
    }
  }

  /** All the chunks of all the shards, in order. */
  function AllChunks<T>(shards: seq<seq<T>>, parts: nat): seq<seq<T>>
    requires parts > 0
  {
    if shards == [] then [] else AllChunks(shards[..|shards| - 1], parts) + Chunk(shards[|shards| - 1], parts)
  }

  function Share(n: int, parts: nat): nat
    requires parts > 0
  {
    if n < 0 then 0 else n / parts
  }

  /** The q, k and v of shards that hold whole key/value heads; None where the original raises. */
  function MergedQkv<T>(shards: seq<seq<T>>, heads: nat, kvHeads: nat, tp: nat): Option<Qkv<T>>
    requires shards != []
  {
    if kvHeads == 0 || tp == 0 || heads % kvHeads != 0 then None
    else
      var perKv, parts := heads / kvHeads, kvHeads / tp;
      if |shards[0]| % (perKv + 2) != 0 || parts == 0 then None
      else
        var kvSize := |shards[0]| / (perKv + 2);
        SplitChunks(AllChunks(shards, parts), Share(kvSize * perKv, parts), Share(kvSize, parts))
  }

  /** The loop over the shards and their chunks. */
  method MergeShards<T>(shards: seq<seq<T>>, parts: nat, a: nat, b: nat) returns (r: Option<Qkv<T>>)
    requires parts > 0
    ensures r == SplitChunks(AllChunks(shards, parts), a, b)
  {
    hide Chunk, SplitChunks, AllChunks;
    var q: seq<T>, k: seq<T>, v: seq<T> := [], [], [];
    NoChunks<T>(parts, a, b);
    assert shards[..0] == [];
    for s := 0 to |shards|
      invariant SplitChunks(AllChunks(shards[..s], parts), a, b) == Some(Qkv(q, k, v))
    {
      var chunks := Chunk(shards[s], parts);
      ghost var before := AllChunks(shards[..s], parts);
      ShardMore(shards, s, parts);
      assert before + chunks[..0] == before;
      for c := 0 to |chunks|
        invariant SplitChunks(before + chunks[..c], a, b) == Some(Qkv(q, k, v))
      {
        assert before + chunks[..c + 1] == (before + chunks[..c]) + [chunks[c]];
        ChunkMore(before + chunks[..c], chunks[c], a, b);
        if |chunks[c]| != a + 2 * b {
          StuckMerge(shards, s, parts, chunks, c, a, b);
          return None;
        }
        q, k, v := q + chunks[c][..a], k + chunks[c][a..a + b], v + chunks[c][a + b..];
      }
      assert chunks[..|chunks|] == chunks;
    }
    assert shards[..|shards|] == shards;
    r := Some(Qkv(q, k, v));
  }

  lemma NoChunks<T>(parts: nat, a: nat, b: nat)
    requires parts > 0
    ensures SplitChunks(AllChunks<T>([], parts), a, b) == Some(Qkv([], [], []))
  {
  }

  lemma ShardMore<T>(shards: seq<seq<T>>, s: nat, parts: nat)
    requires s < |shards| && parts > 0
    ensures AllChunks(shards[..s + 1], parts) == AllChunks(shards[..s], parts) + Chunk(shards[s], parts)
  {
    assert shards[..s + 1][..s] == shards[..s];
  }

  lemma ChunkMore<T>(chunks: seq<seq<T>>, c: seq<T>, a: nat, b: nat)
    ensures var rest := SplitChunks(chunks, a, b);
      SplitChunks(chunks + [c], a, b) ==
        if rest.None? || |c| != a + 2 * b then None
        else Some(Qkv(rest.value.q + c[..a], rest.value.k + c[a..a + b], rest.value.v + c[a + b..]))
  {
    assert (chunks + [c])[..|chunks|] == chunks;
  }

  /** The qkv branch of `_merge_across_tp`. */
  method MergeAcrossTp<T>(shards: seq<seq<T>>, heads: nat, kvHeads: nat, tp: nat) returns (r: Option<Qkv<T>>)
    requires shards != []
    ensures r == MergedQkv(shards, heads, kvHeads, tp)
  {
    hide SplitChunks, AllChunks, Share;
    if kvHeads == 0 || tp == 0 || heads % kvHeads != 0 {
      return None;
    }
    var perKv, parts := heads / kvHeads, kvHeads / tp;
    if |shards[0]| % (perKv + 2) != 0 || parts == 0 {
      return None;
    }
    var kvSize := |shards[0]| / (perKv + 2);
    r := MergeShards(shards, parts, Share(kvSize * perKv, parts), Share(kvSize, parts));
  }

  /** The qkv branch of `_split_tensors`: all key/value heads are in the one tensor. */
  method SplitQkv<T>(tensor: seq<T>, heads: nat, kvHeads: nat) returns (r: Option<Qkv<T>>)
    ensures r == MergedQkv([tensor], heads, kvHeads, 1)
  {
    hide SplitChunks, AllChunks, Share;
    if kvHeads == 0 || heads % kvHeads != 0 {
      return None;
    }
    var perKv := heads / kvHeads;
    if |tensor| % (perKv + 2) != 0 {
      return None;
    }
    var kvSize := |tensor| / (perKv + 2);
    r := MergeShards([tensor], kvHeads, Share(kvSize * perKv, kvHeads), Share(kvSize, kvHeads));
  }

  lemma {:induction false} StuckSplit<T>(chunks: seq<seq<T>>, more: seq<seq<T>>, a: nat, b: nat)
    requires SplitChunks(chunks, a, b).None?
    ensures SplitChunks(chunks + more, a, b).None?
  {
    if more == [] {
      assert chunks + more == chunks;
    } else {
      var n := |more| - 1;
      assert (chunks + more)[..|chunks| + n] == chunks + more[..n];
      StuckSplit(chunks, more[..n], a, b);
    }
  }

  lemma {:induction false} AllChunksSplit<T>(shards: seq<seq<T>>, s: nat, parts: nat)
    requires parts > 0 && s < |shards|
    ensures AllChunks(shards[..s], parts) + Chunk(shards[s], parts) <= AllChunks(shards, parts)
  {
    hide Chunk;
    var n := |shards| - 1;
    if s < n {
      assert shards[..n][..s] == shards[..s];
      AllChunksSplit(shards[..n], s, parts);
    }
  }

  lemma StuckMerge<T>(shards: seq<seq<T>>, s: nat, parts: nat, chunks: seq<seq<T>>, c: nat, a: nat, b: nat)
    requires parts > 0 && s < |shards| && chunks == Chunk(shards[s], parts) && c < |chunks|
    requires SplitChunks(AllChunks(shards[..s], parts) + chunks[..c + 1], a, b).None?
    ensures SplitChunks(AllChunks(shards, parts), a, b).None?
  {
    hide Chunk;
    AllChunksSplit(shards, s, parts);
    var stuck := AllChunks(shards[..s], parts) + chunks[..c + 1];
    var all := AllChunks(shards, parts);
    assert all == stuck + all[|stuck|..];
    StuckSplit(stuck, all[|stuck|..], a, b);
  }

  // ---------- round trips ----------

  lemma GroupOfPrefix<T>(rows: seq<T>, m: nat, g: nat, n: nat)
    requires (g + 1) * n <= m <= |rows|
    ensures Group(rows[..m], g, n) == Group(rows, g, n)
  {
    GroupBounds(g, n);
  }

  lemma GroupOfRest<T>(rows: seq<T>, g: nat, n: nat)
    requires |rows| == (g + 1) * n
    ensures 0 <= g * n <= |rows| && rows[g * n..] == Group(rows, g, n) && rows == rows[..g * n] + Group(rows, g, n)
  {
    GroupBounds(g, n);
  }

  lemma InterleavedLast<T>(q: seq<T>, k: seq<T>, v: seq<T>, a: nat, b: nat, n: nat)
    requires |q| == (n + 1) * a && |k| == |v| == (n + 1) * b
    ensures 0 <= n * a <= |q| && 0 <= n * b <= |k|
    ensures Interleaved(q, k, v, a, b, n + 1) ==
      Interleaved(q[..n * a], k[..n * b], v[..n * b], a, b, n) + Group(q, n, a) + Group(k, n, b) + Group(v, n, b)
  {
    hide Group;
    GroupOfRest(q, n, a);
    GroupOfRest(k, n, b);
    GroupOfRest(v, n, b);
  }

  /** Head g's rows within the fused tensor. */
  lemma {:induction false} InterleavedGroup<T>(q: seq<T>, k: seq<T>, v: seq<T>, a: nat, b: nat, groups: nat, g: nat)
    requires |q| == groups * a && |k| == |v| == groups * b && g < groups
    ensures (g + 1) * (a + 2 * b) <= groups * (a + 2 * b) && (g + 1) * a <= |q| && (g + 1) * b <= |k|
    ensures Group(Interleaved(q, k, v, a, b, groups), g, a + 2 * b) == Group(q, g, a) + Group(k, g, b) + Group(v, g, b)
  {
    hide Group, Interleaved;
    var n, w := groups - 1, a + 2 * b;
    GroupBounds(n, w);
    MulMono(g + 1, groups, a);
    MulMono(g + 1, groups, b);
    MulMono(g + 1, groups, w);
    InterleavedLast(q, k, v, a, b, n);
    var rows := Interleaved(q, k, v, a, b, groups);
    var q', k', v' := q[..n * a], k[..n * b], v[..n * b];
    var rest := Interleaved(q', k', v', a, b, n);
    GroupOfRest(rows, n, w);
    if g < n {
      MulMono(g + 1, n, a);
      MulMono(g + 1, n, b);
      MulMono(g + 1, n, w);
      InterleavedGroup(q', k', v', a, b, n, g);
      assert rows[..n * w] == rest;
      GroupOfPrefix(rows, n * w, g, w);
      GroupOfPrefix(q, n * a, g, a);
      GroupOfPrefix(k, n * b, g, b);
      GroupOfPrefix(v, n * b, g, b);
    } else {
      assert rows[n * w..] == Group(q, n, a) + Group(k, n, b) + Group(v, n, b);
    }
  }

  /** The chunks are the heads, in order. */
  ghost predicate AreHeads<T>(chunks: seq<seq<T>>, q: seq<T>, k: seq<T>, v: seq<T>, a: nat, b: nat) {
    && |q| == |chunks| * a && |k| == |v| == |chunks| * b
    && forall g: nat | g < |chunks| :: HeadAt(chunks[g], q, k, v, a, b, g)
  }

  ghost predicate HeadAt<T>(chunk: seq<T>, q: seq<T>, k: seq<T>, v: seq<T>, a: nat, b: nat, g: nat) {
    && (g + 1) * a <= |q| && (g + 1) * b <= |k| && |k| == |v|
    && chunk == Group(q, g, a) + Group(k, g, b) + Group(v, g, b)
  }

  lemma {:induction false} SplitHeads<T>(chunks: seq<seq<T>>, q: seq<T>, k: seq<T>, v: seq<T>, a: nat, b: nat)
    requires AreHeads(chunks, q, k, v, a, b)
    ensures SplitChunks(chunks, a, b) == Some(Qkv(q, k, v))
  {
    hide Group;
    if chunks == [] {
      GroupBounds(|chunks|, a);
      GroupBounds(|chunks|, b);
      assert q == [] && k == [] && v == [];
    } else {
      var n := |chunks| - 1;
      GroupOfRest(q, n, a);
      GroupOfRest(k, n, b);
      GroupOfRest(v, n, b);
      var q', k', v' := q[..n * a], k[..n * b], v[..n * b];
      forall g: nat | g < n ensures HeadAt(chunks[..n][g], q', k', v', a, b, g) {
        assert HeadAt(chunks[g], q, k, v, a, b, g);
        HeadWithin(chunks[g], q, k, v, a, b, g, n);
      }
      SplitHeads(chunks[..n], q', k', v', a, b);
      assert HeadAt(chunks[n], q, k, v, a, b, n);
      assert chunks[n][..a] == Group(q, n, a) && chunks[n][a..a + b] == Group(k, n, b)
        && chunks[n][a + b..] == Group(v, n, b);
    }
  }

  lemma HeadWithin<T>(chunk: seq<T>, q: seq<T>, k: seq<T>, v: seq<T>, a: nat, b: nat, g: nat, n: nat)
    requires HeadAt(chunk, q, k, v, a, b, g) && g < n && n * a <= |q| && n * b <= |k|
    ensures HeadAt(chunk, q[..n * a], k[..n * b], v[..n * b], a, b, g)
  {
    hide Group;
    MulMono(g + 1, n, a);
    MulMono(g + 1, n, b);
    GroupOfPrefix(q, n * a, g, a);
    GroupOfPrefix(k, n * b, g, b);
    GroupOfPrefix(v, n * b, g, b);
  }

  // ---------- the main results ----------

  lemma HeadSizes(headDim: nat, perKv: nat, parts: nat, rows: nat, a: nat)
    requires headDim > 0 && parts > 0 && a == headDim * perKv && rows == parts * (a + 2 * headDim)
    ensures rows % (perKv + 2) == 0
    ensures var kvSize := rows / (perKv + 2);
      kvSize == parts * headDim && Share(kvSize * perKv, parts) == a && Share(kvSize, parts) == headDim
  {
    GroupBounds(parts, headDim);
    GroupBounds(parts, a);
    var kv := parts * headDim;
    Associate(parts, headDim, perKv);
    Associate(parts, headDim, perKv + 2);
    Distribute(perKv, 2, headDim);
    assert rows == kv * (perKv + 2);
    DivUnique(rows, perKv + 2, kv, 0);
    DivUnique(parts * a, parts, a, 0);
    DivUnique(kv, parts, headDim, 0);
  }

  /** Cut at multiples of size. */
  ghost predicate CutAt<T>(shards: seq<seq<T>>, rows: seq<T>, size: nat) {
    |rows| == |shards| * size && forall s: nat | s < |shards| ::
      (s + 1) * size <= |rows| && shards[s] == Group(rows, s, size)
  }

  lemma GroupIs<T>(rows: seq<T>, g: nat, n: nat, lo: nat)
    requires (g + 1) * n <= |rows| && lo == g * n
    ensures lo + n <= |rows| && Group(rows, g, n) == rows[lo..lo + n]
  {
    GroupBounds(g, n);
  }

  lemma Distribute(x: nat, y: nat, n: nat)
    ensures (x + y) * n == x * n + y * n
  {
  }

  lemma Associate(x: nat, y: nat, z: nat)
    ensures x * (y * z) == (x * y) * z
  {
  }

  lemma NestedIndex(s: nat, parts: nat, w: nat, i: nat, tp: nat, p: nat)
    requires s < tp && i < parts && p == parts * w
    ensures 0 <= s * parts && (s + 1) * p <= tp * p && (i + 1) * w <= p
    ensures (s * parts + i) * w == s * p + i * w && (s * parts + i + 1) * w <= (s + 1) * p
  {
    GroupBounds(s, parts);
    MulMono(s + 1, tp, p);
    MulMono(i + 1, parts, w);
    Associate(s, parts, w);
    Distribute(s * parts, i, w);
    GroupBounds(s * parts + i, w);
    GroupBounds(i, w);
    GroupBounds(s, p);
  }

  lemma NestedGroup<T>(rows: seq<T>, s: nat, parts: nat, w: nat, i: nat, tp: nat, p: nat)
    requires p == parts * w && |rows| == tp * p && s < tp && i < parts
    ensures (s + 1) * p <= |rows| && (i + 1) * w <= p && 0 <= s * parts && (s * parts + i + 1) * w <= |rows|
    ensures Group(Group(rows, s, p), i, w) == Group(rows, s * parts + i, w)
  {
    hide Group;
    NestedIndex(s, parts, w, i, tp, p);
    NestedAt(rows, s, p, i, w, s * parts + i, s * p, i * w);
  }

  lemma NestedAt<T>(rows: seq<T>, s: nat, p: nat, i: nat, w: nat, g: nat, base: nat, off: nat)
    requires base == s * p && off == i * w && base + off == g * w
    requires (s + 1) * p <= |rows| && (i + 1) * w <= p && (g + 1) * w <= |rows|
    ensures Group(Group(rows, s, p), i, w) == Group(rows, g, w)
  {
    hide Group;
    GroupIs(rows, s, p, base);
    GroupIs(Group(rows, s, p), i, w, off);
    GroupIs(rows, g, w, base + off);
    SliceOfSlice(rows, base, p, off, w);
    assert Group(Group(rows, s, p), i, w) == rows[base..base + p][off..off + w];
    assert Group(rows, g, w) == rows[base + off..base + off + w];
  }

  lemma SliceOfSlice<T>(rows: seq<T>, base: nat, p: nat, off: nat, w: nat)
    requires base + p <= |rows| && off + w <= p
    ensures rows[base..base + p][off..off + w] == rows[base + off..base + off + w]
  {
    var l, r := rows[base..base + p][off..off + w], rows[base + off..base + off + w];
    assert |l| == |r| == w;
    forall k: nat | k < w ensures l[k] == r[k] {
      assert l[k] == rows[base..base + p][off + k] == rows[base + off + k];
    }
  }

  ghost predicate IsGroup<T>(chunk: seq<T>, rows: seq<T>, g: nat, w: nat) {
    (g + 1) * w <= |rows| && chunk == Group(rows, g, w)
  }

  /** Chunk i of shard s is a group of the whole. */
  lemma ShardChunk<T>(shards: seq<seq<T>>, rows: seq<T>, parts: nat, w: nat, p: nat, s: nat, i: nat, g: nat)
    requires w > 0 && p == parts * w && CutAt(shards, rows, p) && s < |shards| && i < parts && g == s * parts + i
    ensures |Chunk(shards[s], parts)| == parts && IsGroup(Chunk(shards[s], parts)[i], rows, g, w)
  {
    hide Group, Chunk;
    NestedGroup(rows, s, parts, w, i, |shards|, p);
    ChunkAtGroup(shards[s], parts, w, i);
  }

  ghost predicate AreGroups<T>(chunks: seq<seq<T>>, rows: seq<T>, w: nat) {
    forall g: nat | g < |chunks| :: IsGroup(chunks[g], rows, g, w)
  }

  lemma GroupsAppend<T>(a: seq<seq<T>>, b: seq<seq<T>>, rows: seq<T>, w: nat)
    requires AreGroups(a, rows, w) && forall i: nat | i < |b| :: IsGroup(b[i], rows, |a| + i, w)
    ensures AreGroups(a + b, rows, w)
  {
    hide IsGroup;
    forall g: nat | g < |a + b| ensures IsGroup((a + b)[g], rows, g, w) {
      if g >= |a| {
        var i := g - |a|;
        assert IsGroup(b[i], rows, |a| + i, w);
      }
    }
  }

  /** The chunks of all the shards are the groups of the whole. */
  lemma {:induction false} AllChunksAre<T>(shards: seq<seq<T>>, rows: seq<T>, parts: nat, w: nat, p: nat, upTo: nat)
    requires parts > 0 && w > 0 && p == parts * w && CutAt(shards, rows, p) && upTo <= |shards|
    ensures |AllChunks(shards[..upTo], parts)| == upTo * parts && AreGroups(AllChunks(shards[..upTo], parts), rows, w)
  {
    hide IsGroup, Chunk, CutAt, AreGroups;
    GroupBounds(upTo, parts);
    if upTo == 0 {
      NoGroups(rows, w);
    } else {
      var s := upTo - 1;
      GroupBounds(s, parts);
      assert shards[..upTo][..s] == shards[..s];
      AllChunksAre(shards, rows, parts, w, p, s);
      var before, chunks := AllChunks(shards[..s], parts), Chunk(shards[s], parts);
      ShardChunk(shards, rows, parts, w, p, s, 0, |before|);
      forall i: nat | i < |chunks| ensures IsGroup(chunks[i], rows, |before| + i, w) {
        ShardChunk(shards, rows, parts, w, p, s, i, |before| + i);
      }
      GroupsAppend(before, chunks, rows, w);
    }
  }

  lemma NoGroups<T>(rows: seq<T>, w: nat)
    ensures AreGroups([], rows, w)
  {
  }

  /**
   For any head counts with kvHeads dividing heads: cutting the fused rows into tp contiguous shards, with
   tp dividing the key/value heads, and merging the shards gives back q, k and v.
  */
  lemma QkvRoundTrip<T>(q: seq<T>, k: seq<T>, v: seq<T>, headDim: nat, perKv: nat, parts: nat, tp: nat,
                        shards: seq<seq<T>>)
    requires headDim > 0 && perKv > 0 && parts > 0 && tp > 0 && |shards| == tp
    requires var kvHeads := tp * parts;
      && |q| == kvHeads * (headDim * perKv) && |k| == |v| == kvHeads * headDim
      && CutAt(shards, Interleaved(q, k, v, headDim * perKv, headDim, kvHeads), parts * (headDim * perKv + 2 * headDim))
    ensures var kvHeads := tp * parts; MergedQkv(shards, kvHeads * perKv, kvHeads, tp) == Some(Qkv(q, k, v))
  {
    var kvHeads, a, b := tp * parts, headDim * perKv, headDim;
    GroupBounds(headDim, perKv);
    MulMono(1, tp, parts);
    hide Interleaved, MergedQkv;
    MergedHeads(shards, q, k, v, a, b, parts, tp, kvHeads, parts * (a + 2 * b));
    MergedIs(shards, headDim, perKv, parts, tp, kvHeads, parts * (a + 2 * b), a);
  }

  lemma MergedHeads<T>(shards: seq<seq<T>>, q: seq<T>, k: seq<T>, v: seq<T>, a: nat, b: nat, parts: nat, tp: nat,
                       kvHeads: nat, p: nat)
    requires b > 0 && parts > 0 && |shards| == tp && kvHeads == tp * parts && p == parts * (a + 2 * b)
    requires |q| == kvHeads * a && |k| == |v| == kvHeads * b && CutAt(shards, Interleaved(q, k, v, a, b, kvHeads), p)
    ensures SplitChunks(AllChunks(shards, parts), a, b) == Some(Qkv(q, k, v))
  {
    hide Interleaved, CutAt, AreGroups, SplitChunks, AllChunks;
    AllChunksAre(shards, Interleaved(q, k, v, a, b, kvHeads), parts, a + 2 * b, p, tp);
    assert shards[..tp] == shards;
    SplitsIntoHeads(AllChunks(shards, parts), q, k, v, a, b, kvHeads);
  }

  lemma MergedIs<T>(shards: seq<seq<T>>, headDim: nat, perKv: nat, parts: nat, tp: nat, kvHeads: nat, p: nat, a: nat)
    requires headDim > 0 && parts > 0 && tp > 0 && shards != [] && |shards[0]| == p && kvHeads == tp * parts
    requires a == headDim * perKv && p == parts * (a + 2 * headDim) && kvHeads > 0
    ensures 0 <= kvHeads * perKv
    ensures MergedQkv(shards, kvHeads * perKv, kvHeads, tp) == SplitChunks(AllChunks(shards, parts), a, headDim)
  {
    GroupBounds(kvHeads, perKv);
    HeadSizes(headDim, perKv, parts, p, a);
    hide AllChunks, SplitChunks, Share;
    DivUnique(kvHeads * perKv, kvHeads, perKv, 0);
    DivUnique(kvHeads, tp, parts, 0);
  }

  lemma SplitsIntoHeads<T>(chunks: seq<seq<T>>, q: seq<T>, k: seq<T>, v: seq<T>, a: nat, b: nat, kvHeads: nat)
    requires |q| == kvHeads * a && |k| == |v| == kvHeads * b && |chunks| == kvHeads
    requires AreGroups(chunks, Interleaved(q, k, v, a, b, kvHeads), a + 2 * b)
    ensures SplitChunks(chunks, a, b) == Some(Qkv(q, k, v))
  {
    hide Group, Interleaved;
    forall g: nat | g < |chunks| ensures HeadAt(chunks[g], q, k, v, a, b, g) {
      assert IsGroup(chunks[g], Interleaved(q, k, v, a, b, kvHeads), g, a + 2 * b);
      InterleavedGroup(q, k, v, a, b, kvHeads, g);
    }
    SplitHeads(chunks, q, k, v, a, b);
  }

  /** Splitting the whole fused tensor gives back q, k and v. */
  lemma QkvSplitRoundTrip<T>(q: seq<T>, k: seq<T>, v: seq<T>, headDim: nat, perKv: nat, kvHeads: nat)
    requires headDim > 0 && perKv > 0 && kvHeads > 0
    requires |q| == kvHeads * (headDim * perKv) && |k| == |v| == kvHeads * headDim
    ensures MergedQkv([Interleaved(q, k, v, headDim * perKv, headDim, kvHeads)], kvHeads * perKv, kvHeads, 1) ==
      Some(Qkv(q, k, v))
  {
    hide Interleaved, MergedQkv;
    var rows := Interleaved(q, k, v, headDim * perKv, headDim, kvHeads);
    GroupBounds(0, kvHeads * (headDim * perKv + 2 * headDim));
    assert [rows][0] == Group(rows, 0, kvHeads * (headDim * perKv + 2 * headDim));
    QkvRoundTrip(q, k, v, headDim, perKv, kvHeads, 1, [rows]);
  }

  // ---------- gate and up projections ----------

  /** `chunk(2)` of every shard, the halves appended; None when a shard does not come in two pieces. */
  function MergedGateUp<T>(shards: seq<seq<T>>): Option<(seq<T>, seq<T>)> {
    if shards == [] then Some(([], []))
    else
      var rest, halves := MergedGateUp(shards[..|shards| - 1]), Chunk(shards[|shards| - 1], 2);
      if rest.None? || |halves| != 2 then None else Some((rest.value.0 + halves[0], rest.value.1 + halves[1]))
  }

  /** A shard of one row comes in one piece; any other one in two, of which the first has the odd row. */
  lemma HalvesAre<T>(rows: seq<T>)
    ensures |rows| == 1 ==> |Chunk(rows, 2)| == 1
    ensures |rows| != 1 ==> Chunk(rows, 2) == [rows[..(|rows| + 1) / 2], rows[(|rows| + 1) / 2..]]
  {
    hide Pieces;
    var size := Ceil(|rows|, 2);
    assert size == (|rows| + 1) / 2;
    if rows == [] {
      assert Chunk(rows, 2) == [rows[..0], rows[0..]];
    } else if |rows| == 1 {
      OnePiece(rows, size);
    } else {
      TwoPieces(rows, size);
    }
  }

  lemma TwoPieces<T>(rows: seq<T>, size: nat)
    requires 0 < size < |rows| <= 2 * size
    ensures Pieces(rows, size) == [rows[..size], rows[size..]]
  {
    assert Pieces(rows[size..], size) == [rows[size..]];
  }

  /** The merge succeeds exactly when no shard has a single row, and it appends the halves of each shard in order. */
  lemma {:induction false} GateUpIff<T>(shards: seq<seq<T>>)
    ensures MergedGateUp(shards).Some? <==> forall s | 0 <= s < |shards| :: |shards[s]| != 1
    ensures MergedGateUp(shards).Some? && shards != [] ==>
      var rest, rows := MergedGateUp(shards[..|shards| - 1]), shards[|shards| - 1];
      && rest.Some?
      && MergedGateUp(shards).value.0 == rest.value.0 + rows[..(|rows| + 1) / 2]
      && MergedGateUp(shards).value.1 == rest.value.1 + rows[(|rows| + 1) / 2..]
  {
    hide Chunk;
    if shards != [] {
      GateUpIff(shards[..|shards| - 1]);
      HalvesAre(shards[|shards| - 1]);
    }
  }

  lemma {:induction false} StuckGateUp<T>(shards: seq<seq<T>>, n: nat)
    requires n <= |shards| && MergedGateUp(shards[..n]).None?
    ensures MergedGateUp(shards).None?
    decreases |shards|
  {
    if n < |shards| {
      assert shards[..|shards| - 1][..n] == shards[..n];
      StuckGateUp(shards[..|shards| - 1], n);
    } else {
      assert shards[..n] == shards;
    }
  }

  /** The gate/up branch of `_merge_across_tp`, and with one shard of `_split_tensors`. */
  method MergeGateUp<T>(shards: seq<seq<T>>) returns (r: Option<(seq<T>, seq<T>)>)
    ensures r == MergedGateUp(shards)
  {
    hide Chunk;
    var gate: seq<T>, up: seq<T> := [], [];
    for s := 0 to |shards|
      invariant MergedGateUp(shards[..s]) == Some((gate, up))
    {
      assert shards[..s + 1][..s] == shards[..s];
      var halves := Chunk(shards[s], 2);
      if |halves| != 2 {
        StuckGateUp(shards, s + 1);
        return None;
      }
      gate, up := gate + halves[0], up + halves[1];
    }
    assert shards[..|shards|] == shards;
    r := Some((gate, up));
  }

  /** Shard s stacks its part of the gate on its part of the up projection. */
  ghost predicate IsGateUp<T>(shard: seq<T>, gate: seq<T>, up: seq<T>, s: nat, m: nat) {
    |gate| == |up| && (s + 1) * m <= |gate| && shard == Group(gate, s, m) + Group(up, s, m)
  }

  lemma GateUpWithin<T>(shard: seq<T>, gate: seq<T>, up: seq<T>, s: nat, n: nat, m: nat)
    requires IsGateUp(shard, gate, up, s, m) && s < n && n * m <= |gate|
    ensures 0 <= n * m && IsGateUp(shard, gate[..n * m], up[..n * m], s, m)
  {
    hide Group;
    MulMono(s + 1, n, m);
    GroupOfPrefix(gate, n * m, s, m);
    GroupOfPrefix(up, n * m, s, m);
  }

  /** Merging the shards gives the whole of each projection. */
  lemma {:induction false} GateUpRoundTrip<T>(gate: seq<T>, up: seq<T>, shards: seq<seq<T>>, m: nat)
    requires m > 0 && |gate| == |up| == |shards| * m
    requires forall s: nat | s < |shards| :: IsGateUp(shards[s], gate, up, s, m)
    ensures MergedGateUp(shards) == Some((gate, up))
  {
    hide Group, Chunk, IsGateUp;
    GroupBounds(|shards|, m);
    if shards != [] {
      var n := |shards| - 1;
      GroupOfRest(gate, n, m);
      GroupOfRest(up, n, m);
      forall s: nat | s < n ensures IsGateUp(shards[..n][s], gate[..n * m], up[..n * m], s, m) {
        GateUpWithin(shards[s], gate, up, s, n, m);
      }
      GateUpRoundTrip(gate[..n * m], up[..n * m], shards[..n], m);
      LastGateUp(shards[n], gate, up, n, m);
    }
  }

  lemma LastGateUp<T>(shard: seq<T>, gate: seq<T>, up: seq<T>, n: nat, m: nat)
    requires m > 0 && IsGateUp(shard, gate, up, n, m)
    ensures Chunk(shard, 2) == [Group(gate, n, m), Group(up, n, m)]
  {
    hide Group;
    HalvesOf(shard, Group(gate, n, m), Group(up, n, m), m);
  }

  lemma HalvesOf<T>(rows: seq<T>, a: seq<T>, b: seq<T>, m: nat)
    requires m > 0 && rows == a + b && |a| == |b| == m
    ensures Chunk(rows, 2) == [a, b]
  {
    hide Chunk;
    ChunkAtGroup(rows, 2, m, 0);
    ChunkAtGroup(rows, 2, m, 1);
    assert Group(rows, 0, m) == a && Group(rows, 1, m) == b;
  }
}
