/**
 The wire of the sharded delta sync (verl/verl/checkpoint_engine/delta_checkpoint_engine.py): entries are
 sliced, collected into buckets, encoded as flushes, framed into messages, received, decoded and applied
 to the live weights (verl/verl/workers/rollout/sglang_rollout/delta_loader.py).
*/
module DeltaWire {
  import opened Weights

  /** A floating point element as its bit pattern: equality is bytewise, and NaN patterns are told apart. */
  datatype Value = Number(bits: nat) | NaN(bits: nat)

  /** A bucket entry. Without positions it is dense: the values cover the whole tensor. */
  datatype Entry = Entry(name: string, dtype: Dtype, shape: seq<nat>, positions: Option<seq<nat>>, values: seq<Value>)

  const INT32_LIMIT: nat := 0x8000_0000
  const MAX_ENTRY_ELEMS: nat := 0x400_0000

  predicate Below(idx: seq<nat>, n: nat) {
    forall i | 0 <= i < |idx| :: idx[i] < n
  }

  ghost predicate Increasing(idx: seq<nat>) {
    forall i, j | 0 <= i < j < |idx| :: idx[i] < idx[j]
  }

  predicate ValidEntry(e: Entry) {
    match e.positions
    case None => |e.values| == Numel(e.shape)
    case Some(idx) => |idx| == |e.values| && Below(idx, Numel(e.shape))
  }

  ghost predicate ValidEntries(es: seq<Entry>, dense: bool) {
    forall e <- es :: ValidEntry(e) && e.positions.None? == dense
  }

  // ---------- int32 positions ----------

  function Int32(n: nat): (b: seq<byte>)
    requires n < INT32_LIMIT
    ensures |b| == 4
  {
    [(n % 0x100) as byte, (n / 0x100 % 0x100) as byte, (n / 0x1_0000 % 0x100) as byte, (n / 0x100_0000) as byte]
  }

  function FromInt32(b: seq<byte>): nat
    requires |b| == 4
  {
    b[0] as nat + b[1] as nat * 0x100 + b[2] as nat * 0x1_0000 + b[3] as nat * 0x100_0000
  }

  lemma Int32RoundTrip(n: nat)
    requires n < INT32_LIMIT
    ensures FromInt32(Int32(n)) == n
  {
    assert n / 0x1_0000 == n / 0x100 / 0x100;
    assert n / 0x100_0000 == n / 0x1_0000 / 0x100;
  }

  function Packed(idx: seq<nat>): (b: seq<byte>)
    requires forall i | 0 <= i < |idx| :: idx[i] < INT32_LIMIT
    ensures |b| == 4 * |idx|
  {
    if idx == [] then [] else Int32(idx[0]) + Packed(idx[1..])
  }

  function Unpacked(b: seq<byte>): (idx: seq<nat>)
    requires |b| % 4 == 0
    ensures |b| == 4 * |idx|
  {
    if b == [] then [] else [FromInt32(b[..4])] + Unpacked(b[4..])
  }

  lemma {:induction false} PackedRoundTrip(idx: seq<nat>)
    requires Below(idx, INT32_LIMIT)
    ensures Unpacked(Packed(idx)) == idx
  {
    if idx != [] {
      var b := Packed(idx);
      assert b[..4] == Int32(idx[0]) && b[4..] == Packed(idx[1..]);
      Int32RoundTrip(idx[0]);
      PackedRoundTrip(idx[1..]);
    }
  }

  /** Position k is sent as its four bytes from 4 * k on, the lowest first. */
  lemma {:induction false} PackedBytes(idx: seq<nat>, k: nat)
    requires Below(idx, INT32_LIMIT) && k < |idx|
    ensures var b := Packed(idx)[4 * k..4 * k + 4];
      idx[k] == b[0] as nat + 0x100 * b[1] as nat + 0x1_0000 * b[2] as nat + 0x100_0000 * b[3] as nat
  {
    hide Int32;
    if k > 0 {
      PackedBytes(idx[1..], k - 1);
      assert Packed(idx)[4 * k..4 * k + 4] == Packed(idx[1..])[4 * (k - 1)..4 * (k - 1) + 4];
    } else {
      assert Packed(idx)[..4] == Int32(idx[0]);
      Int32RoundTrip(idx[0]);
    }
  }

  // ---------- flushes ----------

  datatype DeltaParam = DeltaParam(
    name: string, dtype: Dtype, shape: seq<nat>,
    posStart: nat, posEnd: nat, posWidth: nat, valStart: nat, valEnd: nat)

  datatype Flush = Flush(dense: bool, params: seq<DeltaParam>, positions: seq<byte>, values: seq<Value>)

  function ValEndBefore(params: seq<DeltaParam>, k: nat): nat
    requires k <= |params|
  {
    if k == 0 then 0 else params[k - 1].valEnd
  }

  predicate RangeOk(f: Flush, k: nat)
    requires k < |f.params|
  {
    var p := f.params[k];
    && p.valStart == ValEndBefore(f.params, k) && p.valStart <= p.valEnd <= |f.values| && p.posWidth == 4
    && if f.dense then p.posStart == p.posEnd == 0 else p.posStart == 4 * p.valStart && p.posEnd == 4 * p.valEnd
  }

  /** The entry ranges tile the value buffer, and the position buffer of a sparse flush. */
  predicate Tiled(f: Flush) {
    && (forall k | 0 <= k < |f.params| :: RangeOk(f, k))
    && |f.values| == ValEndBefore(f.params, |f.params|)
    && |f.positions| == if f.dense then 0 else 4 * |f.values|
  }

  function Decode(f: Flush, k: nat): Entry
    requires k < |f.params| && RangeOk(f, k) && (f.dense || 4 * |f.values| == |f.positions|)
  {
    var p := f.params[k];
    var positions := if f.dense then None else Some(Unpacked(f.positions[p.posStart..p.posEnd]));
    Entry(p.name, p.dtype, p.shape, positions, f.values[p.valStart..p.valEnd])
  }

  function Entries(f: Flush): seq<Entry>
    requires Tiled(f)
  {
    seq(|f.params|, k requires 0 <= k < |f.params| => Decode(f, k))
  }

  function Extended(f: Flush, e: Entry): Flush
    requires e.positions.Some? ==> forall i | 0 <= i < |e.positions.value| :: e.positions.value[i] < INT32_LIMIT
  {
    var n, v := |e.values|, |f.values|;
    var p := if f.dense then DeltaParam(e.name, e.dtype, e.shape, 0, 0, 4, v, v + n)
      else DeltaParam(e.name, e.dtype, e.shape, 4 * v, 4 * v + 4 * n, 4, v, v + n);
    Flush(f.dense, f.params + [p], f.positions + if e.positions.Some? then Packed(e.positions.value) else [],
          f.values + e.values)
  }

  lemma DecodeStable(f: Flush, e: Entry, k: nat)
    requires Tiled(f) && ValidEntry(e) && e.positions.None? == f.dense && (f.dense || FitsInt32(e)) && k < |f.params|
    ensures RangeOk(Extended(f, e), k) && Decode(Extended(f, e), k) == Decode(f, k)
  {
    hide Numel;
    assert RangeOk(f, k);
    var f', p := Extended(f, e), f.params[k];
    assert f'.values[p.valStart..p.valEnd] == f.values[p.valStart..p.valEnd];
    if !f.dense {
      assert f'.positions[p.posStart..p.posEnd] == f.positions[p.posStart..p.posEnd];
    }
  }

  lemma DecodeLast(f: Flush, e: Entry)
    requires Tiled(f) && ValidEntry(e) && e.positions.None? == f.dense && (f.dense || FitsInt32(e))
    ensures RangeOk(Extended(f, e), |f.params|) && Decode(Extended(f, e), |f.params|) == e
  {
    hide Numel, RangeOk;
    var f', n := Extended(f, e), |f.params|;
    var p := f'.params[n];
    assert f'.params[..n] == f.params;
    LastRange(f, e);
    assert f'.values[p.valStart..p.valEnd] == e.values;
    if !f.dense {
      assert f'.positions[p.posStart..p.posEnd] == Packed(e.positions.value);
      PackedRoundTrip(e.positions.value);
    }
  }

  lemma LastRange(f: Flush, e: Entry)
    requires Tiled(f) && ValidEntry(e) && e.positions.None? == f.dense && (f.dense || FitsInt32(e))
    ensures RangeOk(Extended(f, e), |f.params|)
    ensures |Extended(f, e).values| == ValEndBefore(Extended(f, e).params, |f.params| + 1)
  {
    hide Numel;
    assert Extended(f, e).params[..|f.params|] == f.params;
    EndsDepend(f.params, Extended(f, e).params, |f.params|);
  }

  lemma EndsDepend(params: seq<DeltaParam>, params': seq<DeltaParam>, k: nat)
    requires k <= |params| && params <= params'
    ensures ValEndBefore(params', k) == ValEndBefore(params, k)
  {
  }

  lemma ExtendFlush(f: Flush, e: Entry)
    requires Tiled(f) && ValidEntry(e) && e.positions.None? == f.dense && (f.dense || FitsInt32(e))
    ensures Tiled(Extended(f, e)) && Entries(Extended(f, e)) == Entries(f) + [e]
  {
    hide Numel, RangeOk, Decode;
    var f' := Extended(f, e);
    var n := |f.params|;
    forall k | 0 <= k < n ensures RangeOk(f', k) && Decode(f', k) == Decode(f, k) {
      DecodeStable(f, e, k);
    }
    DecodeLast(f, e);
    LastRange(f, e);
  }

  predicate FitsInt32(e: Entry) {
    Numel(e.shape) < INT32_LIMIT
  }

  /** `_assemble_flush`; None when a parameter is too large for the position encoding. */
  method AssembleFlush(bucket: seq<Entry>) returns (r: Option<Flush>)
    requires ValidEntries(bucket, false)
    ensures r.Some? <==> forall e <- bucket :: Numel(e.shape) < 0x8000_0000
    ensures r.Some? ==> !r.value.dense && Tiled(r.value) && Entries(r.value) == bucket
  {
    hide Numel, Tiled;
    var params: seq<DeltaParam> := [];
    var positions: seq<byte> := [];
    var values: seq<Value> := [];
    var posOff, valOff := 0, 0;
    assert Tiled(Flush(false, params, positions, values)) by {
      EmptyFlush(false);
    }
    for i := 0 to |bucket|
      invariant Tiled(Flush(false, params, positions, values))
      invariant Entries(Flush(false, params, positions, values)) == bucket[..i]
      invariant valOff == |values| && posOff == 4 * valOff
      invariant forall e <- bucket[..i] :: FitsInt32(e)
    {
      var e := bucket[i];
      if !FitsInt32(e) {
        return None;
      }
      ghost var f := Flush(false, params, positions, values);
      ExtendFlush(f, e);
      var nnz := |e.positions.value|;
      positions := positions + Packed(e.positions.value);
      values := values + e.values;
      params := params + [DeltaParam(e.name, e.dtype, e.shape, posOff, posOff + nnz * 4, 4, valOff, valOff + nnz)];
      posOff, valOff := posOff + nnz * 4, valOff + nnz;
      assert Flush(false, params, positions, values) == Extended(f, e);
    }
    assert bucket[..|bucket|] == bucket;
    return Some(Flush(false, params, positions, values));
  }

  lemma EmptyFlush(dense: bool)
    ensures Tiled(Flush(dense, [], [], [])) && Entries(Flush(dense, [], [], [])) == []
  {
  }

  /** The flush that `_seal` builds for the dense seed. */
  method AssembleDense(bucket: seq<Entry>) returns (f: Flush)
    requires ValidEntries(bucket, true)
    ensures f.dense && Tiled(f) && Entries(f) == bucket
  {
    hide Numel, Tiled;
    var params: seq<DeltaParam> := [];
    var values: seq<Value> := [];
    var valOff := 0;
    EmptyFlush(true);
    for i := 0 to |bucket|
      invariant Tiled(Flush(true, params, [], values))
      invariant Entries(Flush(true, params, [], values)) == bucket[..i]
      invariant valOff == |values|
    {
      var e := bucket[i];
      ghost var before := Flush(true, params, [], values);
      ExtendFlush(before, e);
      var n := |e.values|;
      params := params + [DeltaParam(e.name, e.dtype, e.shape, 0, 0, 4, valOff, valOff + n)];
      values := values + e.values;
      valOff := valOff + n;
      assert Flush(true, params, [], values) == Extended(before, e);
    }
    assert bucket[..|bucket|] == bucket;
    f := Flush(true, params, [], values);
  }

  // ---------- applying entries to the live weights ----------

  type LiveWeights = map<string, seq<Value>>

  const UNCHANGED: Value := NaN(0)

  function Unchanged(n: nat): seq<Value> {
    seq(n, _ => UNCHANGED)
  }

  /** `index_copy_`. */
  function Scatter(flat: seq<Value>, idx: seq<nat>, values: seq<Value>): (r: seq<Value>)
    requires |idx| == |values| && forall i | 0 <= i < |idx| :: idx[i] < |flat|
    ensures |r| == |flat|
  {
    if idx == [] then flat
    else
      var n := |idx| - 1;
      Scatter(flat, idx[..n], values[..n])[idx[n] := values[n]]
  }

  /** `masked_copy_`: NaN elements of the source leave the target as it is. */
  function MaskedCopy(target: seq<Value>, src: seq<Value>): (r: seq<Value>)
    requires |src| == |target|
    ensures |r| == |target|
  {
    seq(|target|, i requires 0 <= i < |target| => if src[i].NaN? then target[i] else src[i])
  }

  /** `_decode_one`, for a dense flush the plain slice of the values. */
  function Densified(e: Entry): (r: seq<Value>)
    requires ValidEntry(e)
    ensures |r| == Numel(e.shape)
  {
    if e.positions.None? then e.values else Scatter(Unchanged(Numel(e.shape)), e.positions.value, e.values)
  }

  ghost predicate Fits(m: LiveWeights, e: Entry) {
    ValidEntry(e) && e.name in m && |m[e.name]| == Numel(e.shape)
  }

  ghost predicate AllFit(m: LiveWeights, es: seq<Entry>) {
    forall e <- es :: Fits(m, e)
  }

  ghost function ApplyEntry(m: LiveWeights, e: Entry): LiveWeights
    requires Fits(m, e)
  {
    m[e.name := if e.positions.None? then e.values else MaskedCopy(m[e.name], Densified(e))]
  }

  ghost predicate SameSizes(m: LiveWeights, m': LiveWeights) {
    m.Keys == m'.Keys && forall name <- m :: |m[name]| == |m'[name]|
  }

  /** The entries applied one after the other. */
  ghost function Apply(m: LiveWeights, es: seq<Entry>): (r: LiveWeights)
    requires AllFit(m, es)
    ensures SameSizes(m, r)
  {
    if es == [] then m
    else
      var before := Apply(m, es[..|es| - 1]);
      assert Fits(m, es[|es| - 1]);
      ApplyEntry(before, es[|es| - 1])
  }

  lemma StillFit(m: LiveWeights, m': LiveWeights, es: seq<Entry>)
    requires AllFit(m, es) && SameSizes(m, m')
    ensures AllFit(m', es)
  {
    hide Numel, ValidEntry;
  }

  lemma {:induction false} ApplyConcat(m: LiveWeights, a: seq<Entry>, b: seq<Entry>)
    requires AllFit(m, a) && AllFit(m, b)
    ensures AllFit(m, a + b) && AllFit(Apply(m, a), b) && Apply(m, a + b) == Apply(Apply(m, a), b)
  {
    StillFit(m, Apply(m, a), b);
    assert AllFit(m, a + b) by {
      hide Fits;
    }
    hide Fits, SameSizes, ApplyEntry;
    if b == [] {
      assert a + b == a;
    } else {
      var n := |b| - 1;
      assert (a + b)[..|a + b| - 1] == a + b[..n] && (a + b)[|a + b| - 1] == b[n];
      ApplyConcat(m, a, b[..n]);
    }
  }

  /** The live weights of a rollout worker, written in place. */
  class RolloutModel {
    var weights: LiveWeights

    constructor (weights: LiveWeights)
      ensures this.weights == weights
    {
      this.weights := weights;
    }

    /** `load_weights` on a chunk of densified tensors, under the masked copy if the flush is sparse. */
    method LoadWeights(chunk: seq<(string, seq<Value>)>, masked: bool, ghost es: seq<Entry>)
      requires AllFit(weights, es) && ValidEntries(es, !masked) && HoldsDecoded(chunk, es)
      requires |chunk| > 1 ==> DenseBytes(es) <= 0x2000_0000
      modifies this
      ensures weights == Apply(old(weights), es)
    {
      hide DenseBytes, Apply, AllFit, ValidEntries, HoldsDecoded;
      ApplyNone(weights);
      assert es[..0] == [];
      SameLength(chunk, es);
      for k := 0 to |chunk|
        invariant AllFit(old(weights), es[..k]) && weights == Apply(old(weights), es[..k])
      {
        LoadOne(old(weights), chunk, masked, es, k);
        var (name, t) := chunk[k];
        weights := weights[name := if masked then MaskedCopy(weights[name], t) else t];
      }
      assert es[..|es|] == es;
    }

    /** `apply_delta` and `_apply_dense`: the entries are decoded and loaded in chunks of at most 512 MiB. */
    method ApplyDelta(f: Flush)
      requires Tiled(f) && AllFit(weights, Entries(f))
      modifies this
      ensures weights == Apply(old(weights), Entries(f))
    {
      hide Tiled, Numel, ValidEntry, Decode, Densified, HoldsDecoded, Apply, ValidEntries, SameSizes, DenseBytes;
      HoldsNothing();
      NoDenseBytes();
      ghost var es := Entries(f);
      ApplyNone(weights);
      assert es[..0] == [];
      var chunk: seq<(string, seq<Value>)> := [];
      var chunkBytes := 0;
      ghost var loaded := 0;
      for k := 0 to |f.params|
        invariant loaded <= k && |chunk| == k - loaded
        invariant weights == Apply(old(weights), es[..loaded])
        invariant HoldsDecoded(chunk, es[loaded..k])
        invariant chunkBytes == DenseBytes(es[loaded..k]) && (|chunk| > 1 ==> chunkBytes <= CHUNK_BYTES)
      {
        TiledAt(f, k);
        var e := Decode(f, k);
        assert e == es[k] && Fits(old(weights), e);
        var t := Densified(e);
        var nbytes := |t| * e.dtype.itemsize;
        if |chunk| > 0 && chunkBytes + nbytes > CHUNK_BYTES {
          LoadSlice(old(weights), f, loaded, k);
          LoadWeights(chunk, !f.dense, es[loaded..k]);
          loaded, chunk, chunkBytes := k, [], 0;
        }
        assert |es[loaded..k]| == |chunk|;
        HoldsOneMore(chunk, es[loaded..k], e);
        MoreDenseBytes(es[loaded..k], e);
        OneLonger(es, loaded, k);
        chunk := chunk + [(f.params[k].name, t)];
        chunkBytes := chunkBytes + nbytes;
      }
      assert es[..|es|] == es && es[loaded..|es|] == es[loaded..];
      if |chunk| > 0 {
        LoadSlice(old(weights), f, loaded, |f.params|);
        LoadWeights(chunk, !f.dense, es[loaded..]);
      }
    }
  }

  /** What the entries take when each is a whole tensor. */
  ghost function DenseBytes(es: seq<Entry>): nat {
    if es == [] then 0
    else DenseBytes(es[..|es| - 1]) + Numel(es[|es| - 1].shape) * es[|es| - 1].dtype.itemsize
  }

  lemma NoDenseBytes()
    ensures DenseBytes([]) == 0
  {
  }

  lemma MoreDenseBytes(es: seq<Entry>, e: Entry)
    ensures DenseBytes(es + [e]) == DenseBytes(es) + Numel(e.shape) * e.dtype.itemsize
  {
    assert (es + [e])[..|es|] == es;
  }

  /** The chunk holds the densified tensors of the entries. */
  ghost predicate HoldsDecoded(chunk: seq<(string, seq<Value>)>, es: seq<Entry>) {
    && |chunk| == |es|
    && forall k | 0 <= k < |es| :: ValidEntry(es[k]) && chunk[k] == (es[k].name, Densified(es[k]))
  }

  lemma SameLength(chunk: seq<(string, seq<Value>)>, es: seq<Entry>)
    requires HoldsDecoded(chunk, es)
    ensures |chunk| == |es|
  {
  }

  /** Loading the tensor of one more entry. */
  lemma LoadOne(m: LiveWeights, chunk: seq<(string, seq<Value>)>, masked: bool, es: seq<Entry>, k: nat)
    requires AllFit(m, es) && ValidEntries(es, !masked) && HoldsDecoded(chunk, es) && k < |es|
    ensures AllFit(m, es[..k]) && AllFit(m, es[..k + 1])
    ensures var (name, t), before := chunk[k], Apply(m, es[..k]);
      && name in before && |before[name]| == |t|
      && Apply(m, es[..k + 1]) == before[name := if masked then MaskedCopy(before[name], t) else t]
  {
    hide Numel, MaskedCopy, Scatter;
    assert Fits(m, es[k]) && es[k] in es;
    assert es[..k + 1][..k] == es[..k] && es[..k + 1][k] == es[k];
  }

  lemma OneLonger(es: seq<Entry>, from: nat, k: nat)
    requires from <= k < |es|
    ensures es[from..k + 1] == es[from..k] + [es[k]]
  {
  }

  lemma ApplyNone(m: LiveWeights)
    ensures AllFit(m, []) && Apply(m, []) == m
  {
  }

  lemma HoldsNothing()
    ensures HoldsDecoded([], [])
  {
  }

  lemma HoldsOneMore(chunk: seq<(string, seq<Value>)>, es: seq<Entry>, e: Entry)
    requires HoldsDecoded(chunk, es) && ValidEntry(e)
    ensures HoldsDecoded(chunk + [(e.name, Densified(e))], es + [e])
  {
    hide ValidEntry, Densified;
  }

  const CHUNK_BYTES: nat := 0x2000_0000

  lemma TiledAt(f: Flush, k: nat)
    requires Tiled(f) && k < |f.params|
    ensures RangeOk(f, k) && (f.dense || 4 * |f.values| == |f.positions|)
    ensures Decode(f, k).name == f.params[k].name && Decode(f, k).positions.None? == f.dense
  {
  }

  /** Loading the entries from..to after the first from is the same as loading the first to. */
  lemma LoadSlice(m: LiveWeights, f: Flush, from: nat, to: nat)
    requires Tiled(f) && AllFit(m, Entries(f)) && from <= to <= |f.params|
    ensures var es := Entries(f);
      && AllFit(m, es[..from]) && AllFit(m, es[from..to]) && AllFit(Apply(m, es[..from]), es[from..to])
      && Apply(Apply(m, es[..from]), es[from..to]) == Apply(m, es[..to])
      && ValidEntries(es[from..to], f.dense)
  {
    hide Numel, Tiled;
    var es := Entries(f);
    forall k | from <= k < to ensures ValidEntry(es[k]) && es[k].positions.None? == f.dense {
      TiledAt(f, k);
      assert Fits(m, es[k]);
    }
    hide Fits, Apply, Entries;
    assert es[..from] + es[from..to] == es[..to];
    ApplyConcat(m, es[..from], es[from..to]);
  }

  // ---------- slicing is invisible ----------

  /** What the positions and values say about element i. */
  ghost function At(idx: seq<nat>, values: seq<Value>, i: nat): Option<Value>
    requires |idx| == |values|
  {
    if idx == [] then None
    else
      var n := |idx| - 1;
      if idx[n] == i then Some(values[n]) else At(idx[..n], values[..n], i)
  }

  lemma AtOneMore(idx: seq<nat>, values: seq<Value>, x: nat, v: Value, i: nat)
    requires |idx| == |values|
    ensures At(idx + [x], values + [v], i) == if x == i then Some(v) else At(idx, values, i)
  {
    assert (idx + [x])[..|idx|] == idx && (values + [v])[..|values|] == values;
  }

  lemma AtNothing(i: nat)
    ensures At([], [], i) == None
  {
  }

  lemma {:induction false} ScatterAt(flat: seq<Value>, idx: seq<nat>, values: seq<Value>, i: nat)
    requires |idx| == |values| && Below(idx, |flat|) && i < |flat|
    ensures Scatter(flat, idx, values)[i] == if At(idx, values, i).Some? then At(idx, values, i).value else flat[i]
  {
    if idx != [] {
      var n := |idx| - 1;
      ScatterAt(flat, idx[..n], values[..n], i);
    }
  }

  lemma {:induction false} AtAppend(idx: seq<nat>, values: seq<Value>, idx': seq<nat>, values': seq<Value>, i: nat)
    requires |idx| == |values| && |idx'| == |values'|
    ensures At(idx + idx', values + values', i) == if At(idx', values', i).Some? then At(idx', values', i)
      else At(idx, values, i)
  {
    if idx' == [] {
      assert idx + idx' == idx && values + values' == values;
    } else {
      var n := |idx'| - 1;
      assert (idx + idx')[..|idx| + n] == idx + idx'[..n]
        && (values + values')[..|values| + n] == values + values'[..n];
      AtAppend(idx, values, idx'[..n], values'[..n], i);
    }
  }

  lemma {:induction false} AtMember(idx: seq<nat>, values: seq<Value>, i: nat)
    requires |idx| == |values|
    ensures At(idx, values, i).Some? <==> i in idx
  {
    if idx != [] {
      var n := |idx| - 1;
      assert idx == idx[..n] + [idx[n]];
      AtMember(idx[..n], values[..n], i);
    }
  }

  /** What a sparse entry does to element i. */
  ghost function Updated(was: Value, idx: seq<nat>, values: seq<Value>, i: nat): Value
    requires |idx| == |values|
  {
    match At(idx, values, i)
    case None => was
    case Some(v) => if v.NaN? then was else v
  }

  lemma ApplyEntryAt(m: LiveWeights, e: Entry, i: nat)
    requires Fits(m, e) && i < Numel(e.shape)
    ensures ApplyEntry(m, e)[e.name][i] ==
      if e.positions.None? then e.values[i] else Updated(m[e.name][i], e.positions.value, e.values, i)
  {
    hide Numel;
    if e.positions.Some? {
      ScatterAt(Unchanged(Numel(e.shape)), e.positions.value, e.values, i);
    }
  }

  /** `range(s, numel, MAX_ENTRY_ELEMS)`: the slices of a sparse delta from element s on. */
  function Slices(e: Entry, s: nat, limit: nat): seq<Entry>
    requires e.positions.Some? && |e.positions.value| == |e.values| && s <= |e.values| && limit > 0
    decreases |e.values| - s
  {
    if s == |e.values| then []
    else
      var t := Min(s + limit, |e.values|);
      [Sliced(e, s, t)] + Slices(e, t, limit)
  }

  function Sliced(e: Entry, s: nat, t: nat): Entry
    requires e.positions.Some? && |e.positions.value| == |e.values| && s <= t <= |e.values|
  {
    e.(positions := Some(e.positions.value[s..t]), values := e.values[s..t])
  }

  /** No slice is longer than the limit, and together they are the delta. */
  lemma {:induction false} SlicesRestore(e: Entry, s: nat, limit: nat)
    requires e.positions.Some? && ValidEntry(e) && s <= |e.values| && limit > 0
    ensures forall x <- Slices(e, s, limit) ::
      x.name == e.name && x.dtype == e.dtype && x.shape == e.shape && ValidEntry(x) && x.positions.Some?
        && 0 < |x.values| <= limit
    ensures forall i | 0 <= i < |Slices(e, s, limit)| - 1 :: |Slices(e, s, limit)[i].values| == limit
    ensures AllValues(Slices(e, s, limit)) == e.values[s..]
    ensures AllPositions(Slices(e, s, limit)) == e.positions.value[s..]
    decreases |e.values| - s
  {
    hide Numel, Below, Sliced, Slices, AllValues, AllPositions;
    if s < |e.values| {
      var t := Min(s + limit, |e.values|);
      SlicesRestore(e, t, limit);
      SlicedIs(e, s, t);
      FirstSlice(e, s, t, limit);
      if t == |e.values| {
        NoSlices(e, limit);
      }
      FirstOfAll(Sliced(e, s, t), Slices(e, t, limit));
      assert e.values[s..] == e.values[s..t] + e.values[t..];
      assert e.positions.value[s..] == e.positions.value[s..t] + e.positions.value[t..];
    } else {
      NoSlices(e, limit);
    }
  }

  lemma FirstSlice(e: Entry, s: nat, t: nat, limit: nat)
    requires e.positions.Some? && |e.positions.value| == |e.values| && s < |e.values| && limit > 0
    requires t == Min(s + limit, |e.values|)
    ensures Slices(e, s, limit) == [Sliced(e, s, t)] + Slices(e, t, limit)
  {
  }

  lemma NoSlices(e: Entry, limit: nat)
    requires e.positions.Some? && |e.positions.value| == |e.values| && limit > 0
    ensures Slices(e, |e.values|, limit) == [] && AllValues([]) == [] && AllPositions([]) == []
  {
  }

  lemma FirstOfAll(e: Entry, rest: seq<Entry>)
    requires e.positions.Some?
    ensures AllValues([e] + rest) == e.values + AllValues(rest)
    ensures AllPositions([e] + rest) == e.positions.value + AllPositions(rest)
  {
    assert ([e] + rest)[1..] == rest;
  }

  lemma SlicedIs(e: Entry, s: nat, t: nat)
    requires e.positions.Some? && ValidEntry(e) && |e.positions.value| == |e.values| && s < t <= |e.values|
    ensures var x := Sliced(e, s, t);
      && x.name == e.name && x.dtype == e.dtype && x.shape == e.shape && ValidEntry(x)
      && x.positions == Some(e.positions.value[s..t]) && x.values == e.values[s..t]
  {
    hide Numel;
  }

  ghost function AllValues(es: seq<Entry>): seq<Value> {
    if es == [] then [] else es[0].values + AllValues(es[1..])
  }

  ghost function AllPositions(es: seq<Entry>): seq<nat> {
    if es == [] then [] else (if es[0].positions.Some? then es[0].positions.value else []) + AllPositions(es[1..])
  }

  /** Two applications of adjoining parts of a delta with increasing positions are one of the whole. */
  lemma ApplyParts(m: LiveWeights, e: Entry, s: nat, t: nat, u: nat)
    requires e.positions.Some? && Fits(m, e) && Increasing(e.positions.value) && s <= t <= u <= |e.values|
    ensures Fits(m, Sliced(e, s, t)) && Fits(m, Sliced(e, s, u))
    ensures Fits(ApplyEntry(m, Sliced(e, s, t)), Sliced(e, t, u))
    ensures ApplyEntry(ApplyEntry(m, Sliced(e, s, t)), Sliced(e, t, u)) == ApplyEntry(m, Sliced(e, s, u))
  {
    hide Numel, MaskedCopy, Densified;
    var a, b, c := Sliced(e, s, t), Sliced(e, t, u), Sliced(e, s, u);
    var m' := ApplyEntry(m, a);
    assert Fits(m', b);
    var l, r := ApplyEntry(m', b), ApplyEntry(m, c);
    forall i: nat | i < Numel(e.shape) ensures l[e.name][i] == r[e.name][i] {
      ApplyEntryAt(m, a, i);
      ApplyEntryAt(m', b, i);
      ApplyEntryAt(m, c, i);
      UpdatedTwice(m[e.name][i], e.positions.value, e.values, s, t, u, i);
    }
    assert l[e.name] == r[e.name];
  }

  lemma UpdatedTwice(v: Value, idx: seq<nat>, values: seq<Value>, s: nat, t: nat, u: nat, i: nat)
    requires |idx| == |values| && Increasing(idx) && s <= t <= u <= |idx|
    ensures Updated(Updated(v, idx[s..t], values[s..t], i), idx[t..u], values[t..u], i) ==
      Updated(v, idx[s..u], values[s..u], i)
  {
    assert idx[s..t] + idx[t..u] == idx[s..u] && values[s..t] + values[t..u] == values[s..u];
    AtAppend(idx[s..t], values[s..t], idx[t..u], values[t..u], i);
    AtMember(idx[s..t], values[s..t], i);
    AtMember(idx[t..u], values[t..u], i);
  }

  lemma ApplyNothing(m: LiveWeights, e: Entry)
    requires Fits(m, e) && e.positions == Some([])
    ensures ApplyEntry(m, e) == m
  {
    hide Numel;
    assert MaskedCopy(m[e.name], Densified(e)) == m[e.name];
  }

  lemma {:induction false} SlicesFrom(m: LiveWeights, e: Entry, s: nat, limit: nat)
    requires e.positions.Some? && Fits(m, e) && Increasing(e.positions.value) && s <= |e.values| && limit > 0
    ensures AllFit(m, Slices(e, s, limit)) && Fits(m, Sliced(e, s, |e.values|))
    ensures Apply(m, Slices(e, s, limit)) == ApplyEntry(m, Sliced(e, s, |e.values|))
    decreases |e.values| - s
  {
    hide Numel, ApplyEntry;
    SlicesRestore(e, s, limit);
    if s == |e.values| {
      ApplyNothing(m, Sliced(e, s, s));
    } else {
      var t := Min(s + limit, |e.values|);
      ApplyParts(m, e, s, t, |e.values|);
      var m' := ApplyEntry(m, Sliced(e, s, t));
      AppliedSame(m, Sliced(e, s, t));
      assert Fits(m', e);
      SlicesFrom(m', e, t, limit);
      ApplyConcat(m, [Sliced(e, s, t)], Slices(e, t, limit));
      assert Apply(m, [Sliced(e, s, t)]) == m';
    }
  }

  lemma AppliedSame(m: LiveWeights, e: Entry)
    requires Fits(m, e)
    ensures SameSizes(m, ApplyEntry(m, e))
    ensures AllFit(m, [e]) && Apply(m, [e]) == ApplyEntry(m, e)
  {
    assert [e][..0] == [];
    assert Apply(m, [e][..0]) == m;
  }

  /** A delta cut into entries has the effect of the whole delta. */
  lemma SlicingInvisible(m: LiveWeights, e: Entry)
    requires e.positions.Some? && Fits(m, e) && Increasing(e.positions.value)
    ensures AllFit(m, Slices(e, 0, MAX_ENTRY_ELEMS)) && Apply(m, Slices(e, 0, MAX_ENTRY_ELEMS)) == ApplyEntry(m, e)
  {
    hide ApplyEntry, Apply, Slices, Numel;
    assert e.positions.value[0..|e.values|] == e.positions.value && e.values[0..|e.values|] == e.values;
    assert Sliced(e, 0, |e.values|) == e;
    SlicesFrom(m, e, 0, MAX_ENTRY_ELEMS);
  }
}
