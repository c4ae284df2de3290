/**
 Named weight tensors, the chunk stream they are cut into, and the two generators
 that cut and rebuild them (verl/verl/checkpoint_engine/base.py).
 A tensor is its raw bytes together with a shape and an item size.
*/
module Weights {

  newtype byte = x: int | 0 <= x < 256

  datatype Option<+T> = None | Some(value: T)

  type Width = x: nat | x > 0 witness 1

  datatype Dtype = Dtype(name: string, itemsize: Width)

  datatype Tensor = Tensor(shape: seq<nat>, dtype: Dtype, data: seq<byte>)

  datatype Weight = Weight(name: string, tensor: Tensor)

  /** `offset` is the position in the bucket; it is unset until the chunk is packed. */
  datatype TensorMeta = TensorMeta(
    name: string, shape: seq<nat>, dtype: Dtype,
    chunkOffset: nat, chunkSize: nat, offset: Option<nat>)

  datatype Chunk = Chunk(meta: TensorMeta, data: seq<byte>)

  function Numel(shape: seq<nat>): nat {
    if shape == [] then 1 else shape[0] * Numel(shape[1..])
  }

  function Nbytes(shape: seq<nat>, dtype: Dtype): nat {
    Numel(shape) * dtype.itemsize
  }

  predicate ValidTensor(t: Tensor) {
    |t.data| == Nbytes(t.shape, t.dtype)
  }

  ghost predicate ValidWeights(ws: seq<Weight>) {
    forall w <- ws :: ValidTensor(w.tensor)
  }

  ghost predicate DistinctNames(ws: seq<Weight>) {
    forall i, j | 0 <= i < j < |ws| :: ws[i].name != ws[j].name
  }

  /** What survives a transfer: a tensor of zero bytes produces no chunk at all. */
  function NonEmpty(ws: seq<Weight>): seq<Weight> {
    if ws == [] then []
    else (if |ws[0].tensor.data| == 0 then [] else [ws[0]]) + NonEmpty(ws[1..])
  }

  // ---------- splitting ----------

  function ChunkAt(w: Weight, off: nat, size: nat): Chunk
    requires off + size <= |w.tensor.data|
  {
    Chunk(TensorMeta(w.name, w.tensor.shape, w.tensor.dtype, off, size, None), w.tensor.data[off..off + size])
  }

  /** The chunks of `w` that start at or after byte `off`. */
  function ChunksFrom(w: Weight, off: nat, bucketSize: nat): seq<Chunk>
    requires bucketSize > 0 && off <= |w.tensor.data|
    decreases |w.tensor.data| - off
  {
    if off == |w.tensor.data| then []
    else
      var size := Min(bucketSize, |w.tensor.data| - off);
      [ChunkAt(w, off, size)] + ChunksFrom(w, off + size, bucketSize)
  }

  function Split(ws: seq<Weight>, bucketSize: nat): seq<Chunk>
    requires bucketSize > 0
  {
    if ws == [] then [] else ChunksFrom(ws[0], 0, bucketSize) + Split(ws[1..], bucketSize)
  }

  function Min(a: nat, b: nat): nat {
    if a < b then a else b
  }

  lemma SplitAppend(ws: seq<Weight>, w: Weight, bucketSize: nat)
    requires bucketSize > 0
    ensures Split(ws + [w], bucketSize) == Split(ws, bucketSize) + ChunksFrom(w, 0, bucketSize)
  {
    if ws == [] {
      assert ws + [w] == [w];
      assert Split([w], bucketSize) == ChunksFrom(w, 0, bucketSize) + Split([], bucketSize);
    } else {
      assert (ws + [w])[1..] == ws[1..] + [w];
      SplitAppend(ws[1..], w, bucketSize);
    }
  }

  /** `split_weight_chunks`: the outer loop over weights, the inner loop over offsets. */
  method SplitWeightChunks(weights: seq<Weight>, bucketSize: nat) returns (chunks: seq<Chunk>)
    requires bucketSize > 0
    ensures chunks == Split(weights, bucketSize)
  {
    chunks := [];
    for i := 0 to |weights|
      invariant chunks == Split(weights[..i], bucketSize)
    {
      var w := weights[i];
      ghost var before := chunks;
      var chunkOffset := 0;
      while chunkOffset < |w.tensor.data|
        invariant chunkOffset <= |w.tensor.data|
        invariant chunks + ChunksFrom(w, chunkOffset, bucketSize) == before + ChunksFrom(w, 0, bucketSize)
      {
        var chunkSize := Min(bucketSize, |w.tensor.data| - chunkOffset);
        var chunk := ChunkAt(w, chunkOffset, chunkSize);
        assert chunks + ChunksFrom(w, chunkOffset, bucketSize)
            == (chunks + [chunk]) + ChunksFrom(w, chunkOffset + chunkSize, bucketSize);
        chunks := chunks + [chunk];
        chunkOffset := chunkOffset + chunkSize;
      }
      SplitAppend(weights[..i], w, bucketSize);
      assert weights[..i + 1] == weights[..i] + [w];
    }
    assert weights[..|weights|] == weights;
  }

  // ---------- merging ----------

  /** The pending weight of `merge_weight_chunks`: the bytes written so far, from the front. */
  datatype MergeState = Nothing | Pending(name: string, shape: seq<nat>, dtype: Dtype, written: seq<byte>)

  datatype StepResult = Failed | Next(state: MergeState, out: seq<Weight>)

  /** `ok` is false when an assertion or a view fails; `out` is what was yielded before that. */
  datatype MergeResult = MergeResult(ok: bool, out: seq<Weight>)

  /** What the construction of `TensorMeta` guarantees of every chunk. */
  predicate WellFormedChunk(c: Chunk) {
    |c.data| == c.meta.chunkSize && c.meta.chunkOffset + c.meta.chunkSize <= Nbytes(c.meta.shape, c.meta.dtype)
  }

  ghost predicate WellFormedStream(chunks: seq<Chunk>) {
    && (forall c <- chunks :: WellFormedChunk(c))
    && (forall c <- chunks, d <- chunks | c.meta.name == d.meta.name ::
          c.meta.shape == d.meta.shape && c.meta.dtype == d.meta.dtype)
  }

  /**
   `chunk.view(dtype)` of bytes that start at `start` of their buffer: it is refused unless an item can start
   there.
  */
  predicate Viewable(start: nat, dtype: Dtype) {
    start % dtype.itemsize == 0
  }

  /** A chunk that has not been packed is a view of the sender's own tensor, and starts at one of its items. */
  predicate Aligned(c: Chunk) {
    c.meta.offset.Some? ==> Viewable(c.meta.offset.value, c.meta.dtype)
  }

  function MergeStep(st: MergeState, c: Chunk, bucketSize: nat): StepResult {
    var nbytes := Nbytes(c.meta.shape, c.meta.dtype);
    if nbytes <= bucketSize then
      if st != Nothing || |c.data| != nbytes || !Aligned(c) then Failed
      else Next(Nothing, [Weight(c.meta.name, Tensor(c.meta.shape, c.meta.dtype, c.data))])
    else
      if st == Nothing && c.meta.chunkOffset != 0 then Failed
      else
        var cur := if st == Nothing then Pending(c.meta.name, c.meta.shape, c.meta.dtype, []) else st;
        if c.meta.name != cur.name || |cur.written| != c.meta.chunkOffset then Failed
        else if c.meta.chunkOffset + c.meta.chunkSize == nbytes then
          Next(Nothing, [Weight(cur.name, Tensor(cur.shape, cur.dtype, cur.written + c.data))])
        else
          Next(cur.(written := cur.written + c.data), [])
  }

  function MergeFrom(st: MergeState, chunks: seq<Chunk>, bucketSize: nat): MergeResult
    decreases |chunks|
  {
    if chunks == [] then MergeResult(true, [])
    else
      match MergeStep(st, chunks[0], bucketSize)
      case Failed => MergeResult(false, [])
      case Next(st', out) =>
        var rest := MergeFrom(st', chunks[1..], bucketSize);
        MergeResult(rest.ok, out + rest.out)
  }

  function Merge(chunks: seq<Chunk>, bucketSize: nat): MergeResult {
    MergeFrom(Nothing, chunks, bucketSize)
  }

  /** A weight that spans several buckets while it is being rebuilt in its own buffer. */
  class PendingWeight {
    const meta: TensorMeta
    const buffer: array<byte>
    var offset: nat

    ghost predicate Valid()
      reads this
    {
      offset <= buffer.Length == Nbytes(meta.shape, meta.dtype)
    }

    ghost function State(): MergeState
      reads this, buffer
      requires Valid()
    {
      Pending(meta.name, meta.shape, meta.dtype, buffer[..offset])
    }

    constructor (meta: TensorMeta)
      ensures Valid() && fresh(buffer) && this.meta == meta
      ensures State() == Pending(meta.name, meta.shape, meta.dtype, [])
    {
      this.meta := meta;
      buffer := new byte[Nbytes(meta.shape, meta.dtype)];
      offset := 0;
    }

    method Write(data: seq<byte>)
      requires Valid() && offset + |data| <= buffer.Length
      modifies this, buffer
      ensures Valid() && offset == old(offset) + |data|
      ensures State() == Pending(meta.name, meta.shape, meta.dtype, old(State()).written + data)
    {
      WriteBytes(buffer, offset, data);
      offset := offset + |data|;
    }
  }

  ghost function StateOf(pending: PendingWeight?): MergeState
    reads pending, if pending == null then {} else {pending.buffer}
    requires pending != null ==> pending.Valid()
  {
    if pending == null then Nothing else pending.State()
  }

  /** One round of the loop of `merge_weight_chunks`. */
  method AcceptChunk(pending: PendingWeight?, c: Chunk, bucketSize: nat)
    returns (ok: bool, pending': PendingWeight?, out: seq<Weight>)
    requires WellFormedChunk(c)
    requires pending != null ==> pending.Valid()
    requires pending != null && pending.meta.name == c.meta.name ==>
      pending.meta.shape == c.meta.shape && pending.meta.dtype == c.meta.dtype
    modifies pending, if pending == null then {} else {pending.buffer}
    ensures pending' != null ==>
      && pending'.Valid()
      && (pending' == pending || (fresh(pending') && fresh(pending'.buffer) && pending'.meta == c.meta))
    ensures match MergeStep(old(StateOf(pending)), c, bucketSize)
      case Failed => !ok
      case Next(st, more) => ok && StateOf(pending') == st && out == more
  {
    pending', out := pending, [];
    var nbytes := Nbytes(c.meta.shape, c.meta.dtype);
    if nbytes <= bucketSize {
      if pending != null || |c.data| != nbytes || !Aligned(c) {
        return false, null, [];
      }
      return true, null, [Weight(c.meta.name, Tensor(c.meta.shape, c.meta.dtype, c.data))];
    }
    if pending' == null {
      if c.meta.chunkOffset != 0 {
        return false, null, [];
      }
      pending' := new PendingWeight(c.meta);
    }
    if c.meta.name != pending'.meta.name || pending'.offset != c.meta.chunkOffset {
      return false, null, [];
    }
    pending'.Write(c.data);
    if c.meta.chunkOffset + c.meta.chunkSize == nbytes {
      assert pending'.buffer[..pending'.offset] == pending'.buffer[..];
      out := [Weight(pending'.meta.name, Tensor(pending'.meta.shape, pending'.meta.dtype, pending'.buffer[..]))];
      pending' := null;
    }
    ok := true;
  }

  /** `merge_weight_chunks`. */
  method MergeWeightChunks(chunks: seq<Chunk>, bucketSize: nat) returns (ok: bool, out: seq<Weight>)
    requires WellFormedStream(chunks)
    ensures MergeResult(ok, out) == Merge(chunks, bucketSize)
  {
    hide MergeStep;
    ok, out := true, [];
    var pending: PendingWeight? := null;
    ghost var first := 0;
    for i := 0 to |chunks|
      invariant pending != null ==> fresh(pending) && fresh(pending.buffer) && pending.Valid()
      invariant pending != null ==> first < i && chunks[first].meta == pending.meta
      invariant Resumes(chunks, StateOf(pending), i, out, bucketSize)
    {
      ResumeStep(chunks, StateOf(pending), i, out, bucketSize);
      if pending != null && pending.meta.name == chunks[i].meta.name {
        SameTensor(chunks, first, i);
      }
      assert chunks[i] in chunks;
      var more;
      ghost var before := pending;
      ok, pending, more := AcceptChunk(pending, chunks[i], bucketSize);
      if !ok {
        return;
      }
      first := if pending == before then first else i;
      out := out + more;
    }
  }

  lemma SameTensor(chunks: seq<Chunk>, i: nat, j: nat)
    requires WellFormedStream(chunks) && i < |chunks| && j < |chunks|
    requires chunks[i].meta.name == chunks[j].meta.name
    ensures chunks[i].meta.shape == chunks[j].meta.shape && chunks[i].meta.dtype == chunks[j].meta.dtype
    ensures WellFormedChunk(chunks[j])
  {
    assert chunks[i] in chunks && chunks[j] in chunks;
  }

  /** The merge of the whole stream is `out` followed by the merge of what is left from state `st`. */
  ghost predicate Resumes(chunks: seq<Chunk>, st: MergeState, i: nat, out: seq<Weight>, bucketSize: nat)
    requires i <= |chunks|
  {
    var rest := MergeFrom(st, chunks[i..], bucketSize);
    Merge(chunks, bucketSize) == MergeResult(rest.ok, out + rest.out)
  }

  lemma ResumeStep(chunks: seq<Chunk>, st: MergeState, i: nat, out: seq<Weight>, bucketSize: nat)
    requires i < |chunks| && Resumes(chunks, st, i, out, bucketSize)
    ensures match MergeStep(st, chunks[i], bucketSize)
      case Failed => Merge(chunks, bucketSize) == MergeResult(false, out)
      case Next(st', more) => Resumes(chunks, st', i + 1, out + more, bucketSize)
  {
    assert chunks[i..] == [chunks[i]] + chunks[i + 1..];
    match MergeStep(st, chunks[i], bucketSize)
    case Failed =>
    case Next(st', more) =>
      MergeCons(st, chunks[i], chunks[i + 1..], st', more, bucketSize);
      var rest := MergeFrom(st', chunks[i + 1..], bucketSize);
      assert out + (more + rest.out) == (out + more) + rest.out;
  }

  /** A slice assignment `buf[off : off + |data|] = data`. */
  method WriteBytes(buf: array<byte>, off: nat, data: seq<byte>)
    requires off + |data| <= buf.Length
    modifies buf
    ensures buf[..] == Overwrite(old(buf[..]), off, data)
    ensures buf[..off] == old(buf[..off]) && buf[off..off + |data|] == data
    ensures buf[..off + |data|] == old(buf[..off]) + data
  {
    forall i | 0 <= i < |data| {
      buf[off + i] := data[i];
    }
  }

  function Overwrite(buf: seq<byte>, off: nat, data: seq<byte>): (r: seq<byte>)
    requires off + |data| <= |buf|
    ensures |r| == |buf| && r[off..off + |data|] == data
    ensures forall i | 0 <= i < |buf| && !(off <= i < off + |data|) :: r[i] == buf[i]
  {
    buf[..off] + data + buf[off + |data|..]
  }

  // ---------- merging undoes splitting ----------

  ghost function Progress(w: Weight, off: nat): MergeState
    requires off <= |w.tensor.data|
  {
    if off == 0 then Nothing else Pending(w.name, w.tensor.shape, w.tensor.dtype, w.tensor.data[..off])
  }

  lemma MergeOneChunk(w: Weight, off: nat, size: nat, bucketSize: nat)
    requires ValidTensor(w.tensor) && 0 < size && off + size <= |w.tensor.data|
    requires size == Min(bucketSize, |w.tensor.data| - off)
    requires off > 0 ==> |w.tensor.data| > bucketSize
    ensures MergeStep(Progress(w, off), ChunkAt(w, off, size), bucketSize)
         == if off + size == |w.tensor.data| then Next(Nothing, [w]) else Next(Progress(w, off + size), [])
  {
    var data := w.tensor.data;
    assert data[..off] + data[off..off + size] == data[..off + size];
    assert data[..|data|] == data;
    assert [] + data[0..size] == data[0..size];
    if off + size == |data| {
      assert w == Weight(w.name, Tensor(w.tensor.shape, w.tensor.dtype, data));
    }
  }

  lemma FirstChunk(w: Weight, off: nat, bucketSize: nat)
    requires bucketSize > 0 && off < |w.tensor.data|
    ensures var size := Min(bucketSize, |w.tensor.data| - off);
      && ChunksFrom(w, off, bucketSize) == [ChunkAt(w, off, size)] + ChunksFrom(w, off + size, bucketSize)
      && (off + size == |w.tensor.data| ==> ChunksFrom(w, off + size, bucketSize) == [])
  {
  }

  /** Feeding the remaining chunks of `w` to a merge that holds its first `off` bytes yields exactly `w`. */
  lemma {:induction false} MergeWeight(w: Weight, off: nat, rest: seq<Chunk>, bucketSize: nat)
    requires bucketSize > 0 && ValidTensor(w.tensor) && off < |w.tensor.data|
    requires off > 0 ==> |w.tensor.data| > bucketSize
    ensures
      var r := MergeFrom(Nothing, rest, bucketSize);
      MergeFrom(Progress(w, off), ChunksFrom(w, off, bucketSize) + rest, bucketSize) == MergeResult(r.ok, [w] + r.out)
    decreases |w.tensor.data| - off
  {
    hide MergeFrom, MergeStep, Progress, ChunksFrom;
    var size := Min(bucketSize, |w.tensor.data| - off);
    var c, tail := ChunkAt(w, off, size), ChunksFrom(w, off + size, bucketSize);
    var r := MergeFrom(Nothing, rest, bucketSize);
    FirstChunk(w, off, bucketSize);
    assert ChunksFrom(w, off, bucketSize) + rest == [c] + (tail + rest);
    MergeOneChunk(w, off, size, bucketSize);
    if off + size == |w.tensor.data| {
      assert tail + rest == rest;
      MergeCons(Progress(w, off), c, rest, Nothing, [w], bucketSize);
    } else {
      MergeCons(Progress(w, off), c, tail + rest, Progress(w, off + size), [], bucketSize);
      MergeWeight(w, off + size, rest, bucketSize);
      assert [] + ([w] + r.out) == [w] + r.out;
    }
  }

  lemma MergeCons(st: MergeState, c: Chunk, rest: seq<Chunk>, st': MergeState, out: seq<Weight>, bucketSize: nat)
    requires MergeStep(st, c, bucketSize) == Next(st', out)
    ensures var r := MergeFrom(st', rest, bucketSize);
      MergeFrom(st, [c] + rest, bucketSize) == MergeResult(r.ok, out + r.out)
  {
    assert ([c] + rest)[0] == c && ([c] + rest)[1..] == rest;
  }

  /** The law of base.py: rebuilding the chunk stream gives back every tensor that has bytes, in order. */
  lemma {:induction false} MergeUndoesSplit(ws: seq<Weight>, bucketSize: nat)
    requires bucketSize > 0 && ValidWeights(ws)
    ensures Merge(Split(ws, bucketSize), bucketSize) == MergeResult(true, NonEmpty(ws))
  {
    if ws != [] {
      assert ValidWeights(ws[1..]);
      MergeUndoesSplit(ws[1..], bucketSize);
      if |ws[0].tensor.data| == 0 {
        assert Split(ws, bucketSize) == Split(ws[1..], bucketSize);
        assert NonEmpty(ws) == NonEmpty(ws[1..]);
      } else {
        MergeWeight(ws[0], 0, Split(ws[1..], bucketSize), bucketSize);
      }
    }
  }

  /** A chunk that is not the next one of the weight being rebuilt, or not the first one of a new weight, is refused. */
  lemma GapIsRefused(w: Weight, off: nat, w': Weight, off': nat, size: nat, rest: seq<Chunk>, bucketSize: nat)
    requires ValidTensor(w.tensor) && ValidTensor(w'.tensor) && |w.tensor.data| > bucketSize
    requires off < |w.tensor.data| && off' + size <= |w'.tensor.data|
    requires if off == 0 then off' != 0 && |w'.tensor.data| > bucketSize else w'.name != w.name || off' != off
    ensures !MergeFrom(Progress(w, off), [ChunkAt(w', off', size)] + rest, bucketSize).ok
  {
    assert ([ChunkAt(w', off', size)] + rest)[0] == ChunkAt(w', off', size);
  }

  lemma {:induction false} NonEmptyIsIdentity(ws: seq<Weight>)
    ensures |NonEmpty(ws)| <= |ws|
    ensures NonEmpty(ws) == ws <==> forall w <- ws :: |w.tensor.data| > 0
  {
    if ws != [] {
      NonEmptyIsIdentity(ws[1..]);
      assert ws == [ws[0]] + ws[1..];
      if |ws[0].tensor.data| > 0 {
        assert NonEmpty(ws) == [ws[0]] + NonEmpty(ws[1..]);
        assert NonEmpty(ws) == ws ==> NonEmpty(ws)[1..] == ws[1..];
      } else {
        assert |NonEmpty(ws)| < |ws|;
        assert ws[0] in ws;
      }
    }
  }

  /** The transfer is the identity exactly when no tensor is empty. */
  lemma SplitMergeIdentity(ws: seq<Weight>, bucketSize: nat)
    requires bucketSize > 0 && ValidWeights(ws)
    ensures Merge(Split(ws, bucketSize), bucketSize) == MergeResult(true, ws)
        <==> forall w <- ws :: |w.tensor.data| > 0
  {
    MergeUndoesSplit(ws, bucketSize);
    NonEmptyIsIdentity(ws);
  }

  /** A tensor of shape [0] before one of a single byte: only the second one arrives. */
  lemma EmptyTensorIsLost()
    ensures var empty := Weight("empty", Tensor([0], Dtype("uint8", 1), []));
      var full := Weight("full", Tensor([1], Dtype("uint8", 1), [7]));
      ValidWeights([empty, full]) && Merge(Split([empty, full], 8), 8) == MergeResult(true, [full])
  {
    var empty := Weight("empty", Tensor([0], Dtype("uint8", 1), []));
    var full := Weight("full", Tensor([1], Dtype("uint8", 1), [7]));
    assert [0][1..] == [] && [1][1..] == [];
    assert Numel([0]) == 0 * Numel([]) && Numel([1]) == 1 * Numel([]);
    assert ValidTensor(empty.tensor) && ValidTensor(full.tensor);
    hide Merge, Split, Nbytes, Numel, ValidTensor;
    MergeUndoesSplit([empty, full], 8);
    assert [empty, full][1..] == [full] && [full][1..] == [];
    assert NonEmpty([full]) == [full] + NonEmpty([]);
  }
}
