/**
 Rank 0's side of a delta sync (verl/verl/checkpoint_engine/delta_checkpoint_engine.py): the nested
 functions of `send_weights` and `_send_dense_seed` collect entries into buckets, turn a full bucket into a
 flush, and hold each flush back until it is known whether it is the last. `receive_weights` is the other end.
*/
module DeltaStream {
  import opened Weights
  import opened DeltaWire

  datatype Message = FlushMessage(flush: Flush, isFull: bool, isLast: bool) | Terminal(isFull: bool)

  function EntryBytes(e: Entry): nat {
    (if e.positions.Some? then |e.values| * 8 else 0) + |e.values| * e.dtype.itemsize
  }

  function BytesOf(es: seq<Entry>): nat {
    if es == [] then 0 else BytesOf(es[..|es| - 1]) + EntryBytes(es[|es| - 1])
  }

  function ValueBytes(es: seq<Entry>): nat {
    if es == [] then 0
    else ValueBytes(es[..|es| - 1]) + |es[|es| - 1].values| * es[|es| - 1].dtype.itemsize
  }

  function PositionCount(es: seq<Entry>): nat {
    if es == [] then 0
    else
      var e := es[|es| - 1];
      PositionCount(es[..|es| - 1]) + if e.positions.Some? then |e.positions.value| else 0
  }

  /** A bucket counts eight bytes for each position, as it is before packing, and the bytes of the values. */
  lemma {:induction false} BytesAre(es: seq<Entry>)
    requires forall e <- es :: e.positions.Some? ==> |e.positions.value| == |e.values|
    ensures BytesOf(es) == 8 * PositionCount(es) + ValueBytes(es)
  {
    if es != [] {
      var n := |es| - 1;
      assert es[n] in es && forall e <- es[..n] :: e in es;
      BytesAre(es[..n]);
    }
  }

  /** A sealed bucket reached the size limit with its last entry, not before. */
  ghost predicate Full(es: seq<Entry>, bucketSize: nat) {
    es != [] && BytesOf(es) >= bucketSize && (|es| > 1 ==> BytesOf(es[..|es| - 1]) < bucketSize)
  }

  ghost predicate SealedFlush(f: Flush, dense: bool, bucketSize: nat) {
    Tiled(f) && f.dense == dense && ValidEntries(Entries(f), dense) && Full(Entries(f), bucketSize)
  }

  /** A flush that another one follows. */
  ghost predicate Leading(msg: Message, dense: bool, bucketSize: nat) {
    msg.FlushMessage? && !msg.isLast && msg.isFull == dense && SealedFlush(msg.flush, dense, bucketSize)
  }

  ghost predicate AllLeading(messages: seq<Message>, dense: bool, bucketSize: nat) {
    forall i | 0 <= i < |messages| :: Leading(messages[i], dense, bucketSize)
  }

  ghost function Carried(msg: Message): seq<Entry> {
    if msg.FlushMessage? && Tiled(msg.flush) then Entries(msg.flush) else []
  }

  ghost function CarriedBy(messages: seq<Message>): seq<Entry> {
    if messages == [] then [] else CarriedBy(messages[..|messages| - 1]) + Carried(messages[|messages| - 1])
  }

  /** What a sync publishes: full flushes, then one final flush, or a terminal marker alone. */
  ghost predicate Framed(messages: seq<Message>, dense: bool, bucketSize: nat) {
    && messages != []
    && var n := |messages| - 1;
      if messages[n].Terminal? then n == 0 && messages[n].isFull == dense
      else
        && messages[n].isLast && messages[n].isFull == dense && AllLeading(messages[..n], dense, bucketSize)
        && Tiled(messages[n].flush) && messages[n].flush.dense == dense
        && ValidEntries(Entries(messages[n].flush), dense) && Entries(messages[n].flush) != []
  }

  datatype State = State(bucket: seq<Entry>, bucketBytes: nat, pending: Option<Flush>, published: seq<Message>,
                         nFlushes: nat)

  ghost predicate BucketOk(bucket: seq<Entry>, dense: bool) {
    ValidEntries(bucket, dense) && (!dense ==> forall e <- bucket :: FitsInt32(e))
  }

  ghost predicate StateOk(s: State, dense: bool, bucketSize: nat) {
    && BucketOk(s.bucket, dense) && s.bucketBytes == BytesOf(s.bucket)
      && (s.bucket != [] ==> s.bucketBytes < bucketSize)
    && (s.pending.Some? ==> SealedFlush(s.pending.value, dense, bucketSize))
    && AllLeading(s.published, dense, bucketSize) && s.nFlushes == |s.published|
    && (s.published != [] ==> s.pending.Some?)
  }

  ghost function Contents(s: State): seq<Entry> {
    CarriedBy(s.published) + (if s.pending.Some? then Carried(FlushMessage(s.pending.value, false, false)) else [])
      + s.bucket
  }

  /** What `_seal` does to the state, given the new flush. */
  ghost function AfterSeal(s: State, dense: bool, f: Flush): State {
    if s.pending.Some?
    then State([], 0, Some(f), s.published + [FlushMessage(s.pending.value, dense, false)], s.nFlushes + 1)
    else State([], 0, Some(f), s.published, s.nFlushes)
  }

  /** The state that the nested functions share. */
  class FlushStream {
    const bucketSize: nat
    const dense: bool
    var bucket: seq<Entry>
    var bucketBytes: nat
    var pending: Option<Flush>
    var published: seq<Message>
    var nFlushes: nat
    var changedElems: nat
    var totalElems: nat

    ghost function Abs(): State
      reads this
    {
      State(bucket, bucketBytes, pending, published, nFlushes)
    }

    ghost predicate Valid()
      reads this
    {
      StateOk(Abs(), dense, bucketSize)
    }

    /** Everything that was put into the stream so far. */
    ghost function Stream(): seq<Entry>
      reads this
    {
      Contents(Abs())
    }

    constructor (bucketSize: nat, dense: bool)
      ensures Valid() && Stream() == [] && this.bucketSize == bucketSize && this.dense == dense
      ensures bucket == [] && bucketBytes == 0 && pending == None && published == [] && nFlushes == 0
      ensures totalElems == changedElems == 0
    {
      this.bucketSize, this.dense := bucketSize, dense;
      bucket, bucketBytes, pending, published := [], 0, None, [];
      nFlushes, changedElems, totalElems := 0, 0, 0;
    }

    /** `_emit`. */
    method Emit(isLast: bool)
      modifies `pending, `published, `nFlushes
      ensures pending.None?
      ensures published == old(published) +
        if old(pending).Some? then [FlushMessage(old(pending).value, dense, isLast)] else []
      ensures nFlushes == old(nFlushes) + if old(pending).Some? then 1 else 0
    {
      if pending.Some? {
        published := published + [FlushMessage(pending.value, dense, isLast)];
        nFlushes := nFlushes + 1;
        pending := None;
      }
    }

    /** `_seal`: the flush before this one is not the last, so it can go out. */
    method Seal() returns (ghost f: Flush)
      requires BucketOk(bucket, dense)
      modifies `bucket, `bucketBytes, `pending, `published, `nFlushes
      ensures old(bucket) == [] ==> Abs() == old(Abs())
      ensures old(bucket) != [] ==> Abs() == AfterSeal(old(Abs()), dense, f)
      ensures old(bucket) != [] ==> Tiled(f) && f.dense == dense && Entries(f) == old(bucket)
    {
      f := Flush(dense, [], [], []);
      if bucket == [] {
        return;
      }
      Emit(false);
      if dense {
        var flush := AssembleDense(bucket);
        pending := Some(flush);
      } else {
        pending := AssembleFlush(bucket);
      }
      f := pending.value;
      bucket, bucketBytes := [], 0;
    }

    /** An entry joins the bucket, which is sealed once it has reached the size limit. */
    method Put(e: Entry)
      requires Valid() && ValidEntry(e) && e.positions.None? == dense && (dense || FitsInt32(e))
      modifies `bucket, `bucketBytes, `pending, `published, `nFlushes
      ensures Valid() && Stream() == old(Stream()) + [e]
      ensures var bytes := old(bucketBytes) + |e.values| * e.dtype.itemsize + if dense then 0 else 8 * |e.values|;
        if bytes < bucketSize then
          && bucket == old(bucket) + [e] && bucketBytes == bytes
          && pending == old(pending) && published == old(published)
        else
          && bucket == [] && bucketBytes == 0
          && pending.Some? && Tiled(pending.value) && Entries(pending.value) == old(bucket) + [e]
          && published == old(published) +
             if old(pending).Some? then [FlushMessage(old(pending).value, dense, false)] else []
    {
      PutOk(Abs(), e, dense, bucketSize);
      hide StateOk, Contents, Carried, CarriedBy, Tiled, Numel, ValidEntry, Full, SealedFlush, AfterSeal, ValidEntries;
      bucket := bucket + [e];
      bucketBytes := bucketBytes + EntryBytes(e);
      ghost var s := Abs();
      if bucketBytes >= bucketSize {
        ghost var f := Seal();
        SealOk(s, f, dense, bucketSize);
        SealedState(s, dense, f);
      }
    }

    /** `_consume`: a gathered delta goes into the stream in slices. */
    method Consume(name: string, dtype: Dtype, shape: seq<nat>, fullNumel: nat, delta: Option<(seq<nat>, seq<Value>)>)
      requires Valid() && !dense && Numel(shape) < INT32_LIMIT
      requires delta.Some? ==> ValidEntry(DeltaEntry(name, dtype, shape, delta.value))
      modifies this
      ensures Valid()
      ensures Stream() == old(Stream()) +
        if delta.Some? then Slices(DeltaEntry(name, dtype, shape, delta.value), 0, 0x400_0000) else []
      ensures totalElems == old(totalElems) + fullNumel
      ensures changedElems == old(changedElems) + if delta.Some? then |delta.value.0| else 0
    {
      hide Numel, StateOk, Contents, Slices;
      totalElems := totalElems + fullNumel;
      if delta.Some? {
        SlicesEnd(DeltaEntry(name, dtype, shape, delta.value));
      }
      if delta.None? || |delta.value.0| == 0 {
        return;
      }
      var (idx, values) := delta.value;
      changedElems := changedElems + |idx|;
      ghost var whole := DeltaEntry(name, dtype, shape, delta.value);
      var s := 0;
      while s < |idx|
        invariant s <= |idx| && Valid()
        invariant Stream() + Slices(whole, s, MAX_ENTRY_ELEMS) == old(Stream()) + Slices(whole, 0, MAX_ENTRY_ELEMS)
        invariant totalElems == old(totalElems) + fullNumel && changedElems == old(changedElems) + |idx|
      {
        var e := Min(s + MAX_ENTRY_ELEMS, |idx|);
        SlicesStep(whole, s, e);
        Put(Entry(name, dtype, shape, Some(idx[s..e]), values[s..e]));
        s := e;
      }
    }

    /** `_bucket_dense`. */
    method BucketDense(name: string, dtype: Dtype, shape: seq<nat>, flat: seq<Value>)
      requires Valid() && dense && |flat| == Numel(shape)
      modifies this
      ensures Valid() && Stream() == old(Stream()) + [Entry(name, dtype, shape, None, flat)]
      ensures totalElems == old(totalElems) + |flat| && changedElems == old(changedElems)
    {
      hide StateOk, Contents, Numel, Tiled, Entries;
      totalElems := totalElems + |flat|;
      Put(Entry(name, dtype, shape, None, flat));
    }

    /** The end of the stream: the last partial bucket, and the final message. */
    method Finish()
      requires Valid()
      modifies `bucket, `bucketBytes, `pending, `published, `nFlushes
      ensures Framed(published, dense, bucketSize) && CarriedBy(published) == old(Stream())
      ensures old(Stream()) == [] <==> published == [Terminal(dense)]
      ensures nFlushes == if published == [Terminal(dense)] then 0 else |published|
      ensures
        var end := if old(pending).Some? then FlushMessage(old(pending).value, dense, true) else Terminal(dense);
        old(bucket) == [] ==> published == old(published) + [end]
      ensures
        var held := if old(pending).Some? then [FlushMessage(old(pending).value, dense, false)] else [];
        var last := published[|published| - 1];
        old(bucket) != [] ==>
          && published == old(published) + held + [last]
          && last.FlushMessage? && last.isLast && Tiled(last.flush) && Entries(last.flush) == old(bucket)
    {
      hide StateOk, Contents, CarriedBy, Framed, BucketOk, Tiled, Entries, AfterSeal;
      ghost var s := Abs();
      ValidBucket(s, dense, bucketSize);
      ghost var f := Seal();
      FinishOk(s, f, dense, bucketSize);
      assert Abs() == Sealed(s, dense, f);
      SealedCount(s, f, dense, bucketSize);
      SealedState(s, dense, f);
      if pending.Some? {
        Emit(true);
        assert published[|published| - 1].FlushMessage? && [Terminal(dense)][0].Terminal?;
      } else {
        published := published + [Terminal(dense)];
      }
    }
  }

  lemma SealedState(s: State, dense: bool, f: Flush)
    ensures var s' := AfterSeal(s, dense, f);
      && s'.bucket == [] && s'.bucketBytes == 0 && s'.pending == Some(f)
      && s'.published == s.published + if s.pending.Some? then [FlushMessage(s.pending.value, dense, false)] else []
  {
  }

  lemma SlicesStep(e: Entry, s: nat, t: nat)
    requires e.positions.Some? && |e.positions.value| == |e.values| && s < |e.values|
    requires t == Min(s + MAX_ENTRY_ELEMS, |e.values|)
    ensures Slices(e, s, MAX_ENTRY_ELEMS) == [Sliced(e, s, t)] + Slices(e, t, MAX_ENTRY_ELEMS)
    ensures ValidEntry(e) ==> ValidEntry(Sliced(e, s, t))
  {
    hide Numel;
  }

  lemma SlicesEnd(e: Entry)
    requires e.positions.Some? && |e.positions.value| == |e.values|
    ensures Slices(e, |e.values|, MAX_ENTRY_ELEMS) == []
  {
  }

  function DeltaEntry(name: string, dtype: Dtype, shape: seq<nat>, delta: (seq<nat>, seq<Value>)): Entry {
    Entry(name, dtype, shape, Some(delta.0), delta.1)
  }

  ghost function Sealed(s: State, dense: bool, f: Flush): State {
    if s.bucket == [] then s else AfterSeal(s, dense, f)
  }

  ghost function Published(s: State, dense: bool): seq<Message> {
    s.published + [if s.pending.Some? then FlushMessage(s.pending.value, dense, true) else Terminal(dense)]
  }

  lemma ValidBucket(s: State, dense: bool, bucketSize: nat)
    requires StateOk(s, dense, bucketSize)
    ensures BucketOk(s.bucket, dense)
  {
  }

  lemma FinishOk(s: State, f: Flush, dense: bool, bucketSize: nat)
    requires StateOk(s, dense, bucketSize)
    requires s.bucket != [] ==> Tiled(f) && f.dense == dense && Entries(f) == s.bucket
    ensures var messages := Published(Sealed(s, dense, f), dense);
      && Framed(messages, dense, bucketSize) && CarriedBy(messages) == Contents(s)
      && (Contents(s) == [] <==> messages == [Terminal(dense)])
  {
    hide Numel, ValidEntry, Tiled, Entries, ValidEntries, BytesOf, CarriedBy, Contents;
    var s' := Sealed(s, dense, f);
    if s.bucket != [] {
      SealedOnce(s, f, dense);
      assert s.pending.Some? ==> Leading(FlushMessage(s.pending.value, dense, false), dense, bucketSize);
      assert AllLeading(s'.published, dense, bucketSize);
    }
    if s'.pending.Some? {
      FinalFlush(s', dense, bucketSize);
    } else {
      NothingPublished(s', dense);
      assert Published(s', dense) == [Terminal(dense)];
    }
  }

  lemma SealedCount(s: State, f: Flush, dense: bool, bucketSize: nat)
    requires StateOk(s, dense, bucketSize)
    ensures Sealed(s, dense, f).nFlushes == |Sealed(s, dense, f).published|
    ensures Sealed(s, dense, f).pending.None? ==> Sealed(s, dense, f).published == []
  {
  }

  lemma NothingPublished(s: State, dense: bool)
    requires s.published == [] && s.pending.None? && s.bucket == []
    ensures Contents(s) == [] && CarriedBy([Terminal(dense)]) == []
  {
    assert [Terminal(dense)][..0] == [];
  }

  lemma SealedOnce(s: State, f: Flush, dense: bool)
    requires s.bucket != [] && Tiled(f) && Entries(f) == s.bucket
    ensures Contents(AfterSeal(s, dense, f)) == Contents(s)
  {
    hide Tiled, Entries;
    var s' := AfterSeal(s, dense, f);
    if s.pending.Some? {
      var msg := FlushMessage(s.pending.value, dense, false);
      assert s'.published[..|s'.published| - 1] == s.published;
      assert CarriedBy(s'.published) == CarriedBy(s.published) + Carried(msg);
    }
    hide CarriedBy;
    assert Contents(s') == Contents(s);
  }

  lemma FinalFlush(s: State, dense: bool, bucketSize: nat)
    requires s.bucket == [] && s.pending.Some? && AllLeading(s.published, dense, bucketSize)
    requires Tiled(s.pending.value) && s.pending.value.dense == dense
    requires ValidEntries(Entries(s.pending.value), dense) && Entries(s.pending.value) != []
    ensures Framed(Published(s, dense), dense, bucketSize) && CarriedBy(Published(s, dense)) == Contents(s)
    ensures Contents(s) != []
  {
    hide Tiled, Entries, ValidEntries, AllLeading;
    var messages := Published(s, dense);
    assert messages[..|messages| - 1] == s.published;
    assert CarriedBy(messages) == CarriedBy(s.published) + Carried(FlushMessage(s.pending.value, dense, true));
    hide CarriedBy;
    assert Contents(s) == CarriedBy(messages);
  }

  ghost predicate AllButBucketOk(s: State, dense: bool, bucketSize: nat) {
    && BucketOk(s.bucket, dense) && s.bucketBytes == BytesOf(s.bucket)
    && (s.pending.Some? ==> SealedFlush(s.pending.value, dense, bucketSize))
    && AllLeading(s.published, dense, bucketSize) && s.nFlushes == |s.published|
    && (s.published != [] ==> s.pending.Some?)
  }

  lemma PutOk(s: State, e: Entry, dense: bool, bucketSize: nat)
    requires StateOk(s, dense, bucketSize) && ValidEntry(e) && e.positions.None? == dense && (dense || FitsInt32(e))
    ensures var s' := s.(bucket := s.bucket + [e], bucketBytes := s.bucketBytes + EntryBytes(e));
      && AllButBucketOk(s', dense, bucketSize) && BucketOk(s'.bucket, dense) && Contents(s') == Contents(s) + [e]
      && if s'.bucketBytes >= bucketSize then Full(s'.bucket, bucketSize) else StateOk(s', dense, bucketSize)
  {
    hide Numel, ValidEntry, SealedFlush, AllLeading, CarriedBy, Carried;
    PutFull(s.bucket, e, bucketSize);
  }

  lemma SealOk(s: State, f: Flush, dense: bool, bucketSize: nat)
    requires AllButBucketOk(s, dense, bucketSize) && Full(s.bucket, bucketSize)
    requires Tiled(f) && f.dense == dense && Entries(f) == s.bucket
    ensures StateOk(AfterSeal(s, dense, f), dense, bucketSize) && Contents(AfterSeal(s, dense, f)) == Contents(s)
  {
    hide Numel, ValidEntry, Tiled, Entries, CarriedBy, Contents;
    SealedOnce(s, f, dense);
    assert SealedFlush(f, dense, bucketSize);
  }

  lemma PutFull(b: seq<Entry>, e: Entry, bucketSize: nat)
    requires b != [] ==> BytesOf(b) < bucketSize
    ensures BytesOf(b + [e]) == BytesOf(b) + EntryBytes(e)
    ensures BytesOf(b + [e]) >= bucketSize ==> Full(b + [e], bucketSize)
  {
    assert (b + [e])[..|b|] == b;
  }

  // ---------- the receiving end ----------

  lemma CarriedStep(messages: seq<Message>, i: nat)
    requires i < |messages|
    ensures CarriedBy(messages[..i + 1]) == CarriedBy(messages[..i]) + Carried(messages[i])
  {
    assert messages[..i + 1][..i] == messages[..i];
  }

  lemma {:induction false} CarriedSplit(messages: seq<Message>, i: nat)
    requires i <= |messages|
    ensures CarriedBy(messages[..i]) <= CarriedBy(messages)
    decreases |messages| - i
  {
    if i == |messages| {
      assert messages[..i] == messages;
    } else {
      CarriedSplit(messages, i + 1);
      CarriedStep(messages, i);
    }
  }

  /** Applying one more message's entries; its entries fit because they are among those of the whole sync. */
  lemma ApplyCarried(m: LiveWeights, messages: seq<Message>, i: nat)
    requires i < |messages| && AllFit(m, CarriedBy(messages))
    ensures AllFit(m, CarriedBy(messages[..i])) && AllFit(m, CarriedBy(messages[..i + 1]))
    ensures AllFit(Apply(m, CarriedBy(messages[..i])), Carried(messages[i]))
    ensures Apply(Apply(m, CarriedBy(messages[..i])), Carried(messages[i])) == Apply(m, CarriedBy(messages[..i + 1]))
  {
    hide CarriedBy, Carried, Fits, Apply;
    CarriedSplit(messages, i);
    CarriedSplit(messages, i + 1);
    CarriedStep(messages, i);
    assert AllFit(m, Carried(messages[i])) by {
      assert forall e <- Carried(messages[i]) :: e in CarriedBy(messages[..i + 1]);
    }
    ApplyConcat(m, CarriedBy(messages[..i]), Carried(messages[i]));
  }

  lemma FramedAt(messages: seq<Message>, dense: bool, bucketSize: nat, i: nat)
    requires Framed(messages, dense, bucketSize) && i < |messages|
    ensures messages[i].Terminal? ==> i == 0 && |messages| == 1 && Carried(messages[i]) == []
    ensures messages[i].FlushMessage? ==>
      Tiled(messages[i].flush) && Carried(messages[i]) == Entries(messages[i].flush)
        && (messages[i].isLast <==> i == |messages| - 1)
  {
    hide Tiled, Entries, ValidEntries, Full;
    var n := |messages| - 1;
    if i < n {
      assert messages[..n][i] == messages[i] && Leading(messages[i], dense, bucketSize);
    }
  }

  /**
   `receive_weights`, with each yielded flush applied by the rollout worker: exactly the messages of one
   sync are taken off the wire, and the live weights see exactly the entries that went into the stream.
  */
  method ReceiveWeights(model: RolloutModel, wire: seq<Message>, ghost messages: seq<Message>, ghost dense: bool,
                        ghost bucketSize: nat)
    returns (rest: seq<Message>, applied: nat)
    requires messages <= wire && Framed(messages, dense, bucketSize) && AllFit(model.weights, CarriedBy(messages))
    modifies model
    ensures rest == wire[|messages|..]
    ensures model.weights == Apply(old(model.weights), CarriedBy(messages))
    ensures applied == if messages[0].Terminal? then 0 else |messages|
  {
    hide Framed, CarriedBy, Apply, AllFit;
    FramedAny(messages, dense, bucketSize);
    ghost var m := model.weights;
    NoneCarried(m, messages);
    rest, applied := wire, 0;
    ghost var i := 0;
    var more := true;
    while more
      invariant i <= |messages| && rest == wire[i..] && (more <==> i < |messages|)
      invariant AllFit(m, CarriedBy(messages)) && AllFit(m, CarriedBy(messages[..i]))
      invariant model.weights == Apply(m, CarriedBy(messages[..i]))
      invariant applied == if !more && messages[0].Terminal? then 0 else i
      decreases |messages| - i
    {
      assert rest[0] == messages[i];
      var msg := rest[0];
      rest := rest[1..];
      more := TakeMessage(model, msg, m, messages, i, dense, bucketSize);
      TerminalOnly(messages, i, dense, bucketSize);
      i := i + 1;
      if !msg.Terminal? {
        applied := applied + 1;
      }
    }
    assert messages[..i] == messages;
  }

  /** One message off the wire: whether another one follows, with its flush applied. */
  method TakeMessage(model: RolloutModel, msg: Message, ghost m: LiveWeights, ghost messages: seq<Message>,
                     ghost i: nat, ghost dense: bool, ghost bucketSize: nat)
    returns (more: bool)
    requires i < |messages| && msg == messages[i] && Framed(messages, dense, bucketSize)
    requires AllFit(m, CarriedBy(messages))
    requires AllFit(m, CarriedBy(messages[..i])) && model.weights == Apply(m, CarriedBy(messages[..i]))
    modifies model
    ensures more <==> i + 1 < |messages|
    ensures AllFit(m, CarriedBy(messages[..i + 1])) && model.weights == Apply(m, CarriedBy(messages[..i + 1]))
  {
    hide Framed, CarriedBy, Carried, Apply, Tiled, Entries, AllFit;
    FramedAt(messages, dense, bucketSize, i);
    ApplyCarried(m, messages, i);
    if msg.Terminal? {
      TerminalCarriesNothing(m, messages, i + 1, dense, bucketSize);
      more := false;
    } else {
      model.ApplyDelta(msg.flush);
      more := !msg.isLast;
    }
  }

  lemma TerminalOnly(messages: seq<Message>, i: nat, dense: bool, bucketSize: nat)
    requires Framed(messages, dense, bucketSize) && i < |messages|
    ensures messages[i].Terminal? ==> i == 0 && |messages| == 1
    ensures messages[0].Terminal? ==> |messages| == 1
  {
    hide Carried;
    FramedAt(messages, dense, bucketSize, i);
    FramedAt(messages, dense, bucketSize, 0);
  }

  lemma TerminalCarriesNothing(m: LiveWeights, messages: seq<Message>, i: nat, dense: bool, bucketSize: nat)
    requires 0 < i <= |messages| && Framed(messages, dense, bucketSize) && messages[i - 1].Terminal?
    requires AllFit(m, CarriedBy(messages[..i])) && AllFit(m, CarriedBy(messages[..i - 1]))
    ensures i == 1 && Apply(m, CarriedBy(messages[..i])) == Apply(m, CarriedBy(messages[..i - 1]))
  {
    hide AllFit;
    FramedAt(messages, dense, bucketSize, i - 1);
    CarriedStep(messages, i - 1);
    assert CarriedBy(messages[..i]) == CarriedBy(messages[..i - 1]);
  }

  lemma FramedAny(messages: seq<Message>, dense: bool, bucketSize: nat)
    requires Framed(messages, dense, bucketSize)
    ensures messages != []
  {
  }

  lemma NoneCarried(m: LiveWeights, messages: seq<Message>)
    ensures CarriedBy(messages[..0]) == [] && AllFit(m, []) && Apply(m, []) == m
  {
  }

  // ---------- how large flushes are ----------

  /** It has reached the size limit, and was below it before its last entry. */
  ghost predicate JustFull(es: seq<Entry>, bucketSize: nat) {
    && es != [] && 8 * PositionCount(es) + ValueBytes(es) >= bucketSize
    && (|es| > 1 ==>
          var rest := es[..|es| - 1];
          8 * PositionCount(rest) + ValueBytes(rest) < bucketSize)
  }

  /** Every flush of a sync but the last is just full, by eight bytes a position and the bytes of the values. */
  lemma FlushSize(messages: seq<Message>, dense: bool, bucketSize: nat, i: nat)
    requires Framed(messages, dense, bucketSize) && i < |messages| - 1
    ensures messages[i].FlushMessage? && Tiled(messages[i].flush)
    ensures JustFull(Entries(messages[i].flush), bucketSize)
  {
    hide Tiled, Entries;
    var m := messages[..|messages| - 1][i];
    assert Leading(m, dense, bucketSize);
    var es := Entries(m.flush);
    assert forall e <- es[..|es| - 1] :: e in es;
    BytesAre(es);
    BytesAre(es[..|es| - 1]);
  }

  /** One changed float32 element counts twelve bytes: in buckets of twelve, two of them are two flushes. */
  method TwoElementsTwoFlushes(a: Entry, b: Entry) returns (published: seq<Message>)
    requires ValidEntry(a) && ValidEntry(b) && FitsInt32(a) && FitsInt32(b)
    requires a.positions.Some? && b.positions.Some? && |a.values| == |b.values| == 1
    requires a.dtype == b.dtype == Dtype("float32", 4)
    ensures |published| == 2 && published[0].FlushMessage? && published[1].FlushMessage?
    ensures Tiled(published[0].flush) && Entries(published[0].flush) == [a] && !published[0].isLast
    ensures Tiled(published[1].flush) && Entries(published[1].flush) == [b] && published[1].isLast
  {
    hide Tiled, Entries, StateOk, Contents, Numel, Framed, CarriedBy;
    var stream := new FlushStream(12, false);
    stream.Put(a);
    stream.Put(b);
    stream.Finish();
    published := stream.published;
  }
}
