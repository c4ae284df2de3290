/**
 The NIXL pipeline (verl/verl/checkpoint_engine/nixl_checkpoint_engine.py): rank 0 fills and
 publishes buckets, every other rank reads each bucket from its predecessor, hands its entries
 to the consumer and publishes it to its successor. Every rank owns two buffers.

 A read is not atomic: bytes are copied one at a time, in any order, between the moment it
 begins and the moment it completes, interleaved with everything all other ranks do.
*/
module NixlChain {
  import opened Arithmetic
  import opened Weights
  import opened Packing
  import opened Transfer

  /** The number of ranks, the size of a buffer, and the buckets rank 0 packs its chunk stream into. */
  datatype Config = Config(ranks: nat, bucketSize: nat, buckets: seq<Bucket>)

  ghost predicate ValidConfig(c: Config) {
    c.ranks >= 2 && |c.buckets| >= 1 && ValidBuckets(c.buckets, c.bucketSize)
  }

  /** A fresh `uuid4` per readable operation: who issued it and which of its operations it is. */
  datatype Key = Key(owner: int, serial: int)

  /** What `ReadableOperation` sends: its key, which buffer to read (`remote_descs`), and the metadata. */
  datatype Message = Message(key: Key, src: int, meta: BucketMeta)

  /** The transfer of a `ReadOperation` from the predecessor's buffer `src` into the own buffer `dst`. */
  datatype Xfer = Idle | Running(key: Key, src: int, dst: int, copied: set<nat>) | Done

  /** The queues between rank r and rank r + 1: messages one way, completion notifications the other. */
  datatype Link = Link(msgs: seq<Message>, notifs: seq<Key>)

  /**
   * Rank 0 cycles through Fill, WaitPrev, Publish; a receiver through Publish, WaitMeta, Yield, WaitNotif,
   * WaitRead.
   */
  datatype Pc = Fill | WaitPrev | Publish | WaitLast | WaitMeta | Yield | WaitNotif | WaitRead | Finished

  /**
   `count`: buckets published by rank 0, or completely received by another rank.
   `pos`: entries of the current bucket that were filled in, or yielded.
   `send`: which of the two buffers is `send_buf`; the other one is `recv_buf`.
   `op`: the key of the readable operation whose completion has not been waited for.
  */
  datatype Rank = Rank(
    pc: Pc, count: nat, pos: nat, send: int, bufs: seq<seq<byte>>,
    meta: BucketMeta, nextMeta: BucketMeta, op: Option<Key>, xfer: Xfer, yielded: seq<Chunk>)

  datatype State = State(ranks: seq<Rank>, links: seq<Link>)

  datatype Action =
    | FillChunk
    | EndFill
    | PublishBucket(r: nat)
    | TakeNotif(r: nat)
    | Proceed(r: nat)
    | BeginRead(r: nat)
    | CopyByte(r: nat, i: nat)
    | FinishXfer(r: nat)
    | YieldEntry(r: nat)
    | EndYield(r: nat)
    | TakeRead(r: nat)

  predicate Waiting(pc: Pc) {
    pc in {WaitPrev, WaitLast, WaitNotif}
  }

  ghost predicate Shape(c: Config, s: State) {
    && |s.ranks| == c.ranks >= 2 && |s.links| == c.ranks - 1
    && forall r | 0 <= r < c.ranks :: BuffersOk(c, s.ranks[r])
  }

  ghost predicate BuffersOk(c: Config, q: Rank) {
    && 0 <= q.send < 2 && |q.bufs| == 2
    && |q.bufs[0]| == |q.bufs[1]| == c.bucketSize
    && (q.xfer.Running? ==> 0 <= q.xfer.src < 2 && 0 <= q.xfer.dst < 2)
  }

  ghost predicate Enabled(c: Config, s: State, a: Action) {
    Shape(c, s) &&
    match a
    case FillChunk =>
      var q := s.ranks[0];
      && q.pc == Fill && q.count < |c.buckets| && q.pos < |c.buckets[q.count]|
      && var e := c.buckets[q.count][q.pos];
        // the loop's assertion that the chunk fits
        e.meta.offset.Some? && e.meta.offset.value + |e.data| <= c.bucketSize
    case EndFill =>
      var q := s.ranks[0];
      q.pc == Fill && q.count < |c.buckets| && q.pos == |c.buckets[q.count]|
    case PublishBucket(r) =>
      r < c.ranks && s.ranks[r].pc == Publish && (r == 0 ==> s.ranks[0].count < |c.buckets|)
    case TakeNotif(r) =>
      r < c.ranks - 1 && Waiting(s.ranks[r].pc) && s.ranks[r].op.Some? && s.links[r].notifs != []
    case Proceed(r) =>
      r < c.ranks && Waiting(s.ranks[r].pc) && s.ranks[r].op.None?
    case BeginRead(r) =>
      && 0 < r < c.ranks && s.ranks[r].pc == WaitMeta && s.links[r - 1].msgs != []
      && 0 <= s.links[r - 1].msgs[0].src < 2
    case CopyByte(r, i) =>
      0 < r < c.ranks && s.ranks[r].xfer.Running? && i < c.bucketSize && i !in s.ranks[r].xfer.copied
    case FinishXfer(r) =>
      0 < r < c.ranks && s.ranks[r].xfer.Running? && AllCopied(s.ranks[r].xfer.copied, c.bucketSize)
    case YieldEntry(r) =>
      0 < r < c.ranks && s.ranks[r].pc == Yield && s.ranks[r].pos < |s.ranks[r].meta.entries|
    case EndYield(r) =>
      0 < r < c.ranks && s.ranks[r].pc == Yield && s.ranks[r].pos == |s.ranks[r].meta.entries|
    case TakeRead(r) =>
      0 < r < c.ranks && s.ranks[r].pc == WaitRead && s.ranks[r].xfer.Done?
  }

  ghost function SetRank(s: State, r: nat, q: Rank): State
    requires r < |s.ranks|
  {
    s.(ranks := s.ranks[r := q])
  }

  ghost function SetLink(s: State, r: nat, l: Link): State
    requires r < |s.links|
  {
    s.(links := s.links[r := l])
  }

  /** Rank 0 after publishing bucket `count`: it swaps its buffers unless that was the last bucket. */
  ghost function AfterSend(c: Config, q: Rank): Rank
    requires q.count < |c.buckets|
  {
    var q' := q.(op := Some(Key(0, q.count)), count := q.count + 1, pos := 0);
    if q.count == |c.buckets| - 1 then q'.(pc := WaitLast) else q'.(pc := Fill, send := 1 - q.send)
  }

  ghost function AfterForward(c: Config, r: nat, q: Rank): Rank {
    q.(op := if r < c.ranks - 1 then Some(Key(r, q.count - 1)) else None,
       pc := if q.meta.isLast then Yield else WaitMeta)
  }

  ghost function Apply(c: Config, s: State, a: Action): State
    requires Enabled(c, s, a)
  {
    match a
    case FillChunk =>
      var q := s.ranks[0];
      var e := c.buckets[q.count][q.pos];
      SetRank(s, 0, q.(bufs := q.bufs[q.send := Overwrite(q.bufs[q.send], e.meta.offset.value, e.data)],
                       pos := q.pos + 1))
    case EndFill =>
      SetRank(s, 0, s.ranks[0].(pc := WaitPrev))
    case PublishBucket(r) =>
      var q := s.ranks[r];
      if r == 0 then
        var l := s.links[0];
        SetLink(SetRank(s, 0, AfterSend(c, q)), 0,
                l.(msgs := l.msgs + [Message(Key(0, q.count), q.send, MetaOf(c.buckets, q.count))]))
      else if r < c.ranks - 1 then
        var l := s.links[r];
        SetLink(SetRank(s, r, AfterForward(c, r, q)), r,
                l.(msgs := l.msgs + [Message(Key(r, q.count - 1), q.send, q.meta)]))
      else
        SetRank(s, r, AfterForward(c, r, q))
    case TakeNotif(r) =>
      var l := s.links[r];
      SetLink(SetRank(s, r, s.ranks[r].(op := None)), r, l.(notifs := l.notifs[1..]))
    case Proceed(r) =>
      var q := s.ranks[r];
      SetRank(s, r, q.(pc := match q.pc
        case WaitPrev => Publish
        case WaitLast => Finished
        case _ => if q.meta.isLast then Finished else WaitRead))
    case BeginRead(r) =>
      var q, l := s.ranks[r], s.links[r - 1];
      var m := l.msgs[0];
      SetLink(SetRank(s, r, q.(
          xfer := Running(m.key, m.src, 1 - q.send, {}), nextMeta := m.meta,
          pc := if q.count == 0 then WaitRead else Yield)),
        r - 1, l.(msgs := l.msgs[1..]))
    case CopyByte(r, i) =>
      var q := s.ranks[r];
      var x := q.xfer;
      var b := q.bufs[x.dst][i := s.ranks[r - 1].bufs[x.src][i]];
      SetRank(s, r, q.(bufs := q.bufs[x.dst := b], xfer := x.(copied := x.copied + {i})))
    case FinishXfer(r) =>
      var q, l := s.ranks[r], s.links[r - 1];
      SetLink(SetRank(s, r, q.(xfer := Done)), r - 1, l.(notifs := l.notifs + [q.xfer.key]))
    case YieldEntry(r) =>
      var q := s.ranks[r];
      SetRank(s, r, q.(yielded := q.yielded + [View(q.bufs[q.send], q.meta.entries[q.pos])], pos := q.pos + 1))
    case EndYield(r) =>
      SetRank(s, r, s.ranks[r].(pc := WaitNotif))
    case TakeRead(r) =>
      var q := s.ranks[r];
      SetRank(s, r, q.(xfer := Idle, send := 1 - q.send, meta := q.nextMeta, count := q.count + 1, pos := 0,
                       pc := Publish))
  }

  /** All ranks at the start of a transfer; the buffers may hold anything. */
  ghost predicate Init(c: Config, s: State) {
    && Shape(c, s)
    && (forall r | 0 <= r < c.ranks :: InitRank(r, s.ranks[r]))
    && (forall l <- s.links :: l == Link([], []))
  }

  ghost predicate InitRank(r: nat, q: Rank) {
    && q.pc == (if r == 0 then Fill else WaitMeta)
    && q.count == q.pos == q.send == 0 && q.op.None? && q.xfer.Idle? && q.yielded == []
  }

  // ---------- the invariant ----------

  /** The buffer in which rank r keeps bucket k. */
  function SideOf(r: int, k: int): int {
    if r == 0 then k % 2 else (k + 1) % 2
  }

  ghost predicate SenderOk(c: Config, q: Rank)
    requires BuffersOk(c, q)
  {
    var n := |c.buckets|;
    && q.pc in {Fill, WaitPrev, Publish, WaitLast, Finished}
    && n > 0 && q.count <= n && q.xfer.Idle?
    && (q.op.Some? ==> 0 < q.count && q.op == Some(Key(0, q.count - 1)))
    && (q.pc in {Publish, Finished} ==> q.op.None?)
    && (q.pc in {Fill, WaitPrev, Publish} ==>
          && q.count < n && q.send == SideOf(0, q.count) && HoldsUpTo(q.bufs[q.send], c.buckets[q.count], q.pos)
          && (0 < q.count ==> Holds(q.bufs[1 - q.send], c.buckets[q.count - 1]))
          && (q.pc != Fill ==> q.pos == |c.buckets[q.count]|))
    && (q.pc in {WaitLast, Finished} ==>
          q.count == n && q.send == SideOf(0, n - 1) && Holds(q.bufs[q.send], c.buckets[n - 1]))
  }

  ghost predicate ReceiverOk(c: Config, r: nat, q: Rank)
    requires BuffersOk(c, q)
  {
    var n := |c.buckets|;
    && q.pc in {Publish, WaitMeta, Yield, WaitNotif, WaitRead, Finished}
    && q.count <= n && q.send == SideOf(r, q.count + 1)
    && (q.count == 0 ==> q.pc in {WaitMeta, WaitRead} && q.op.None?)
    && (q.count > 0 ==> q.meta == MetaOf(c.buckets, q.count - 1) && Holds(q.bufs[q.send], c.buckets[q.count - 1]))
    && (q.op.Some? ==> r < c.ranks - 1 && q.op == Some(Key(r, q.count - 1)))
    && (q.pc in {Publish, WaitRead, Finished} ==> q.op.None?)
    && (q.pc in {Publish, WaitMeta} ==> q.xfer.Idle?)
    && (q.pc in {WaitMeta, WaitRead} ==> q.count < n)
    && (q.pc == Finished ==> q.count == n)
    && (q.pc in {Yield, WaitNotif, WaitRead, Finished} ==> (q.xfer.Idle? <==> q.count == n))
    && (q.pc in {Yield, Publish} ==> q.count > 0)
    && (q.pc == Publish ==> q.pos == 0)
    && (q.pc in {Publish, WaitMeta, Yield} ==> q.pos <= YieldLimit(c, q) && (q.pc != Yield ==> q.pos == 0))
    && q.yielded == Yielded(c, q)
    && (!q.xfer.Idle? ==> q.count < n && q.nextMeta == MetaOf(c.buckets, q.count))
    && (q.xfer.Done? ==> Holds(q.bufs[1 - q.send], c.buckets[q.count]))
    && (q.xfer.Running? ==>
          && q.xfer.key == Key(r - 1, q.count) && q.xfer.src == SideOf(r - 1, q.count) && q.xfer.dst == 1 - q.send
          && (forall i <- q.xfer.copied :: i < c.bucketSize))
  }

  ghost function YieldLimit(c: Config, q: Rank): nat {
    if 0 < q.count <= |c.buckets| then |c.buckets[q.count - 1]| else 0
  }

  /** What a receiver must have yielded: all earlier buckets, and the current one up to `pos`. */
  ghost function Yielded(c: Config, q: Rank): seq<Chunk> {
    if q.count == 0 || q.count > |c.buckets| then []
    else if q.pc in {Publish, WaitMeta, Yield} then
      Flatten(c.buckets[..q.count - 1]) + (if q.pos <= YieldLimit(c, q) then c.buckets[q.count - 1][..q.pos] else [])
    else Flatten(c.buckets[..q.count])
  }

  ghost predicate RankOk(c: Config, r: nat, q: Rank) {
    BuffersOk(c, q) && if r == 0 then SenderOk(c, q) else ReceiverOk(c, r, q)
  }

  /** Buckets rank r has announced, and those whose completion it has waited for. */
  ghost function Published(r: nat, q: Rank): int {
    if r > 0 && q.pc == Publish then q.count - 1 else q.count
  }

  ghost function Acked(r: nat, q: Rank): int {
    Published(r, q) - if q.op.Some? then 1 else 0
  }

  /** Buckets a receiver has begun to read, and those it has read completely. */
  ghost function Begun(q: Rank): int {
    q.count + if q.xfer.Idle? then 0 else 1
  }

  ghost function Read(q: Rank): int {
    q.count + if q.xfer.Done? then 1 else 0
  }

  /** Rank r and its successor `q'` with the queues between them. */
  ghost predicate LinkOk(c: Config, r: nat, q: Rank, q': Rank, l: Link) {
    && Acked(r, q) <= Read(q') && Begun(q') <= Published(r, q) <= |c.buckets|
    && l.msgs == (if Begun(q') == Published(r, q) then [] else [MessageOf(c, r, Begun(q'))])
    && l.notifs == (if Read(q') == Acked(r, q) then [] else [Key(r, Acked(r, q))])
    && (q'.xfer.Running? && BuffersOk(c, q) && BuffersOk(c, q') ==>
          forall i <- q'.xfer.copied :: i < c.bucketSize ==> q'.bufs[q'.xfer.dst][i] == q.bufs[q'.xfer.src][i])
  }

  ghost function MessageOf(c: Config, r: nat, k: int): Message {
    if 0 <= k < |c.buckets| then Message(Key(r, k), SideOf(r, k), MetaOf(c.buckets, k))
    else Message(Key(r, 0), 0, BucketMeta([], false))
  }

  ghost predicate Inv(c: Config, s: State) {
    && ValidConfig(c) && Shape(c, s)
    && (forall r | 0 <= r < c.ranks :: RankOk(c, r, s.ranks[r]))
    && (forall r | 0 <= r < c.ranks - 1 :: LinkOk(c, r, s.ranks[r], s.ranks[r + 1], s.links[r]))
  }

  lemma InitInv(c: Config, s: State)
    requires ValidConfig(c) && Init(c, s)
    ensures Inv(c, s)
  {
    forall r | 0 <= r < c.ranks ensures RankOk(c, r, s.ranks[r]) {
      assert InitRank(r, s.ranks[r]);
    }
    forall r | 0 <= r < c.ranks - 1 ensures LinkOk(c, r, s.ranks[r], s.ranks[r + 1], s.links[r]) {
      assert InitRank(r, s.ranks[r]) && InitRank(r + 1, s.ranks[r + 1]);
      assert s.links[r] in s.links;
    }
  }

  /** A step of rank r touches its own record and the two queues beside it, so only these need checking. */
  lemma RankHasBuffers(c: Config, r: nat, q: Rank)
    requires RankOk(c, r, q)
    ensures BuffersOk(c, q)
  {
  }

  lemma Frame(c: Config, s: State, s': State, r: nat)
    requires Inv(c, s) && r < c.ranks
    requires |s'.ranks| == c.ranks && |s'.links| == c.ranks - 1
    requires forall k | 0 <= k < c.ranks && k != r :: s'.ranks[k] == s.ranks[k]
    requires forall k | 0 <= k < c.ranks - 1 && k != r && k != r - 1 :: s'.links[k] == s.links[k]
    requires RankOk(c, r, s'.ranks[r])
    requires r > 0 ==> LinkOk(c, r - 1, s.ranks[r - 1], s'.ranks[r], s'.links[r - 1])
    requires r < c.ranks - 1 ==> LinkOk(c, r, s'.ranks[r], s.ranks[r + 1], s'.links[r])
    ensures Inv(c, s')
  {
    hide RankOk, LinkOk;
    forall k | 0 <= k < c.ranks ensures RankOk(c, k, s'.ranks[k]) && BuffersOk(c, s'.ranks[k]) {
      if k != r {
        assert RankOk(c, k, s.ranks[k]);
      }
      RankHasBuffers(c, k, s'.ranks[k]);
    }
    forall k | 0 <= k < c.ranks - 1 ensures LinkOk(c, k, s'.ranks[k], s'.ranks[k + 1], s'.links[k]) {
      if k == r - 1 || k == r {
      } else {
        assert LinkOk(c, k, s.ranks[k], s.ranks[k + 1], s.links[k]);
      }
    }
  }

  /** While a successor reads, the bucket it reads is the one still awaiting its notification. */
  lemma SourceHeld(c: Config, r: nat, q: Rank, q': Rank, l: Link)
    requires ValidConfig(c) && RankOk(c, r, q) && RankOk(c, r + 1, q') && LinkOk(c, r, q, q', l)
    requires q'.xfer.Running?
    ensures q.op.Some? && q.count == q'.count + 1 && q'.count < |c.buckets|
    ensures Holds(q.bufs[q'.xfer.src], c.buckets[q'.count])
    ensures r > 0 ==> q'.xfer.src == q.send && q.pc in {WaitMeta, Yield, WaitNotif}
    ensures r == 0 ==> q.pc in {Fill, WaitPrev, WaitLast} && (q.pc != WaitLast ==> q'.xfer.src == 1 - q.send)
  {
    hide HoldsUpTo, Flatten, MetaOf, Yielded, MessageOf;
  }

  lemma NothingRunning(c: Config, r: nat, q: Rank, q': Rank, l: Link)
    requires ValidConfig(c) && RankOk(c, r, q) && RankOk(c, r + 1, q') && LinkOk(c, r, q, q', l)
    requires q.op.None?
    ensures !q'.xfer.Running?
  {
  }

  // ---------- each step keeps the invariant ----------

  /** A step of rank r that neither reads nor counts a bucket means nothing to its predecessor. */
  lemma PredecessorUnaffected(c: Config, r: nat, prev: Rank, q: Rank, q': Rank, l: Link)
    requires 0 < r && LinkOk(c, r - 1, prev, q, l)
    requires q'.count == q.count && q'.xfer == q.xfer && q'.bufs == q.bufs && q'.send == q.send
    ensures LinkOk(c, r - 1, prev, q', l)
  {
  }

  ghost function Filled(c: Config, q: Rank): Rank
    requires BuffersOk(c, q) && q.count < |c.buckets| && q.pos < |c.buckets[q.count]|
    requires var e := c.buckets[q.count][q.pos];
      e.meta.offset.Some? && e.meta.offset.value + |e.data| <= c.bucketSize
  {
    var e := c.buckets[q.count][q.pos];
    q.(bufs := q.bufs[q.send := Overwrite(q.bufs[q.send], e.meta.offset.value, e.data)], pos := q.pos + 1)
  }

  lemma FillKeepsRank(c: Config, q: Rank)
    requires ValidConfig(c) && RankOk(c, 0, q) && q.pc == Fill && q.pos < |c.buckets[q.count]|
    ensures var e := c.buckets[q.count][q.pos];
      e.meta.offset.Some? && e.meta.offset.value + |e.data| <= c.bucketSize
    ensures RankOk(c, 0, Filled(c, q))
  {
    hide RankOk, ValidConfig, HoldsUpTo, Overwrite, Size;
    FillFacts(c, q);
    FillNext(q.bufs[q.send], c.buckets[q.count], q.pos);
    FilledOk(c, q);
  }

  lemma FillFacts(c: Config, q: Rank)
    requires ValidConfig(c) && RankOk(c, 0, q) && q.pc == Fill
    ensures BuffersOk(c, q) && q.count < |c.buckets| && HoldsUpTo(q.bufs[q.send], c.buckets[q.count], q.pos)
    ensures Tiled(c.buckets[q.count]) && Size(c.buckets[q.count]) <= c.bucketSize
  {
    hide HoldsUpTo, Holds, Tiled, Size;
    assert c.buckets[q.count] in c.buckets;
  }

  lemma FilledOk(c: Config, q: Rank)
    requires RankOk(c, 0, q) && q.pc == Fill && q.count < |c.buckets| && q.pos < |c.buckets[q.count]|
    requires var e := c.buckets[q.count][q.pos];
      e.meta.offset.Some? && e.meta.offset.value + |e.data| <= c.bucketSize
    requires HoldsUpTo(Filled(c, q).bufs[q.send], c.buckets[q.count], q.pos + 1)
    ensures RankOk(c, 0, Filled(c, q))
  {
    hide HoldsUpTo, Holds, Overwrite;
  }

  lemma FillKeepsLink(c: Config, q: Rank, next: Rank, l: Link)
    requires ValidConfig(c) && RankOk(c, 0, q) && RankOk(c, 1, next) && LinkOk(c, 0, q, next, l)
    requires q.pc == Fill && q.pos < |c.buckets[q.count]|
    requires var e := c.buckets[q.count][q.pos];
      e.meta.offset.Some? && e.meta.offset.value + |e.data| <= c.bucketSize
    ensures LinkOk(c, 0, Filled(c, q), next, l)
  {
    hide HoldsUpTo, Holds, Flatten, MetaOf, Yielded, MessageOf, Overwrite;
    if next.xfer.Running? {
      SourceHeld(c, 0, q, next, l);
    }
  }

  lemma StepFillChunk(c: Config, s: State)
    requires Inv(c, s) && Enabled(c, s, FillChunk)
    ensures Inv(c, Apply(c, s, FillChunk))
  {
    hide RankOk, LinkOk;
    assert RankOk(c, 0, s.ranks[0]) && RankOk(c, 1, s.ranks[1]);
    assert LinkOk(c, 0, s.ranks[0], s.ranks[0 + 1], s.links[0]);
    FillKeepsRank(c, s.ranks[0]);
    FillKeepsLink(c, s.ranks[0], s.ranks[1], s.links[0]);
    Frame(c, s, Apply(c, s, FillChunk), 0);
  }

  lemma EndFillKeeps(c: Config, q: Rank, next: Rank, l: Link)
    requires RankOk(c, 0, q) && LinkOk(c, 0, q, next, l)
    requires q.pc == Fill && q.count < |c.buckets| && q.pos == |c.buckets[q.count]|
    ensures RankOk(c, 0, q.(pc := WaitPrev)) && LinkOk(c, 0, q.(pc := WaitPrev), next, l)
  {
  }

  lemma StepEndFill(c: Config, s: State)
    requires Inv(c, s) && Enabled(c, s, EndFill)
    ensures Inv(c, Apply(c, s, EndFill))
  {
    hide RankOk, LinkOk;
    assert RankOk(c, 0, s.ranks[0]) && LinkOk(c, 0, s.ranks[0], s.ranks[0 + 1], s.links[0]);
    EndFillKeeps(c, s.ranks[0], s.ranks[1], s.links[0]);
    Frame(c, s, Apply(c, s, EndFill), 0);
  }

  lemma SendKeepsRank(c: Config, q: Rank)
    requires ValidConfig(c) && RankOk(c, 0, q) && q.pc == Publish
    ensures RankOk(c, 0, AfterSend(c, q))
  {
  }

  lemma SendKeepsLink(c: Config, q: Rank, next: Rank, l: Link)
    requires ValidConfig(c) && RankOk(c, 0, q) && RankOk(c, 1, next) && LinkOk(c, 0, q, next, l)
    requires q.pc == Publish
    ensures LinkOk(c, 0, AfterSend(c, q), next,
                   l.(msgs := l.msgs + [Message(Key(0, q.count), q.send, MetaOf(c.buckets, q.count))]))
  {
    NothingRunning(c, 0, q, next, l);
  }

  lemma ForwardKeepsRank(c: Config, r: nat, q: Rank)
    requires ValidConfig(c) && 0 < r < c.ranks && RankOk(c, r, q) && q.pc == Publish
    ensures RankOk(c, r, AfterForward(c, r, q))
  {
  }

  lemma ForwardKeepsLink(c: Config, r: nat, q: Rank, next: Rank, l: Link)
    requires ValidConfig(c) && 0 < r < c.ranks - 1
    requires RankOk(c, r, q) && RankOk(c, r + 1, next) && LinkOk(c, r, q, next, l)
    requires q.pc == Publish
    ensures LinkOk(c, r, AfterForward(c, r, q), next,
                   l.(msgs := l.msgs + [Message(Key(r, q.count - 1), q.send, q.meta)]))
  {
    NothingRunning(c, r, q, next, l);
  }

  lemma StepSend(c: Config, s: State)
    requires Inv(c, s) && Enabled(c, s, PublishBucket(0))
    ensures Inv(c, Apply(c, s, PublishBucket(0)))
  {
    hide RankOk, LinkOk, MetaOf;
    var q := s.ranks[0];
    assert RankOk(c, 0, q) && RankOk(c, 1, s.ranks[1]) && LinkOk(c, 0, q, s.ranks[0 + 1], s.links[0]);
    SendKeepsRank(c, q);
    SendKeepsLink(c, q, s.ranks[1], s.links[0]);
    Frame(c, s, Apply(c, s, PublishBucket(0)), 0);
  }

  lemma StepForward(c: Config, s: State, r: nat)
    requires Inv(c, s) && Enabled(c, s, PublishBucket(r)) && r > 0
    ensures Inv(c, Apply(c, s, PublishBucket(r)))
  {
    hide RankOk, LinkOk, MetaOf;
    var q := s.ranks[r];
    assert RankOk(c, r, q) && LinkOk(c, r - 1, s.ranks[r - 1], s.ranks[r - 1 + 1], s.links[r - 1]);
    ForwardKeepsRank(c, r, q);
    PredecessorUnaffected(c, r, s.ranks[r - 1], q, AfterForward(c, r, q), s.links[r - 1]);
    if r < c.ranks - 1 {
      assert RankOk(c, r + 1, s.ranks[r + 1]) && LinkOk(c, r, q, s.ranks[r + 1], s.links[r]);
      ForwardKeepsLink(c, r, q, s.ranks[r + 1], s.links[r]);
    }
    Frame(c, s, Apply(c, s, PublishBucket(r)), r);
  }

  lemma StepPublish(c: Config, s: State, r: nat)
    requires Inv(c, s) && Enabled(c, s, PublishBucket(r))
    ensures Inv(c, Apply(c, s, PublishBucket(r)))
  {
    hide Inv, Enabled, Apply;
    if r == 0 {
      StepSend(c, s);
    } else {
      StepForward(c, s, r);
    }
  }

  lemma TakeNotifKeepsRank(c: Config, r: nat, q: Rank)
    requires r < c.ranks - 1 && RankOk(c, r, q) && Waiting(q.pc) && q.op.Some?
    ensures RankOk(c, r, q.(op := None))
  {
    hide Holds, HoldsUpTo, Flatten, MetaOf;
  }

  lemma TakeNotifKeepsLink(c: Config, r: nat, q: Rank, next: Rank, l: Link)
    requires r < c.ranks - 1 && RankOk(c, r, q) && RankOk(c, r + 1, next) && LinkOk(c, r, q, next, l)
    requires Waiting(q.pc) && q.op.Some? && l.notifs != []
    ensures l.notifs[0] == q.op.value
    ensures LinkOk(c, r, q.(op := None), next, l.(notifs := l.notifs[1..]))
  {
    hide Holds, HoldsUpTo, Flatten, MetaOf, Yielded, MessageOf;
  }

  lemma StepTakeNotif(c: Config, s: State, r: nat)
    requires Inv(c, s) && Enabled(c, s, TakeNotif(r))
    ensures s.links[r].notifs[0] == s.ranks[r].op.value
    ensures Inv(c, Apply(c, s, TakeNotif(r)))
  {
    hide RankOk, LinkOk;
    var q := s.ranks[r];
    assert RankOk(c, r, q) && RankOk(c, r + 1, s.ranks[r + 1]) && LinkOk(c, r, q, s.ranks[r + 1], s.links[r]);
    TakeNotifKeepsRank(c, r, q);
    TakeNotifKeepsLink(c, r, q, s.ranks[r + 1], s.links[r]);
    if r > 0 {
      assert LinkOk(c, r - 1, s.ranks[r - 1], s.ranks[r - 1 + 1], s.links[r - 1]);
      PredecessorUnaffected(c, r, s.ranks[r - 1], q, q.(op := None), s.links[r - 1]);
    }
    Frame(c, s, Apply(c, s, TakeNotif(r)), r);
  }

  ghost function Proceeded(q: Rank): Rank {
    q.(pc := match q.pc
      case WaitPrev => Publish
      case WaitLast => Finished
      case _ => if q.meta.isLast then Finished else WaitRead)
  }

  lemma ProceedKeepsRank(c: Config, r: nat, q: Rank)
    requires ValidConfig(c) && RankOk(c, r, q) && Waiting(q.pc) && q.op.None?
    ensures RankOk(c, r, Proceeded(q))
  {
  }

  lemma ProceedKeepsLink(c: Config, r: nat, q: Rank, next: Rank, l: Link)
    requires ValidConfig(c) && RankOk(c, r, q) && RankOk(c, r + 1, next) && LinkOk(c, r, q, next, l)
    requires Waiting(q.pc) && q.op.None?
    ensures LinkOk(c, r, Proceeded(q), next, l)
  {
  }

  lemma StepProceed(c: Config, s: State, r: nat)
    requires Inv(c, s) && Enabled(c, s, Proceed(r))
    ensures Inv(c, Apply(c, s, Proceed(r)))
  {
    hide RankOk, LinkOk;
    var q := s.ranks[r];
    assert RankOk(c, r, q);
    ProceedKeepsRank(c, r, q);
    if r < c.ranks - 1 {
      assert RankOk(c, r + 1, s.ranks[r + 1]) && LinkOk(c, r, q, s.ranks[r + 1], s.links[r]);
      ProceedKeepsLink(c, r, q, s.ranks[r + 1], s.links[r]);
    }
    if r > 0 {
      assert LinkOk(c, r - 1, s.ranks[r - 1], s.ranks[r - 1 + 1], s.links[r - 1]);
      PredecessorUnaffected(c, r, s.ranks[r - 1], q, Proceeded(q), s.links[r - 1]);
    }
    Frame(c, s, Apply(c, s, Proceed(r)), r);
  }

  /** Steps of a receiver that change neither what it has announced nor what it has acknowledged. */
  lemma SuccessorUnaffected(c: Config, r: nat, q: Rank, q': Rank, next: Rank, l: Link)
    requires ValidConfig(c) && 0 < r < c.ranks - 1
    requires RankOk(c, r, q) && RankOk(c, r + 1, next) && LinkOk(c, r, q, next, l)
    requires Published(r, q') == Published(r, q) && q'.op == q.op
    requires BuffersOk(c, q') && (q.op.Some? ==> q'.bufs[q.send] == q.bufs[q.send])
    ensures LinkOk(c, r, q', next, l)
  {
    if next.xfer.Running? {
      SourceHeld(c, r, q, next, l);
    }
  }

  /** The obligations left for a step of receiver r that its successor does not notice. */
  lemma ReceiverStep(c: Config, s: State, s': State, r: nat)
    requires Inv(c, s) && 0 < r < c.ranks
    requires |s'.ranks| == c.ranks && |s'.links| == c.ranks - 1
    requires forall k | 0 <= k < c.ranks && k != r :: s'.ranks[k] == s.ranks[k]
    requires forall k | 0 <= k < c.ranks - 1 && k != r - 1 :: s'.links[k] == s.links[k]
    requires RankOk(c, r, s'.ranks[r]) && LinkOk(c, r - 1, s.ranks[r - 1], s'.ranks[r], s'.links[r - 1])
    requires Published(r, s'.ranks[r]) == Published(r, s.ranks[r]) && s'.ranks[r].op == s.ranks[r].op
    requires s.ranks[r].op.Some? ==> s'.ranks[r].bufs[s.ranks[r].send] == s.ranks[r].bufs[s.ranks[r].send]
    ensures Inv(c, s')
  {
    hide LinkOk;
    var q := s.ranks[r];
    assert RankOk(c, r, q);
    if r < c.ranks - 1 {
      assert RankOk(c, r + 1, s.ranks[r + 1]) && LinkOk(c, r, q, s.ranks[r + 1], s.links[r]);
      SuccessorUnaffected(c, r, q, s'.ranks[r], s.ranks[r + 1], s.links[r]);
    }
    Frame(c, s, s', r);
  }

  ghost function Reading(q: Rank, m: Message): Rank {
    q.(xfer := Running(m.key, m.src, 1 - q.send, {}), nextMeta := m.meta,
       pc := if q.count == 0 then WaitRead else Yield)
  }

  /** The message that a rank finds when it wants one announces the bucket it wants. */
  lemma MessageIsNext(c: Config, r: nat, prev: Rank, q: Rank, l: Link)
    requires 0 < r < c.ranks && RankOk(c, r, q) && LinkOk(c, r - 1, prev, q, l) && q.pc == WaitMeta && l.msgs != []
    ensures q.count < |c.buckets|
    ensures l.msgs == [Message(Key(r - 1, q.count), SideOf(r - 1, q.count), MetaOf(c.buckets, q.count))]
    ensures Published(r - 1, prev) == q.count + 1
  {
    hide Holds, HoldsUpTo, Flatten, MetaOf, Yielded;
  }

  lemma BeginReadKeepsRank(c: Config, r: nat, q: Rank)
    requires ValidConfig(c) && 0 < r < c.ranks && RankOk(c, r, q) && q.pc == WaitMeta && q.count < |c.buckets|
    ensures var q' := Reading(q, Message(Key(r - 1, q.count), SideOf(r - 1, q.count), MetaOf(c.buckets, q.count)));
      RankOk(c, r, q') && Published(r, q') == Published(r, q)
  {
    hide Holds, HoldsUpTo, Flatten, MetaOf;
  }

  lemma BeginReadKeepsLink(c: Config, r: nat, prev: Rank, q: Rank, l: Link)
    requires 0 < r < c.ranks && RankOk(c, r, q) && LinkOk(c, r - 1, prev, q, l) && q.pc == WaitMeta && l.msgs != []
    requires |l.msgs| == 1 && Published(r - 1, prev) == q.count + 1
    ensures LinkOk(c, r - 1, prev, Reading(q, l.msgs[0]), l.(msgs := l.msgs[1..]))
  {
    hide Holds, HoldsUpTo, Flatten, MetaOf, Yielded, MessageOf;
  }

  lemma StepBeginRead(c: Config, s: State, r: nat)
    requires Inv(c, s) && Enabled(c, s, BeginRead(r))
    ensures Inv(c, Apply(c, s, BeginRead(r)))
  {
    hide RankOk, LinkOk;
    var s' := Apply(c, s, BeginRead(r));
    assert RankOk(c, r - 1, s.ranks[r - 1]) && RankOk(c, r, s.ranks[r]);
    assert LinkOk(c, r - 1, s.ranks[r - 1], s.ranks[r - 1 + 1], s.links[r - 1]);
    MessageIsNext(c, r, s.ranks[r - 1], s.ranks[r], s.links[r - 1]);
    BeginReadKeepsRank(c, r, s.ranks[r]);
    BeginReadKeepsLink(c, r, s.ranks[r - 1], s.ranks[r], s.links[r - 1]);
    ReceiverStep(c, s, s', r);
  }

  ghost function Copied(prev: Rank, q: Rank, i: nat): Rank
    requires |q.bufs| == |prev.bufs| == 2 && q.xfer.Running? && 0 <= q.xfer.src < 2 && 0 <= q.xfer.dst < 2
    requires i < |q.bufs[q.xfer.dst]| && i < |prev.bufs[q.xfer.src]|
  {
    var x := q.xfer;
    q.(bufs := q.bufs[x.dst := q.bufs[x.dst][i := prev.bufs[x.src][i]]], xfer := x.(copied := x.copied + {i}))
  }

  lemma CopyByteKeepsRank(c: Config, r: nat, prev: Rank, q: Rank, i: nat)
    requires 0 < r < c.ranks && BuffersOk(c, prev) && RankOk(c, r, q) && q.xfer.Running? && i < c.bucketSize
    ensures RankOk(c, r, Copied(prev, q, i))
    ensures Published(r, Copied(prev, q, i)) == Published(r, q)
    ensures Copied(prev, q, i).bufs[q.send] == q.bufs[q.send]
  {
    hide Holds, HoldsUpTo, Flatten, MetaOf;
  }

  lemma CopyByteKeepsLink(c: Config, r: nat, prev: Rank, q: Rank, l: Link, i: nat)
    requires 0 < r < c.ranks && BuffersOk(c, prev) && RankOk(c, r, q) && LinkOk(c, r - 1, prev, q, l)
    requires q.xfer.Running? && i < c.bucketSize
    ensures LinkOk(c, r - 1, prev, Copied(prev, q, i), l)
  {
    hide Holds, HoldsUpTo, Flatten, MetaOf, Yielded, MessageOf;
  }

  lemma StepCopyByte(c: Config, s: State, r: nat, i: nat)
    requires Inv(c, s) && Enabled(c, s, CopyByte(r, i))
    ensures Inv(c, Apply(c, s, CopyByte(r, i)))
  {
    hide RankOk, LinkOk;
    var s' := Apply(c, s, CopyByte(r, i));
    assert RankOk(c, r - 1, s.ranks[r - 1]) && RankOk(c, r, s.ranks[r]);
    assert LinkOk(c, r - 1, s.ranks[r - 1], s.ranks[r - 1 + 1], s.links[r - 1]);
    RankHasBuffers(c, r - 1, s.ranks[r - 1]);
    CopyByteKeepsRank(c, r, s.ranks[r - 1], s.ranks[r], i);
    CopyByteKeepsLink(c, r, s.ranks[r - 1], s.ranks[r], s.links[r - 1], i);
    assert s'.ranks[r] == Copied(s.ranks[r - 1], s.ranks[r], i);
    ReceiverStep(c, s, s', r);
  }

  lemma FinishXferKeeps(c: Config, r: nat, prev: Rank, q: Rank, l: Link)
    requires ValidConfig(c) && 0 < r < c.ranks && RankOk(c, r - 1, prev) && RankOk(c, r, q)
    requires LinkOk(c, r - 1, prev, q, l)
    requires q.xfer.Running? && AllCopied(q.xfer.copied, c.bucketSize)
    ensures RankOk(c, r, q.(xfer := Done))
    ensures LinkOk(c, r - 1, prev, q.(xfer := Done), l.(notifs := l.notifs + [q.xfer.key]))
    ensures Published(r, q.(xfer := Done)) == Published(r, q)
  {
    hide RankOk, LinkOk, AllCopied, ValidConfig, Holds;
    SourceHeld(c, r - 1, prev, q, l);
    CopiedWhole(c, r, prev, q, l);
    FinishKeepsRank(c, r, q);
    FinishKeepsLink(c, r, prev, q, l);
  }

  lemma CopiedWhole(c: Config, r: nat, prev: Rank, q: Rank, l: Link)
    requires 0 < r < c.ranks && RankOk(c, r - 1, prev) && RankOk(c, r, q) && LinkOk(c, r - 1, prev, q, l)
    requires q.xfer.Running? && AllCopied(q.xfer.copied, c.bucketSize)
    ensures BuffersOk(c, q) && BuffersOk(c, prev) && q.bufs[q.xfer.dst] == prev.bufs[q.xfer.src]
  {
    hide Holds, Flatten, MetaOf, HoldsUpTo, MessageOf;
  }

  lemma FinishKeepsRank(c: Config, r: nat, q: Rank)
    requires 0 < r && RankOk(c, r, q) && q.xfer.Running? && q.count < |c.buckets|
    requires Holds(q.bufs[q.xfer.dst], c.buckets[q.count])
    ensures RankOk(c, r, q.(xfer := Done))
  {
    hide Holds, Flatten, MetaOf;
  }

  lemma FinishKeepsLink(c: Config, r: nat, prev: Rank, q: Rank, l: Link)
    requires 0 < r < c.ranks && RankOk(c, r, q) && LinkOk(c, r - 1, prev, q, l) && q.xfer.Running?
    requires prev.op.Some? && prev.count == q.count + 1
    requires r > 1 ==> prev.pc in {WaitMeta, Yield, WaitNotif}
    ensures LinkOk(c, r - 1, prev, q.(xfer := Done), l.(notifs := l.notifs + [q.xfer.key]))
  {
    hide Holds, Flatten, MetaOf, Yielded;
  }

  lemma StepFinishXfer(c: Config, s: State, r: nat)
    requires Inv(c, s) && Enabled(c, s, FinishXfer(r))
    ensures Inv(c, Apply(c, s, FinishXfer(r)))
  {
    hide RankOk, LinkOk, AllCopied;
    var s' := Apply(c, s, FinishXfer(r));
    assert RankOk(c, r - 1, s.ranks[r - 1]) && RankOk(c, r, s.ranks[r]);
    assert LinkOk(c, r - 1, s.ranks[r - 1], s.ranks[r - 1 + 1], s.links[r - 1]);
    FinishXferKeeps(c, r, s.ranks[r - 1], s.ranks[r], s.links[r - 1]);
    ReceiverStep(c, s, s', r);
  }

  lemma YieldKeepsRank(c: Config, r: nat, q: Rank)
    requires ValidConfig(c) && 0 < r < c.ranks && RankOk(c, r, q) && q.pc == Yield && q.pos < |q.meta.entries|
    ensures View(q.bufs[q.send], q.meta.entries[q.pos]) == c.buckets[q.count - 1][q.pos]
    ensures RankOk(c, r, q.(yielded := q.yielded + [View(q.bufs[q.send], q.meta.entries[q.pos])], pos := q.pos + 1))
  {
    hide Holds, HoldsUpTo, Flatten, View;
    var b := c.buckets[q.count - 1];
    HeldView(q.bufs[q.send], b, q.pos);
    assert b[..q.pos + 1] == b[..q.pos] + [b[q.pos]];
  }

  lemma StepYieldEntry(c: Config, s: State, r: nat)
    requires Inv(c, s) && Enabled(c, s, YieldEntry(r))
    ensures Inv(c, Apply(c, s, YieldEntry(r)))
  {
    hide RankOk, LinkOk;
    var s' := Apply(c, s, YieldEntry(r));
    assert RankOk(c, r, s.ranks[r]);
    assert LinkOk(c, r - 1, s.ranks[r - 1], s.ranks[r - 1 + 1], s.links[r - 1]);
    YieldKeepsRank(c, r, s.ranks[r]);
    PredecessorUnaffected(c, r, s.ranks[r - 1], s.ranks[r], s'.ranks[r], s.links[r - 1]);
    ReceiverStep(c, s, s', r);
  }

  lemma EndYieldKeepsRank(c: Config, r: nat, q: Rank)
    requires ValidConfig(c) && 0 < r < c.ranks && RankOk(c, r, q) && q.pc == Yield && q.pos == |q.meta.entries|
    ensures RankOk(c, r, q.(pc := WaitNotif))
  {
    hide Holds, HoldsUpTo, Flatten, Size, Tiled;
    var b := c.buckets[q.count - 1];
    assert b[..q.pos] == b;
    FlattenAppend(c.buckets[..q.count - 1], b);
    assert c.buckets[..q.count] == c.buckets[..q.count - 1] + [b];
  }

  lemma StepEndYield(c: Config, s: State, r: nat)
    requires Inv(c, s) && Enabled(c, s, EndYield(r))
    ensures Inv(c, Apply(c, s, EndYield(r)))
  {
    hide RankOk, LinkOk;
    var s' := Apply(c, s, EndYield(r));
    assert RankOk(c, r, s.ranks[r]);
    assert LinkOk(c, r - 1, s.ranks[r - 1], s.ranks[r - 1 + 1], s.links[r - 1]);
    EndYieldKeepsRank(c, r, s.ranks[r]);
    PredecessorUnaffected(c, r, s.ranks[r - 1], s.ranks[r], s'.ranks[r], s.links[r - 1]);
    ReceiverStep(c, s, s', r);
  }

  ghost function Swapped(q: Rank): Rank {
    q.(xfer := Idle, send := 1 - q.send, meta := q.nextMeta, count := q.count + 1, pos := 0, pc := Publish)
  }

  lemma TakeReadKeeps(c: Config, r: nat, prev: Rank, q: Rank, l: Link)
    requires ValidConfig(c) && 0 < r < c.ranks && RankOk(c, r, q) && LinkOk(c, r - 1, prev, q, l)
    requires q.pc == WaitRead && q.xfer.Done?
    ensures RankOk(c, r, Swapped(q)) && LinkOk(c, r - 1, prev, Swapped(q), l)
    ensures Published(r, Swapped(q)) == Published(r, q) && q.op.None?
  {
    TakeReadKeepsRank(c, r, q);
    hide Flatten, MetaOf, Holds, Tiled, Size;
  }

  lemma TakeReadKeepsRank(c: Config, r: nat, q: Rank)
    requires ValidConfig(c) && 0 < r < c.ranks && RankOk(c, r, q) && q.pc == WaitRead && q.xfer.Done?
    ensures RankOk(c, r, Swapped(q))
  {
    hide MetaOf, Holds;
    assert Swapped(q).yielded == Flatten(c.buckets[..q.count]) + c.buckets[q.count][..0];
  }

  lemma StepTakeRead(c: Config, s: State, r: nat)
    requires Inv(c, s) && Enabled(c, s, TakeRead(r))
    ensures Inv(c, Apply(c, s, TakeRead(r)))
  {
    hide RankOk, LinkOk;
    var s' := Apply(c, s, TakeRead(r));
    assert RankOk(c, r, s.ranks[r]);
    assert LinkOk(c, r - 1, s.ranks[r - 1], s.ranks[r - 1 + 1], s.links[r - 1]);
    TakeReadKeeps(c, r, s.ranks[r - 1], s.ranks[r], s.links[r - 1]);
    ReceiverStep(c, s, s', r);
  }

  /** The invariant is inductive: every step of every rank, in any state that satisfies it, keeps it. */
  lemma StepKeepsInv(c: Config, s: State, a: Action)
    requires Inv(c, s) && Enabled(c, s, a)
    ensures Inv(c, Apply(c, s, a))
  {
    hide RankOk, LinkOk;
    match a
    case FillChunk => StepFillChunk(c, s);
    case EndFill => StepEndFill(c, s);
    case PublishBucket(r) => StepPublish(c, s, r);
    case TakeNotif(r) => StepTakeNotif(c, s, r);
    case Proceed(r) => StepProceed(c, s, r);
    case BeginRead(r) => StepBeginRead(c, s, r);
    case CopyByte(r, i) => StepCopyByte(c, s, r, i);
    case FinishXfer(r) => StepFinishXfer(c, s, r);
    case YieldEntry(r) => StepYieldEntry(c, s, r);
    case EndYield(r) => StepEndYield(c, s, r);
    case TakeRead(r) => StepTakeRead(c, s, r);
  }

  // ---------- runs ----------

  ghost predicate Legal(c: Config, s: State, run: seq<Action>)
    decreases |run|
  {
    run == [] || (Enabled(c, s, run[0]) && Legal(c, Apply(c, s, run[0]), run[1..]))
  }

  ghost function Exec(c: Config, s: State, run: seq<Action>): State
    requires Legal(c, s, run)
    decreases |run|
  {
    if run == [] then s else Exec(c, Apply(c, s, run[0]), run[1..])
  }

  lemma {:induction false} RunKeepsInv(c: Config, s: State, run: seq<Action>)
    requires Inv(c, s) && Legal(c, s, run)
    ensures Inv(c, Exec(c, s, run))
    decreases |run|
  {
    if run != [] {
      StepKeepsInv(c, s, run[0]);
      RunKeepsInv(c, Apply(c, s, run[0]), run[1..]);
    }
  }

  ghost predicate AllFinished(c: Config, s: State) {
    Shape(c, s) && forall r | 0 <= r < c.ranks :: s.ranks[r].pc == Finished
  }

  // ---------- safety ----------

  /** What must never go wrong in a state. */
  ghost predicate Safe(c: Config, s: State) {
    && Shape(c, s)
    // every receiver has yielded a prefix of rank 0's entries, with their bytes
    && (forall r | 0 < r < c.ranks :: s.ranks[r].yielded <= Flatten(c.buckets))
    // at most one readable operation is outstanding on a link, and its notification carries its key
    && (forall r | 0 <= r < c.ranks - 1 ::
          && |s.links[r].msgs| <= 1 && |s.links[r].notifs| <= 1
          && (s.links[r].notifs != [] ==> s.ranks[r].op == Some(s.links[r].notifs[0])))
    // nobody reads into a buffer that is being read from
    && (forall r | 0 < r < c.ranks - 1 ::
          s.ranks[r].xfer.Running? && s.ranks[r + 1].xfer.Running? ==> s.ranks[r].xfer.dst != s.ranks[r + 1].xfer.src)
  }

  lemma YieldedIsPrefix(c: Config, r: nat, q: Rank)
    requires ValidConfig(c) && 0 < r < c.ranks && RankOk(c, r, q)
    ensures q.yielded <= Flatten(c.buckets)
    ensures q.pc == Finished ==> q.yielded == Flatten(c.buckets)
  {
    assert c.buckets[..|c.buckets|] == c.buckets;
    FlattenPrefix(c.buckets, if q.count == 0 then 0 else q.count - 1);
    FlattenPrefix(c.buckets, q.count);
  }

  lemma LinkIsSafe(c: Config, r: nat, q: Rank, q': Rank, l: Link)
    requires ValidConfig(c) && r < c.ranks - 1 && RankOk(c, r, q) && RankOk(c, r + 1, q') && LinkOk(c, r, q, q', l)
    ensures |l.msgs| <= 1 && |l.notifs| <= 1 && (l.notifs != [] ==> q.op == Some(l.notifs[0]))
    ensures r > 0 && q.xfer.Running? && q'.xfer.Running? ==> q.xfer.dst != q'.xfer.src
  {
    hide HoldsUpTo, Holds, Flatten, MetaOf, Yielded, MessageOf;
    if q'.xfer.Running? {
      SourceHeld(c, r, q, q', l);
    }
  }

  lemma InvIsSafe(c: Config, s: State)
    requires Inv(c, s)
    ensures Safe(c, s)
  {
    hide RankOk, LinkOk;
    forall r | 0 < r < c.ranks ensures s.ranks[r].yielded <= Flatten(c.buckets) {
      YieldedIsPrefix(c, r, s.ranks[r]);
    }
    forall r | 0 <= r < c.ranks - 1
      ensures |s.links[r].msgs| <= 1 && |s.links[r].notifs| <= 1
      ensures s.links[r].notifs != [] ==> s.ranks[r].op == Some(s.links[r].notifs[0])
      ensures r > 0 && s.ranks[r].xfer.Running? && s.ranks[r + 1].xfer.Running? ==>
        s.ranks[r].xfer.dst != s.ranks[r + 1].xfer.src
    {
      assert LinkOk(c, r, s.ranks[r], s.ranks[r + 1], s.links[r]);
      LinkIsSafe(c, r, s.ranks[r], s.ranks[r + 1], s.links[r]);
    }
  }

  /** Safety over whole runs, for any number of ranks and buckets, any buffer contents and any interleaving. */
  lemma ChainSafety(c: Config, s: State, run: seq<Action>)
    requires ValidConfig(c) && Init(c, s) && Legal(c, s, run)
    ensures Safe(c, Exec(c, s, run))
  {
    InitInv(c, s);
    RunKeepsInv(c, s, run);
    InvIsSafe(c, Exec(c, s, run));
  }

  /** Buffer `side` of rank r is the same in two states. */
  ghost predicate SameBuffer(before: seq<Rank>, after: seq<Rank>, r: nat, side: int) {
    && r < |before| && r < |after| && 0 <= side < |before[r].bufs| && side < |after[r].bufs|
    && after[r].bufs[side] == before[r].bufs[side]
  }

  lemma OtherActionsWriteNothing(c: Config, s: State, a: Action, r: nat)
    requires Enabled(c, s, a) && r < c.ranks && !a.FillChunk? && !a.CopyByte?
    ensures |Apply(c, s, a).ranks| == c.ranks && Apply(c, s, a).ranks[r].bufs == s.ranks[r].bufs
  {
    hide BuffersOk, MetaOf, View, AllCopied;
  }

  /** Of the two buffers of rank r at most the one being filled, or being read into, changes in a step. */
  lemma BufferWrites(c: Config, s: State, a: Action, r: nat, side: int)
    requires Enabled(c, s, a) && r < c.ranks && 0 <= side < 2
    requires s.ranks[r].pc == Fill && r == 0 ==> side == 1 - s.ranks[r].send
    requires s.ranks[r].xfer.Running? ==> side == 1 - s.ranks[r].xfer.dst
    ensures SameBuffer(s.ranks, Apply(c, s, a).ranks, r, side)
  {
    assert BuffersOk(c, s.ranks[r]);
    if a.FillChunk? || a.CopyByte? {
      hide Overwrite, MetaOf;
    } else {
      OtherActionsWriteNothing(c, s, a, r);
    }
  }

  lemma SourceUntouched(c: Config, r: nat, prev: Rank, q: Rank, l: Link)
    requires ValidConfig(c) && 0 < r < c.ranks && RankOk(c, r - 1, prev) && RankOk(c, r, q)
    requires LinkOk(c, r - 1, prev, q, l)
    requires q.xfer.Running?
    ensures prev.xfer.Running? ==> q.xfer.src == 1 - prev.xfer.dst
    ensures r == 1 && prev.pc == Fill ==> q.xfer.src == 1 - prev.send
  {
    hide HoldsUpTo, Holds, Flatten, MetaOf, Yielded, MessageOf, LinkOk;
    SourceHeld(c, r - 1, prev, q, l);
  }

  /** No step of any rank changes a buffer from which a read is outstanding. */
  lemma NoOverwrite(c: Config, s: State, a: Action, r: nat)
    requires Inv(c, s) && Enabled(c, s, a) && 0 < r < c.ranks && s.ranks[r].xfer.Running?
    ensures SameBuffer(s.ranks, Apply(c, s, a).ranks, r - 1, s.ranks[r].xfer.src)
  {
    hide RankOk, LinkOk, Apply, SameBuffer, Enabled;
    assert BuffersOk(c, s.ranks[r]) && BuffersOk(c, s.ranks[r - 1]);
    assert RankOk(c, r - 1, s.ranks[r - 1]) && RankOk(c, r, s.ranks[r]);
    assert LinkOk(c, r - 1, s.ranks[r - 1], s.ranks[r - 1 + 1], s.links[r - 1]);
    SourceUntouched(c, r, s.ranks[r - 1], s.ranks[r], s.links[r - 1]);
    BufferWrites(c, s, a, r - 1, s.ranks[r].xfer.src);
  }

  lemma ReceiverWritesAside(c: Config, r: nat, q: Rank)
    requires 0 < r && RankOk(c, r, q)
    ensures q.xfer.Running? ==> q.xfer.dst == 1 - q.send
  {
  }

  lemma YieldingStays(c: Config, s: State, a: Action, r: nat)
    requires Enabled(c, s, a) && 0 < r < c.ranks && s.ranks[r].pc == Yield
    ensures |Apply(c, s, a).ranks| == c.ranks && Apply(c, s, a).ranks[r].send == s.ranks[r].send
  {
    hide BuffersOk, MetaOf, View, AllCopied, Overwrite;
  }

  /** The views a receiver has yielded stay valid: nothing writes its send buffer while it yields from it. */
  lemma ViewsStable(c: Config, s: State, a: Action, r: nat)
    requires Inv(c, s) && Enabled(c, s, a) && 0 < r < c.ranks && s.ranks[r].pc == Yield
    ensures |Apply(c, s, a).ranks| == c.ranks && Apply(c, s, a).ranks[r].send == s.ranks[r].send
    ensures SameBuffer(s.ranks, Apply(c, s, a).ranks, r, s.ranks[r].send)
  {
    hide RankOk, LinkOk, Apply, SameBuffer, Enabled;
    assert RankOk(c, r, s.ranks[r]) && BuffersOk(c, s.ranks[r]);
    ReceiverWritesAside(c, r, s.ranks[r]);
    YieldingStays(c, s, a, r);
    BufferWrites(c, s, a, r, s.ranks[r].send);
  }

  // ---------- progress ----------

  lemma RunningMoves(c: Config, s: State, r: nat) returns (a: Action)
    requires Inv(c, s) && 0 < r < c.ranks && s.ranks[r].xfer.Running?
    ensures Enabled(c, s, a)
  {
    hide RankOk, LinkOk;
    if AllCopied(s.ranks[r].xfer.copied, c.bucketSize) {
      a := FinishXfer(r);
    } else {
      var i: nat :| i < c.bucketSize && i !in s.ranks[r].xfer.copied;
      a := CopyByte(r, i);
    }
  }

  lemma UnreadBucket(c: Config, r: nat, q: Rank, q': Rank, l: Link)
    requires ValidConfig(c) && r < c.ranks - 1 && RankOk(c, r, q) && RankOk(c, r + 1, q') && LinkOk(c, r, q, q', l)
    requires q.op.Some? && l.notifs == []
    ensures q'.pc != Finished && (q'.pc == WaitMeta ==> l.msgs != [] && 0 <= l.msgs[0].src < 2)
  {
  }

  lemma WaitsForMessage(c: Config, r: nat, prev: Rank, q: Rank, l: Link)
    requires ValidConfig(c) && 0 < r < c.ranks && RankOk(c, r - 1, prev) && RankOk(c, r, q)
    requires LinkOk(c, r - 1, prev, q, l)
    requires q.pc == WaitMeta
    ensures l.msgs == [] ==> prev.pc != Finished
    ensures l.msgs != [] ==> 0 <= l.msgs[0].src < 2
  {
  }

  lemma PcFacts(c: Config, r: nat, q: Rank)
    requires ValidConfig(c) && r < c.ranks && RankOk(c, r, q)
    ensures r == 0 ==> q.pc in {Fill, WaitPrev, Publish, WaitLast, Finished}
    ensures r == 0 && q.pc in {Fill, Publish} ==> q.count < |c.buckets|
    ensures r == 0 && q.pc == Fill ==> q.pos <= |c.buckets[q.count]|
    ensures r > 0 ==> q.pc in {Publish, WaitMeta, Yield, WaitNotif, WaitRead, Finished}
    ensures r > 0 && q.pc == WaitRead ==> !q.xfer.Idle?
    ensures r > 0 && q.pc == Yield ==> q.pos <= |q.meta.entries|
    ensures q.op.Some? && r < c.ranks ==> r < c.ranks - 1
  {
  }

  /** A rank that waits for a notification waits for its successor, which either moves or waits in turn. */
  lemma {:induction false} WaiterMoves(c: Config, s: State, r: nat) returns (a: Action)
    requires Inv(c, s) && r < c.ranks && Waiting(s.ranks[r].pc)
    ensures Enabled(c, s, a)
    decreases c.ranks - r
  {
    hide RankOk, LinkOk;
    var q := s.ranks[r];
    assert RankOk(c, r, q);
    PcFacts(c, r, q);
    if q.op.None? {
      a := Proceed(r);
    } else if s.links[r].notifs != [] {
      a := TakeNotif(r);
    } else {
      var q' := s.ranks[r + 1];
      assert RankOk(c, r + 1, q') && LinkOk(c, r, q, q', s.links[r]);
      UnreadBucket(c, r, q, q', s.links[r]);
      PcFacts(c, r + 1, q');
      if Waiting(q'.pc) {
        a := WaiterMoves(c, s, r + 1);
      } else {
        a := ReaderMoves(c, s, r + 1);
      }
    }
  }

  /** A receiver that waits for no notification and has a message if it wants one can move. */
  lemma ReaderMoves(c: Config, s: State, r: nat) returns (a: Action)
    requires Inv(c, s) && 0 < r < c.ranks && !Waiting(s.ranks[r].pc) && s.ranks[r].pc != Finished
    requires s.ranks[r].pc == WaitMeta ==> s.links[r - 1].msgs != [] && 0 <= s.links[r - 1].msgs[0].src < 2
    ensures Enabled(c, s, a)
  {
    hide RankOk, LinkOk, AllCopied;
    var q := s.ranks[r];
    assert RankOk(c, r, q);
    PcFacts(c, r, q);
    if q.xfer.Running? {
      a := RunningMoves(c, s, r);
    } else if q.pc == Publish {
      a := PublishBucket(r);
    } else if q.pc == WaitMeta {
      a := BeginRead(r);
    } else if q.pc == WaitRead {
      a := TakeRead(r);
    } else {
      a := if q.pos < |q.meta.entries| then YieldEntry(r) else EndYield(r);
    }
  }

  /** A rank that has nothing to read waits for its predecessor, which either moves or waits in turn. */
  lemma {:induction false} SomeRankMoves(c: Config, s: State, r: nat) returns (a: Action)
    requires Inv(c, s) && r < c.ranks && s.ranks[r].pc != Finished
    ensures Enabled(c, s, a)
    decreases r
  {
    hide RankOk, LinkOk;
    var q := s.ranks[r];
    assert RankOk(c, r, q);
    PcFacts(c, r, q);
    if Waiting(q.pc) {
      a := WaiterMoves(c, s, r);
    } else if r == 0 {
      if q.pc == Fill {
        a := SenderFills(c, s);
      } else {
        a := PublishBucket(0);
      }
    } else {
      assert RankOk(c, r - 1, s.ranks[r - 1]);
      assert LinkOk(c, r - 1, s.ranks[r - 1], s.ranks[r - 1 + 1], s.links[r - 1]);
      if q.pc == WaitMeta {
        WaitsForMessage(c, r, s.ranks[r - 1], q, s.links[r - 1]);
      }
      if q.pc == WaitMeta && s.links[r - 1].msgs == [] {
        a := SomeRankMoves(c, s, r - 1);
      } else {
        a := ReaderMoves(c, s, r);
      }
    }
  }

  lemma SenderFills(c: Config, s: State) returns (a: Action)
    requires Inv(c, s) && s.ranks[0].pc == Fill
    ensures Enabled(c, s, a)
  {
    hide RankOk, LinkOk;
    var q := s.ranks[0];
    assert RankOk(c, 0, q);
    PcFacts(c, 0, q);
    if q.pos < |c.buckets[q.count]| {
      FillKeepsRank(c, q);
      a := FillChunk;
    } else {
      a := EndFill;
    }
  }

  /** Deadlock freedom: a reachable state has no next step exactly when every rank has finished. */
  lemma StuckOnlyWhenFinished(c: Config, s: State)
    requires Inv(c, s)
    ensures (forall a :: !Enabled(c, s, a)) <==> AllFinished(c, s)
  {
    hide RankOk, LinkOk;
    if !AllFinished(c, s) {
      var r :| 0 <= r < c.ranks && s.ranks[r].pc != Finished;
      var a := SomeRankMoves(c, s, r);
    } else {
      forall a ensures !Enabled(c, s, a) {
        if Enabled(c, s, a) {
          NotFinishedAt(c, s, a);
        }
      }
    }
  }

  lemma FinishedIsIdle(c: Config, r: nat, q: Rank)
    requires ValidConfig(c) && RankOk(c, r, q) && q.pc == Finished
    ensures q.xfer.Idle?
  {
  }

  lemma NotFinishedAt(c: Config, s: State, a: Action)
    requires Inv(c, s) && Enabled(c, s, a)
    ensures !AllFinished(c, s)
  {
    hide RankOk, LinkOk;
    var r := if a.FillChunk? || a.EndFill? then 0 else a.r;
    assert RankOk(c, r, s.ranks[r]);
    if s.ranks[r].pc == Finished {
      FinishedIsIdle(c, r, s.ranks[r]);
    }
  }

  // ---------- termination and delivery ----------

  /** More than any one rank does for one bucket. */
  ghost function PerBucket(c: Config): nat {
    |Flatten(c.buckets)| + c.bucketSize + 8
  }

  ghost function XferWork(c: Config, x: Xfer): int {
    if x.Running? then 1 + c.bucketSize - |x.copied| else 0
  }

  ghost function OpWork(q: Rank): int {
    if q.op.Some? then 1 else 0
  }

  /** The steps rank r still has before it, in the current bucket. */
  ghost function PhaseWork(c: Config, q: Rank): int {
    var n := |Flatten(c.buckets)|;
    match q.pc
    case Fill => 5 + n - q.pos
    case WaitPrev => 3 + OpWork(q)
    case Publish => n + c.bucketSize + 7
    case WaitLast => 1 + OpWork(q)
    case WaitMeta => n + c.bucketSize + 6
    case Yield => 4 + n - q.pos + XferWork(c, q.xfer)
    case WaitNotif => 2 + OpWork(q) + XferWork(c, q.xfer)
    case WaitRead => 1 + XferWork(c, q.xfer)
    case Finished => 0
  }

  /** The steps that the buckets from count on may take. */
  ghost function BucketWork(c: Config, count: int): int {
    (|c.buckets| - count) * PerBucket(c)
  }

  lemma OneBucketLess(c: Config, count: int)
    ensures BucketWork(c, count + 1) == BucketWork(c, count) - PerBucket(c)
    ensures count <= |c.buckets| ==> BucketWork(c, count) >= 0
  {
    if count <= |c.buckets| {
      MulMono(0, |c.buckets| - count, PerBucket(c));
    }
  }

  /** An upper bound on the steps of rank r that are still to come. */
  ghost function Work(c: Config, r: nat, q: Rank): int {
    BucketWork(c, q.count) + (if r == 0 && q.pc == Publish then 2 else PhaseWork(c, q))
  }

  ghost function TotalWork(c: Config, ranks: seq<Rank>): int {
    if ranks == [] then 0 else TotalWork(c, ranks[..|ranks| - 1]) + Work(c, |ranks| - 1, ranks[|ranks| - 1])
  }

  lemma WorkNonNegative(c: Config, r: nat, q: Rank)
    requires ValidConfig(c) && r < c.ranks && RankOk(c, r, q)
    ensures Work(c, r, q) >= 0
  {
    hide RankOk, BucketWork;
    BucketRoom(c, r, q);
    OneBucketLess(c, q.count);
  }

  lemma BucketRoom(c: Config, r: nat, q: Rank)
    requires ValidConfig(c) && r < c.ranks && RankOk(c, r, q)
    ensures q.count <= |c.buckets|
    ensures q.pc in {Fill, Yield} ==> q.pos <= |Flatten(c.buckets)|
    ensures q.xfer.Running? ==> |q.xfer.copied| <= c.bucketSize
  {
    if q.xfer.Running? {
      CopiedBound(c.bucketSize, q.xfer.copied);
    }
    if q.pc == Fill && r == 0 {
      BucketSmall(c.buckets, q.count);
    }
    if q.pc == Yield && r > 0 {
      BucketSmall(c.buckets, q.count - 1);
    }
  }

  lemma {:induction false} TotalNonNegative(c: Config, ranks: seq<Rank>)
    requires ValidConfig(c) && |ranks| <= c.ranks && forall r | 0 <= r < |ranks| :: RankOk(c, r, ranks[r])
    ensures TotalWork(c, ranks) >= 0
  {
    hide RankOk;
    if ranks != [] {
      TotalNonNegative(c, ranks[..|ranks| - 1]);
      WorkNonNegative(c, |ranks| - 1, ranks[|ranks| - 1]);
    }
  }

  lemma {:induction false} TotalUpdate(c: Config, ranks: seq<Rank>, r: nat, q: Rank)
    requires r < |ranks|
    ensures TotalWork(c, ranks[r := q]) == TotalWork(c, ranks) + Work(c, r, q) - Work(c, r, ranks[r])
  {
    var n := |ranks| - 1;
    if r == n {
      assert ranks[r := q][..n] == ranks[..n];
    } else {
      TotalUpdate(c, ranks[..n], r, q);
      assert ranks[r := q][..n] == ranks[..n][r := q];
    }
  }

  ghost function Actor(a: Action): nat {
    if a.FillChunk? || a.EndFill? then 0 else a.r
  }

  lemma OnlyActorMoves(c: Config, s: State, a: Action)
    requires Inv(c, s) && Enabled(c, s, a)
    ensures Actor(a) < c.ranks && OnlyMoved(s.ranks, Apply(c, s, a).ranks, Actor(a))
  {
    hide RankOk, LinkOk;
  }

  /** Of all ranks only rank r may have changed. */
  ghost predicate OnlyMoved(before: seq<Rank>, after: seq<Rank>, r: nat) {
    r < |before| == |after| && after == before[r := after[r]]
  }

  /** Less is left to do for rank r. */
  ghost predicate WorkFell(c: Config, before: seq<Rank>, after: seq<Rank>, r: nat) {
    r < |before| == |after| && Work(c, r, after[r]) < Work(c, r, before[r])
  }

  /** What the invariant says about the quantities in the measure. */
  ghost predicate WorkFacts(c: Config, r: nat, q: Rank) {
    && r < c.ranks && q.count <= |c.buckets|
    && BucketWork(c, q.count + 1) == BucketWork(c, q.count) - PerBucket(c)
    && (q.pc in {Fill, Yield} ==> q.pos <= |Flatten(c.buckets)|)
    && (q.xfer.Running? ==> r > 0 && |q.xfer.copied| <= c.bucketSize && q.pc in {Yield, WaitNotif, WaitRead})
    && (r > 0 && q.pc in {Publish, WaitMeta} ==> q.xfer.Idle? && q.pos == 0)
    && (r > 0 && q.pc == Publish ==> q.op.None?)
    && (r == 0 ==> q.pc in {Fill, WaitPrev, Publish, WaitLast, Finished})
    && (r > 0 ==> q.pc in {Publish, WaitMeta, Yield, WaitNotif, WaitRead, Finished})
  }

  lemma WorkFactsHold(c: Config, s: State, r: nat)
    requires Inv(c, s) && r < c.ranks
    ensures WorkFacts(c, r, s.ranks[r])
  {
    hide RankOk, LinkOk, BucketWork, PerBucket, Flatten;
    var q := s.ranks[r];
    assert RankOk(c, r, q);
    BucketRoom(c, r, q);
    PcFacts(c, r, q);
    PhaseFacts(c, r, q);
    OneBucketLess(c, q.count);
  }

  lemma TransferWork(c: Config, s: State, a: Action)
    requires Enabled(c, s, a) && Actor(a) < c.ranks && WorkFacts(c, Actor(a), s.ranks[Actor(a)])
    requires a.BeginRead? || a.CopyByte? || a.FinishXfer? || a.TakeRead?
    ensures WorkFell(c, s.ranks, Apply(c, s, a).ranks, Actor(a))
  {
    hide BucketWork, Flatten, AllCopied;
  }

  lemma OtherWork(c: Config, s: State, a: Action)
    requires Enabled(c, s, a) && Actor(a) < c.ranks && WorkFacts(c, Actor(a), s.ranks[Actor(a)])
    requires !(a.BeginRead? || a.CopyByte? || a.FinishXfer? || a.TakeRead?)
    ensures WorkFell(c, s.ranks, Apply(c, s, a).ranks, Actor(a))
  {
    hide BucketWork, Flatten, MetaOf, View, Overwrite;
  }

  lemma ActorsWork(c: Config, s: State, a: Action)
    requires Inv(c, s) && Enabled(c, s, a)
    ensures Actor(a) < c.ranks && WorkFell(c, s.ranks, Apply(c, s, a).ranks, Actor(a))
  {
    hide Apply, Work, WorkFacts, RankOk, LinkOk;
    OnlyActorMoves(c, s, a);
    WorkFactsHold(c, s, Actor(a));
    if a.BeginRead? || a.CopyByte? || a.FinishXfer? || a.TakeRead? {
      TransferWork(c, s, a);
    } else {
      OtherWork(c, s, a);
    }
  }

  lemma PhaseFacts(c: Config, r: nat, q: Rank)
    requires ValidConfig(c) && r < c.ranks && RankOk(c, r, q)
    ensures r > 0 && q.pc in {Publish, WaitMeta} ==> q.xfer.Idle? && q.pos == 0
    ensures q.xfer.Running? ==> r > 0 && q.pc in {Yield, WaitNotif, WaitRead}
    ensures r > 0 && q.pc == Publish ==> q.op.None?
  {
  }

  /** The measure that bounds every run: each step of each rank lowers it, and it is never negative. */
  lemma StepDecreases(c: Config, s: State, a: Action)
    requires Inv(c, s) && Enabled(c, s, a)
    ensures 0 <= TotalWork(c, Apply(c, s, a).ranks) < TotalWork(c, s.ranks)
  {
    hide RankOk, LinkOk;
    OnlyActorMoves(c, s, a);
    ActorsWork(c, s, a);
    TotalUpdate(c, s.ranks, Actor(a), Apply(c, s, a).ranks[Actor(a)]);
    StepKeepsInv(c, s, a);
    TotalNonNegative(c, Apply(c, s, a).ranks);
  }

  lemma {:induction false} RunIsBounded(c: Config, s: State, run: seq<Action>)
    requires Inv(c, s) && Legal(c, s, run)
    ensures |run| <= TotalWork(c, s.ranks)
    decreases |run|
  {
    hide RankOk, LinkOk;
    TotalNonNegative(c, s.ranks);
    if run != [] {
      StepDecreases(c, s, run[0]);
      StepKeepsInv(c, s, run[0]);
      RunIsBounded(c, Apply(c, s, run[0]), run[1..]);
    }
  }

  /**
   Delivery: every run is finite, and a run that cannot be extended has every rank finished and every
   receiver in possession of exactly rank 0's entries, in order and byte for byte.
  */
  lemma ChainDelivers(c: Config, s: State, run: seq<Action>)
    requires ValidConfig(c) && Init(c, s) && Legal(c, s, run)
    ensures |run| <= TotalWork(c, s.ranks)
    ensures var last := Exec(c, s, run);
      (forall a :: !Enabled(c, last, a)) ==>
        AllFinished(c, last) && forall r | 0 < r < c.ranks :: last.ranks[r].yielded == Flatten(c.buckets)
  {
    hide RankOk, LinkOk;
    InitInv(c, s);
    RunIsBounded(c, s, run);
    RunKeepsInv(c, s, run);
    var last := Exec(c, s, run);
    StuckOnlyWhenFinished(c, last);
    if AllFinished(c, last) {
      forall r | 0 < r < c.ranks ensures last.ranks[r].yielded == Flatten(c.buckets) {
        YieldedIsPrefix(c, r, last.ranks[r]);
      }
    }
  }

  /**
   What rank 0 sends is what every rollout rank rebuilds, exactly when every weight that fits in a bucket lies
   in its bucket where its items can start.
  */
  lemma ChainTransfersWeights(ws: seq<Weight>, bucketSize: nat, ranks: nat, s: State, run: seq<Action>)
    requires bucketSize > 0 && ranks >= 2 && ValidWeights(ws) && DistinctNames(ws)
    requires var c := Config(ranks, bucketSize, Pack(Split(ws, bucketSize), bucketSize));
      Init(c, s) && Legal(c, s, run) && forall a :: !Enabled(c, Exec(c, s, run), a)
    ensures var c := Config(ranks, bucketSize, Pack(Split(ws, bucketSize), bucketSize));
      |Exec(c, s, run).ranks| == ranks && forall r | 0 < r < ranks ::
        RebuiltIf(SmallAligned(Flatten(c.buckets), bucketSize), Merge(Exec(c, s, run).ranks[r].yielded, bucketSize),
                  ws)
  {
    hide RankOk, LinkOk, Enabled, Init, Legal, Exec, Apply, Split, Merge, RebuiltIf, SmallAligned;
    PackCorrect(ws, bucketSize);
    ChainDelivers(Config(ranks, bucketSize, Pack(Split(ws, bucketSize), bucketSize)), s, run);
    TransferIdentity(ws, bucketSize);
  }
}
