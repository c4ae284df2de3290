/**
 The NCCL engine's double buffering (verl/verl/checkpoint_engine/nccl_checkpoint_engine.py): rank 0 fills one
 buffer while the broadcast of the other is under way; every receiver yields from one buffer while the next
 bucket arrives in the other.

 A broadcast reaches a receiver byte by byte, in any order and interleaved with all other steps, once rank 0
 has launched it and the receiver has posted it. For rank 0 it may complete at any moment after its launch:
 what has not arrived everywhere by then is in flight, and what is still to leave the buffer is read from the
 buffer itself. Its metadata arrives with it.
*/
module NcclBroadcast {
  import opened Arithmetic
  import opened Weights
  import opened Packing
  import opened Transfer

  datatype Config = Config(receivers: nat, bucketSize: nat, buckets: seq<Bucket>)

  ghost predicate ValidConfig(c: Config) {
    |c.buckets| >= 1 && forall b <- c.buckets :: Tiled(b) && Size(b) <= c.bucketSize
  }

  datatype SenderPc = Fill | Launching | Closing | Sent

  /** Rank 0: `side` is `send_buf`; `pending` is a broadcast that has not been awaited. */
  datatype Sender = Sender(bufs: seq<seq<byte>>, side: int, launched: nat, pos: nat, pending: bool, pc: SenderPc)

  datatype ReceiverPc = Waiting | Yielding | Finished

  /**
   A receiver: `side` is `send_buf`, from which it yields; `copied` are the bytes of the posted broadcast
   that have arrived in the other buffer.
  */
  datatype Receiver = Receiver(
    bufs: seq<seq<byte>>, side: int, count: nat, pos: nat, meta: BucketMeta,
    copied: Option<set<nat>>, pc: ReceiverPc, yielded: seq<Chunk>)

  /** `sent`: the bytes of the broadcasts that are complete for rank 0, wherever they are by now. */
  datatype State = State(sender: Sender, sent: seq<seq<byte>>, receivers: seq<Receiver>)

  datatype Action =
    | FillEntry | EndFill | Launch | AwaitDone | Close
    | CopyByte(r: nat, i: nat) | TakeBucket(r: nat) | YieldEntry(r: nat) | EndYield(r: nat)

  ghost predicate ShapeOf(bufs: seq<seq<byte>>, side: int, n: nat) {
    |bufs| == 2 && |bufs[0]| == |bufs[1]| == n && 0 <= side < 2
  }

  ghost predicate Shape(c: Config, s: State) {
    && ShapeOf(s.sender.bufs, s.sender.side, c.bucketSize) && |s.receivers| == c.receivers
    && (forall r | 0 <= r < c.receivers :: ShapeOf(s.receivers[r].bufs, s.receivers[r].side, c.bucketSize))
    && forall image <- s.sent :: |image| == c.bucketSize
  }

  /** Where the bytes of broadcast k come from: rank 0's buffer, until rank 0 counts the broadcast as complete. */
  ghost function Source(c: Config, s: Sender, sent: seq<seq<byte>>, k: nat): seq<byte> {
    if k < |sent| then sent[k] else if |s.bufs| == 2 then s.bufs[SideOf(k)] else []
  }

  /** Broadcast k is made from the buffer of its parity. */
  function SideOf(k: nat): int {
    k % 2
  }

  ghost predicate Enabled(c: Config, s: State, a: Action) {
    Shape(c, s) &&
    match a
    case FillEntry =>
      var q := s.sender;
      && q.pc == Fill && q.launched < |c.buckets| && q.pos < |c.buckets[q.launched]|
      && var e := c.buckets[q.launched][q.pos];
        // the loop's assertion that the chunk fits
        e.meta.offset.Some? && e.meta.offset.value + |e.data| <= c.bucketSize
    case EndFill =>
      s.sender.pc == Fill && s.sender.launched < |c.buckets| && s.sender.pos == |c.buckets[s.sender.launched]|
    case Launch => s.sender.pc == Launching && !s.sender.pending
    case AwaitDone => s.sender.pc in {Launching, Closing} && s.sender.pending && s.sender.launched > 0
    case Close => s.sender.pc == Closing && !s.sender.pending
    case CopyByte(r, i) =>
      && r < c.receivers && s.receivers[r].copied.Some? && s.receivers[r].count < s.sender.launched
      && i < c.bucketSize && i !in s.receivers[r].copied.value
    case TakeBucket(r) =>
      && r < c.receivers && s.receivers[r].pc == Waiting && s.receivers[r].copied.Some?
      && s.receivers[r].count < s.sender.launched && s.receivers[r].count < |c.buckets|
      && AllCopied(s.receivers[r].copied.value, c.bucketSize)
    case YieldEntry(r) =>
      r < c.receivers && s.receivers[r].pc == Yielding && s.receivers[r].pos < |s.receivers[r].meta.entries|
    case EndYield(r) =>
      r < c.receivers && s.receivers[r].pc == Yielding && s.receivers[r].pos == |s.receivers[r].meta.entries|
  }

  // ---------- what each step does ----------

  ghost function Filled(c: Config, q: Sender): Sender
    requires ShapeOf(q.bufs, q.side, c.bucketSize) && q.launched < |c.buckets| && q.pos < |c.buckets[q.launched]|
    requires var e := c.buckets[q.launched][q.pos];
      e.meta.offset.Some? && e.meta.offset.value + |e.data| <= c.bucketSize
  {
    var e := c.buckets[q.launched][q.pos];
    q.(bufs := q.bufs[q.side := Overwrite(q.bufs[q.side], e.meta.offset.value, e.data)], pos := q.pos + 1)
  }

  /** A new broadcast; after the last one the buffers are not swapped. */
  ghost function Launched(c: Config, q: Sender): Sender {
    if q.launched + 1 < |c.buckets| then q.(launched := q.launched + 1, side := 1 - q.side, pos := 0, pending := true,
                                            pc := Fill)
    else q.(launched := q.launched + 1, pending := true, pc := Closing)
  }

  ghost function Copied(c: Config, source: seq<byte>, q: Receiver, i: nat): Receiver
    requires |source| == c.bucketSize && ShapeOf(q.bufs, q.side, c.bucketSize) && q.copied.Some? && i < c.bucketSize
  {
    var b := q.bufs[1 - q.side][i := source[i]];
    q.(bufs := q.bufs[1 - q.side := b], copied := Some(q.copied.value + {i}))
  }

  /** The bucket is complete: swap, and post the next broadcast unless it was the last. */
  ghost function Taken(c: Config, q: Receiver): Receiver
    requires q.count < |c.buckets|
  {
    var meta := MetaOf(c.buckets, q.count);
    q.(side := 1 - q.side, count := q.count + 1, pos := 0, meta := meta,
       copied := if meta.isLast then None else Some({}), pc := Yielding)
  }

  ghost function YieldedOne(q: Receiver): Receiver
    requires |q.bufs| == 2 && 0 <= q.side < 2 && q.pos < |q.meta.entries|
  {
    q.(yielded := q.yielded + [View(q.bufs[q.side], q.meta.entries[q.pos])], pos := q.pos + 1)
  }

  ghost function SetReceiver(s: State, r: nat, q: Receiver): State
    requires r < |s.receivers|
  {
    s.(receivers := s.receivers[r := q])
  }

  ghost function Apply(c: Config, s: State, a: Action): State
    requires Enabled(c, s, a)
  {
    match a
    case FillEntry => s.(sender := Filled(c, s.sender))
    case EndFill => s.(sender := s.sender.(pc := Launching))
    case Launch => s.(sender := Launched(c, s.sender))
    case AwaitDone =>
      s.(sender := s.sender.(pending := false), sent := s.sent + [s.sender.bufs[SideOf(s.sender.launched - 1)]])
    case Close => s.(sender := s.sender.(pc := Sent))
    case CopyByte(r, i) =>
      var source := Source(c, s.sender, s.sent, s.receivers[r].count);
      assert |source| == c.bucketSize;
      SetReceiver(s, r, Copied(c, source, s.receivers[r], i))
    case TakeBucket(r) => SetReceiver(s, r, Taken(c, s.receivers[r]))
    case YieldEntry(r) => SetReceiver(s, r, YieldedOne(s.receivers[r]))
    case EndYield(r) =>
      var q := s.receivers[r];
      SetReceiver(s, r, q.(pc := if q.meta.isLast then Finished else Waiting))
  }

  ghost predicate Init(c: Config, s: State) {
    && Shape(c, s) && s.sender == Sender(s.sender.bufs, 0, 0, 0, false, Fill) && s.sent == []
    && forall r | 0 <= r < c.receivers ::
        s.receivers[r] == Receiver(s.receivers[r].bufs, 0, 0, 0, s.receivers[r].meta, Some({}), Waiting, [])
  }

  // ---------- the invariant ----------

  /** Broadcasts that rank 0 has awaited. */
  ghost function Awaited(q: Sender): int {
    q.launched - if q.pending then 1 else 0
  }

  ghost predicate SenderOk(c: Config, q: Sender) {
    var n := |c.buckets|;
    && ShapeOf(q.bufs, q.side, c.bucketSize) && n > 0 && q.launched <= n
    && (q.pending ==> q.launched > 0)
    && (q.pc in {Fill, Launching} ==>
          && q.launched < n && q.side == SideOf(q.launched) && HoldsUpTo(q.bufs[q.side], c.buckets[q.launched], q.pos)
          && (q.pc == Launching ==> q.pos == |c.buckets[q.launched]|)
          && (q.launched > 0 ==> Holds(q.bufs[1 - q.side], c.buckets[q.launched - 1])))
    && (q.pc in {Closing, Sent} ==>
          q.launched == n && q.side == SideOf(n - 1) && Holds(q.bufs[q.side], c.buckets[n - 1]))
    && (q.pc == Sent ==> !q.pending)
  }

  ghost function YieldedBy(c: Config, q: Receiver): seq<Chunk> {
    if q.count == 0 || q.count > |c.buckets| then []
    else if q.pc == Yielding && q.pos <= |c.buckets[q.count - 1]| then
      Flatten(c.buckets[..q.count - 1]) + c.buckets[q.count - 1][..q.pos]
    else Flatten(c.buckets[..q.count])
  }

  ghost predicate ReceiverOk(c: Config, q: Receiver) {
    var n := |c.buckets|;
    && ShapeOf(q.bufs, q.side, c.bucketSize) && q.count <= n && q.side == SideOf(q.count)
    && (q.copied.Some? <==> q.count < n)
    && (q.copied.Some? ==> forall i <- q.copied.value :: i < c.bucketSize)
    && (q.pc == Waiting ==> q.count < n) && (q.pc == Finished ==> q.count == n)
    && (q.pc == Yielding ==>
          && q.count > 0 && q.meta == MetaOf(c.buckets, q.count - 1) && q.pos <= |c.buckets[q.count - 1]|
          && Holds(q.bufs[q.side], c.buckets[q.count - 1]))
    && q.yielded == YieldedBy(c, q)
  }

  /** What rank 0 has sent are the buckets. */
  ghost predicate SentOk(c: Config, q: Sender, sent: seq<seq<byte>>) {
    && |sent| == Awaited(q) && |sent| <= |c.buckets|
    && forall k | 0 <= k < |sent| :: |sent[k]| == c.bucketSize && Holds(sent[k], c.buckets[k])
  }

  /** Rank 0 and one receiver: the bytes that have arrived are those of the broadcast. */
  ghost predicate LinkOk(c: Config, s: Sender, sent: seq<seq<byte>>, q: Receiver) {
    && q.count <= s.launched
    && (q.copied.Some? && q.count == s.launched ==> q.copied.value == {})
    && (q.copied.Some? && q.count < s.launched ==> BytesOk(c, s, sent, q))
  }

  ghost predicate BytesOk(c: Config, s: Sender, sent: seq<seq<byte>>, q: Receiver)
    requires q.copied.Some?
  {
    && |q.bufs| == 2 && 0 <= q.side < 2
    && SameBytes(q.bufs[1 - q.side], Source(c, s, sent, q.count), q.copied.value, c.bucketSize)
  }

  ghost predicate SameBytes(a: seq<byte>, b: seq<byte>, copied: set<nat>, n: nat) {
    |a| == |b| == n && forall i <- copied :: i < n ==> a[i] == b[i]
  }

  ghost predicate Inv(c: Config, s: State) {
    && ValidConfig(c) && Shape(c, s) && SenderOk(c, s.sender) && SentOk(c, s.sender, s.sent)
    && forall r | 0 <= r < c.receivers :: ReceiverOk(c, s.receivers[r]) && LinkOk(c, s.sender, s.sent, s.receivers[r])
  }

  lemma InitInv(c: Config, s: State)
    requires ValidConfig(c) && Init(c, s)
    ensures Inv(c, s)
  {
    hide Flatten;
  }

  // ---------- rank 0's steps ----------

  lemma FillFacts(c: Config, q: Sender)
    requires ValidConfig(c) && SenderOk(c, q) && q.pc == Fill
    ensures ShapeOf(q.bufs, q.side, c.bucketSize) && q.launched < |c.buckets|
    ensures HoldsUpTo(q.bufs[q.side], c.buckets[q.launched], q.pos)
    ensures Tiled(c.buckets[q.launched]) && Size(c.buckets[q.launched]) <= c.bucketSize
  {
    hide HoldsUpTo, Holds, Tiled, Size;
    assert c.buckets[q.launched] in c.buckets;
  }

  lemma FillKeepsSender(c: Config, q: Sender)
    requires ValidConfig(c) && SenderOk(c, q) && q.pc == Fill && q.pos < |c.buckets[q.launched]|
    ensures var e := c.buckets[q.launched][q.pos];
      e.meta.offset.Some? && e.meta.offset.value + |e.data| <= c.bucketSize
    ensures SenderOk(c, Filled(c, q))
  {
    hide SenderOk, ValidConfig, HoldsUpTo, Overwrite, Size;
    FillFacts(c, q);
    FillNext(q.bufs[q.side], c.buckets[q.launched], q.pos);
    FilledOk(c, q);
  }

  lemma FilledOk(c: Config, q: Sender)
    requires SenderOk(c, q) && q.pc == Fill && q.pos < |c.buckets[q.launched]|
    requires var e := c.buckets[q.launched][q.pos];
      e.meta.offset.Some? && e.meta.offset.value + |e.data| <= c.bucketSize
    requires HoldsUpTo(Filled(c, q).bufs[q.side], c.buckets[q.launched], q.pos + 1)
    ensures SenderOk(c, Filled(c, q))
  {
    hide HoldsUpTo, Holds, Overwrite;
  }

  /** Filling touches only the buffer that no broadcast is reading. */
  lemma SenderKeepsLink(c: Config, s: Sender, s': Sender, sent: seq<seq<byte>>, q: Receiver)
    requires SenderOk(c, s) && SentOk(c, s, sent) && LinkOk(c, s, sent, q)
    requires s' == s.(bufs := s'.bufs, pos := s'.pos, pc := s'.pc) && |s'.bufs| == 2
    requires s.pc in {Fill, Launching, Closing} && s'.bufs[1 - s.side] == s.bufs[1 - s.side]
    requires (s.pc == Closing ==> s'.bufs == s.bufs)
    ensures LinkOk(c, s', sent, q) && SentOk(c, s', sent)
  {
    hide SameBytes, HoldsUpTo, Holds;
  }

  lemma LaunchKeepsSender(c: Config, q: Sender)
    requires SenderOk(c, q) && q.pc == Launching && !q.pending
    ensures SenderOk(c, Launched(c, q))
  {
    hide HoldsEntry;
  }

  lemma LaunchKeepsLink(c: Config, s: Sender, sent: seq<seq<byte>>, q: Receiver)
    requires SenderOk(c, s) && SentOk(c, s, sent) && ReceiverOk(c, q) && LinkOk(c, s, sent, q) && s.pc == Launching
    requires !s.pending
    ensures LinkOk(c, Launched(c, s), sent, q) && SentOk(c, Launched(c, s), sent)
  {
    hide HoldsUpTo, Holds, YieldedBy;
  }

  /** The buffer of a broadcast that is under way holds its bucket. */
  lemma PendingHolds(c: Config, s: Sender)
    requires SenderOk(c, s) && s.pending
    ensures 0 < s.launched <= |c.buckets| && ShapeOf(s.bufs, s.side, c.bucketSize)
    ensures Holds(s.bufs[SideOf(s.launched - 1)], c.buckets[s.launched - 1])
  {
    hide HoldsUpTo, Holds;
  }

  lemma AwaitKeepsSent(c: Config, s: Sender, sent: seq<seq<byte>>)
    requires SenderOk(c, s) && SentOk(c, s, sent) && s.pending
    ensures ShapeOf(s.bufs, s.side, c.bucketSize) && s.launched > 0 && |sent| == Awaited(s)
    ensures SentOk(c, s.(pending := false), sent + [s.bufs[SideOf(s.launched - 1)]])
  {
    PendingHolds(c, s);
    hide Holds, SenderOk;
  }

  /** Nothing changes for a receiver when rank 0 counts a broadcast as complete. */
  lemma AwaitKeepsLink(c: Config, s: Sender, sent: seq<seq<byte>>, q: Receiver)
    requires ShapeOf(s.bufs, s.side, c.bucketSize) && |sent| == Awaited(s) && s.pending && s.launched > 0
    requires LinkOk(c, s, sent, q)
    ensures LinkOk(c, s.(pending := false), sent + [s.bufs[SideOf(s.launched - 1)]], q)
  {
    hide SameBytes;
  }

  // ---------- a receiver's steps ----------

  lemma CopyKeeps(c: Config, s: Sender, sent: seq<seq<byte>>, q: Receiver, i: nat)
    requires ReceiverOk(c, q) && LinkOk(c, s, sent, q) && |Source(c, s, sent, q.count)| == c.bucketSize
    requires q.copied.Some? && q.count < s.launched && i < c.bucketSize
    ensures ReceiverOk(c, Copied(c, Source(c, s, sent, q.count), q, i))
    ensures LinkOk(c, s, sent, Copied(c, Source(c, s, sent, q.count), q, i))
  {
    hide Flatten, HoldsUpTo, Holds, Source;
  }

  /** The broadcast that a receiver is waiting for carries its bucket. */
  lemma SourceHolds(c: Config, s: Sender, sent: seq<seq<byte>>, k: nat)
    requires SenderOk(c, s) && SentOk(c, s, sent) && k < s.launched
    ensures k < |c.buckets| && Holds(Source(c, s, sent, k), c.buckets[k])
  {
    if k >= |sent| {
      PendingHolds(c, s);
    }
    hide Holds;
  }

  lemma ArrivedWhole(c: Config, s: Sender, sent: seq<seq<byte>>, q: Receiver)
    requires SenderOk(c, s) && SentOk(c, s, sent) && LinkOk(c, s, sent, q)
    requires q.copied.Some? && q.count < s.launched && AllCopied(q.copied.value, c.bucketSize)
    ensures |q.bufs| == 2 && 0 <= q.side < 2 && q.count < |c.buckets| && Holds(q.bufs[1 - q.side], c.buckets[q.count])
  {
    SourceHolds(c, s, sent, q.count);
    hide Holds, SenderOk, SentOk, Source;
    var a, b := q.bufs[1 - q.side], Source(c, s, sent, q.count);
    assert |a| == |b| && forall i: nat :: i < c.bucketSize ==> a[i] == b[i];
    assert a == b;
  }

  lemma TakeKeepsReceiver(c: Config, q: Receiver)
    requires ReceiverOk(c, q) && q.pc == Waiting && q.copied.Some? && Holds(q.bufs[1 - q.side], c.buckets[q.count])
    ensures ReceiverOk(c, Taken(c, q))
  {
    hide HoldsUpTo, Holds;
    assert c.buckets[q.count][..0] == [] && Flatten(c.buckets[..0]) == [];
  }

  lemma TakeKeepsLink(c: Config, s: Sender, sent: seq<seq<byte>>, q: Receiver)
    requires ReceiverOk(c, q) && LinkOk(c, s, sent, q) && q.pc == Waiting && q.copied.Some? && q.count < s.launched
    requires |Source(c, s, sent, q.count + 1)| == c.bucketSize
    ensures LinkOk(c, s, sent, Taken(c, q))
  {
    hide Flatten, HoldsUpTo, Holds, YieldedBy, Source;
  }

  lemma YieldKeeps(c: Config, q: Receiver)
    requires ReceiverOk(c, q) && q.pc == Yielding && q.pos < |q.meta.entries|
    ensures ReceiverOk(c, YieldedOne(q))
  {
    hide Flatten;
    var b := c.buckets[q.count - 1];
    assert HoldsEntry(q.bufs[q.side], b[q.pos]);
    assert View(q.bufs[q.side], q.meta.entries[q.pos]) == b[q.pos];
    assert b[..q.pos + 1] == b[..q.pos] + [b[q.pos]];
  }

  lemma EndYieldKeeps(c: Config, q: Receiver)
    requires ReceiverOk(c, q) && q.pc == Yielding && q.pos == |q.meta.entries|
    ensures ReceiverOk(c, q.(pc := if q.meta.isLast then Finished else Waiting))
  {
    hide HoldsUpTo;
    var b := c.buckets[q.count - 1];
    assert b[..q.pos] == b;
    FlattenAppend(c.buckets[..q.count - 1], b);
    assert c.buckets[..q.count] == c.buckets[..q.count - 1] + [b];
  }

  /** A link does not depend on how far a receiver has yielded. */
  lemma YieldKeepsLink(c: Config, s: Sender, sent: seq<seq<byte>>, q: Receiver, q': Receiver)
    requires LinkOk(c, s, sent, q) && q' == q.(pos := q'.pos, pc := q'.pc, yielded := q'.yielded)
    ensures LinkOk(c, s, sent, q')
  {
    hide SameBytes, Source;
  }

  // ---------- the invariant is inductive ----------

  lemma ReceiverStep(c: Config, s: State, r: nat, q: Receiver)
    requires Inv(c, s) && r < c.receivers && ReceiverOk(c, q) && LinkOk(c, s.sender, s.sent, q)
    ensures Inv(c, SetReceiver(s, r, q))
  {
    ReceiverShape(c, q);
    hide ReceiverOk, LinkOk, SenderOk, SentOk, ValidConfig;
    var s' := SetReceiver(s, r, q);
    forall k | 0 <= k < c.receivers
      ensures ReceiverOk(c, s'.receivers[k]) && LinkOk(c, s.sender, s.sent, s'.receivers[k])
    {
      if k != r {
        assert ReceiverOk(c, s.receivers[k]) && LinkOk(c, s.sender, s.sent, s.receivers[k]);
      }
    }
  }

  lemma ReceiverShape(c: Config, q: Receiver)
    requires ReceiverOk(c, q)
    ensures ShapeOf(q.bufs, q.side, c.bucketSize)
  {
  }

  lemma SenderStep(c: Config, s: State, q: Sender, sent: seq<seq<byte>>)
    requires Inv(c, s) && SenderOk(c, q) && SentOk(c, q, sent)
    requires forall r | 0 <= r < c.receivers :: LinkOk(c, q, sent, s.receivers[r])
    ensures Inv(c, s.(sender := q, sent := sent))
  {
    SenderShape(c, q);
    SentShape(c, q, sent);
    hide ReceiverOk, LinkOk, SenderOk, SentOk, ValidConfig;
  }

  lemma SenderShape(c: Config, q: Sender)
    requires SenderOk(c, q)
    ensures ShapeOf(q.bufs, q.side, c.bucketSize)
  {
  }

  lemma SentShape(c: Config, q: Sender, sent: seq<seq<byte>>)
    requires SentOk(c, q, sent)
    ensures forall image <- sent :: |image| == c.bucketSize
  {
  }

  lemma StepSender(c: Config, s: State, a: Action)
    requires Inv(c, s) && Enabled(c, s, a) && (a.FillEntry? || a.EndFill? || a.Close?)
    ensures Inv(c, Apply(c, s, a))
  {
    var q, q' := s.sender, Apply(c, s, a).sender;
    if a.FillEntry? {
      FillKeepsSender(c, q);
    } else {
      PcKeepsSender(c, q, q'.pc);
    }
    hide SenderOk, SentOk, ReceiverOk, LinkOk, Overwrite;
    SenderShape(c, q);
    SentAlone(c, q, q', s.sent);
    forall r | 0 <= r < c.receivers ensures LinkOk(c, q', s.sent, s.receivers[r]) {
      assert LinkOk(c, q, s.sent, s.receivers[r]);
      SenderKeepsLink(c, q, q', s.sent, s.receivers[r]);
    }
    SenderStep(c, s, q', s.sent);
  }

  lemma SentAlone(c: Config, q: Sender, q': Sender, sent: seq<seq<byte>>)
    requires SentOk(c, q, sent) && q'.launched == q.launched && q'.pending == q.pending
    ensures SentOk(c, q', sent)
  {
    hide Holds;
  }

  lemma PcKeepsSender(c: Config, q: Sender, pc: SenderPc)
    requires SenderOk(c, q)
    requires (q.pc == Fill && pc == Launching && q.pos == |c.buckets[q.launched]|)
             || (q.pc == Closing && pc == Sent && !q.pending)
    ensures SenderOk(c, q.(pc := pc))
  {
    hide HoldsUpTo;
  }

  lemma SentLaunched(c: Config, q: Sender, sent: seq<seq<byte>>)
    requires SentOk(c, q, sent) && !q.pending
    ensures SentOk(c, Launched(c, q), sent)
  {
    hide Holds;
  }

  lemma StepLaunch(c: Config, s: State)
    requires Inv(c, s) && Enabled(c, s, Launch)
    ensures Inv(c, Apply(c, s, Launch))
  {
    hide SenderOk, SentOk, ReceiverOk, LinkOk;
    LaunchKeepsSender(c, s.sender);
    SentLaunched(c, s.sender, s.sent);
    forall r | 0 <= r < c.receivers ensures LinkOk(c, Launched(c, s.sender), s.sent, s.receivers[r]) {
      assert ReceiverOk(c, s.receivers[r]) && LinkOk(c, s.sender, s.sent, s.receivers[r]);
      LaunchKeepsLink(c, s.sender, s.sent, s.receivers[r]);
    }
    SenderStep(c, s, Launched(c, s.sender), s.sent);
  }

  lemma StepAwait(c: Config, s: State)
    requires Inv(c, s) && Enabled(c, s, AwaitDone)
    ensures Inv(c, Apply(c, s, AwaitDone))
  {
    hide SenderOk, SentOk, ReceiverOk, LinkOk;
    AwaitKeepsSender(c, s.sender);
    AwaitKeepsSent(c, s.sender, s.sent);
    var sent' := s.sent + [s.sender.bufs[SideOf(s.sender.launched - 1)]];
    forall r | 0 <= r < c.receivers ensures LinkOk(c, s.sender.(pending := false), sent', s.receivers[r]) {
      assert LinkOk(c, s.sender, s.sent, s.receivers[r]);
      AwaitKeepsLink(c, s.sender, s.sent, s.receivers[r]);
    }
    SenderStep(c, s, s.sender.(pending := false), sent');
  }

  lemma AwaitKeepsSender(c: Config, q: Sender)
    requires SenderOk(c, q)
    ensures SenderOk(c, q.(pending := false))
  {
    hide HoldsUpTo, Holds;
  }

  lemma SourceSize(c: Config, s: State, k: nat)
    requires Shape(c, s)
    ensures |Source(c, s.sender, s.sent, k)| == c.bucketSize
  {
  }

  lemma StepReceiver(c: Config, s: State, a: Action)
    requires Inv(c, s) && Enabled(c, s, a) && (a.CopyByte? || a.TakeBucket? || a.YieldEntry? || a.EndYield?)
    ensures Inv(c, Apply(c, s, a))
  {
    hide SenderOk, SentOk, ReceiverOk, LinkOk, AllCopied, Copied, Taken, YieldedOne, Source;
    var q := s.receivers[a.r];
    assert ReceiverOk(c, q) && LinkOk(c, s.sender, s.sent, q);
    match a
    case CopyByte(r, i) =>
      SourceSize(c, s, q.count);
      CopyKeeps(c, s.sender, s.sent, q, i);
      ReceiverStep(c, s, r, Copied(c, Source(c, s.sender, s.sent, q.count), q, i));
    case TakeBucket(r) =>
      ArrivedWhole(c, s.sender, s.sent, q);
      TakeKeepsReceiver(c, q);
      SourceSize(c, s, q.count + 1);
      TakeKeepsLink(c, s.sender, s.sent, q);
      ReceiverStep(c, s, r, Taken(c, q));
    case YieldEntry(r) =>
      YieldKeeps(c, q);
      YieldIs(q);
      YieldKeepsLink(c, s.sender, s.sent, q, YieldedOne(q));
      ReceiverStep(c, s, r, YieldedOne(q));
    case EndYield(r) =>
      EndYieldKeeps(c, q);
      var q' := q.(pc := if q.meta.isLast then Finished else Waiting);
      YieldKeepsLink(c, s.sender, s.sent, q, q');
      ReceiverStep(c, s, r, q');
  }

  lemma YieldIs(q: Receiver)
    requires |q.bufs| == 2 && 0 <= q.side < 2 && q.pos < |q.meta.entries|
    ensures var q' := YieldedOne(q); q' == q.(pos := q'.pos, pc := q'.pc, yielded := q'.yielded)
  {
  }

  /** Every step of rank 0 and of every receiver keeps the invariant. */
  lemma StepKeepsInv(c: Config, s: State, a: Action)
    requires Inv(c, s) && Enabled(c, s, a)
    ensures Inv(c, Apply(c, s, a))
  {
    hide Inv, Enabled, Apply;
    if a.FillEntry? || a.EndFill? || a.Close? {
      StepSender(c, s, a);
    } else if a.Launch? {
      StepLaunch(c, s);
    } else if a.AwaitDone? {
      StepAwait(c, s);
    } else {
      StepReceiver(c, s, a);
    }
  }

  // ---------- safety ----------

  /** Rank 0 never writes the buffer of a broadcast it has not awaited. */
  lemma NoOverwrite(c: Config, s: State, a: Action)
    requires Inv(c, s) && Enabled(c, s, a) && s.sender.pending
    ensures var side := SideOf(s.sender.launched - 1);
      SameBuffer(s.sender.bufs, Apply(c, s, a).sender.bufs, side)
  {
    hide ReceiverOk, LinkOk, SentOk, HoldsUpTo, Overwrite, AllCopied, Copied, Taken, YieldedOne;
  }

  /** Buffer `side` is the same in both pairs of buffers. */
  ghost predicate SameBuffer(bufs: seq<seq<byte>>, bufs': seq<seq<byte>>, side: int) {
    0 <= side < 2 && |bufs| == |bufs'| == 2 && bufs'[side] == bufs[side]
  }

  lemma OtherActionsKeepReceiver(c: Config, s: State, a: Action, r: nat)
    requires Enabled(c, s, a) && r < c.receivers
    requires a.FillEntry? || a.EndFill? || a.Launch? || a.AwaitDone? || a.Close? || a.r != r
    ensures |Apply(c, s, a).receivers| == c.receivers && Apply(c, s, a).receivers[r] == s.receivers[r]
  {
    hide Overwrite, Copied, Taken, YieldedOne, Source, AllCopied;
  }

  /** While a receiver yields, broadcast bytes go to its other buffer. */
  lemma OwnActionKeepsSide(c: Config, s: State, a: Action, r: nat)
    requires Enabled(c, s, a) && r < c.receivers && s.receivers[r].pc == Yielding && 0 <= s.receivers[r].side < 2
    requires (a.CopyByte? || a.TakeBucket? || a.YieldEntry? || a.EndYield?) && a.r == r
    ensures |Apply(c, s, a).receivers| == c.receivers
    ensures var q, q' := s.receivers[r], Apply(c, s, a).receivers[r];
      q'.side == q.side && SameBuffer(q.bufs, q'.bufs, q.side)
  {
    hide AllCopied, Source;
  }

  /** What a receiver yields from keeps its value until all of the bucket has been yielded. */
  lemma ViewsStable(c: Config, s: State, a: Action, r: nat)
    requires Inv(c, s) && Enabled(c, s, a) && r < c.receivers && s.receivers[r].pc == Yielding
    ensures |Apply(c, s, a).receivers| == c.receivers
    ensures var q, q' := s.receivers[r], Apply(c, s, a).receivers[r];
      q'.side == q.side && SameBuffer(q.bufs, q'.bufs, q.side)
  {
    hide SenderOk, SentOk, ReceiverOk, LinkOk, Enabled, Apply;
    assert ReceiverOk(c, s.receivers[r]);
    ReceiverShape(c, s.receivers[r]);
    if (a.CopyByte? || a.TakeBucket? || a.YieldEntry? || a.EndYield?) && a.r == r {
      OwnActionKeepsSide(c, s, a, r);
    } else {
      OtherActionsKeepReceiver(c, s, a, r);
    }
  }

  ghost predicate Legal(c: Config, s: State, run: seq<Action>)
    decreases |run|
  {
    run == [] || (Enabled(c, s, run[0]) && Legal(c, Apply(c, s, run[0]), run[1..]))
  }

  ghost function Exec(c: Config, s: State, run: seq<Action>): State
    requires Legal(c, s, run)
    decreases |run|
  {
    if run == [] then s else Exec(c, Apply(c, s, run[0]), run[1..])
  }

  lemma {:induction false} RunKeepsInv(c: Config, s: State, run: seq<Action>)
    requires Inv(c, s) && Legal(c, s, run)
    ensures Inv(c, Exec(c, s, run))
    decreases |run|
  {
    hide Inv, Enabled, Apply;
    if run != [] {
      StepKeepsInv(c, s, run[0]);
      RunKeepsInv(c, Apply(c, s, run[0]), run[1..]);
    }
  }

  // ---------- progress ----------

  ghost predicate AllDone(c: Config, s: State) {
    Shape(c, s) && s.sender.pc == Sent && forall r | 0 <= r < c.receivers :: s.receivers[r].pc == Finished
  }

  lemma FillMoves(c: Config, s: State) returns (a: Action)
    requires Inv(c, s) && s.sender.pc == Fill
    ensures Enabled(c, s, a)
  {
    hide ReceiverOk, LinkOk, AllCopied;
    SenderPlace(c, s.sender);
    if s.sender.pos < |c.buckets[s.sender.launched]| {
      FillKeepsSender(c, s.sender);
      a := FillEntry;
    } else {
      a := EndFill;
    }
  }

  lemma SenderPlace(c: Config, q: Sender)
    requires SenderOk(c, q) && q.pc == Fill
    ensures q.launched < |c.buckets| && q.pos <= |c.buckets[q.launched]|
  {
  }

  lemma ReceiverFacts(c: Config, s: Sender, sent: seq<seq<byte>>, q: Receiver)
    requires ReceiverOk(c, q) && LinkOk(c, s, sent, q)
    ensures q.pc == Yielding ==> q.pos <= |q.meta.entries|
    ensures q.pc == Waiting ==> q.copied.Some? && q.count < |c.buckets|
    ensures q.count <= s.launched && (q.pc == Finished ==> q.count == |c.buckets|)
    ensures q.copied.Some? ==> q.count < |c.buckets|
  {
  }

  /** A receiver can move when it yields, or when a broadcast it has posted has been launched. */
  lemma ReceiverMoves(c: Config, s: State, r: nat) returns (a: Action)
    requires Inv(c, s) && r < c.receivers
    requires s.receivers[r].pc == Yielding || (s.receivers[r].pc == Waiting && s.receivers[r].count < s.sender.launched)
    ensures Enabled(c, s, a)
  {
    hide SenderOk, ReceiverOk, LinkOk;
    var q := s.receivers[r];
    assert ReceiverOk(c, q) && LinkOk(c, s.sender, s.sent, q);
    ReceiverFacts(c, s.sender, s.sent, q);
    if q.pc == Yielding {
      a := if q.pos < |q.meta.entries| then YieldEntry(r) else EndYield(r);
    } else if AllCopied(q.copied.value, c.bucketSize) {
      a := TakeBucket(r);
    } else {
      var i: nat :| i < c.bucketSize && i !in q.copied.value;
      a := CopyByte(r, i);
    }
  }

  lemma SenderCount(c: Config, q: Sender)
    requires SenderOk(c, q)
    ensures q.launched <= |c.buckets| && (q.pc in {Closing, Sent} ==> q.launched == |c.buckets|)
    ensures q.pending ==> q.launched > 0
    ensures q.pc == Sent ==> !q.pending
  {
  }

  /** A state in which nothing can happen is one in which everyone has finished. */
  lemma StuckOnlyWhenDone(c: Config, s: State)
    requires Inv(c, s) && forall a :: !Enabled(c, s, a)
    ensures AllDone(c, s)
  {
    hide SenderOk, ReceiverOk, LinkOk, SentOk, AllCopied;
    assert SenderOk(c, s.sender);
    SenderCount(c, s.sender);
    if s.sender.pc != Sent {
      var a := SenderMoves(c, s);
    }
    forall r | 0 <= r < c.receivers ensures s.receivers[r].pc == Finished {
      assert ReceiverOk(c, s.receivers[r]) && LinkOk(c, s.sender, s.sent, s.receivers[r]);
      ReceiverFacts(c, s.sender, s.sent, s.receivers[r]);
      if s.receivers[r].pc != Finished {
        var a := ReceiverMoves(c, s, r);
      }
    }
  }

  lemma SenderMoves(c: Config, s: State) returns (a: Action)
    requires Inv(c, s) && s.sender.pc != Sent
    ensures Enabled(c, s, a)
  {
    hide SenderOk, ReceiverOk, LinkOk, SentOk, AllCopied;
    assert SenderOk(c, s.sender);
    SenderCount(c, s.sender);
    if s.sender.pc == Fill {
      a := FillMoves(c, s);
    } else if !s.sender.pending {
      a := if s.sender.pc == Launching then Launch else Close;
    } else {
      a := AwaitDone;
    }
  }

  // ---------- every run is finite ----------

  /** The steps that the buckets from count on may take, at `per` steps each. */
  ghost function BucketWork(c: Config, count: nat, per: nat): int {
    (|c.buckets| - count) * per
  }

  lemma OneBucketLess(c: Config, count: nat, per: nat)
    requires count < |c.buckets|
    ensures BucketWork(c, count + 1, per) == BucketWork(c, count, per) - per
  {
  }

  lemma BucketWorkLeft(c: Config, count: nat, per: nat)
    requires count <= |c.buckets|
    ensures BucketWork(c, count, per) >= 0
  {
    MulMono(0, |c.buckets| - count, per);
  }

  ghost function SenderWork(c: Config, q: Sender): int {
    var n := |Flatten(c.buckets)|;
    BucketWork(c, q.launched, n + 4) + (if q.pending then 1 else 0) +
      match q.pc
      case Fill => 1 + n - q.pos
      case Launching => 0
      case Closing => 1
      case Sent => 0
  }

  ghost function ReceiverWork(c: Config, q: Receiver): int {
    var n := |Flatten(c.buckets)|;
    BucketWork(c, q.count, n + c.bucketSize + 4) + (if q.copied.Some? then c.bucketSize - |q.copied.value| else 0) +
      match q.pc
      case Yielding => 2 + n - q.pos
      case Waiting => 1
      case Finished => 0
  }

  ghost function ReceiversWork(c: Config, qs: seq<Receiver>): int {
    if qs == [] then 0 else ReceiversWork(c, qs[..|qs| - 1]) + ReceiverWork(c, qs[|qs| - 1])
  }

  ghost function TotalWork(c: Config, s: State): int {
    SenderWork(c, s.sender) + ReceiversWork(c, s.receivers)
  }

  lemma {:induction false} WorkUpdate(c: Config, qs: seq<Receiver>, r: nat, q: Receiver)
    requires r < |qs|
    ensures ReceiversWork(c, qs[r := q]) == ReceiversWork(c, qs) + ReceiverWork(c, q) - ReceiverWork(c, qs[r])
  {
    hide ReceiverWork;
    var n := |qs| - 1;
    if r == n {
      assert qs[r := q][..n] == qs[..n];
    } else {
      WorkUpdate(c, qs[..n], r, q);
      assert qs[r := q][..n] == qs[..n][r := q];
    }
  }

  lemma SenderRoom(c: Config, q: Sender)
    requires ValidConfig(c) && SenderOk(c, q)
    ensures q.launched <= |c.buckets| && (q.pc in {Fill, Launching} ==> q.launched < |c.buckets|)
    ensures q.pc == Fill ==> q.pos <= |Flatten(c.buckets)|
    ensures SenderWork(c, q) >= 0
  {
    hide Flatten, HoldsUpTo, BucketWork;
    if q.pc == Fill {
      SenderPlace(c, q);
      BucketSmall(c.buckets, q.launched);
    }
    BucketWorkLeft(c, q.launched, |Flatten(c.buckets)| + 4);
  }

  lemma ReceiverRoom(c: Config, q: Receiver)
    requires ReceiverOk(c, q)
    ensures q.count <= |c.buckets| && (q.copied.Some? ==> |q.copied.value| <= c.bucketSize)
    ensures q.pc == Yielding ==> q.pos <= |Flatten(c.buckets)|
    ensures ReceiverWork(c, q) >= 0
  {
    hide Flatten, HoldsUpTo, BucketWork, YieldedBy;
    if q.pc == Yielding {
      BucketSmall(c.buckets, q.count - 1);
    }
    if q.copied.Some? {
      CopiedBound(c.bucketSize, q.copied.value);
    }
    BucketWorkLeft(c, q.count, |Flatten(c.buckets)| + c.bucketSize + 4);
  }

  lemma {:induction false} ReceiversRoom(c: Config, qs: seq<Receiver>)
    requires forall q <- qs :: ReceiverOk(c, q)
    ensures ReceiversWork(c, qs) >= 0
  {
    hide ReceiverOk, ReceiverWork;
    if qs != [] {
      assert qs[|qs| - 1] in qs && forall q <- qs[..|qs| - 1] :: q in qs;
      ReceiversRoom(c, qs[..|qs| - 1]);
      ReceiverRoom(c, qs[|qs| - 1]);
    }
  }

  lemma SenderSteps(c: Config, s: State, a: Action)
    requires Inv(c, s) && Enabled(c, s, a) && (a.FillEntry? || a.EndFill? || a.Launch? || a.AwaitDone? || a.Close?)
    ensures TotalWork(c, Apply(c, s, a)) < TotalWork(c, s)
  {
    hide SenderOk, ReceiverOk, LinkOk, Flatten, BucketWork, Overwrite, SentOk, ReceiversWork;
    assert SenderOk(c, s.sender);
    SenderRoom(c, s.sender);
    if a.Launch? {
      OneBucketLess(c, s.sender.launched, |Flatten(c.buckets)| + 4);
    }
  }

  lemma CopiedWork(c: Config, source: seq<byte>, q: Receiver, i: nat)
    requires |source| == c.bucketSize && ShapeOf(q.bufs, q.side, c.bucketSize) && q.copied.Some? && i < c.bucketSize
    requires i !in q.copied.value
    ensures ReceiverWork(c, Copied(c, source, q, i)) < ReceiverWork(c, q)
  {
    hide BucketWork, Flatten;
    assert |q.copied.value + {i}| == |q.copied.value| + 1;
  }

  lemma TakenWork(c: Config, q: Receiver)
    requires q.count < |c.buckets| && q.pc == Waiting && q.copied.Some? && |q.copied.value| <= c.bucketSize
    ensures ReceiverWork(c, Taken(c, q)) < ReceiverWork(c, q)
  {
    OneBucketLess(c, q.count, |Flatten(c.buckets)| + c.bucketSize + 4);
    hide BucketWork, Flatten, Metas;
  }

  lemma YieldedWork(c: Config, q: Receiver)
    requires |q.bufs| == 2 && 0 <= q.side < 2 && q.pos < |q.meta.entries| && q.pc == Yielding
    ensures ReceiverWork(c, YieldedOne(q)) < ReceiverWork(c, q)
  {
    hide BucketWork, Flatten, View;
  }

  lemma EndYieldWork(c: Config, q: Receiver)
    requires q.pc == Yielding && q.pos <= |Flatten(c.buckets)|
    ensures ReceiverWork(c, q.(pc := if q.meta.isLast then Finished else Waiting)) < ReceiverWork(c, q)
  {
    hide BucketWork, Flatten;
  }

  lemma ReceiverSteps(c: Config, s: State, a: Action)
    requires Inv(c, s) && Enabled(c, s, a) && (a.CopyByte? || a.TakeBucket? || a.YieldEntry? || a.EndYield?)
    ensures TotalWork(c, Apply(c, s, a)) < TotalWork(c, s)
  {
    hide SenderOk, SentOk, ReceiverOk, LinkOk, Flatten, ReceiverWork, SenderWork, AllCopied, ReceiversWork, Source;
    hide Copied, Taken, YieldedOne;
    var q := s.receivers[a.r];
    assert ReceiverOk(c, q);
    ReceiverRoom(c, q);
    match a
    case CopyByte(r, i) =>
      SourceSize(c, s, q.count);
      CopiedWork(c, Source(c, s.sender, s.sent, q.count), q, i);
      WorkUpdate(c, s.receivers, r, Copied(c, Source(c, s.sender, s.sent, q.count), q, i));
    case TakeBucket(r) =>
      TakenWork(c, q);
      WorkUpdate(c, s.receivers, r, Taken(c, q));
    case YieldEntry(r) =>
      YieldedWork(c, q);
      WorkUpdate(c, s.receivers, r, YieldedOne(q));
    case EndYield(r) =>
      EndYieldWork(c, q);
      WorkUpdate(c, s.receivers, r, q.(pc := if q.meta.isLast then Finished else Waiting));
  }

  /** The measure that bounds every run: each step lowers it, and it is never negative. */
  lemma StepDecreases(c: Config, s: State, a: Action)
    requires Inv(c, s) && Enabled(c, s, a)
    ensures TotalWork(c, Apply(c, s, a)) < TotalWork(c, s)
  {
    hide Inv, Enabled, Apply, TotalWork;
    if a.CopyByte? || a.TakeBucket? || a.YieldEntry? || a.EndYield? {
      ReceiverSteps(c, s, a);
    } else {
      SenderSteps(c, s, a);
    }
  }

  lemma TotalNonNegative(c: Config, s: State)
    requires Inv(c, s)
    ensures TotalWork(c, s) >= 0
  {
    hide SenderOk, ReceiverOk, LinkOk, SenderWork, ReceiversWork;
    assert SenderOk(c, s.sender);
    SenderRoom(c, s.sender);
    forall q <- s.receivers ensures ReceiverOk(c, q) {
      var r :| 0 <= r < |s.receivers| && s.receivers[r] == q;
      assert ReceiverOk(c, s.receivers[r]);
    }
    ReceiversRoom(c, s.receivers);
  }

  lemma {:induction false} RunIsBounded(c: Config, s: State, run: seq<Action>)
    requires Inv(c, s) && Legal(c, s, run)
    ensures |run| <= TotalWork(c, s)
    decreases |run|
  {
    hide Inv, Enabled, Apply, TotalWork;
    TotalNonNegative(c, s);
    if run != [] {
      StepDecreases(c, s, run[0]);
      StepKeepsInv(c, s, run[0]);
      RunIsBounded(c, Apply(c, s, run[0]), run[1..]);
    }
  }

  /**
   Delivery: every run is finite, and in a run that cannot be extended every receiver has yielded rank 0's
   entries, in order and byte for byte.
  */
  lemma BroadcastDelivers(c: Config, s: State, run: seq<Action>)
    requires ValidConfig(c) && Init(c, s) && Legal(c, s, run)
    ensures |run| <= TotalWork(c, s)
    ensures var last := Exec(c, s, run);
      (forall a :: !Enabled(c, last, a)) ==>
        AllDone(c, last) && forall r | 0 <= r < c.receivers :: last.receivers[r].yielded == Flatten(c.buckets)
  {
    InitInv(c, s);
    hide SenderOk, ReceiverOk, LinkOk, Enabled, Init, TotalWork;
    RunIsBounded(c, s, run);
    RunKeepsInv(c, s, run);
    var last := Exec(c, s, run);
    if forall a :: !Enabled(c, last, a) {
      StuckOnlyWhenDone(c, last);
      forall r | 0 <= r < c.receivers ensures last.receivers[r].yielded == Flatten(c.buckets) {
        assert ReceiverOk(c, last.receivers[r]);
        FinishedHasAll(c, last.receivers[r]);
      }
    }
  }

  lemma FinishedHasAll(c: Config, q: Receiver)
    requires ValidConfig(c) && ReceiverOk(c, q) && q.pc == Finished
    ensures q.yielded == Flatten(c.buckets)
  {
    assert c.buckets[..|c.buckets|] == c.buckets;
  }

  lemma PackedConfig(receivers: nat, bucketSize: nat, buckets: seq<Bucket>)
    requires |buckets| >= 1 && ValidBuckets(buckets, bucketSize)
    ensures ValidConfig(Config(receivers, bucketSize, buckets))
  {
    hide Tiled, Size;
  }

  /**
   What rank 0 broadcasts is what every rollout rank rebuilds, exactly when every weight that fits in a bucket
   lies in its bucket where its items can start.
  */
  lemma BroadcastTransfersWeights(ws: seq<Weight>, bucketSize: nat, receivers: nat, s: State, run: seq<Action>)
    requires bucketSize > 0 && ValidWeights(ws) && DistinctNames(ws)
    requires var c := Config(receivers, bucketSize, Pack(Split(ws, bucketSize), bucketSize));
      Init(c, s) && Legal(c, s, run) && forall a :: !Enabled(c, Exec(c, s, run), a)
    ensures var c := Config(receivers, bucketSize, Pack(Split(ws, bucketSize), bucketSize));
      |Exec(c, s, run).receivers| == receivers && forall r | 0 <= r < receivers ::
        RebuiltIf(SmallAligned(Flatten(c.buckets), bucketSize),
                  Merge(Exec(c, s, run).receivers[r].yielded, bucketSize), ws)
  {
    hide SenderOk, ReceiverOk, LinkOk, Enabled, Init, Legal, Exec, Apply, Split, Merge, RebuiltIf;
    hide SmallAligned;
    PackCorrect(ws, bucketSize);
    TransferIdentity(ws, bucketSize);
    PackedConfig(receivers, bucketSize, Pack(Split(ws, bucketSize), bucketSize));
    var c := Config(receivers, bucketSize, Pack(Split(ws, bucketSize), bucketSize));
    BroadcastDelivers(c, s, run);
    assert |Exec(c, s, run).receivers| == receivers;
  }
}
