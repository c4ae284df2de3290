/**
 The Mooncake pipeline (verl/verl/checkpoint_engine/mooncake_checkpoint_engine.py). Buckets run down
 a chain of ranks as in the NIXL engine, but a reader reports completion by setting one of two magic
 slots of its predecessor, and a rank clears a slot before it reuses the buffer of the same parity.

 Reads are modelled byte by byte, interleaved with the steps of all other ranks; setting a slot and
 testing-and-clearing it are single steps.
*/
module MooncakeChain {
  import opened Arithmetic
  import opened Weights
  import opened Packing

  datatype Config = Config(ranks: nat, bucketSize: nat, buckets: seq<Bucket>)

  ghost predicate ValidConfig(c: Config) {
    && c.ranks >= 2 && |c.buckets| >= 1
    && forall b <- c.buckets :: Tiled(b) && Size(b) <= c.bucketSize
  }

  /** The object passed down the store: where the bucket lies, which slot to set, its length and metadata. */
  datatype Info = Info(src: int, slot: int, len: nat, meta: BucketMeta)

  datatype Pc = Fill | Send | WaitSlot | WaitLast | Recv | Reading | Forward | Yield | Signal | Finished

  /**
   `count`: buckets sent by rank 0, or consumed (and signalled) by another rank. `viewed`: no view of what the
   rank has yielded was refused; a rank on which one was goes on like any other in this model.
  */
  datatype Rank = Rank(
    pc: Pc, count: nat, pos: nat, bufs: seq<seq<byte>>, slots: seq<bool>,
    info: Info, copied: set<nat>, yielded: seq<Chunk>, viewed: bool)

  /** `queues[r]` holds what rank r has sent and rank r + 1 has not yet received. */
  datatype State = State(ranks: seq<Rank>, queues: seq<seq<Info>>)

  datatype Action =
    | FillEntry
    | EndFill
    | SendBucket
    | TakeSlot(r: nat)
    | Receive(r: nat)
    | CopyByte(r: nat, i: nat)
    | EndRead(r: nat)
    | ForwardInfo(r: nat)
    | YieldEntry(r: nat)
    | EndYield(r: nat)
    | SignalDone(r: nat)

  ghost predicate Shape(c: Config, s: State) {
    && |s.ranks| == c.ranks >= 2 && |s.queues| == c.ranks - 1
    && forall r | 0 <= r < c.ranks :: RankShape(c, s.ranks[r])
  }

  ghost predicate RankShape(c: Config, q: Rank) {
    && |q.bufs| == 2 && |q.bufs[0]| == |q.bufs[1]| == c.bucketSize && |q.slots| == 2
    && 0 <= q.info.src < 2 && 0 <= q.info.slot < 2 && q.info.len <= c.bucketSize
  }

  /** The slot rank r tests: of the bucket two before, or, at the very end, of the last bucket. */
  function AwaitedSlot(q: Rank): int {
    if q.pc == WaitLast then (q.count + 1) % 2 else q.count % 2
  }

  ghost predicate Enabled(c: Config, s: State, a: Action) {
    Shape(c, s) &&
    match a
    case FillEntry =>
      var q := s.ranks[0];
      && q.pc == Fill && q.count < |c.buckets| && q.pos < |c.buckets[q.count]|
      && var e := c.buckets[q.count][q.pos];
        e.meta.offset.Some? && e.meta.offset.value + |e.data| <= c.bucketSize
    case EndFill =>
      var q := s.ranks[0];
      q.pc == Fill && q.count < |c.buckets| && q.pos == |c.buckets[q.count]|
    case SendBucket =>
      s.ranks[0].pc == Send && s.ranks[0].count < |c.buckets| && Size(c.buckets[s.ranks[0].count]) <= c.bucketSize
    case TakeSlot(r) =>
      r < c.ranks && s.ranks[r].pc in {WaitSlot, WaitLast} && s.ranks[r].slots[AwaitedSlot(s.ranks[r])]
    case Receive(r) =>
      && 0 < r < c.ranks && s.ranks[r].pc == Recv && s.queues[r - 1] != []
      && var i := s.queues[r - 1][0]; 0 <= i.src < 2 && 0 <= i.slot < 2 && i.len <= c.bucketSize
    case CopyByte(r, i) =>
      0 < r < c.ranks && s.ranks[r].pc == Reading && i < s.ranks[r].info.len && i !in s.ranks[r].copied
    case EndRead(r) =>
      0 < r < c.ranks && s.ranks[r].pc == Reading && AllCopied(s.ranks[r].copied, s.ranks[r].info.len)
    case ForwardInfo(r) =>
      0 < r < c.ranks && s.ranks[r].pc == Forward
    case YieldEntry(r) =>
      0 < r < c.ranks && s.ranks[r].pc == Yield && s.ranks[r].pos < |s.ranks[r].info.meta.entries|
    case EndYield(r) =>
      0 < r < c.ranks && s.ranks[r].pc == Yield && s.ranks[r].pos == |s.ranks[r].info.meta.entries|
    case SignalDone(r) =>
      0 < r < c.ranks && s.ranks[r].pc == Signal
  }

  // ---------- the dictionary of a bucket ----------

  /** `bucket_meta[name] = ...`: a name that is there already keeps its place and gets the new entry. */
  function Put(d: Bucket, e: Chunk): Bucket {
    if d == [] then [e]
    else if d[0].meta.name == e.meta.name then [e] + d[1..]
    else [d[0]] + Put(d[1..], e)
  }

  /** What `bucket_meta` lists after all entries of the bucket were put into it; the engine does not check names. */
  function Listed(b: Bucket): Bucket {
    if b == [] then [] else Put(Listed(b[..|b| - 1]), b[|b| - 1])
  }

  function Listings(buckets: seq<Bucket>): (r: seq<Bucket>)
    ensures |r| == |buckets|
  {
    seq(|buckets|, k requires 0 <= k < |buckets| => Listed(buckets[k]))
  }

  function Names(b: Bucket): set<string> {
    set x <- b :: x.meta.name
  }

  lemma NamesAppend(a: Bucket, b: Bucket)
    ensures Names(a + b) == Names(a) + Names(b)
  {
    forall x <- a + b ensures x.meta.name in Names(a) + Names(b) {
      assert x in a || x in b;
    }
    forall x <- a ensures x.meta.name in Names(a + b) {
      assert x in a + b;
    }
    forall x <- b ensures x.meta.name in Names(a + b) {
      assert x in a + b;
    }
  }

  lemma {:induction false} PutNames(d: Bucket, e: Chunk)
    ensures Names(Put(d, e)) == Names(d) + {e.meta.name}
    ensures if e.meta.name in Names(d) then |Put(d, e)| == |d| else Put(d, e) == d + [e]
    ensures forall x <- Put(d, e) :: x == e || x in d
  {
    if d != [] {
      assert d == [d[0]] + d[1..];
      NamesAppend([d[0]], d[1..]);
      if d[0].meta.name == e.meta.name {
        NamesAppend([e], d[1..]);
      } else {
        PutNames(d[1..], e);
        NamesAppend([d[0]], Put(d[1..], e));
      }
    }
  }

  lemma DistinctLast(b: Bucket, n: nat)
    requires n == |b| - 1
    ensures DistinctChunkNames(b) <==> DistinctChunkNames(b[..n]) && b[n].meta.name !in Names(b[..n])
  {
    forall i, j | 0 <= i < j < n ensures b[..n][i] == b[i] && b[..n][j] == b[j] {
    }
    forall i | 0 <= i < n ensures b[i].meta.name in Names(b[..n]) {
      assert b[..n][i] == b[i] && b[i] in b[..n];
    }
    if b[n].meta.name in Names(b[..n]) {
      var x :| x in b[..n] && x.meta.name == b[n].meta.name;
      var i :| 0 <= i < n && b[..n][i] == x;
      assert b[i].meta.name == b[n].meta.name;
    }
  }

  /** The metadata of a bucket lists entries of that bucket, and all of them exactly when no name occurs twice. */
  lemma {:induction false} ListedIff(b: Bucket)
    ensures Names(Listed(b)) == Names(b) && forall x <- Listed(b) :: x in b
    ensures |Listed(b)| <= |b| && (|Listed(b)| == |b| <==> DistinctChunkNames(b))
    ensures Listed(b) == b <==> DistinctChunkNames(b)
  {
    hide DistinctChunkNames, Names;
    if b == [] {
      NoEntries();
    } else {
      var n := |b| - 1;
      ListedIff(b[..n]);
      PutNames(Listed(b[..n]), b[n]);
      DistinctLast(b, n);
      assert b == b[..n] + [b[n]];
      NamesAppend(b[..n], [b[n]]);
      OneName(b[n]);
    }
  }

  lemma NoEntries()
    ensures DistinctChunkNames([]) && Names([]) == {}
  {
  }

  lemma OneName(e: Chunk)
    ensures Names([e]) == {e.meta.name}
  {
    assert e in [e];
  }

  /** Entry i is the last one of its name. */
  ghost predicate LastOfName(b: Bucket, i: nat) {
    i < |b| && forall j | i < j < |b| :: b[j].meta.name != b[i].meta.name
  }

  /** The names of a bucket, each once, in the order of their first entries. */
  function NameOrder(b: Bucket): seq<string> {
    if b == [] then []
    else
      var n := |b| - 1;
      var rest := NameOrder(b[..n]);
      if b[n].meta.name in rest then rest else rest + [b[n].meta.name]
  }

  function NamesOf(b: Bucket): (r: seq<string>)
    ensures |r| == |b|
  {
    seq(|b|, i requires 0 <= i < |b| => b[i].meta.name)
  }

  lemma {:induction false} PutIs(d: Bucket, e: Chunk)
    requires DistinctChunkNames(d)
    ensures DistinctChunkNames(Put(d, e))
    ensures NamesOf(Put(d, e)) == if e.meta.name in NamesOf(d) then NamesOf(d) else NamesOf(d) + [e.meta.name]
    ensures forall x :: x in Put(d, e) <==> x == e || (x in d && x.meta.name != e.meta.name)
  {
    hide DistinctChunkNames, NamesOf;
    if d == [] {
      JustOne(e);
    } else {
      var rest := d[1..];
      assert d == [d[0]] + rest;
      FirstApart(d);
      if d[0].meta.name == e.meta.name {
        ConsDistinct(e, rest);
      } else {
        PutIs(rest, e);
        ConsDistinct(d[0], Put(rest, e));
      }
    }
  }

  lemma JustOne(e: Chunk)
    ensures DistinctChunkNames([e]) && NamesOf([]) == [] && NamesOf([e]) == [e.meta.name]
  {
  }

  lemma FirstApart(d: Bucket)
    requires d != [] && DistinctChunkNames(d)
    ensures DistinctChunkNames(d[1..]) && forall x <- d[1..] :: x.meta.name != d[0].meta.name
    ensures NamesOf(d) == [d[0].meta.name] + NamesOf(d[1..])
  {
    forall x <- d[1..] ensures x.meta.name != d[0].meta.name {
      var i :| 0 <= i < |d| - 1 && d[1..][i] == x;
      assert d[i + 1] == x;
    }
  }

  lemma ConsDistinct(x: Chunk, r: Bucket)
    requires DistinctChunkNames(r) && forall y <- r :: y.meta.name != x.meta.name
    ensures DistinctChunkNames([x] + r) && NamesOf([x] + r) == [x.meta.name] + NamesOf(r)
  {
    var s := [x] + r;
    forall i, j | 0 <= i < j < |s| ensures s[i].meta.name != s[j].meta.name {
      assert s[j] == r[j - 1] && r[j - 1] in r;
      assert i > 0 ==> s[i] == r[i - 1];
    }
  }

  ghost predicate LastEntry(b: Bucket, x: Chunk) {
    exists i: nat :: LastOfName(b, i) && b[i] == x
  }

  lemma LastEntryMore(b: Bucket, n: nat, x: Chunk)
    requires n == |b| - 1
    ensures LastEntry(b, x) <==> x == b[n] || (LastEntry(b[..n], x) && x.meta.name != b[n].meta.name)
  {
    var init := b[..n];
    assert LastOfName(b, n);
    if i: nat :| LastOfName(b, i) && b[i] == x && i < n {
      assert LastOfName(init, i) && init[i] == x;
    }
    if i: nat :| LastOfName(init, i) && init[i] == x && x.meta.name != b[n].meta.name {
      assert forall j | i < j < n :: init[j] == b[j];
      assert LastOfName(b, i) && b[i] == x;
    }
  }

  lemma NothingListed()
    ensures NamesOf([]) == NameOrder([]) && DistinctChunkNames([]) && forall x :: !LastEntry([], x)
  {
  }

  /** The metadata of a bucket lists the last entry of every name, in the order of the first entries. */
  lemma {:induction false} ListedLast(b: Bucket)
    ensures NamesOf(Listed(b)) == NameOrder(b) && DistinctChunkNames(Listed(b))
    ensures forall x :: x in Listed(b) <==> LastEntry(b, x)
  {
    hide Put, LastEntry, DistinctChunkNames, NamesOf;
    if b == [] {
      NothingListed();
    } else {
      var n := |b| - 1;
      ListedLast(b[..n]);
      PutIs(Listed(b[..n]), b[n]);
      forall x ensures x in Listed(b) <==> LastEntry(b, x) {
        LastEntryMore(b, n, x);
      }
    }
  }

  // ---------- what each step does to the rank that takes it ----------

  ghost function Filled(c: Config, q: Rank): Rank
    requires RankShape(c, q) && q.count < |c.buckets| && q.pos < |c.buckets[q.count]|
    requires var e := c.buckets[q.count][q.pos];
      e.meta.offset.Some? && e.meta.offset.value + |e.data| <= c.bucketSize
  {
    var e, side := c.buckets[q.count][q.pos], q.count % 2;
    q.(bufs := q.bufs[side := Overwrite(q.bufs[side], e.meta.offset.value, e.data)], pos := q.pos + 1)
  }

  /** Rank 0 waits from its second bucket on; after the last one it waits for that very bucket. */
  ghost function Sent(c: Config, q: Rank): Rank {
    q.(count := q.count + 1, pos := 0,
       pc := if q.count == |c.buckets| - 1 then WaitLast else if q.count >= 1 then WaitSlot else Fill)
  }

  ghost function SlotTaken(r: nat, q: Rank): Rank
    requires |q.slots| == 2
  {
    q.(slots := q.slots[AwaitedSlot(q) := false],
       pc := if q.pc == WaitLast then Finished else if r == 0 then Fill else Reading)
  }

  ghost function Received(c: Config, r: nat, q: Rank, info: Info): Rank {
    q.(info := info, copied := {}, pc := if q.count >= 2 && r < c.ranks - 1 then WaitSlot else Reading)
  }

  ghost function Copied(c: Config, prev: Rank, q: Rank, i: nat): Rank
    requires RankShape(c, prev) && RankShape(c, q) && i < q.info.len
  {
    var side := q.count % 2;
    q.(bufs := q.bufs[side := q.bufs[side][i := prev.bufs[q.info.src][i]]], copied := q.copied + {i})
  }

  /** An entry of bucket k is viewed in the half of `self.buf` that the bucket lies in. */
  predicate ViewFits(bucketSize: nat, k: nat, m: TensorMeta) {
    m.offset.Some? && Viewable(k % 2 * bucketSize + m.offset.value, m.dtype)
  }

  ghost function YieldedOne(c: Config, q: Rank): Rank
    requires RankShape(c, q) && q.pos < |q.info.meta.entries|
  {
    var m := q.info.meta.entries[q.pos];
    q.(yielded := q.yielded + [View(q.bufs[q.count % 2], m)], viewed := q.viewed && ViewFits(c.bucketSize, q.count, m),
       pos := q.pos + 1)
  }

  ghost function Signalled(q: Rank): Rank {
    q.(count := q.count + 1, pc := if q.info.meta.isLast then Finished else Recv)
  }

  /** What rank 0 announces bucket k with. */
  ghost function InfoOf(c: Config, k: int): Info {
    if 0 <= k < |c.buckets| then Info(k % 2, k % 2, Size(c.buckets[k]), MetaOf(Listings(c.buckets), k))
    else Info(0, 0, 0, BucketMeta([], false))
  }

  ghost function SetRank(s: State, r: nat, q: Rank): State
    requires r < |s.ranks|
  {
    s.(ranks := s.ranks[r := q])
  }

  ghost function Apply(c: Config, s: State, a: Action): State
    requires Enabled(c, s, a)
  {
    match a
    case FillEntry => SetRank(s, 0, Filled(c, s.ranks[0]))
    case EndFill => SetRank(s, 0, s.ranks[0].(pc := Send))
    case SendBucket =>
      var q := s.ranks[0];
      var info := InfoOf(c, q.count);
      SetRank(s, 0, Sent(c, q)).(queues := s.queues[0 := s.queues[0] + [info]])
    case TakeSlot(r) => SetRank(s, r, SlotTaken(r, s.ranks[r]))
    case Receive(r) =>
      SetRank(s, r, Received(c, r, s.ranks[r], s.queues[r - 1][0])).(queues := s.queues[r - 1 := s.queues[r - 1][1..]])
    case CopyByte(r, i) => SetRank(s, r, Copied(c, s.ranks[r - 1], s.ranks[r], i))
    case EndRead(r) => SetRank(s, r, s.ranks[r].(pc := Forward))
    case ForwardInfo(r) =>
      var q := s.ranks[r];
      var s' := SetRank(s, r, q.(pc := Yield, pos := 0));
      if r < c.ranks - 1 then
        s'.(queues := s.queues[r := s.queues[r] + [q.info.(src := q.count % 2, slot := q.count % 2)]])
      else s'
    case YieldEntry(r) =>
      SetRank(s, r, YieldedOne(c, s.ranks[r]))
    case EndYield(r) => SetRank(s, r, s.ranks[r].(pc := Signal))
    case SignalDone(r) =>
      var q, prev := s.ranks[r], s.ranks[r - 1];
      SetRank(SetRank(s, r, Signalled(q)), r - 1, prev.(slots := prev.slots[q.info.slot := true]))
  }

  /** The start of a call; both magic slots of every rank must be clear. */
  ghost predicate Init(c: Config, s: State) {
    && Shape(c, s)
    && (forall r | 0 <= r < c.ranks :: InitRank(r, s.ranks[r]))
    && (forall l <- s.queues :: l == [])
  }

  ghost predicate InitRank(r: nat, q: Rank) {
    && q.pc == (if r == 0 then Fill else Recv)
    && q.count == q.pos == 0 && q.slots == [false, false] && q.copied == {} && q.yielded == [] && q.viewed
  }

  // ---------- the invariant ----------

  /** Buckets rank r has sent on; and those whose slot it has taken, whose buffers it may reuse. */
  ghost function SentCount(q: Rank): int {
    if q.pc in {Yield, Signal} then q.count + 1 else q.count
  }

  ghost function Acked(q: Rank): int {
    var n := if q.pc in {Fill, Send, Reading, Forward, Yield, Signal} then q.count - 1 else q.count - 2;
    if n < 0 then 0 else n
  }

  ghost function ReceivedCount(q: Rank): int {
    if q.pc in {Recv, Finished} then q.count else q.count + 1
  }

  /** Every bucket that a successor may still read is in its buffer. */
  ghost predicate Keeps(c: Config, q: Rank)
    requires RankShape(c, q) && SentCount(q) <= |c.buckets|
  {
    forall k: nat | Acked(q) <= k < SentCount(q) :: KeepsBucket(c, q, k)
  }

  ghost predicate KeepsBucket(c: Config, q: Rank, k: nat)
    requires RankShape(c, q) && k < |c.buckets|
  {
    Holds(q.bufs[k % 2], c.buckets[k])
  }

  ghost predicate SenderOk(c: Config, q: Rank)
    requires RankShape(c, q)
  {
    var n := |c.buckets|;
    && q.pc in {Fill, Send, WaitSlot, WaitLast, Finished}
    && q.count <= n && Keeps(c, q)
    && (q.pc in {Fill, Send} ==> q.count < n && HoldsUpTo(q.bufs[q.count % 2], c.buckets[q.count], q.pos))
    && (q.pc == Send ==> q.pos == |c.buckets[q.count]|)
    && (q.pc == WaitSlot ==> 2 <= q.count < n && q.pos == 0)
    && (q.pc in {WaitLast, Finished} ==> q.count == n)
  }

  ghost predicate ReceiverOk(c: Config, q: Rank)
    requires RankShape(c, q)
  {
    var n := |c.buckets|;
    && q.pc in {Recv, WaitSlot, Reading, Forward, Yield, Signal, Finished}
    && (if q.pc == Finished then q.count == n else q.count < n)
    && Keeps(c, q)
    && (q.pc == WaitSlot ==> q.count >= 2)
    && (q.pc !in {Recv, Finished} ==> q.info == InfoOf(c, q.count))
    && (q.pc in {Forward, Yield, Signal} ==> Holds(q.bufs[q.count % 2], c.buckets[q.count]))
    && (q.pc == Yield ==> q.pos <= |Listed(c.buckets[q.count])|)
    && (forall i <- q.copied :: i < c.bucketSize)
    && (q.pc == WaitSlot ==> q.copied == {})
    && q.yielded == Yielded(c, q)
  }

  ghost function Yielded(c: Config, q: Rank): seq<Chunk> {
    if q.count > |c.buckets| then []
    else Flatten(Listings(c.buckets)[..q.count]) + YieldedHere(c, q)
  }

  ghost function YieldedHere(c: Config, q: Rank): seq<Chunk> {
    if q.count >= |c.buckets| then []
    else if q.pc == Yield && q.pos <= |Listed(c.buckets[q.count])| then Listed(c.buckets[q.count])[..q.pos]
    else if q.pc == Signal then Listed(c.buckets[q.count])
    else []
  }

  ghost predicate RankOk(c: Config, r: nat, q: Rank) {
    RankShape(c, q) && if r == 0 then SenderOk(c, q) else ReceiverOk(c, q)
  }

  /** Slot p is set exactly when a bucket of parity p has been signalled and its slot not taken. */
  ghost predicate SlotsOk(q: Rank, signalled: int) {
    && |q.slots| == 2
    && forall p | 0 <= p < 2 :: q.slots[p] <==>
        (Acked(q) < signalled && Acked(q) % 2 == p) || (Acked(q) + 1 < signalled && (Acked(q) + 1) % 2 == p)
  }

  /** Rank 0 never takes the slot of the last bucket but one. */
  ghost predicate FinalSlots(c: Config, q: Rank) {
    && |q.slots| == 2
    && (q.slots[|c.buckets| % 2] <==> |c.buckets| >= 2)
    && !q.slots[(|c.buckets| + 1) % 2]
  }

  ghost predicate LinkOk(c: Config, r: nat, q: Rank, q': Rank, queue: seq<Info>) {
    && Acked(q) <= q'.count <= ReceivedCount(q') <= SentCount(q) <= |c.buckets|
    && |queue| == SentCount(q) - ReceivedCount(q')
    && (forall i | 0 <= i < |queue| :: queue[i] == InfoOf(c, ReceivedCount(q') + i))
    && (if q.pc == Finished && r == 0 then q'.count == |c.buckets| && FinalSlots(c, q) else SlotsOk(q, q'.count))
    && (q'.pc == Reading && RankShape(c, q) && RankShape(c, q') ==>
          forall i <- q'.copied :: i < c.bucketSize ==> q'.bufs[q'.count % 2][i] == q.bufs[q'.count % 2][i])
  }

  ghost predicate Inv(c: Config, s: State) {
    && ValidConfig(c) && Shape(c, s)
    && (forall r | 0 <= r < c.ranks :: RankOk(c, r, s.ranks[r]))
    && (forall r | 0 <= r < c.ranks - 1 :: LinkOk(c, r, s.ranks[r], s.ranks[r + 1], s.queues[r]))
  }

  lemma InitInv(c: Config, s: State)
    requires ValidConfig(c) && Init(c, s)
    ensures Inv(c, s)
  {
    forall r | 0 <= r < c.ranks ensures RankOk(c, r, s.ranks[r]) {
      assert InitRank(r, s.ranks[r]);
    }
    forall r | 0 <= r < c.ranks - 1 ensures LinkOk(c, r, s.ranks[r], s.ranks[r + 1], s.queues[r]) {
      assert InitRank(r, s.ranks[r]) && InitRank(r + 1, s.ranks[r + 1]);
      assert s.queues[r] in s.queues;
    }
  }

  lemma Frame(c: Config, s: State, s': State, r: nat)
    requires Inv(c, s) && r < c.ranks
    requires |s'.ranks| == c.ranks && |s'.queues| == c.ranks - 1
    requires forall k | 0 <= k < c.ranks && k != r :: s'.ranks[k] == s.ranks[k]
    requires forall k | 0 <= k < c.ranks - 1 && k != r && k != r - 1 :: s'.queues[k] == s.queues[k]
    requires RankOk(c, r, s'.ranks[r])
    requires r > 0 ==> LinkOk(c, r - 1, s.ranks[r - 1], s'.ranks[r], s'.queues[r - 1])
    requires r < c.ranks - 1 ==> LinkOk(c, r, s'.ranks[r], s.ranks[r + 1], s'.queues[r])
    ensures Inv(c, s')
  {
    hide RankOk, LinkOk, RankShape, ValidConfig;
    forall k | 0 <= k < c.ranks ensures RankOk(c, k, s'.ranks[k]) && RankShape(c, s'.ranks[k]) {
      assert k != r ==> RankOk(c, k, s.ranks[k]);
      Shapes(c, k, s'.ranks[k]);
    }
    forall k | 0 <= k < c.ranks - 1 ensures LinkOk(c, k, s'.ranks[k], s'.ranks[k + 1], s'.queues[k]) {
      if k == r - 1 || k == r {
      } else {
        assert LinkOk(c, k, s.ranks[k], s.ranks[k + 1], s.queues[k]);
      }
    }
  }

  // ---------- each step keeps the invariant ----------

  ghost predicate SameSide(q: Rank, q': Rank, k: nat) {
    |q.bufs| == |q'.bufs| == 2 && q'.bufs[k % 2] == q.bufs[k % 2]
  }

  /** No bucket that the successor may still read has changed. */
  ghost predicate SameKept(q: Rank, q': Rank) {
    forall k: nat | Acked(q) <= k < SentCount(q) :: SameSide(q, q', k)
  }

  /** A step of rank r that changes neither its progress nor its buffers means nothing to its predecessor. */
  lemma PredecessorUnaffected(c: Config, r: nat, prev: Rank, q: Rank, q': Rank, queue: seq<Info>)
    requires 0 < r && RankShape(c, q) && LinkOk(c, r - 1, prev, q, queue)
    requires q'.count == q.count && ReceivedCount(q') == ReceivedCount(q) && q'.bufs == q.bufs
    requires q'.pc == Reading ==> q'.copied == q.copied && (q.pc == Reading || q'.copied == {})
    ensures LinkOk(c, r - 1, prev, q', queue)
  {
  }

  /** A step that changes neither what was sent nor what was acknowledged, and no bucket still to be read. */
  lemma SuccessorUnaffected(c: Config, r: nat, q: Rank, q': Rank, next: Rank, queue: seq<Info>)
    requires r < c.ranks - 1 && RankOk(c, r + 1, next) && LinkOk(c, r, q, next, queue)
    requires SentCount(q') == SentCount(q) && Acked(q') == Acked(q) && q'.slots == q.slots
    requires RankShape(c, q) && RankShape(c, q')
    requires SameKept(q, q')
    requires q.pc != Finished && q'.pc != Finished
    ensures LinkOk(c, r, q', next, queue)
  {
    hide Keeps, Yielded, HoldsUpTo, InfoOf, SlotsOk, FinalSlots;
    SlotsDepend(q, q', next.count);
    if next.pc == Reading {
      assert SameSide(q, q', next.count);
    }
  }

  lemma FillFacts(c: Config, q: Rank)
    requires ValidConfig(c) && RankOk(c, 0, q) && q.pc == Fill
    ensures RankShape(c, q) && q.count < |c.buckets| && HoldsUpTo(q.bufs[q.count % 2], c.buckets[q.count], q.pos)
    ensures Tiled(c.buckets[q.count]) && Size(c.buckets[q.count]) <= c.bucketSize
  {
    hide HoldsUpTo, Keeps, Tiled, Size;
    assert c.buckets[q.count] in c.buckets;
  }

  lemma FillFits(c: Config, q: Rank)
    requires ValidConfig(c) && RankOk(c, 0, q) && q.pc == Fill && q.pos < |c.buckets[q.count]|
    ensures var e := c.buckets[q.count][q.pos];
      e.meta.offset.Some? && e.meta.offset.value + |e.data| <= c.bucketSize
    ensures HoldsUpTo(Filled(c, q).bufs[q.count % 2], c.buckets[q.count], q.pos + 1)
  {
    hide RankOk, ValidConfig, HoldsUpTo, Overwrite, Size;
    FillFacts(c, q);
    FillNext(q.bufs[q.count % 2], c.buckets[q.count], q.pos);
  }

  lemma FillKeepsRank(c: Config, q: Rank, q': Rank)
    requires ValidConfig(c) && RankOk(c, 0, q) && q.pc == Fill && q.pos < |c.buckets[q.count]|
    requires q' == q.(bufs := q'.bufs, pos := q.pos + 1) && RankShape(c, q')
    requires q'.bufs[(q.count + 1) % 2] == q.bufs[(q.count + 1) % 2]
    requires HoldsUpTo(q'.bufs[q.count % 2], c.buckets[q.count], q.pos + 1)
    ensures RankOk(c, 0, q')
    ensures SentCount(q') == SentCount(q) && Acked(q') == Acked(q)
    ensures SameKept(q, q')
  {
    hide HoldsUpTo;
    OtherSide(c, q, q');
    KeptSame(c, q, q');
  }

  lemma KeptBuffers(c: Config, q: Rank, q': Rank)
    requires RankShape(c, q) && RankShape(c, q') && SentCount(q) <= |c.buckets| && Keeps(c, q)
    requires q'.bufs == q.bufs && Acked(q) <= Acked(q') && SentCount(q') <= SentCount(q)
    ensures Keeps(c, q')
  {
    hide HoldsUpTo;
    forall k: nat | Acked(q') <= k < SentCount(q') ensures KeepsBucket(c, q', k) {
      assert KeepsBucket(c, q, k);
    }
  }

  lemma KeptSame(c: Config, q: Rank, q': Rank)
    requires RankShape(c, q) && RankShape(c, q') && SentCount(q) <= |c.buckets| && Keeps(c, q)
    requires SameKept(q, q') && SentCount(q') == SentCount(q) && Acked(q') == Acked(q)
    ensures Keeps(c, q')
  {
    hide HoldsUpTo;
    forall k: nat | Acked(q') <= k < SentCount(q') ensures KeepsBucket(c, q', k) {
      assert KeepsBucket(c, q, k) && SameSide(q, q', k);
    }
  }

  /** While a rank writes the buffer of bucket `count`, its successor can only be at the bucket before. */
  lemma OtherSide(c: Config, q: Rank, q': Rank)
    requires RankShape(c, q) && RankShape(c, q') && q.pc in {Fill, Reading}
    requires q'.bufs[(q.count + 1) % 2] == q.bufs[(q.count + 1) % 2]
    ensures SameKept(q, q')
  {
    forall k: nat | Acked(q) <= k < SentCount(q) ensures SameSide(q, q', k) {
      assert k == q.count - 1 && k % 2 == (q.count + 1) % 2;
    }
  }

  lemma StepFillEntry(c: Config, s: State)
    requires Inv(c, s) && Enabled(c, s, FillEntry)
    ensures Inv(c, Apply(c, s, FillEntry))
  {
    hide RankOk, LinkOk;
    assert RankOk(c, 0, s.ranks[0]) && RankOk(c, 1, s.ranks[1]);
    assert LinkOk(c, 0, s.ranks[0], s.ranks[0 + 1], s.queues[0]);
    FillFits(c, s.ranks[0]);
    FillKeepsRank(c, s.ranks[0], Filled(c, s.ranks[0]));
    SuccessorUnaffected(c, 0, s.ranks[0], Filled(c, s.ranks[0]), s.ranks[1], s.queues[0]);
    Frame(c, s, Apply(c, s, FillEntry), 0);
  }

  lemma EndFillKeeps(c: Config, q: Rank)
    requires RankOk(c, 0, q) && q.pc == Fill && q.count < |c.buckets| && q.pos == |c.buckets[q.count]|
    ensures RankOk(c, 0, q.(pc := Send))
  {
    var q' := q.(pc := Send);
    KeptBuffers(c, q, q');
  }

  lemma StepEndFill(c: Config, s: State)
    requires Inv(c, s) && Enabled(c, s, EndFill)
    ensures Inv(c, Apply(c, s, EndFill))
  {
    hide RankOk, LinkOk;
    assert RankOk(c, 0, s.ranks[0]) && RankOk(c, 1, s.ranks[1]);
    assert LinkOk(c, 0, s.ranks[0], s.ranks[0 + 1], s.queues[0]);
    EndFillKeeps(c, s.ranks[0]);
    SuccessorUnaffected(c, 0, s.ranks[0], s.ranks[0].(pc := Send), s.ranks[1], s.queues[0]);
    Frame(c, s, Apply(c, s, EndFill), 0);
  }

  lemma SendKeepsRank(c: Config, q: Rank)
    requires ValidConfig(c) && RankOk(c, 0, q) && q.pc == Send
    ensures RankOk(c, 0, Sent(c, q))
  {
    var q' := Sent(c, q);
    forall k: nat | Acked(q') <= k < SentCount(q') ensures KeepsBucket(c, q', k) {
      assert k == q.count || KeepsBucket(c, q, k);
    }
    assert Keeps(c, q');
  }

  lemma SendKeepsLink(c: Config, q: Rank, next: Rank, queue: seq<Info>)
    requires ValidConfig(c) && RankOk(c, 0, q) && RankOk(c, 1, next) && LinkOk(c, 0, q, next, queue)
    requires q.pc == Send
    ensures LinkOk(c, 0, Sent(c, q), next, queue + [InfoOf(c, q.count)])
  {
    hide Keeps, Yielded, HoldsUpTo, InfoOf, SlotsOk;
    assert Acked(Sent(c, q)) == Acked(q);
    SlotsDepend(q, Sent(c, q), next.count);
  }

  lemma StepSend(c: Config, s: State)
    requires Inv(c, s) && Enabled(c, s, SendBucket)
    ensures Inv(c, Apply(c, s, SendBucket))
  {
    hide RankOk, LinkOk;
    assert RankOk(c, 0, s.ranks[0]) && RankOk(c, 1, s.ranks[1]);
    assert LinkOk(c, 0, s.ranks[0], s.ranks[0 + 1], s.queues[0]);
    SendKeepsRank(c, s.ranks[0]);
    SendKeepsLink(c, s.ranks[0], s.ranks[1], s.queues[0]);
    Frame(c, s, Apply(c, s, SendBucket), 0);
  }

  lemma TakeSlotKeepsRank(c: Config, r: nat, q: Rank)
    requires RankOk(c, r, q) && q.pc in {WaitSlot, WaitLast}
    ensures RankOk(c, r, SlotTaken(r, q))
  {
    var q' := SlotTaken(r, q);
    assert Acked(q) <= Acked(q') && SentCount(q') == SentCount(q);
    KeptBuffers(c, q, q');
  }

  /** Taking a set slot acknowledges exactly the bucket the slot was waited for. */
  lemma TakeSlotKeepsLink(c: Config, r: nat, q: Rank, next: Rank, queue: seq<Info>)
    requires ValidConfig(c) && RankOk(c, r, q) && RankOk(c, r + 1, next) && LinkOk(c, r, q, next, queue)
    requires q.pc in {WaitSlot, WaitLast} && q.slots[AwaitedSlot(q)]
    ensures LinkOk(c, r, SlotTaken(r, q), next, queue)
    ensures q.pc == WaitSlot ==> next.count > q.count - 2
    ensures q.pc == WaitLast ==> next.count == |c.buckets|
  {
    hide Keeps, Yielded, HoldsUpTo, InfoOf, Size, MetaOf;
    AwaitedIsNext(q, next.count);
    if q.pc == WaitSlot {
      TakenSlots(q, SlotTaken(r, q), next.count);
    }
  }

  /** The awaited slot is set only by the bucket that is waited for. */
  lemma AwaitedIsNext(q: Rank, signalled: int)
    requires SlotsOk(q, signalled) && signalled <= q.count && q.slots[AwaitedSlot(q)]
    requires (q.pc == WaitSlot && q.count >= 2) || (q.pc == WaitLast && q.count >= 1)
    ensures q.pc == WaitSlot ==> signalled > q.count - 2
    ensures q.pc == WaitLast ==> signalled == q.count
    ensures q.pc == WaitLast ==> (q.slots[q.count % 2] <==> q.count >= 2)
  {
  }

  lemma TakenSlots(q: Rank, q': Rank, signalled: int)
    requires SlotsOk(q, signalled) && q.count - 2 < signalled <= q.count
    requires q.pc == WaitSlot && q.count >= 2
    requires q'.count == q.count && q'.pc in {Fill, Reading} && q'.slots == q.slots[q.count % 2 := false]
    ensures SlotsOk(q', signalled)
  {
  }

  lemma StepTakeSlot(c: Config, s: State, r: nat)
    requires Inv(c, s) && Enabled(c, s, TakeSlot(r))
    ensures Inv(c, Apply(c, s, TakeSlot(r)))
  {
    hide RankOk, LinkOk;
    var q := s.ranks[r];
    assert RankOk(c, r, q);
    TakeSlotKeepsRank(c, r, q);
    if r < c.ranks - 1 {
      assert RankOk(c, r + 1, s.ranks[r + 1]) && LinkOk(c, r, q, s.ranks[r + 1], s.queues[r]);
      TakeSlotKeepsLink(c, r, q, s.ranks[r + 1], s.queues[r]);
    }
    if r > 0 {
      assert LinkOk(c, r - 1, s.ranks[r - 1], s.ranks[r - 1 + 1], s.queues[r - 1]);
      ReceiverPcs(c, r, q);
      PredecessorUnaffected(c, r, s.ranks[r - 1], q, SlotTaken(r, q), s.queues[r - 1]);
    }
    Frame(c, s, Apply(c, s, TakeSlot(r)), r);
  }

  lemma ReceiverPcs(c: Config, r: nat, q: Rank)
    requires 0 < r && RankOk(c, r, q)
    ensures q.pc in {Recv, WaitSlot, Reading, Forward, Yield, Signal, Finished}
    ensures q.pc == WaitSlot ==> q.copied == {}
    ensures if q.pc == Finished then q.count == |c.buckets| else q.count < |c.buckets|
    ensures q.pc == Yield ==> q.pos <= |q.info.meta.entries|
  {
  }

  lemma ReceiveKeepsRank(c: Config, r: nat, q: Rank)
    requires ValidConfig(c) && 0 < r < c.ranks && RankOk(c, r, q) && q.pc == Recv
    ensures RankOk(c, r, Received(c, r, q, InfoOf(c, q.count)))
  {
    hide HoldsUpTo, Flatten;
    var q' := Received(c, r, q, InfoOf(c, q.count));
    assert c.buckets[q.count] in c.buckets;
    assert Acked(q) <= Acked(q') && SentCount(q') == SentCount(q);
    KeptBuffers(c, q, q');
  }

  lemma ReceiveTakesHead(c: Config, r: nat, prev: Rank, q: Rank, queue: seq<Info>)
    requires ValidConfig(c) && 0 < r < c.ranks && LinkOk(c, r - 1, prev, q, queue)
    requires q.pc == Recv && queue != []
    ensures queue[0] == InfoOf(c, q.count)
    ensures LinkOk(c, r - 1, prev, Received(c, r, q, queue[0]), queue[1..])
  {
    hide InfoOf, SlotsOk;
    var q' := Received(c, r, q, queue[0]);
    assert ReceivedCount(q') == ReceivedCount(q) + 1;
    forall i | 0 <= i < |queue[1..]| ensures queue[1..][i] == InfoOf(c, ReceivedCount(q') + i) {
      assert queue[1..][i] == queue[i + 1];
    }
  }

  lemma ReceiveKeepsLink(c: Config, r: nat, q: Rank, next: Rank, queue: seq<Info>, info: Info)
    requires ValidConfig(c) && 0 < r < c.ranks - 1 && RankOk(c, r, q) && RankOk(c, r + 1, next)
    requires LinkOk(c, r, q, next, queue) && q.pc == Recv
    ensures LinkOk(c, r, Received(c, r, q, info), next, queue)
  {
    hide InfoOf, Keeps, Yielded;
    assert Acked(Received(c, r, q, info)) == Acked(q);
  }

  lemma StepReceive(c: Config, s: State, r: nat)
    requires Inv(c, s) && Enabled(c, s, Receive(r))
    ensures Inv(c, Apply(c, s, Receive(r)))
  {
    hide RankOk, LinkOk;
    var q := s.ranks[r];
    assert RankOk(c, r, q);
    assert LinkOk(c, r - 1, s.ranks[r - 1], s.ranks[r - 1 + 1], s.queues[r - 1]);
    ReceiveTakesHead(c, r, s.ranks[r - 1], q, s.queues[r - 1]);
    ReceiveKeepsRank(c, r, q);
    if r < c.ranks - 1 {
      assert RankOk(c, r + 1, s.ranks[r + 1]) && LinkOk(c, r, q, s.ranks[r + 1], s.queues[r]);
      ReceiveKeepsLink(c, r, q, s.ranks[r + 1], s.queues[r], s.queues[r - 1][0]);
    }
    Frame(c, s, Apply(c, s, Receive(r)), r);
  }

  lemma CopyByteKeepsRank(c: Config, r: nat, prev: Rank, q: Rank, i: nat)
    requires ValidConfig(c) && 0 < r < c.ranks && RankOk(c, r, q) && RankShape(c, prev)
    requires q.pc == Reading && i < q.info.len
    ensures RankOk(c, r, Copied(c, prev, q, i))
    ensures SentCount(Copied(c, prev, q, i)) == SentCount(q) && Acked(Copied(c, prev, q, i)) == Acked(q)
    ensures SameKept(q, Copied(c, prev, q, i))
  {
    hide HoldsUpTo, Flatten, Size, MetaOf;
    OtherSide(c, q, Copied(c, prev, q, i));
    KeptSame(c, q, Copied(c, prev, q, i));
  }

  lemma CopyByteKeepsLink(c: Config, r: nat, prev: Rank, q: Rank, queue: seq<Info>, i: nat)
    requires ValidConfig(c) && 0 < r < c.ranks && RankOk(c, r, q) && RankShape(c, prev)
    requires LinkOk(c, r - 1, prev, q, queue)
    requires q.pc == Reading && i < q.info.len
    ensures LinkOk(c, r - 1, prev, Copied(c, prev, q, i), queue)
  {
    hide Keeps, Yielded, SlotsOk, FinalSlots, Size, MetaOf;
    assert q.info.src == q.count % 2;
  }

  lemma StepCopyByte(c: Config, s: State, r: nat, i: nat)
    requires Inv(c, s) && Enabled(c, s, CopyByte(r, i))
    ensures Inv(c, Apply(c, s, CopyByte(r, i)))
  {
    hide RankOk, LinkOk;
    var q := s.ranks[r];
    assert RankOk(c, r, q);
    assert LinkOk(c, r - 1, s.ranks[r - 1], s.ranks[r - 1 + 1], s.queues[r - 1]);
    CopyByteKeepsRank(c, r, s.ranks[r - 1], q, i);
    CopyByteKeepsLink(c, r, s.ranks[r - 1], q, s.queues[r - 1], i);
    if r < c.ranks - 1 {
      assert RankOk(c, r + 1, s.ranks[r + 1]) && LinkOk(c, r, q, s.ranks[r + 1], s.queues[r]);
      SuccessorUnaffected(c, r, q, Copied(c, s.ranks[r - 1], q, i), s.ranks[r + 1], s.queues[r]);
    }
    Frame(c, s, Apply(c, s, CopyByte(r, i)), r);
  }

  /** A buffer that agrees with one holding `b` on the bytes `b` occupies holds `b` too. */
  lemma HoldsSameBytes(from: seq<byte>, to: seq<byte>, b: Bucket)
    requires Tiled(b) && Holds(from, b) && Size(b) <= |to| == |from|
    requires forall i | 0 <= i < Size(b) :: to[i] == from[i]
    ensures Holds(to, b)
  {
    forall j | 0 <= j < |b| ensures HoldsEntry(to, b[j]) {
      TiledInside(b, j);
      assert HoldsEntry(from, b[j]);
      SameEntryBytes(from, to, b[j], Size(b));
    }
  }

  lemma SameEntryBytes(from: seq<byte>, to: seq<byte>, e: Chunk, n: nat)
    requires HoldsEntry(from, e) && n <= |to| == |from| && forall i | 0 <= i < n :: to[i] == from[i]
    requires e.meta.offset.Some? && e.meta.offset.value + |e.data| <= n
    ensures HoldsEntry(to, e)
  {
    var lo, hi := e.meta.offset.value, e.meta.offset.value + e.meta.chunkSize;
    assert to[lo..hi] == from[lo..hi];
  }

  /** While a bucket is being read, the predecessor keeps it in its buffer. */
  lemma PrevKeeps(c: Config, r: nat, prev: Rank, q: Rank, queue: seq<Info>)
    requires ValidConfig(c) && 0 < r < c.ranks && RankOk(c, r - 1, prev) && RankOk(c, r, q)
    requires LinkOk(c, r - 1, prev, q, queue)
    requires q.pc == Reading
    ensures Holds(prev.bufs[q.count % 2], c.buckets[q.count]) && q.info == InfoOf(c, q.count)
    ensures Acked(prev) <= q.count < SentCount(prev)
  {
    hide HoldsUpTo, Yielded, SlotsOk, FinalSlots, Size, MetaOf;
    assert Acked(prev) <= q.count < SentCount(prev);
    assert KeepsBucket(c, prev, q.count);
  }

  lemma ReadComplete(c: Config, r: nat, prev: Rank, q: Rank, queue: seq<Info>)
    requires ValidConfig(c) && 0 < r < c.ranks && RankOk(c, r - 1, prev) && RankOk(c, r, q)
    requires LinkOk(c, r - 1, prev, q, queue)
    requires q.pc == Reading && AllCopied(q.copied, q.info.len)
    ensures Holds(q.bufs[q.count % 2], c.buckets[q.count])
  {
    hide Keeps, Yielded, SlotsOk, FinalSlots, HoldsUpTo, Flatten, MetaOf, Tiled;
    PrevKeeps(c, r, prev, q, queue);
    var b := c.buckets[q.count];
    assert b in c.buckets;
    forall i: nat | i < Size(b) ensures q.bufs[q.count % 2][i] == prev.bufs[q.count % 2][i] {
      assert i in q.copied;
    }
    HoldsSameBytes(prev.bufs[q.count % 2], q.bufs[q.count % 2], b);
  }

  lemma EndReadKeepsRank(c: Config, r: nat, q: Rank)
    requires ValidConfig(c) && 0 < r < c.ranks && RankOk(c, r, q)
    requires q.pc == Reading && Holds(q.bufs[q.count % 2], c.buckets[q.count])
    ensures RankOk(c, r, q.(pc := Forward))
    ensures Acked(q.(pc := Forward)) == Acked(q)
  {
    hide HoldsUpTo, Flatten, Size, MetaOf;
    KeptBuffers(c, q, q.(pc := Forward));
  }

  lemma StepEndRead(c: Config, s: State, r: nat)
    requires Inv(c, s) && Enabled(c, s, EndRead(r))
    ensures Inv(c, Apply(c, s, EndRead(r)))
  {
    hide RankOk, LinkOk, AllCopied, HoldsUpTo;
    var q := s.ranks[r];
    assert RankOk(c, r - 1, s.ranks[r - 1]) && RankOk(c, r, q);
    assert LinkOk(c, r - 1, s.ranks[r - 1], s.ranks[r - 1 + 1], s.queues[r - 1]);
    ReadComplete(c, r, s.ranks[r - 1], q, s.queues[r - 1]);
    EndReadKeepsRank(c, r, q);
    PredecessorUnaffected(c, r, s.ranks[r - 1], q, q.(pc := Forward), s.queues[r - 1]);
    if r < c.ranks - 1 {
      assert RankOk(c, r + 1, s.ranks[r + 1]) && LinkOk(c, r, q, s.ranks[r + 1], s.queues[r]);
      SuccessorUnaffected(c, r, q, q.(pc := Forward), s.ranks[r + 1], s.queues[r]);
    }
    Frame(c, s, Apply(c, s, EndRead(r)), r);
  }

  lemma ForwardKeepsRank(c: Config, r: nat, q: Rank)
    requires ValidConfig(c) && 0 < r && RankOk(c, r, q) && q.pc == Forward
    ensures RankOk(c, r, q.(pc := Yield, pos := 0))
    ensures q.info.(src := q.count % 2, slot := q.count % 2) == InfoOf(c, q.count)
  {
    var q' := q.(pc := Yield, pos := 0);
    forall k: nat | Acked(q') <= k < SentCount(q') ensures KeepsBucket(c, q', k) {
      assert k == q.count || KeepsBucket(c, q, k);
    }
    assert Keeps(c, q');
    assert Listed(c.buckets[q.count])[..0] == [];
  }

  lemma SlotsDepend(q: Rank, q': Rank, signalled: int)
    requires q'.slots == q.slots && Acked(q') == Acked(q)
    ensures SlotsOk(q, signalled) ==> SlotsOk(q', signalled)
  {
  }

  lemma ForwardKeepsLink(c: Config, r: nat, q: Rank, next: Rank, queue: seq<Info>)
    requires ValidConfig(c) && 0 < r < c.ranks - 1
    requires RankOk(c, r, q) && RankOk(c, r + 1, next) && LinkOk(c, r, q, next, queue) && q.pc == Forward
    ensures LinkOk(c, r, q.(pc := Yield, pos := 0), next, queue + [InfoOf(c, q.count)])
  {
    hide Keeps, Yielded, HoldsUpTo, InfoOf, SlotsOk;
    assert SlotsOk(q, next.count);
    SlotsDepend(q, q.(pc := Yield, pos := 0), next.count);
    assert Acked(q.(pc := Yield, pos := 0)) == Acked(q);
  }

  lemma StepForward(c: Config, s: State, r: nat)
    requires Inv(c, s) && Enabled(c, s, ForwardInfo(r))
    ensures Inv(c, Apply(c, s, ForwardInfo(r)))
  {
    hide RankOk, LinkOk;
    var q := s.ranks[r];
    assert RankOk(c, r, q);
    assert LinkOk(c, r - 1, s.ranks[r - 1], s.ranks[r - 1 + 1], s.queues[r - 1]);
    ForwardKeepsRank(c, r, q);
    PredecessorUnaffected(c, r, s.ranks[r - 1], q, q.(pc := Yield, pos := 0), s.queues[r - 1]);
    if r < c.ranks - 1 {
      assert RankOk(c, r + 1, s.ranks[r + 1]) && LinkOk(c, r, q, s.ranks[r + 1], s.queues[r]);
      ForwardKeepsLink(c, r, q, s.ranks[r + 1], s.queues[r]);
    }
    Frame(c, s, Apply(c, s, ForwardInfo(r)), r);
  }

  lemma ListedHeld(buf: seq<byte>, b: Bucket, i: nat)
    requires Holds(buf, b) && i < |Listed(b)|
    ensures HoldsEntry(buf, Listed(b)[i])
  {
    ListedIff(b);
    hide Listed, HoldsEntry;
    assert Listed(b)[i] in b;
    var j :| 0 <= j < |b| && b[j] == Listed(b)[i];
    assert HoldsEntry(buf, b[j]);
  }

  lemma YieldKeepsRank(c: Config, r: nat, q: Rank, q': Rank)
    requires ValidConfig(c) && 0 < r && RankOk(c, r, q) && q.pc == Yield && q.pos < |q.info.meta.entries|
    requires RankShape(c, q) && q' == YieldedOne(c, q)
    ensures RankOk(c, r, q')
  {
    hide Flatten, Size, Listed;
    var b := Listed(c.buckets[q.count]);
    ListedHeld(q.bufs[q.count % 2], c.buckets[q.count], q.pos);
    assert View(q.bufs[q.count % 2], q.info.meta.entries[q.pos]) == b[q.pos];
    assert b[..q.pos + 1] == b[..q.pos] + [b[q.pos]];
    KeptBuffers(c, q, q');
  }

  lemma EndYieldKeepsRank(c: Config, r: nat, q: Rank)
    requires ValidConfig(c) && 0 < r && RankOk(c, r, q) && q.pc == Yield && q.pos == |q.info.meta.entries|
    ensures RankOk(c, r, q.(pc := Signal))
  {
    hide Listed;
    assert Listed(c.buckets[q.count])[..q.pos] == Listed(c.buckets[q.count]);
    KeptBuffers(c, q, q.(pc := Signal));
  }

  lemma LocalReceiverStep(c: Config, s: State, r: nat, q': Rank)
    requires Inv(c, s) && 0 < r < c.ranks && s.ranks[r].pc == Yield && q'.pc in {Yield, Signal}
    requires RankOk(c, r, q') && q'.count == s.ranks[r].count && q'.bufs == s.ranks[r].bufs
    requires q'.slots == s.ranks[r].slots
    ensures Inv(c, SetRank(s, r, q'))
  {
    hide RankOk, LinkOk;
    var q := s.ranks[r];
    assert RankOk(c, r, q);
    assert LinkOk(c, r - 1, s.ranks[r - 1], s.ranks[r - 1 + 1], s.queues[r - 1]);
    PredecessorUnaffected(c, r, s.ranks[r - 1], q, q', s.queues[r - 1]);
    if r < c.ranks - 1 {
      assert RankOk(c, r + 1, s.ranks[r + 1]) && LinkOk(c, r, q, s.ranks[r + 1], s.queues[r]);
      Shapes(c, r, q');
      SuccessorUnaffected(c, r, q, q', s.ranks[r + 1], s.queues[r]);
    }
    Frame(c, s, SetRank(s, r, q'), r);
  }

  lemma Shapes(c: Config, r: nat, q: Rank)
    requires RankOk(c, r, q)
    ensures RankShape(c, q)
  {
  }

  lemma StepYieldEntry(c: Config, s: State, r: nat)
    requires Inv(c, s) && Enabled(c, s, YieldEntry(r))
    ensures Inv(c, Apply(c, s, YieldEntry(r)))
  {
    hide RankOk, LinkOk;
    assert RankOk(c, r, s.ranks[r]);
    YieldKeepsRank(c, r, s.ranks[r], Apply(c, s, YieldEntry(r)).ranks[r]);
    LocalReceiverStep(c, s, r, Apply(c, s, YieldEntry(r)).ranks[r]);
  }

  lemma StepEndYield(c: Config, s: State, r: nat)
    requires Inv(c, s) && Enabled(c, s, EndYield(r))
    ensures Inv(c, Apply(c, s, EndYield(r)))
  {
    hide RankOk, LinkOk;
    assert RankOk(c, r, s.ranks[r]);
    EndYieldKeepsRank(c, r, s.ranks[r]);
    LocalReceiverStep(c, s, r, s.ranks[r].(pc := Signal));
  }

  lemma SignalKeepsRank(c: Config, r: nat, q: Rank)
    requires ValidConfig(c) && 0 < r && RankOk(c, r, q) && q.pc == Signal
    ensures RankOk(c, r, Signalled(q))
    ensures Acked(Signalled(q)) == Acked(q) && SentCount(Signalled(q)) == SentCount(q)
  {
    hide HoldsUpTo, Size, Listed, Flatten, KeepsBucket;
    var listings := Listings(c.buckets);
    FlattenAppend(listings[..q.count], listings[q.count]);
    assert listings[..q.count + 1] == listings[..q.count] + [listings[q.count]];
    KeptBuffers(c, q, Signalled(q));
  }

  /** No completion signal is lost: the slot that is set was clear, and belongs to the bucket just consumed. */
  lemma SlotWasClear(c: Config, r: nat, prev: Rank, q: Rank, queue: seq<Info>)
    requires ValidConfig(c) && 0 < r < c.ranks && RankOk(c, r - 1, prev) && RankOk(c, r, q)
    requires LinkOk(c, r - 1, prev, q, queue) && q.pc == Signal
    ensures q.info.slot == q.count % 2 && SlotsOk(prev, q.count) && !prev.slots[q.info.slot]
    ensures Acked(prev) <= q.count < SentCount(prev) <= Acked(prev) + 2
    ensures r == 1 ==> prev.pc != Finished
  {
    hide Keeps, Yielded, HoldsUpTo, Size, MetaOf;
  }

  lemma SlotSet(prev: Rank, prev': Rank, k: int)
    requires SlotsOk(prev, k) && Acked(prev) <= k < Acked(prev) + 2
    requires prev'.slots == prev.slots[k % 2 := true] && Acked(prev') == Acked(prev)
    ensures SlotsOk(prev', k + 1)
  {
  }

  lemma SignalKeepsLink(c: Config, r: nat, prev: Rank, q: Rank, queue: seq<Info>)
    requires ValidConfig(c) && 0 < r < c.ranks && RankOk(c, r - 1, prev) && RankOk(c, r, q)
    requires LinkOk(c, r - 1, prev, q, queue) && q.pc == Signal
    ensures 0 <= q.info.slot < |prev.slots|
    ensures LinkOk(c, r - 1, prev.(slots := prev.slots[q.info.slot := true]), Signalled(q), queue)
  {
    SlotWasClear(c, r, prev, q, queue);
    var prev' := prev.(slots := prev.slots[q.info.slot := true]);
    SlotSet(prev, prev', q.count);
    ShapesOf(c, r, prev, q);
    LinkAfterSignal(c, r, prev, prev', q, queue);
    hide RankOk, LinkOk, SlotsOk;
  }

  lemma ShapesOf(c: Config, r: nat, prev: Rank, q: Rank)
    requires 0 < r && RankOk(c, r - 1, prev) && RankOk(c, r, q)
    ensures RankShape(c, prev) && RankShape(c, q) && q.count < |c.buckets| + 1
  {
    hide Keeps, Yielded, HoldsUpTo;
  }

  lemma LinkAfterSignal(c: Config, r: nat, prev: Rank, prev': Rank, q: Rank, queue: seq<Info>)
    requires 0 < r && LinkOk(c, r - 1, prev, q, queue) && q.pc == Signal && RankShape(c, prev) && RankShape(c, q)
    requires prev' == prev.(slots := prev'.slots) && SlotsOk(prev', q.count + 1)
    requires Acked(prev) <= q.count < SentCount(prev)
    requires r == 1 ==> prev.pc != Finished
    ensures LinkOk(c, r - 1, prev', Signalled(q), queue)
  {
    hide SlotsOk, InfoOf;
  }

  lemma SlotsKeepRank(c: Config, r: nat, q: Rank, q': Rank)
    requires RankOk(c, r, q) && q' == q.(slots := q'.slots) && |q'.slots| == 2
    ensures RankOk(c, r, q')
  {
    hide HoldsUpTo, Flatten, Size, MetaOf;
    KeptBuffers(c, q, q');
  }

  lemma SlotsIrrelevant(c: Config, r: nat, prev: Rank, q: Rank, q': Rank, queue: seq<Info>)
    requires LinkOk(c, r, prev, q, queue) && RankShape(c, q) && q' == q.(slots := q'.slots)
    ensures LinkOk(c, r, prev, q', queue)
  {
    hide SlotsOk, FinalSlots, InfoOf;
  }

  lemma SignalFinished(c: Config, r: nat, q: Rank, next: Rank, queue: seq<Info>)
    requires ValidConfig(c) && 0 < r < c.ranks - 1 && RankOk(c, r, q) && RankOk(c, r + 1, next)
    requires LinkOk(c, r, q, next, queue) && q.pc == Signal
    ensures LinkOk(c, r, Signalled(q), next, queue)
  {
    hide SlotsOk, FinalSlots, Keeps, Yielded, InfoOf;
    SlotsSame(q, Signalled(q), next.count);
    assert Acked(Signalled(q)) == Acked(q);
  }

  lemma SlotsSame(q: Rank, q': Rank, signalled: int)
    requires SlotsOk(q, signalled) && q'.slots == q.slots && Acked(q') == Acked(q)
    ensures SlotsOk(q', signalled)
  {
  }

  lemma StepSignal(c: Config, s: State, r: nat)
    requires Inv(c, s) && Enabled(c, s, SignalDone(r))
    ensures Inv(c, Apply(c, s, SignalDone(r)))
  {
    hide RankOk, LinkOk;
    var q, prev := s.ranks[r], s.ranks[r - 1];
    var prev' := prev.(slots := prev.slots[q.info.slot := true]);
    var s' := Apply(c, s, SignalDone(r));
    assert RankOk(c, r - 1, prev) && RankOk(c, r, q);
    assert LinkOk(c, r - 1, s.ranks[r - 1], s.ranks[r - 1 + 1], s.queues[r - 1]);
    SignalKeepsRank(c, r, q);
    SignalKeepsLink(c, r, prev, q, s.queues[r - 1]);
    SlotsKeepRank(c, r - 1, prev, prev');
    if r < c.ranks - 1 {
      assert RankOk(c, r + 1, s.ranks[r + 1]) && LinkOk(c, r, q, s.ranks[r + 1], s.queues[r]);
      SignalFinished(c, r, q, s.ranks[r + 1], s.queues[r]);
    }
    forall k | 0 <= k < c.ranks ensures RankOk(c, k, s'.ranks[k]) && RankShape(c, s'.ranks[k]) {
      assert RankOk(c, k, s.ranks[k]);
      Shapes(c, k, s'.ranks[k]);
    }
    forall k | 0 <= k < c.ranks - 1 ensures LinkOk(c, k, s'.ranks[k], s'.ranks[k + 1], s'.queues[k]) {
      assert LinkOk(c, k, s.ranks[k], s.ranks[k + 1], s.queues[k]);
      if k == r - 2 {
        SlotsIrrelevant(c, k, s.ranks[k], prev, prev', s.queues[k]);
      }
    }
  }

  /** The invariant is inductive. */
  lemma StepKeepsInv(c: Config, s: State, a: Action)
    requires Inv(c, s) && Enabled(c, s, a)
    ensures Inv(c, Apply(c, s, a))
  {
    hide RankOk, LinkOk;
    match a
    case FillEntry => StepFillEntry(c, s);
    case EndFill => StepEndFill(c, s);
    case SendBucket => StepSend(c, s);
    case TakeSlot(r) => StepTakeSlot(c, s, r);
    case Receive(r) => StepReceive(c, s, r);
    case CopyByte(r, i) => StepCopyByte(c, s, r, i);
    case EndRead(r) => StepEndRead(c, s, r);
    case ForwardInfo(r) => StepForward(c, s, r);
    case YieldEntry(r) => StepYieldEntry(c, s, r);
    case EndYield(r) => StepEndYield(c, s, r);
    case SignalDone(r) => StepSignal(c, s, r);
  }

  // ---------- runs and safety ----------

  ghost predicate Legal(c: Config, s: State, run: seq<Action>)
    decreases |run|
  {
    run == [] || (Enabled(c, s, run[0]) && Legal(c, Apply(c, s, run[0]), run[1..]))
  }

  ghost function Exec(c: Config, s: State, run: seq<Action>): State
    requires Legal(c, s, run)
    decreases |run|
  {
    if run == [] then s else Exec(c, Apply(c, s, run[0]), run[1..])
  }

  lemma {:induction false} RunKeepsInv(c: Config, s: State, run: seq<Action>)
    requires Inv(c, s) && Legal(c, s, run)
    ensures Inv(c, Exec(c, s, run))
    decreases |run|
  {
    if run != [] {
      StepKeepsInv(c, s, run[0]);
      RunKeepsInv(c, Apply(c, s, run[0]), run[1..]);
    }
  }

  /** What must never go wrong in a state. */
  ghost predicate Safe(c: Config, s: State) {
    && Shape(c, s)
    && (forall r | 0 < r < c.ranks :: s.ranks[r].yielded <= Flatten(Listings(c.buckets)))
    && (forall r | 0 <= r < c.ranks - 1 :: LinkSafe(c, r, s.ranks[r], s.ranks[r + 1]))
    // rank 0 returns only after rank 1 has consumed every bucket
    && (s.ranks[0].pc == Finished ==> s.ranks[1].pc == Finished && s.ranks[1].yielded == Flatten(Listings(c.buckets)))
  }

  ghost predicate LinkSafe(c: Config, r: nat, q: Rank, next: Rank)
    requires RankShape(c, q) && RankShape(c, next)
  {
    // a rank that writes the buffer of bucket k + 2 has a successor that consumed bucket k
    && (q.pc in {Fill, Reading} ==> next.count >= q.count - 1)
    // a rank about to signal finds the slot clear, so no signal is lost
    && (next.pc == Signal ==> !q.slots[next.info.slot])
    // a set slot that is waited for means that the awaited bucket was consumed
    && (q.pc in {WaitSlot, WaitLast} && q.slots[AwaitedSlot(q)] ==>
          next.count > if q.pc == WaitSlot then q.count - 2 else |c.buckets| - 1)
    && (r == 0 && q.pc == Finished ==> next.pc == Finished)
  }

  lemma YieldedIsPrefix(c: Config, r: nat, q: Rank)
    requires ValidConfig(c) && 0 < r && RankOk(c, r, q)
    ensures q.yielded <= Flatten(Listings(c.buckets))
    ensures q.pc == Finished ==> q.yielded == Flatten(Listings(c.buckets))
  {
    hide HoldsUpTo, Size, MetaOf, Keeps, Listed;
    var listings := Listings(c.buckets);
    assert listings[..|c.buckets|] == listings;
    FlattenPrefix(listings, q.count);
    if q.count < |c.buckets| {
      assert listings[q.count][..0] == [] && listings[q.count][..|listings[q.count]|] == listings[q.count];
    }
  }

  lemma LinkIsSafe(c: Config, r: nat, q: Rank, q': Rank, queue: seq<Info>)
    requires ValidConfig(c) && r < c.ranks - 1 && RankOk(c, r, q) && RankOk(c, r + 1, q') && LinkOk(c, r, q, q', queue)
    ensures RankShape(c, q) && RankShape(c, q') && LinkSafe(c, r, q, q')
  {
    hide HoldsUpTo, Size, MetaOf, Keeps, Yielded, InfoOf;
    if q'.pc == Signal {
      SlotWasClear(c, r + 1, q, q', queue);
    }
    if q.pc in {WaitSlot, WaitLast} && q.slots[AwaitedSlot(q)] {
      TakeSlotKeepsLink(c, r, q, q', queue);
    }
  }

  lemma InvIsSafe(c: Config, s: State)
    requires Inv(c, s)
    ensures Safe(c, s)
  {
    hide RankOk, LinkOk, RankShape, LinkSafe, Listings;
    forall r | 0 < r < c.ranks ensures s.ranks[r].yielded <= Flatten(Listings(c.buckets))
      && (s.ranks[r].pc == Finished ==> s.ranks[r].yielded == Flatten(Listings(c.buckets)))
    {
      YieldedIsPrefix(c, r, s.ranks[r]);
    }
    forall r | 0 <= r < c.ranks - 1
      ensures LinkSafe(c, r, s.ranks[r], s.ranks[r + 1])
      ensures r == 0 && s.ranks[r].pc == Finished ==> s.ranks[r + 1].pc == Finished
    {
      assert LinkOk(c, r, s.ranks[r], s.ranks[r + 1], s.queues[r]);
      LinkIsSafe(c, r, s.ranks[r], s.ranks[r + 1], s.queues[r]);
      FirstFinished(c, r, s.ranks[r], s.ranks[r + 1]);
    }
  }

  lemma FirstFinished(c: Config, r: nat, q: Rank, next: Rank)
    requires RankShape(c, q) && RankShape(c, next) && LinkSafe(c, r, q, next)
    ensures r == 0 && q.pc == Finished ==> next.pc == Finished
  {
  }

  /** Safety over whole runs from clear slots: any number of ranks and buckets, any interleaving. */
  lemma ChainSafety(c: Config, s: State, run: seq<Action>)
    requires ValidConfig(c) && Init(c, s) && Legal(c, s, run)
    ensures Safe(c, Exec(c, s, run))
  {
    InitInv(c, s);
    RunKeepsInv(c, s, run);
    InvIsSafe(c, Exec(c, s, run));
  }

  /** Buffer `side` of rank r is the same in two states. */
  ghost predicate SameBuffer(before: seq<Rank>, after: seq<Rank>, r: nat, side: int) {
    && r < |before| && r < |after| && 0 <= side < |before[r].bufs| && side < |after[r].bufs|
    && after[r].bufs[side] == before[r].bufs[side]
  }

  lemma OtherActionsWriteNothing(c: Config, s: State, a: Action, r: nat)
    requires Enabled(c, s, a) && r < c.ranks && !a.FillEntry? && !a.CopyByte?
    ensures |Apply(c, s, a).ranks| == c.ranks && Apply(c, s, a).ranks[r].bufs == s.ranks[r].bufs
  {
    hide RankShape, Size, InfoOf, AllCopied, View, Overwrite;
  }

  /** A step changes at most the buffer of the bucket that a rank fills or reads. */
  lemma BufferWrites(c: Config, s: State, a: Action, r: nat, side: int)
    requires Enabled(c, s, a) && r < c.ranks && 0 <= side < 2
    requires s.ranks[r].pc in {Fill, Reading} ==> side == (s.ranks[r].count + 1) % 2
    ensures SameBuffer(s.ranks, Apply(c, s, a).ranks, r, side)
  {
    assert RankShape(c, s.ranks[r]);
    if a.FillEntry? || a.CopyByte? {
      hide Overwrite, Size, InfoOf;
    } else {
      OtherActionsWriteNothing(c, s, a, r);
    }
  }

  lemma SourceIsOther(c: Config, r: nat, prev: Rank, q: Rank, queue: seq<Info>)
    requires ValidConfig(c) && 0 < r < c.ranks && RankOk(c, r - 1, prev) && RankOk(c, r, q)
    requires LinkOk(c, r - 1, prev, q, queue)
    requires q.pc == Reading
    ensures q.info.src == q.count % 2
    ensures prev.pc in {Fill, Reading} ==> q.count % 2 == (prev.count + 1) % 2
  {
    hide HoldsUpTo, Size, MetaOf, Keeps, Yielded, SlotsOk, FinalSlots, Listings;
  }

  /** No step of any rank changes a buffer that the successor is reading. */
  lemma NoOverwrite(c: Config, s: State, a: Action, r: nat)
    requires Inv(c, s) && Enabled(c, s, a) && 0 < r < c.ranks && s.ranks[r].pc == Reading
    ensures SameBuffer(s.ranks, Apply(c, s, a).ranks, r - 1, s.ranks[r].info.src)
  {
    hide RankOk, LinkOk, Apply, SameBuffer, Enabled;
    assert RankOk(c, r - 1, s.ranks[r - 1]) && RankOk(c, r, s.ranks[r]) && RankShape(c, s.ranks[r]);
    assert LinkOk(c, r - 1, s.ranks[r - 1], s.ranks[r - 1 + 1], s.queues[r - 1]);
    SourceIsOther(c, r, s.ranks[r - 1], s.ranks[r], s.queues[r - 1]);
    BufferWrites(c, s, a, r - 1, s.ranks[r].info.src);
  }

  // ---------- progress ----------

  ghost predicate AllFinished(c: Config, s: State) {
    Shape(c, s) && forall r | 0 <= r < c.ranks :: s.ranks[r].pc == Finished
  }

  lemma UnconsumedBucket(c: Config, r: nat, q: Rank, q': Rank, queue: seq<Info>)
    requires ValidConfig(c) && r < c.ranks - 1 && RankOk(c, r, q) && RankOk(c, r + 1, q') && LinkOk(c, r, q, q', queue)
    requires q.pc in {WaitSlot, WaitLast} && !q.slots[AwaitedSlot(q)]
    ensures q'.pc != Finished && (q'.pc == Recv ==> queue != [] && queue[0] == InfoOf(c, q'.count))
  {
    hide HoldsUpTo, Size, MetaOf, Keeps, Yielded, InfoOf;
  }

  lemma InfoOfShape(c: Config, k: nat)
    requires ValidConfig(c)
    ensures var i := InfoOf(c, k); 0 <= i.src < 2 && 0 <= i.slot < 2 && i.len <= c.bucketSize
  {
    if k < |c.buckets| {
      assert c.buckets[k] in c.buckets;
    }
  }

  lemma WaitsForInfo(c: Config, r: nat, prev: Rank, q: Rank, queue: seq<Info>)
    requires ValidConfig(c) && 0 < r < c.ranks && RankOk(c, r - 1, prev) && RankOk(c, r, q)
    requires LinkOk(c, r - 1, prev, q, queue)
    requires q.pc == Recv
    ensures queue == [] ==> prev.pc != Finished
    ensures queue != [] ==> queue[0] == InfoOf(c, q.count)
  {
    hide HoldsUpTo, Size, MetaOf, Keeps, Yielded, InfoOf, SlotsOk;
  }

  lemma ReceiverMoves(c: Config, s: State, r: nat) returns (a: Action)
    requires Inv(c, s) && 0 < r < c.ranks && s.ranks[r].pc !in {Recv, WaitSlot, Finished}
    ensures Enabled(c, s, a)
  {
    hide RankOk, LinkOk;
    var q := s.ranks[r];
    assert RankOk(c, r, q) && RankShape(c, q);
    ReceiverPcs(c, r, q);
    if q.pc == Reading {
      if AllCopied(q.copied, q.info.len) {
        a := EndRead(r);
      } else {
        var i: nat :| i < q.info.len && i !in q.copied;
        a := CopyByte(r, i);
      }
    } else if q.pc == Forward {
      a := ForwardInfo(r);
    } else if q.pc == Yield {
      a := if q.pos < |q.info.meta.entries| then YieldEntry(r) else EndYield(r);
    } else {
      a := SignalDone(r);
    }
  }

  lemma ReceiveMoves(c: Config, s: State, r: nat, k: nat) returns (a: Action)
    requires Shape(c, s) && 0 < r < c.ranks && s.ranks[r].pc == Recv && s.queues[r - 1] != []
    requires s.queues[r - 1][0] == InfoOf(c, k)
    requires var i := InfoOf(c, k); 0 <= i.src < 2 && 0 <= i.slot < 2 && i.len <= c.bucketSize
    ensures Enabled(c, s, a)
  {
    hide InfoOf;
    a := Receive(r);
  }

  lemma SenderPcs(c: Config, q: Rank)
    requires RankOk(c, 0, q)
    ensures q.pc in {Fill, Send, WaitSlot, WaitLast, Finished}
    ensures q.pc in {Fill, Send} ==> q.count < |c.buckets|
    ensures q.pc == Fill ==> q.pos <= |c.buckets[q.count]|
  {
  }

  /** The last rank never waits for a slot, and nobody sets one of its slots. */
  ghost predicate LastOk(c: Config, s: State) {
    Shape(c, s) && s.ranks[c.ranks - 1].pc != WaitSlot && s.ranks[c.ranks - 1].slots == [false, false]
  }

  lemma LastStepOk(c: Config, s: State, a: Action)
    requires Inv(c, s) && LastOk(c, s) && Enabled(c, s, a)
    ensures LastOk(c, Apply(c, s, a))
  {
    hide RankOk, LinkOk;
    StepKeepsInv(c, s, a);
    var r := c.ranks - 1;
    assert RankOk(c, r, s.ranks[r]);
    ReceiverPcs(c, r, s.ranks[r]);
  }

  lemma {:induction false} RunKeepsLast(c: Config, s: State, run: seq<Action>)
    requires Inv(c, s) && LastOk(c, s) && Legal(c, s, run)
    ensures LastOk(c, Exec(c, s, run))
    decreases |run|
  {
    hide RankOk, LinkOk;
    if run != [] {
      StepKeepsInv(c, s, run[0]);
      LastStepOk(c, s, run[0]);
      RunKeepsLast(c, Apply(c, s, run[0]), run[1..]);
    }
  }

  /** A rank waiting for a slot waits for its successor, which moves or waits in turn; the last rank never waits. */
  lemma {:induction false} WaiterMoves(c: Config, s: State, r: nat) returns (a: Action)
    requires Inv(c, s) && LastOk(c, s) && r < c.ranks && s.ranks[r].pc in {WaitSlot, WaitLast}
    ensures Enabled(c, s, a)
    decreases c.ranks - r
  {
    hide RankOk, LinkOk;
    var q := s.ranks[r];
    assert RankOk(c, r, q) && RankShape(c, q);
    if r > 0 {
      ReceiverPcs(c, r, q);
    }
    if q.slots[AwaitedSlot(q)] {
      a := TakeSlot(r);
    } else {
      var q' := s.ranks[r + 1];
      assert RankOk(c, r + 1, q') && LinkOk(c, r, q, q', s.queues[r]);
      UnconsumedBucket(c, r, q, q', s.queues[r]);
      ReceiverPcs(c, r + 1, q');
      if q'.pc == WaitSlot {
        a := WaiterMoves(c, s, r + 1);
      } else if q'.pc == Recv {
        InfoOfShape(c, q'.count);
        a := ReceiveMoves(c, s, r + 1, q'.count);
      } else {
        a := ReceiverMoves(c, s, r + 1);
      }
    }
  }

  lemma {:induction false} SomeRankMoves(c: Config, s: State, r: nat) returns (a: Action)
    requires Inv(c, s) && LastOk(c, s) && r < c.ranks && s.ranks[r].pc != Finished
    ensures Enabled(c, s, a)
    decreases r
  {
    hide RankOk, LinkOk;
    var q := s.ranks[r];
    assert RankOk(c, r, q);
    if q.pc in {WaitSlot, WaitLast} {
      a := WaiterMoves(c, s, r);
    } else if r == 0 {
      SenderPcs(c, q);
      a := SenderMoves(c, s);
    } else if q.pc == Recv {
      assert RankOk(c, r - 1, s.ranks[r - 1]);
      assert LinkOk(c, r - 1, s.ranks[r - 1], s.ranks[r - 1 + 1], s.queues[r - 1]);
      WaitsForInfo(c, r, s.ranks[r - 1], q, s.queues[r - 1]);
      if s.queues[r - 1] == [] {
        a := SomeRankMoves(c, s, r - 1);
      } else {
        InfoOfShape(c, q.count);
        a := Receive(r);
      }
    } else {
      a := ReceiverMoves(c, s, r);
    }
  }

  lemma SenderMoves(c: Config, s: State) returns (a: Action)
    requires Inv(c, s) && s.ranks[0].pc in {Fill, Send}
    ensures Enabled(c, s, a)
  {
    hide RankOk, LinkOk;
    var q := s.ranks[0];
    assert RankOk(c, 0, q);
    SenderPcs(c, q);
    assert c.buckets[q.count] in c.buckets;
    if q.pc == Send {
      a := SendBucket;
    } else if q.pos < |c.buckets[q.count]| {
      FillFits(c, q);
      a := FillEntry;
    } else {
      a := EndFill;
    }
  }

  /** Deadlock freedom. */
  lemma StuckOnlyWhenFinished(c: Config, s: State)
    requires Inv(c, s) && LastOk(c, s)
    ensures (forall a :: !Enabled(c, s, a)) <==> AllFinished(c, s)
  {
    hide RankOk, LinkOk;
    if !AllFinished(c, s) {
      var r :| 0 <= r < c.ranks && s.ranks[r].pc != Finished;
      var a := SomeRankMoves(c, s, r);
    }
  }

  // ---------- termination and delivery ----------

  ghost function PerBucket(c: Config): nat {
    |Flatten(c.buckets)| + c.bucketSize + 8
  }

  ghost function PhaseWork(c: Config, q: Rank): int {
    var n := |Flatten(c.buckets)|;
    match q.pc
    case Fill => 3 + n - q.pos
    case Send => 2
    case WaitSlot => n + c.bucketSize + 5
    case WaitLast => 1
    case Recv => n + c.bucketSize + 6
    case Reading => n + 4 + c.bucketSize - |q.copied|
    case Forward => n + 3
    case Yield => 2 + n - q.pos
    case Signal => 1
    case Finished => 0
  }

  /** The steps that the buckets from count on may take. */
  ghost function BucketWork(c: Config, count: int): int {
    (|c.buckets| - count) * PerBucket(c)
  }

  lemma OneBucketLess(c: Config, count: int)
    ensures BucketWork(c, count + 1) == BucketWork(c, count) - PerBucket(c)
    ensures count <= |c.buckets| ==> BucketWork(c, count) >= 0
  {
    if count <= |c.buckets| {
      MulMono(0, |c.buckets| - count, PerBucket(c));
    }
  }

  /** An upper bound on the steps a rank has still before it. */
  ghost function Work(c: Config, q: Rank): int {
    BucketWork(c, q.count) + PhaseWork(c, q)
  }

  ghost function TotalWork(c: Config, ranks: seq<Rank>): int {
    if ranks == [] then 0 else TotalWork(c, ranks[..|ranks| - 1]) + Work(c, ranks[|ranks| - 1])
  }

  lemma {:induction false} TotalUpdate(c: Config, ranks: seq<Rank>, r: nat, q: Rank)
    requires r < |ranks|
    ensures TotalWork(c, ranks[r := q]) == TotalWork(c, ranks) + Work(c, q) - Work(c, ranks[r])
  {
    var n := |ranks| - 1;
    if r == n {
      assert ranks[r := q][..n] == ranks[..n];
    } else {
      TotalUpdate(c, ranks[..n], r, q);
      assert ranks[r := q][..n] == ranks[..n][r := q];
    }
  }

  lemma BucketRoom(c: Config, r: nat, q: Rank)
    requires ValidConfig(c) && RankOk(c, r, q)
    ensures q.count <= |c.buckets| && (q.pc == Fill ==> r == 0) && (q.pc == Yield ==> r > 0)
    ensures q.pc in {Fill, Yield} ==> q.pos <= |Flatten(c.buckets)|
    ensures q.pc == Reading ==> |q.copied| <= c.bucketSize
    ensures q.pc !in {WaitLast, Finished} ==> q.count < |c.buckets|
  {
    hide HoldsEntry, Size, Keeps, Yielded, Listed;
    if q.pc == Yield {
      ListedIff(c.buckets[q.count]);
    }
    if q.pc == Reading {
      CopiedBound(c.bucketSize, q.copied);
    }
    if q.pc in {Fill, Yield} {
      BucketSmall(c.buckets, q.count);
    }
  }

  lemma WorkNonNegative(c: Config, r: nat, q: Rank)
    requires ValidConfig(c) && RankOk(c, r, q)
    ensures Work(c, q) >= 0
  {
    hide RankOk, BucketWork;
    BucketRoom(c, r, q);
    OneBucketLess(c, q.count);
  }

  lemma {:induction false} TotalNonNegative(c: Config, ranks: seq<Rank>)
    requires ValidConfig(c) && forall r | 0 <= r < |ranks| :: RankOk(c, r, ranks[r])
    ensures TotalWork(c, ranks) >= 0
  {
    hide RankOk;
    if ranks != [] {
      TotalNonNegative(c, ranks[..|ranks| - 1]);
      WorkNonNegative(c, |ranks| - 1, ranks[|ranks| - 1]);
    }
  }

  ghost function Actor(a: Action): nat {
    if a.FillEntry? || a.EndFill? || a.SendBucket? then 0 else a.r
  }

  /** What the invariant says about the quantities in the measure. */
  ghost predicate WorkFacts(c: Config, r: nat, q: Rank) {
    && r < c.ranks && q.count <= |c.buckets| && (q.pc == Fill ==> r == 0) && (q.pc == Yield ==> r > 0)
    && (q.pc in {Fill, Yield} ==> q.pos <= |Flatten(c.buckets)|)
    && (q.pc == Reading ==> |q.copied| <= c.bucketSize)
    && (q.pc !in {WaitLast, Finished} ==> q.count < |c.buckets|)
    && BucketWork(c, q.count + 1) == BucketWork(c, q.count) - PerBucket(c)
  }

  lemma WorkFactsHold(c: Config, s: State, r: nat)
    requires Inv(c, s) && r < c.ranks
    ensures WorkFacts(c, r, s.ranks[r])
  {
    hide RankOk, LinkOk, BucketWork, PerBucket, Flatten;
    assert RankOk(c, r, s.ranks[r]);
    BucketRoom(c, r, s.ranks[r]);
    OneBucketLess(c, s.ranks[r].count);
  }

  lemma ReaderWork(c: Config, s: State, a: Action)
    requires Inv(c, s) && Enabled(c, s, a) && Actor(a) < c.ranks && WorkFacts(c, Actor(a), s.ranks[Actor(a)])
    requires a.Receive? || a.CopyByte? || a.EndRead? || a.ForwardInfo?
    ensures Work(c, Apply(c, s, a).ranks[Actor(a)]) < Work(c, s.ranks[Actor(a)])
  {
    hide RankOk, LinkOk, BucketWork, Flatten, AllCopied, ValidConfig, Size;
    if a.CopyByte? {
      assert RankOk(c, a.r, s.ranks[a.r]);
      CopiedMore(s.ranks[a.r].copied, a.i);
    }
  }

  lemma CopiedMore(copied: set<nat>, i: nat)
    requires i !in copied
    ensures |copied + {i}| == |copied| + 1
  {
  }

  lemma OtherWork(c: Config, s: State, a: Action)
    requires Inv(c, s) && Enabled(c, s, a) && Actor(a) < c.ranks && WorkFacts(c, Actor(a), s.ranks[Actor(a)])
    requires !(a.Receive? || a.CopyByte? || a.EndRead? || a.ForwardInfo?)
    ensures Work(c, Apply(c, s, a).ranks[Actor(a)]) < Work(c, s.ranks[Actor(a)])
  {
    hide RankOk, LinkOk, BucketWork, Flatten, MetaOf, Size, Tiled, ValidConfig, Overwrite;
  }

  lemma ActorInRange(c: Config, s: State, a: Action)
    requires Inv(c, s) && Enabled(c, s, a)
    ensures Actor(a) < c.ranks == |Apply(c, s, a).ranks|
  {
    hide RankOk, LinkOk, Flatten, MetaOf, AllCopied, Size, Tiled, ValidConfig;
  }

  lemma ActorsWork(c: Config, s: State, a: Action)
    requires Inv(c, s) && Enabled(c, s, a)
    ensures Actor(a) < c.ranks == |Apply(c, s, a).ranks|
    ensures Work(c, Apply(c, s, a).ranks[Actor(a)]) < Work(c, s.ranks[Actor(a)])
  {
    ActorInRange(c, s, a);
    hide Apply, Work, WorkFacts, RankOk, LinkOk;
    WorkFactsHold(c, s, Actor(a));
    if a.Receive? || a.CopyByte? || a.EndRead? || a.ForwardInfo? {
      ReaderWork(c, s, a);
    } else {
      OtherWork(c, s, a);
    }
  }

  /** A step changes nothing of another rank but, when it signals, the slots of its predecessor. */
  lemma OthersSame(c: Config, s: State, a: Action, r: nat)
    requires Enabled(c, s, a) && r < c.ranks && r != Actor(a)
    ensures |Apply(c, s, a).ranks| == c.ranks
    ensures Apply(c, s, a).ranks[r] == s.ranks[r].(slots := Apply(c, s, a).ranks[r].slots)
  {
    hide RankShape, Size, InfoOf, AllCopied, View, Overwrite, Filled, Sent, SlotTaken, Received, Copied, Signalled;
  }

  lemma SlotsNoWork(c: Config, q: Rank, slots: seq<bool>)
    ensures Work(c, q.(slots := slots)) == Work(c, q)
  {
    hide BucketWork, Flatten;
  }

  lemma OthersWork(c: Config, s: State, a: Action, r: nat)
    requires Enabled(c, s, a) && r < c.ranks && r != Actor(a)
    ensures |Apply(c, s, a).ranks| == c.ranks && Work(c, Apply(c, s, a).ranks[r]) == Work(c, s.ranks[r])
  {
    hide Apply, Work;
    OthersSame(c, s, a, r);
    SlotsNoWork(c, s.ranks[r], Apply(c, s, a).ranks[r].slots);
  }

  lemma {:induction false} TotalCompare(c: Config, before: seq<Rank>, after: seq<Rank>, r: nat)
    requires r < |before| == |after| && Work(c, after[r]) < Work(c, before[r])
    requires forall k | 0 <= k < |before| && k != r :: Work(c, after[k]) == Work(c, before[k])
    ensures TotalWork(c, after) < TotalWork(c, before)
  {
    hide Work;
    var n := |before| - 1;
    if r == n {
      TotalSame(c, before[..n], after[..n]);
    } else {
      TotalCompare(c, before[..n], after[..n], r);
    }
  }

  lemma {:induction false} TotalSame(c: Config, before: seq<Rank>, after: seq<Rank>)
    requires |before| == |after|
    requires forall k | 0 <= k < |before| :: Work(c, after[k]) == Work(c, before[k])
    ensures TotalWork(c, after) == TotalWork(c, before)
  {
    hide Work;
    if before != [] {
      TotalSame(c, before[..|before| - 1], after[..|before| - 1]);
    }
  }

  /** Each step lowers the remaining work, which is never negative. */
  lemma StepDecreases(c: Config, s: State, a: Action)
    requires Inv(c, s) && Enabled(c, s, a)
    ensures 0 <= TotalWork(c, Apply(c, s, a).ranks) < TotalWork(c, s.ranks)
  {
    hide RankOk, LinkOk, Work;
    StepKeepsInv(c, s, a);
    ActorsWork(c, s, a);
    forall k | 0 <= k < c.ranks && k != Actor(a) ensures Work(c, Apply(c, s, a).ranks[k]) == Work(c, s.ranks[k]) {
      OthersWork(c, s, a, k);
    }
    TotalCompare(c, s.ranks, Apply(c, s, a).ranks, Actor(a));
    TotalNonNegative(c, Apply(c, s, a).ranks);
  }

  lemma {:induction false} RunIsBounded(c: Config, s: State, run: seq<Action>)
    requires Inv(c, s) && Legal(c, s, run)
    ensures |run| <= TotalWork(c, s.ranks)
    decreases |run|
  {
    hide RankOk, LinkOk;
    TotalNonNegative(c, s.ranks);
    if run != [] {
      StepDecreases(c, s, run[0]);
      StepKeepsInv(c, s, run[0]);
      RunIsBounded(c, Apply(c, s, run[0]), run[1..]);
    }
  }

  /** Every run is finite, and one that cannot be extended has delivered every entry to every rank. */
  lemma ChainDelivers(c: Config, s: State, run: seq<Action>)
    requires ValidConfig(c) && Init(c, s) && Legal(c, s, run)
    ensures |run| <= TotalWork(c, s.ranks)
    ensures var last := Exec(c, s, run);
      (forall a :: !Enabled(c, last, a)) ==>
        AllFinished(c, last) && forall r | 0 < r < c.ranks :: last.ranks[r].yielded == Flatten(Listings(c.buckets))
  {
    hide RankOk, LinkOk;
    InitInv(c, s);
    RunIsBounded(c, s, run);
    RunKeepsInv(c, s, run);
    assert InitRank(c.ranks - 1, s.ranks[c.ranks - 1]);
    RunKeepsLast(c, s, run);
    var last := Exec(c, s, run);
    StuckOnlyWhenFinished(c, last);
    if AllFinished(c, last) {
      forall r | 0 < r < c.ranks ensures last.ranks[r].yielded == Flatten(Listings(c.buckets)) {
        YieldedIsPrefix(c, r, last.ranks[r]);
      }
    }
  }

  /** Every state of the invariant can be run to the end. */
  lemma {:induction false} CanComplete(c: Config, s: State) returns (run: seq<Action>)
    requires Inv(c, s) && LastOk(c, s)
    ensures Legal(c, s, run) && AllFinished(c, Exec(c, s, run))
    decreases TotalWork(c, s.ranks)
  {
    hide Inv, LastOk, Enabled, Apply, AllFinished;
    if AllFinished(c, s) {
      run := [];
    } else {
      StuckOnlyWhenFinished(c, s);
      var a :| Enabled(c, s, a);
      StepDecreases(c, s, a);
      StepKeepsInv(c, s, a);
      LastStepOk(c, s, a);
      var rest := CanComplete(c, Apply(c, s, a));
      run := [a] + rest;
      assert run[1..] == rest;
    }
  }

  lemma Complete(c: Config, s: State) returns (run: seq<Action>)
    requires ValidConfig(c) && Init(c, s)
    ensures Legal(c, s, run) && AllFinished(c, Exec(c, s, run))
  {
    hide RankOk, LinkOk;
    InitInv(c, s);
    assert InitRank(c.ranks - 1, s.ranks[c.ranks - 1]);
    run := CanComplete(c, s);
  }
}
