/**
 What a complete Mooncake call leaves the completion slots at, and what a slot that is still set does to the next
 call (verl/verl/checkpoint_engine/mooncake_checkpoint_engine.py): nothing clears the slots between calls.
*/
module MooncakeSlots {
  import opened Arithmetic
  import opened Weights
  import opened Packing
  import opened MooncakeChain
  import opened MooncakeWeights

  // ---------- what the slots are left at ----------

  /** The slots that a complete call leaves set on rank r. */
  function LeftSet(c: Config, r: nat, p: nat): bool {
    var n := |c.buckets|;
    if r == 0 then n >= 2 && p == n % 2
    else if r < c.ranks - 1 then n >= 2 || p == 0
    else false
  }

  lemma LeftMiddle(c: Config, r: nat, q: Rank, q': Rank, queue: seq<Info>)
    requires ValidConfig(c) && 0 < r < c.ranks - 1 && RankOk(c, r, q) && RankOk(c, r + 1, q')
    requires LinkOk(c, r, q, q', queue) && q.pc == q'.pc == Finished
    ensures |q.slots| == 2 && forall p | 0 <= p < 2 :: q.slots[p] == LeftSet(c, r, p)
  {
    ReceiverPcs(c, r, q);
    ReceiverPcs(c, r + 1, q');
    hide RankOk, InfoOf;
  }

  lemma LeftFirst(c: Config, q: Rank, q': Rank, queue: seq<Info>)
    requires ValidConfig(c) && LinkOk(c, 0, q, q', queue) && q.pc == Finished
    ensures |q.slots| == 2 && forall p | 0 <= p < 2 :: q.slots[p] == LeftSet(c, 0, p)
  {
    hide SlotsOk, InfoOf, Tiled, Size;
    var n := |c.buckets|;
    assert (n + 1) % 2 == 1 - n % 2;
  }

  ghost predicate SlotsLeft(c: Config, s: State) {
    && |s.ranks| == c.ranks
    && forall r | 0 <= r < c.ranks :: |s.ranks[r].slots| == 2 && forall p | 0 <= p < 2 ::
      s.ranks[r].slots[p] == LeftSet(c, r, p)
  }

  ghost predicate AllClear(s: State) {
    forall q <- s.ranks :: q.slots == [false, false]
  }

  lemma LeftoverAt(c: Config, s: State, r: nat)
    requires Inv(c, s) && LastOk(c, s) && AllFinished(c, s) && r < c.ranks
    ensures |s.ranks[r].slots| == 2 && forall p | 0 <= p < 2 :: s.ranks[r].slots[p] == LeftSet(c, r, p)
  {
    hide RankOk, LinkOk;
    assert RankOk(c, r, s.ranks[r]);
    if r < c.ranks - 1 {
      assert RankOk(c, r + 1, s.ranks[r + 1]) && LinkOk(c, r, s.ranks[r], s.ranks[r + 1], s.queues[r]);
      if r == 0 {
        LeftFirst(c, s.ranks[0], s.ranks[1], s.queues[0]);
      } else {
        LeftMiddle(c, r, s.ranks[r], s.ranks[r + 1], s.queues[r]);
      }
    }
  }

  lemma ClearIff(c: Config, s: State)
    requires ValidConfig(c) && SlotsLeft(c, s)
    ensures AllClear(s) <==> |c.buckets| == 1 && c.ranks == 2
  {
    if |c.buckets| == 1 && c.ranks == 2 {
      forall q <- s.ranks ensures q.slots == [false, false] {
        var r :| 0 <= r < c.ranks && s.ranks[r] == q;
        assert q.slots[0] == LeftSet(c, r, 0) && q.slots[1] == LeftSet(c, r, 1);
      }
    } else {
      var r := if |c.buckets| == 1 then 1 else 0;
      var p := if |c.buckets| == 1 then 0 else |c.buckets| % 2;
      assert s.ranks[r].slots[p] == LeftSet(c, r, p) && s.ranks[r] in s.ranks;
    }
  }

  /**
   A complete call leaves set: on rank 0 the slot of the last bucket but one; on a middle rank the slots of
   its successor's last two buckets, for which it never waits; on the last rank none. So all slots are clear
   again, as the next call needs them, exactly when one bucket went to a single receiver.
  */
  lemma LeftoverSlots(c: Config, s: State, run: seq<Action>)
    requires ValidConfig(c) && Init(c, s) && Legal(c, s, run) && AllFinished(c, Exec(c, s, run))
    ensures SlotsLeft(c, Exec(c, s, run))
    ensures AllClear(Exec(c, s, run)) <==> |c.buckets| == 1 && c.ranks == 2
  {
    hide RankOk, LinkOk, LeftSet, AllClear;
    InitInv(c, s);
    RunKeepsInv(c, s, run);
    assert InitRank(c.ranks - 1, s.ranks[c.ranks - 1]);
    RunKeepsLast(c, s, run);
    var last := Exec(c, s, run);
    forall r | 0 <= r < c.ranks
      ensures |last.ranks[r].slots| == 2 && forall p | 0 <= p < 2 :: last.ranks[r].slots[p] == LeftSet(c, r, p)
    {
      LeftoverAt(c, last, r);
    }
    ClearIff(c, last);
  }

  // ---------- calls that leave a slot set ----------

  lemma OneWeightPacks(w: Weight, bucketSize: nat)
    requires |w.tensor.data| <= bucketSize
    ensures Pack(WholeChunks([w]), bucketSize) == [[Place(ChunkAt(w, 0, |w.tensor.data|), 0)]]
  {
    var c := ChunkAt(w, 0, |w.tensor.data|);
    assert WholeChunks([w]) == [c] && [c][1..] == [] && [] + [Place(c, 0)] == [Place(c, 0)];
    NoSize();
    assert PackFrom([], [c], bucketSize) == PackFrom([Place(c, 0)], [], bucketSize);
  }

  /** From clear slots, one weight over three ranks: rank 1 ends with a slot set. */
  lemma OneBucketThreeRanks(w: Weight, bucketSize: nat, s: State) returns (run: seq<Action>)
    requires |w.tensor.data| <= bucketSize && Init(Config(3, bucketSize, Pack(WholeChunks([w]), bucketSize)), s)
    ensures var c := Config(3, bucketSize, Pack(WholeChunks([w]), bucketSize));
      Legal(c, s, run) && AllFinished(c, Exec(c, s, run)) && Exec(c, s, run).ranks[1].slots == [true, false]
  {
    hide Init, Legal, Exec, Pack, AllFinished, AllClear;
    var c := Config(3, bucketSize, Pack(WholeChunks([w]), bucketSize));
    WholePacking([w], bucketSize);
    OneWeightPacks(w, bucketSize);
    run := Complete(c, s);
    LeftoverSlots(c, s, run);
    var slots := Exec(c, s, run).ranks[1].slots;
    assert slots[0] == LeftSet(c, 1, 0) && slots[1] == LeftSet(c, 1, 1);
  }

  /** From clear slots, two weights that need a bucket each, over two ranks: rank 0 ends with a slot set. */
  lemma TwoBucketsTwoRanks(w: Weight, w': Weight, bucketSize: nat, s: State) returns (run: seq<Action>)
    requires |w.tensor.data| <= bucketSize && |w'.tensor.data| <= bucketSize < |w.tensor.data| + |w'.tensor.data|
    requires Init(Config(2, bucketSize, Pack(WholeChunks([w, w']), bucketSize)), s)
    ensures var c := Config(2, bucketSize, Pack(WholeChunks([w, w']), bucketSize));
      Legal(c, s, run) && AllFinished(c, Exec(c, s, run)) && Exec(c, s, run).ranks[0].slots == [true, false]
  {
    hide Init, Legal, Exec, Pack, AllFinished, AllClear;
    var c := Config(2, bucketSize, Pack(WholeChunks([w, w']), bucketSize));
    WholePacking([w, w'], bucketSize);
    var a, b := ChunkAt(w, 0, |w.tensor.data|), ChunkAt(w', 0, |w'.tensor.data|);
    assert WholeChunks([w, w']) == [a, b];
    TwoApart(a, b, bucketSize);
    run := Complete(c, s);
    LeftoverSlots(c, s, run);
    var slots := Exec(c, s, run).ranks[0].slots;
    assert slots[0] == LeftSet(c, 0, 0) && slots[1] == LeftSet(c, 0, 1);
  }

  // ---------- the next call ----------

  /** A state like the start of a call, but for the slot that a call of two buckets leaves set on rank 0. */
  ghost predicate StaleInit(c: Config, s: State) {
    && Shape(c, s) && s.ranks[0].slots == [true, false]
    && Init(c, SetRank(s, 0, s.ranks[0].(slots := [false, false])))
  }

  ghost function Two(a: Rank, b: Rank, queue: seq<Info>): State {
    State([a, b], [queue])
  }

  /** Three buckets of one byte each, between two ranks. */
  ghost predicate ThreeBytes(c: Config, e: seq<Chunk>) {
    && |e| == 3 && c == Config(2, 1, [[e[0]], [e[1]], [e[2]]])
    && forall k | 0 <= k < 3 :: |e[k].data| == e[k].meta.chunkSize == 1 && e[k].meta.offset == Some(0)
  }

  ghost predicate Shaped(c: Config, a: Rank, b: Rank) {
    c.ranks == 2 && |a.bufs| == |b.bufs| == 2 && RankShape(c, a) && RankShape(c, b)
  }

  lemma TwoShape(c: Config, a: Rank, b: Rank, queue: seq<Info>)
    requires Shaped(c, a, b)
    ensures Shape(c, Two(a, b, queue))
  {
    hide RankShape;
    var s := Two(a, b, queue);
    assert s.ranks[0] == a && s.ranks[1] == b;
  }

  lemma SetFirst(a: Rank, a': Rank, b: Rank, queue: seq<Info>)
    ensures SetRank(Two(a, b, queue), 0, a') == Two(a', b, queue)
  {
  }

  lemma SetSecond(a: Rank, b: Rank, b': Rank, queue: seq<Info>)
    ensures SetRank(Two(a, b, queue), 1, b') == Two(a, b', queue)
  {
  }

  /** Rank 0 copies the byte of bucket k into the half of that bucket. */
  lemma FillStep(c: Config, e: seq<Chunk>, a: Rank, b: Rank, queue: seq<Info>, k: nat)
    requires ThreeBytes(c, e) && Shaped(c, a, b) && k < 3 && a.pc == Fill && a.count == k && a.pos == 0
    ensures var s, a' := Two(a, b, queue), a.(bufs := a.bufs[k % 2 := e[k].data], pos := 1);
      Enabled(c, s, FillEntry) && Apply(c, s, FillEntry) == Two(a', b, queue) && Shaped(c, a', b)
  {
    TwoShape(c, a, b, queue);
    var a' := a.(bufs := a.bufs[k % 2 := e[k].data], pos := 1);
    assert c.buckets[k] == [e[k]];
    assert Overwrite(a.bufs[k % 2], 0, e[k].data) == e[k].data;
    assert Filled(c, a) == a';
    SetFirst(a, a', b, queue);
  }

  lemma EndFillStep(c: Config, e: seq<Chunk>, a: Rank, b: Rank, queue: seq<Info>)
    requires ThreeBytes(c, e) && Shaped(c, a, b) && a.pc == Fill && 0 <= a.count < 3 && a.pos == 1
    ensures var s, a' := Two(a, b, queue), a.(pc := Send);
      Enabled(c, s, EndFill) && Apply(c, s, EndFill) == Two(a', b, queue) && Shaped(c, a', b)
  {
    TwoShape(c, a, b, queue);
    assert |c.buckets[a.count]| == 1;
    SetFirst(a, a.(pc := Send), b, queue);
  }

  lemma SendStep(c: Config, e: seq<Chunk>, a: Rank, b: Rank, queue: seq<Info>)
    requires ThreeBytes(c, e) && Shaped(c, a, b) && a.pc == Send && 0 <= a.count < 2
    ensures var s := Two(a, b, queue);
      var a' := a.(count := a.count + 1, pos := 0, pc := if a.count == 0 then Fill else WaitSlot);
      && Enabled(c, s, SendBucket)
      && Apply(c, s, SendBucket) == Two(a', b, queue + [InfoOf(c, a.count)]) && Shaped(c, a', b)
  {
    TwoShape(c, a, b, queue);
    OneByteSize(e[a.count]);
    hide InfoOf, Size;
    assert Sent(c, a) == a.(count := a.count + 1, pos := 0, pc := if a.count == 0 then Fill else WaitSlot);
    SetFirst(a, Sent(c, a), b, queue);
  }

  lemma OneByteSize(x: Chunk)
    ensures Size([x]) == |x.data|
  {
    assert [x][..0] == [];
  }

  lemma TakeStep(c: Config, a: Rank, b: Rank, queue: seq<Info>)
    requires Shaped(c, a, b) && a.pc == WaitSlot && a.count == 2 && a.slots == [true, false]
    ensures var s, a' := Two(a, b, queue), a.(slots := [false, false], pc := Fill);
      Enabled(c, s, TakeSlot(0)) && Apply(c, s, TakeSlot(0)) == Two(a', b, queue) && Shaped(c, a', b)
  {
    TwoShape(c, a, b, queue);
    assert [true, false][0 := false] == [false, false];
    SetFirst(a, SlotTaken(0, a), b, queue);
  }

  lemma ReceiveStep(c: Config, a: Rank, b: Rank, info: Info, queue: seq<Info>)
    requires Shaped(c, a, b) && b.pc == Recv && b.count == 0
    requires 0 <= info.src < 2 && 0 <= info.slot < 2 && info.len <= c.bucketSize
    ensures var s, b' := Two(a, b, [info] + queue), b.(info := info, copied := {}, pc := Reading);
      Enabled(c, s, Receive(1)) && Apply(c, s, Receive(1)) == Two(a, b', queue) && Shaped(c, a, b')
  {
    TwoShape(c, a, b, [info] + queue);
    assert ([info] + queue)[1..] == queue;
    SetSecond(a, b, Received(c, 1, b, info), [info] + queue);
  }

  lemma CopyStep(c: Config, a: Rank, b: Rank, queue: seq<Info>)
    requires Shaped(c, a, b) && c.bucketSize == 1 && b.pc == Reading && b.count == 0 && b.copied == {}
    requires b.info.len == 1 && b.info.src == 0
    ensures var s, b' := Two(a, b, queue), b.(bufs := b.bufs[0 := a.bufs[0]], copied := {0});
      Enabled(c, s, CopyByte(1, 0)) && Apply(c, s, CopyByte(1, 0)) == Two(a, b', queue) && Shaped(c, a, b')
  {
    TwoShape(c, a, b, queue);
    assert b.bufs[0][0 := a.bufs[0][0]] == a.bufs[0] && {} + {0} == {0};
    assert Copied(c, a, b, 0) == b.(bufs := b.bufs[0 := a.bufs[0]], copied := {0});
    SetSecond(a, b, Copied(c, a, b, 0), queue);
  }

  lemma EndReadStep(c: Config, a: Rank, b: Rank, queue: seq<Info>)
    requires Shaped(c, a, b) && b.pc == Reading && b.copied == {0} && b.info.len == 1
    ensures var s, b' := Two(a, b, queue), b.(pc := Forward);
      Enabled(c, s, EndRead(1)) && Apply(c, s, EndRead(1)) == Two(a, b', queue) && Shaped(c, a, b')
  {
    TwoShape(c, a, b, queue);
    SetSecond(a, b, b.(pc := Forward), queue);
  }

  lemma ForwardStep(c: Config, a: Rank, b: Rank, queue: seq<Info>)
    requires Shaped(c, a, b) && b.pc == Forward
    ensures var s, b' := Two(a, b, queue), b.(pc := Yield, pos := 0);
      Enabled(c, s, ForwardInfo(1)) && Apply(c, s, ForwardInfo(1)) == Two(a, b', queue) && Shaped(c, a, b')
  {
    TwoShape(c, a, b, queue);
    SetSecond(a, b, b.(pc := Yield, pos := 0), queue);
  }

  lemma YieldStep(c: Config, a: Rank, b: Rank, queue: seq<Info>)
    requires Shaped(c, a, b) && b.pc == Yield && b.pos < |b.info.meta.entries|
    ensures var s := Two(a, b, queue);
      Enabled(c, s, YieldEntry(1)) && Apply(c, s, YieldEntry(1)) == Two(a, YieldedOne(c, b), queue)
  {
    TwoShape(c, a, b, queue);
    SetSecond(a, b, YieldedOne(c, b), queue);
  }

  lemma {:induction false} OneMore(c: Config, s: State, run: seq<Action>, a: Action)
    requires Legal(c, s, run) && Enabled(c, Exec(c, s, run), a)
    ensures Legal(c, s, run + [a]) && Exec(c, s, run + [a]) == Apply(c, Exec(c, s, run), a)
    decreases |run|
  {
    hide Enabled, Apply;
    if run == [] {
      assert [] + [a] == [a] && [a][1..] == [];
    } else {
      assert (run + [a])[0] == run[0] && (run + [a])[1..] == run[1..] + [a];
      OneMore(c, Apply(c, s, run[0]), run[1..], a);
    }
  }

  /** What the steps of a run make of a state. */
  ghost predicate Leads(c: Config, s: State, run: seq<Action>, last: State) {
    Legal(c, s, run) && Exec(c, s, run) == last
  }

  lemma LeadsOn(c: Config, s: State, run: seq<Action>, here: State, a: Action, next: State)
    requires Leads(c, s, run, here) && Enabled(c, here, a) && Apply(c, here, a) == next
    ensures Leads(c, s, run + [a], next)
  {
    OneMore(c, s, run, a);
  }

  /** Three steps of rank 0 on its own: it fills the buffer of bucket k and announces it. */
  lemma FillAndSend(c: Config, e: seq<Chunk>, s: State, before: seq<Action>, a: Rank, b: Rank, queue: seq<Info>, k: nat)
    returns (run: seq<Action>)
    requires ThreeBytes(c, e) && Shaped(c, a, b) && k < 2 && a.pc == Fill && a.count == k && a.pos == 0
    requires Leads(c, s, before, Two(a, b, queue))
    ensures var a' := a.(bufs := a.bufs[k % 2 := e[k].data], count := k + 1, pc := if k == 0 then Fill else WaitSlot);
      Leads(c, s, run, Two(a', b, queue + [InfoOf(c, k)])) && Shaped(c, a', b)
  {
    hide Enabled, Apply, Leads, InfoOf, RankShape;
    var filled := a.(bufs := a.bufs[k % 2 := e[k].data], pos := 1);
    FillStep(c, e, a, b, queue, k);
    LeadsOn(c, s, before, Two(a, b, queue), FillEntry, Two(filled, b, queue));
    var send := filled.(pc := Send);
    EndFillStep(c, e, filled, b, queue);
    LeadsOn(c, s, before + [FillEntry], Two(filled, b, queue), EndFill, Two(send, b, queue));
    var sent := send.(count := k + 1, pos := 0, pc := if k == 0 then Fill else WaitSlot);
    SendStep(c, e, send, b, queue);
    run := before + [FillEntry] + [EndFill];
    LeadsOn(c, s, run, Two(send, b, queue), SendBucket, Two(sent, b, queue + [InfoOf(c, k)]));
    run := run + [SendBucket];
  }

  /** Rank 0 takes the stale slot for the signal of its first bucket, and overwrites that bucket. */
  lemma TakeAndFill(c: Config, e: seq<Chunk>, s: State, before: seq<Action>, a: Rank, b: Rank, queue: seq<Info>)
    returns (run: seq<Action>)
    requires ThreeBytes(c, e) && Shaped(c, a, b) && a.pc == WaitSlot && a.count == 2 && a.pos == 0
    requires a.slots == [true, false] && Leads(c, s, before, Two(a, b, queue))
    ensures var a' := a.(bufs := a.bufs[0 := e[2].data], slots := [false, false], pos := 1, pc := Fill);
      Leads(c, s, run, Two(a', b, queue)) && Shaped(c, a', b)
  {
    hide Enabled, Apply, Leads, RankShape;
    var taken := a.(slots := [false, false], pc := Fill);
    TakeStep(c, a, b, queue);
    LeadsOn(c, s, before, Two(a, b, queue), TakeSlot(0), Two(taken, b, queue));
    FillStep(c, e, taken, b, queue, 2);
    run := before + [TakeSlot(0)];
    var filled := taken.(bufs := taken.bufs[0 := e[2].data], pos := 1);
    LeadsOn(c, s, run, Two(taken, b, queue), FillEntry, Two(filled, b, queue));
    run := run + [FillEntry];
  }

  /** Rank 1 receives bucket 0 and yields what it finds in the buffer. */
  lemma ReadAndYield(c: Config, e: seq<Chunk>, s: State, before: seq<Action>, a: Rank, b: Rank, queue: seq<Info>)
    returns (run: seq<Action>)
    requires ThreeBytes(c, e) && Shaped(c, a, b) && b.pc == Recv && b.count == 0 && b.yielded == []
    requires Leads(c, s, before, Two(a, b, [InfoOf(c, 0)] + queue))
    ensures Legal(c, s, run) && |Exec(c, s, run).ranks| == 2
    ensures Exec(c, s, run).ranks[1].yielded == [Chunk(e[0].meta, a.bufs[0])]
  {
    FirstInfo(c, e);
    hide Enabled, Apply, Leads, InfoOf, RankShape;
    var got := b.(info := InfoOf(c, 0), copied := {}, pc := Reading);
    ReceiveStep(c, a, b, InfoOf(c, 0), queue);
    LeadsOn(c, s, before, Two(a, b, [InfoOf(c, 0)] + queue), Receive(1), Two(a, got, queue));
    run := before + [Receive(1)];
    var copied := got.(bufs := got.bufs[0 := a.bufs[0]], copied := {0});
    CopyStep(c, a, got, queue);
    LeadsOn(c, s, run, Two(a, got, queue), CopyByte(1, 0), Two(a, copied, queue));
    run := run + [CopyByte(1, 0)];
    EndReadStep(c, a, copied, queue);
    LeadsOn(c, s, run, Two(a, copied, queue), EndRead(1), Two(a, copied.(pc := Forward), queue));
    run := run + [EndRead(1)];
    var ready := copied.(pc := Yield, pos := 0);
    ForwardStep(c, a, copied.(pc := Forward), queue);
    LeadsOn(c, s, run, Two(a, copied.(pc := Forward), queue), ForwardInfo(1), Two(a, ready, queue));
    run := run + [ForwardInfo(1)];
    YieldStep(c, a, ready, queue);
    LeadsOn(c, s, run, Two(a, ready, queue), YieldEntry(1), Two(a, YieldedOne(c, ready), queue));
    run := run + [YieldEntry(1)];
    YieldsByte(c, e, a, ready);
    LedTo(c, s, run, Two(a, YieldedOne(c, ready), queue));
  }

  lemma LedTo(c: Config, s: State, run: seq<Action>, last: State)
    requires Leads(c, s, run, last)
    ensures Legal(c, s, run) && Exec(c, s, run) == last
  {
  }

  lemma FirstInfo(c: Config, e: seq<Chunk>)
    requires ThreeBytes(c, e)
    ensures InfoOf(c, 0) == Info(0, 0, 1, BucketMeta([e[0].meta], false))
  {
    OneByteSize(e[0]);
    assert [e[0]][..0] == [] && Listed([e[0]]) == Put([], e[0]);
    hide Size;
    assert Metas([e[0]]) == [e[0].meta];
  }

  lemma YieldsByte(c: Config, e: seq<Chunk>, a: Rank, b: Rank)
    requires ThreeBytes(c, e) && Shaped(c, a, b) && b.pos == 0 && b.count == 0 && b.bufs[0] == a.bufs[0]
    requires b.info == Info(0, 0, 1, BucketMeta([e[0].meta], false)) && b.yielded == []
    ensures YieldedOne(c, b).yielded == [Chunk(e[0].meta, a.bufs[0])]
  {
    assert View(a.bufs[0], e[0].meta) == Chunk(e[0].meta, a.bufs[0][0..1]) && a.bufs[0][0..1] == a.bufs[0];
    assert [] + [Chunk(e[0].meta, a.bufs[0])] == [Chunk(e[0].meta, a.bufs[0])];
  }

  ghost function FirstBytes(ws: seq<Weight>): (e: seq<Chunk>)
    requires forall w <- ws :: |w.tensor.data| == 1
    ensures |e| == |ws|
  {
    seq(|ws|, k requires 0 <= k < |ws| => assert ws[k] in ws; Place(ChunkAt(ws[k], 0, 1), 0))
  }

  lemma ThreeWeightsPack(ws: seq<Weight>)
    requires |ws| == 3 && forall w <- ws :: |w.tensor.data| == 1
    ensures ThreeBytes(Config(2, 1, Pack(WholeChunks(ws), 1)), FirstBytes(ws))
  {
    var a, b, d := ChunkAt(ws[0], 0, 1), ChunkAt(ws[1], 0, 1), ChunkAt(ws[2], 0, 1);
    assert WholeChunks(ws) == [a, b, d];
    assert [a, b, d][1..] == [b, d] && [b, d][1..] == [d] && [d][1..] == [];
    var x, y, z := Place(a, 0), Place(b, 0), Place(d, 0);
    assert [] + [x] == [x];
    OneByteSize(x);
    OneByteSize(y);
    hide Size;
    NoSize();
    assert PackFrom([y], [d], 1) == [[y]] + PackFrom([z], [], 1) == [[y], [z]];
    assert PackFrom([x], [b, d], 1) == [[x]] + PackFrom([y], [d], 1) == [[x], [y], [z]];
    assert PackFrom([], [a, b, d], 1) == PackFrom([x], [b, d], 1);
  }

  lemma Begins(c: Config, s: State)
    ensures Leads(c, s, [], s)
  {
  }

  lemma StaleStart(c: Config, s: State) returns (a: Rank, b: Rank)
    requires StaleInit(c, s) && c.ranks == 2
    ensures s == Two(a, b, []) && Shaped(c, a, b)
    ensures a.pc == Fill && a.count == a.pos == 0 && a.slots == [true, false]
    ensures b.pc == Recv && b.count == 0 && b.yielded == []
  {
    a, b := s.ranks[0], s.ranks[1];
    var clear := SetRank(s, 0, s.ranks[0].(slots := [false, false]));
    assert InitRank(0, clear.ranks[0]) && InitRank(1, clear.ranks[1]);
    assert clear.queues[0] in clear.queues;
    assert RankShape(c, s.ranks[0]) && RankShape(c, s.ranks[1]);
    assert s.ranks == [a, b] && s.queues == [[]];
  }

  /** A byte of another bucket is none that rank 0 was given there. */
  lemma WrongByte(c: Config, e: seq<Chunk>, s: State)
    requires ThreeBytes(c, e) && |s.ranks| == 2 && s.ranks[1].yielded == [Chunk(e[0].meta, e[2].data)]
    requires e[0].data != e[2].data
    ensures !Safe(c, s)
  {
    hide Shape;
    assert [e[0]][..0] == [] && Listed([e[0]]) == Put([], e[0]) == [e[0]];
    var listings := Listings(c.buckets);
    assert listings[0] == [e[0]];
    assert Flatten(listings)[0] == e[0];
    assert s.ranks[1].yielded[0].data == e[2].data;
  }

  lemma StaleRun(c: Config, e: seq<Chunk>, s: State) returns (run: seq<Action>)
    requires ThreeBytes(c, e) && StaleInit(c, s)
    ensures Legal(c, s, run) && |Exec(c, s, run).ranks| == 2
    ensures Exec(c, s, run).ranks[1].yielded == [Chunk(e[0].meta, e[2].data)]
  {
    hide StaleInit, Leads, Legal, Exec, InfoOf, RankShape;
    var a, b := StaleStart(c, s);
    var i0, i1 := InfoOf(c, 0), InfoOf(c, 1);
    Begins(c, s);
    run := FillAndSend(c, e, s, [], a, b, [], 0);
    assert [] + [i0] == [i0] && [i0] + [i1] == [i0, i1];
    var a1 := a.(bufs := a.bufs[0 := e[0].data], count := 1, pc := Fill);
    run := FillAndSend(c, e, s, run, a1, b, [i0], 1);
    var a2 := a1.(bufs := a1.bufs[1 := e[1].data], count := 2, pc := WaitSlot);
    run := TakeAndFill(c, e, s, run, a2, b, [i0] + [i1]);
    var a3 := a2.(bufs := a2.bufs[0 := e[2].data], slots := [false, false], pos := 1, pc := Fill);
    run := ReadAndYield(c, e, s, run, a3, b, [i1]);
  }

  /**
   Why clear slots are asked for. Three one-byte weights in buckets of one byte: in a call that starts with the
   leftover slot, rank 0 takes it for the signal of its first bucket and overwrites that bucket before rank 1 has
   read it, and rank 1 yields the first weight with the byte of the third.
  */
  lemma StaleSlotUnsafe(ws: seq<Weight>, s: State) returns (run: seq<Action>)
    requires |ws| == 3 && (forall w <- ws :: |w.tensor.data| == 1) && ws[0].tensor.data != ws[2].tensor.data
    requires StaleInit(Config(2, 1, Pack(WholeChunks(ws), 1)), s)
    ensures var c := Config(2, 1, Pack(WholeChunks(ws), 1));
      && Legal(c, s, run) && !Safe(c, Exec(c, s, run)) && |Exec(c, s, run).ranks| == 2
      && Unplace(Exec(c, s, run).ranks[1].yielded) == [ChunkAt(ws[0], 0, 1).(data := ws[2].tensor.data)]
  {
    hide Pack, StaleInit, Legal, Exec, Safe, WholeChunks, ThreeBytes;
    var c, e := Config(2, 1, Pack(WholeChunks(ws), 1)), FirstBytes(ws);
    ThreeWeightsPack(ws);
    run := StaleRun(c, e, s);
    assert e[0].data == ws[0].tensor.data && e[2].data == ws[2].tensor.data;
    WrongByte(c, e, Exec(c, s, run));
  }
}
