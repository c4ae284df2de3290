/**
 The collective side of a delta sync (verl/verl/checkpoint_engine/delta_checkpoint_engine.py): how the loop
 of `send_weights` batches parameters into gathers, what a trainer rank passes in, and what rank 0 does with
 the results.
*/
module DeltaLockstep {
  import opened Weights
  import opened DeltaWire
  import opened DeltaStream
  import opened SparseGather
  import opened DeltaSync

  /** One flush of the loop's `group` or `nan_group`: indices into the parameter stream. */
  datatype Batch = Batch(grouped: bool, group: Option<nat>, members: seq<nat>)

  /** The loop's state: the two groups, and the batches flushed so far. */
  datatype Queues = Queues(placed: seq<nat>, converted: seq<nat>, done: seq<Batch>)

  function Max(a: nat, b: nat): nat {
    if a < b then b else a
  }

  function FlushPlaced(params: seq<Param>, q: Queues): Queues
    requires Below(q.placed, |params|)
  {
    if q.placed == [] then q
    else Queues([], q.converted, q.done + [Batch(false, params[q.placed[0]].group, q.placed)])
  }

  function FlushConverted(params: seq<Param>, q: Queues): Queues
    requires Below(q.converted, |params|)
  {
    if q.converted == [] then q
    else Queues(q.placed, [], q.done + [Batch(true, params[q.converted[0]].group, q.converted)])
  }

  /** `if nan_group and nan_group[0][2] is not pg: _flush_nan_group()`. */
  function ChangeConverted(params: seq<Param>, q: Queues, i: nat): Queues
    requires Below(q.converted, |params|) && i < |params|
  {
    if q.converted != [] && params[q.converted[0]].group != params[i].group then FlushConverted(params, q) else q
  }

  /** `if group and group[-1][6] is not pg: _flush_group()`. */
  function ChangePlaced(params: seq<Param>, q: Queues, i: nat): Queues
    requires Below(q.placed, |params|) && i < |params|
  {
    if q.placed != [] && params[q.placed[|q.placed| - 1]].group != params[i].group then FlushPlaced(params, q) else q
  }

  /** One iteration of the loop. */
  function Enqueue(params: seq<Param>, q: Queues, i: nat, batchK: nat): (r: Queues)
    requires Below(q.placed, |params|) && Below(q.converted, |params|) && i < |params|
    ensures Below(r.placed, |params|) && Below(r.converted, |params|)
  {
    if params[i].profile.Converted? then
      var q1 := ChangeConverted(params, q, i);
      var q2 := q1.(converted := q1.converted + [i]);
      if |q2.converted| >= Max(batchK, 1) then FlushConverted(params, q2) else q2
    else
      var q1 := ChangePlaced(params, q, i);
      var q2 := q1.(placed := q1.placed + [i]);
      if |q2.placed| >= Max(batchK, 1) then FlushPlaced(params, q2) else q2
  }

  function PlanUpTo(params: seq<Param>, i: nat, batchK: nat): (q: Queues)
    requires i <= |params|
    ensures Below(q.placed, |params|) && Below(q.converted, |params|)
  {
    if i == 0 then Queues([], [], []) else Enqueue(params, PlanUpTo(params, i - 1, batchK), i - 1, batchK)
  }

  /** The batches of a sync: a function of the specs and the batch size alone. */
  function Plan(params: seq<Param>, batchK: nat): seq<Batch> {
    FlushConverted(params, FlushPlaced(params, PlanUpTo(params, |params|, batchK))).done
  }

  // ---------- every parameter is in exactly one batch ----------

  function Members(batches: seq<Batch>): seq<nat> {
    if batches == [] then [] else Members(batches[..|batches| - 1]) + batches[|batches| - 1].members
  }

  ghost predicate BatchOk(params: seq<Param>, b: Batch, batchK: nat) {
    0 < |b.members| <= Max(batchK, 1) && Alike(params, b.members, b.group, b.grouped)
  }

  ghost predicate Alike(params: seq<Param>, members: seq<nat>, group: Option<nat>, converted: bool) {
    && Below(members, |params|)
    && forall k | 0 <= k < |members| ::
         params[members[k]].group == group && params[members[k]].profile.Converted? == converted
  }

  ghost predicate QueueOk(params: seq<Param>, queue: seq<nat>, converted: bool, batchK: nat) {
    && |queue| < Max(batchK, 1) && Below(queue, |params|)
    && (queue != [] ==> Alike(params, queue, params[queue[0]].group, converted))
  }

  ghost function Queued(q: Queues): multiset<nat> {
    multiset(Members(q.done)) + multiset(q.placed) + multiset(q.converted)
  }

  ghost predicate QueuesOk(params: seq<Param>, q: Queues, batchK: nat) {
    && QueueOk(params, q.placed, false, batchK) && QueueOk(params, q.converted, true, batchK)
    && forall b <- q.done :: BatchOk(params, b, batchK)
  }

  lemma FlushPlacedOk(params: seq<Param>, q: Queues, batchK: nat)
    requires Below(q.placed, |params|)
    requires (forall b <- q.done :: BatchOk(params, b, batchK))
    requires (q.placed != [] ==> BatchOk(params, Batch(false, params[q.placed[0]].group, q.placed), batchK))
    ensures var r := FlushPlaced(params, q);
      && Queued(r) == Queued(q) && r.placed == [] && r.converted == q.converted
      && forall b <- r.done :: BatchOk(params, b, batchK)
  {
    hide BatchOk;
    var r := FlushPlaced(params, q);
    if q.placed != [] {
      assert r.done[..|r.done| - 1] == q.done;
      assert Members(r.done) == Members(q.done) + q.placed;
    }
  }

  lemma FlushConvertedOk(params: seq<Param>, q: Queues, batchK: nat)
    requires Below(q.converted, |params|)
    requires (forall b <- q.done :: BatchOk(params, b, batchK))
    requires (q.converted != [] ==> BatchOk(params, Batch(true, params[q.converted[0]].group, q.converted), batchK))
    ensures var r := FlushConverted(params, q);
      && Queued(r) == Queued(q) && r.converted == [] && r.placed == q.placed
      && forall b <- r.done :: BatchOk(params, b, batchK)
  {
    hide BatchOk;
    var r := FlushConverted(params, q);
    if q.converted != [] {
      assert r.done[..|r.done| - 1] == q.done;
      assert Members(r.done) == Members(q.done) + q.converted;
    }
  }

  lemma QueueIsBatch(params: seq<Param>, queue: seq<nat>, converted: bool, batchK: nat)
    requires QueueOk(params, queue, converted, batchK) && queue != []
    ensures BatchOk(params, Batch(converted, params[queue[0]].group, queue), batchK)
  {
  }

  lemma JoinQueue(params: seq<Param>, queue: seq<nat>, i: nat, converted: bool, batchK: nat)
    requires QueueOk(params, queue, converted, batchK) && i < |params| && params[i].profile.Converted? == converted
    requires queue != [] ==> params[queue[0]].group == params[i].group
    ensures var r := queue + [i];
      && BatchOk(params, Batch(converted, params[r[0]].group, r), batchK)
      && (|r| < Max(batchK, 1) ==> QueueOk(params, r, converted, batchK))
  {
  }

  lemma JoinQueued(q: Queues, i: nat)
    ensures Queued(q.(placed := q.placed + [i])) == Queued(q) + multiset{i}
    ensures Queued(q.(converted := q.converted + [i])) == Queued(q) + multiset{i}
  {
    hide Members;
  }

  /** A group is flushed before a parameter of another process group joins it. */
  lemma MakeRoomOk(params: seq<Param>, q: Queues, i: nat, batchK: nat)
    requires QueuesOk(params, q, batchK) && i < |params|
    ensures QueuesOk(params, ChangeConverted(params, q, i), batchK)
    ensures Queued(ChangeConverted(params, q, i)) == Queued(q)
    ensures var c := ChangeConverted(params, q, i).converted; c != [] ==> params[c[0]].group == params[i].group
    ensures QueuesOk(params, ChangePlaced(params, q, i), batchK) && Queued(ChangePlaced(params, q, i)) == Queued(q)
    ensures var c := ChangePlaced(params, q, i).placed; c != [] ==> params[c[0]].group == params[i].group
  {
    hide Queued, Members, BatchOk;
    if q.converted != [] {
      QueueIsBatch(params, q.converted, true, batchK);
      FlushConvertedOk(params, q, batchK);
    }
    if q.placed != [] {
      QueueIsBatch(params, q.placed, false, batchK);
      FlushPlacedOk(params, q, batchK);
      assert params[q.placed[|q.placed| - 1]].group == params[q.placed[0]].group;
    }
  }

  lemma EnqueueConverted(params: seq<Param>, q: Queues, i: nat, batchK: nat)
    requires QueuesOk(params, q, batchK) && i < |params| && params[i].profile.Converted?
    ensures QueuesOk(params, Enqueue(params, q, i, batchK), batchK)
    ensures Queued(Enqueue(params, q, i, batchK)) == Queued(q) + multiset{i}
  {
    MakeRoomOk(params, q, i, batchK);
    hide BatchOk, Members, Alike, Queued, ChangeConverted, FlushConverted;
    var q1 := ChangeConverted(params, q, i);
    JoinQueue(params, q1.converted, i, true, batchK);
    JoinQueued(q1, i);
    var q2 := q1.(converted := q1.converted + [i]);
    if |q2.converted| >= Max(batchK, 1) {
      FlushConvertedOk(params, q2, batchK);
      EmptyQueueOk(params, true, batchK);
    }
  }

  lemma EmptyQueueOk(params: seq<Param>, converted: bool, batchK: nat)
    ensures QueueOk(params, [], converted, batchK)
  {
  }

  lemma EnqueuePlaced(params: seq<Param>, q: Queues, i: nat, batchK: nat)
    requires QueuesOk(params, q, batchK) && i < |params| && params[i].profile.Placed?
    ensures QueuesOk(params, Enqueue(params, q, i, batchK), batchK)
    ensures Queued(Enqueue(params, q, i, batchK)) == Queued(q) + multiset{i}
  {
    MakeRoomOk(params, q, i, batchK);
    hide BatchOk, Members, Alike, Queued, ChangePlaced, FlushPlaced;
    var q1 := ChangePlaced(params, q, i);
    JoinQueue(params, q1.placed, i, false, batchK);
    JoinQueued(q1, i);
    var q2 := q1.(placed := q1.placed + [i]);
    if |q2.placed| >= Max(batchK, 1) {
      FlushPlacedOk(params, q2, batchK);
      EmptyQueueOk(params, false, batchK);
    }
  }

  lemma NothingQueued(params: seq<Param>, batchK: nat)
    ensures QueuesOk(params, Queues([], [], []), batchK) && Queued(Queues([], [], [])) == multiset{}
  {
  }

  lemma {:induction false} PlanUpToOk(params: seq<Param>, i: nat, batchK: nat)
    requires i <= |params|
    ensures QueuesOk(params, PlanUpTo(params, i, batchK), batchK)
    ensures Queued(PlanUpTo(params, i, batchK)) == UpTo(i)
  {
    hide QueuesOk, Queued, Enqueue;
    if i == 0 {
      NothingQueued(params, batchK);
    } else {
      PlanUpToOk(params, i - 1, batchK);
      var q := PlanUpTo(params, i - 1, batchK);
      if params[i - 1].profile.Converted? {
        EnqueueConverted(params, q, i - 1, batchK);
      } else {
        EnqueuePlaced(params, q, i - 1, batchK);
      }
    }
  }

  ghost function UpTo(n: nat): multiset<nat> {
    if n == 0 then multiset{} else UpTo(n - 1) + multiset{n - 1}
  }

  lemma {:induction false} UpToOnce(n: nat, x: nat)
    ensures UpTo(n)[x] == if x < n then 1 else 0
  {
    if n > 0 {
      UpToOnce(n - 1, x);
    }
  }

  lemma OnceEach(s: seq<nat>, n: nat)
    requires multiset(s) == UpTo(n)
    ensures Complete(s, n)
  {
    forall k | 0 <= k < |s| ensures s[k] < n {
      UpToOnce(n, s[k]);
      assert s[k] in multiset(s);
    }
    forall k, l | 0 <= k < l < |s| ensures s[k] != s[l] {
      UpToOnce(n, s[k]);
      assert s == s[..k] + [s[k]] + s[k + 1..l] + [s[l]] + s[l + 1..];
      assert s[k] == s[l] ==> multiset(s)[s[k]] >= 2;
    }
    forall i: nat | i < n ensures i in s {
      UpToOnce(n, i);
      assert i in multiset(s);
    }
  }

  /**
   Each parameter is in exactly one batch; a batch has at most max(batch_gather, 1) parameters, all of one
   process group and of one profile.
  */
  lemma PlanOk(params: seq<Param>, batchK: nat)
    ensures Complete(Members(Plan(params, batchK)), |params|)
    ensures forall b <- Plan(params, batchK) :: BatchOk(params, b, batchK)
  {
    var q := PlanUpTo(params, |params|, batchK);
    PlanUpToOk(params, |params|, batchK);
    if q.placed != [] {
      QueueIsBatch(params, q.placed, false, batchK);
    }
    if q.converted != [] {
      QueueIsBatch(params, q.converted, true, batchK);
    }
    hide BatchOk, Complete, PlanUpTo, Members, Alike, UpTo;
    FlushPlacedOk(params, q, batchK);
    var q1 := FlushPlaced(params, q);
    FlushConvertedOk(params, q1, batchK);
    var q2 := FlushConverted(params, q1);
    assert multiset(Members(q2.done)) == Queued(q2) == Queued(q);
    OnceEach(Members(q2.done), |params|);
  }

  // ---------- no batch is flushed early ----------

  /** The batches of one kind: placement gathers, or converter gathers. */
  function OfKind(batches: seq<Batch>, converted: bool): seq<Batch> {
    if batches == [] then []
    else
      var n := |batches| - 1;
      OfKind(batches[..n], converted) + if batches[n].grouped == converted then [batches[n]] else []
  }

  /** The parameters of one kind among the first i, in the order of the stream. */
  function KindUpTo(params: seq<Param>, i: nat, converted: bool): seq<nat>
    requires i <= |params|
  {
    if i == 0 then []
    else KindUpTo(params, i - 1, converted) + if params[i - 1].profile.Converted? == converted then [i - 1] else []
  }

  ghost predicate Due(b: Batch, next: Option<nat>, batchK: nat) {
    |b.members| == (if batchK > 1 then batchK else 1) || b.group != next
  }

  /** Every batch but the last is full, or the next one belongs to another process group. */
  ghost predicate AllDue(batches: seq<Batch>, batchK: nat) {
    forall j | 0 <= j < |batches| - 1 :: Due(batches[j], batches[j + 1].group, batchK)
  }

  function QueueOf(q: Queues, converted: bool): seq<nat> {
    if converted then q.converted else q.placed
  }

  ghost predicate KindOk(params: seq<Param>, q: Queues, i: nat, converted: bool, batchK: nat) {
    var batches, queue := OfKind(q.done, converted), QueueOf(q, converted);
    && i <= |params| && Below(queue, |params|)
    && Members(batches) + queue == KindUpTo(params, i, converted) && AllDue(batches, batchK)
    && (queue != [] && batches != [] ==> Due(batches[|batches| - 1], params[queue[0]].group, batchK))
  }

  lemma OfKindMore(batches: seq<Batch>, b: Batch, converted: bool)
    ensures OfKind(batches + [b], converted) ==
      if b.grouped == converted then OfKind(batches, converted) + [b] else OfKind(batches, converted)
  {
    assert (batches + [b])[..|batches|] == batches;
  }

  lemma MembersMore(batches: seq<Batch>, b: Batch)
    ensures Members(batches + [b]) == Members(batches) + b.members
  {
    assert (batches + [b])[..|batches|] == batches;
  }

  /** The queue of one kind, which is not empty, becomes its next batch. */
  lemma FlushKind(params: seq<Param>, q: Queues, r: Queues, i: nat, converted: bool, batchK: nat)
    requires KindOk(params, q, i, converted, batchK) && QueueOf(q, converted) != []
    requires r.done == q.done + [Batch(converted, params[QueueOf(q, converted)[0]].group, QueueOf(q, converted))]
    requires QueueOf(r, converted) == []
    ensures KindOk(params, r, i, converted, batchK)
    ensures var batches := OfKind(r.done, converted);
      && batches != [] && batches[|batches| - 1].members == QueueOf(q, converted)
      && batches[|batches| - 1].group == params[QueueOf(q, converted)[0]].group
  {
    hide OfKind, Members, KindUpTo, AllDue, Due;
    var b := Batch(converted, params[QueueOf(q, converted)[0]].group, QueueOf(q, converted));
    OfKindMore(q.done, b, converted);
    MembersMore(OfKind(q.done, converted), b);
    DueMore(OfKind(q.done, converted), b, batchK);
  }

  lemma DueMore(batches: seq<Batch>, b: Batch, batchK: nat)
    requires AllDue(batches, batchK) && (batches != [] ==> Due(batches[|batches| - 1], b.group, batchK))
    ensures AllDue(batches + [b], batchK)
  {
  }

  /** A batch of the other kind changes nothing. */
  lemma OtherKind(params: seq<Param>, q: Queues, r: Queues, i: nat, converted: bool, batchK: nat)
    requires KindOk(params, q, i, converted, batchK) && QueueOf(r, converted) == QueueOf(q, converted)
    requires r.done == q.done || exists b: Batch :: b.grouped != converted && r.done == q.done + [b]
    ensures KindOk(params, r, i, converted, batchK)
  {
    if r.done != q.done {
      var b: Batch :| b.grouped != converted && r.done == q.done + [b];
      OfKindMore(q.done, b, converted);
    }
  }

  lemma OtherParam(params: seq<Param>, q: Queues, i: nat, converted: bool, batchK: nat)
    requires KindOk(params, q, i, converted, batchK) && i < |params|
    requires params[i].profile.Converted? != converted
    ensures KindOk(params, q, i + 1, converted, batchK)
  {
    hide OfKind, Members, KindUpTo, AllDue, Due;
    KindMore(params, i, converted);
  }

  lemma KindMore(params: seq<Param>, i: nat, converted: bool)
    requires i < |params|
    ensures KindUpTo(params, i + 1, converted) ==
      if params[i].profile.Converted? == converted then KindUpTo(params, i, converted) + [i]
      else KindUpTo(params, i, converted)
  {
  }

  /** A parameter joins the queue of its kind, which has its process group, or is empty after one was due. */
  lemma JoinKind(params: seq<Param>, q: Queues, r: Queues, i: nat, converted: bool, batchK: nat)
    requires KindOk(params, q, i, converted, batchK) && i < |params| && params[i].profile.Converted? == converted
    requires r.done == q.done && QueueOf(r, converted) == QueueOf(q, converted) + [i]
    requires var batches := OfKind(q.done, converted);
      QueueOf(q, converted) == [] && batches != [] ==> Due(batches[|batches| - 1], params[i].group, batchK)
    ensures KindOk(params, r, i + 1, converted, batchK)
  {
    hide OfKind, Members, KindUpTo, AllDue, Due;
    KindMore(params, i, converted);
  }

  /** Between two parameters, a queue is empty only after a full batch. */
  ghost predicate Waiting(q: Queues, converted: bool, batchK: nat) {
    var batches := OfKind(q.done, converted);
    QueueOf(q, converted) == [] && batches != [] ==>
      |batches[|batches| - 1].members| == if batchK > 1 then batchK else 1
  }

  ghost predicate LoopOk(params: seq<Param>, q: Queues, i: nat, batchK: nat) {
    && KindOk(params, q, i, false, batchK) && KindOk(params, q, i, true, batchK)
    && Waiting(q, false, batchK) && Waiting(q, true, batchK)
  }

  lemma SameKind(q: Queues, r: Queues, converted: bool, batchK: nat)
    requires Waiting(q, converted, batchK) && QueueOf(r, converted) == QueueOf(q, converted)
    requires r.done == q.done || exists b: Batch :: b.grouped != converted && r.done == q.done + [b]
    ensures Waiting(r, converted, batchK)
  {
    if r.done != q.done {
      var b: Batch :| b.grouped != converted && r.done == q.done + [b];
      OfKindMore(q.done, b, converted);
    }
  }

  lemma EnqueuePlacedKind(params: seq<Param>, q: Queues, i: nat, batchK: nat)
    requires QueuesOk(params, q, batchK) && LoopOk(params, q, i, batchK)
    requires i < |params| && params[i].profile.Placed?
    ensures KindOk(params, Enqueue(params, q, i, batchK), i + 1, false, batchK)
    ensures Waiting(Enqueue(params, q, i, batchK), false, batchK)
  {
    hide OfKind, Members, KindUpTo, KindOk, AllDue;
    var q1 := ChangePlaced(params, q, i);
    if q1 != q {
      FlushKind(params, q, q1, i, false, batchK);
    }
    var q2 := q1.(placed := q1.placed + [i]);
    JoinKind(params, q1, q2, i, false, batchK);
    if |q2.placed| >= Max(batchK, 1) {
      FlushKind(params, q2, FlushPlaced(params, q2), i + 1, false, batchK);
    }
  }

  lemma EnqueueConvertedKind(params: seq<Param>, q: Queues, i: nat, batchK: nat)
    requires QueuesOk(params, q, batchK) && LoopOk(params, q, i, batchK)
    requires i < |params| && params[i].profile.Converted?
    ensures KindOk(params, Enqueue(params, q, i, batchK), i + 1, true, batchK)
    ensures Waiting(Enqueue(params, q, i, batchK), true, batchK)
  {
    hide OfKind, Members, KindUpTo, KindOk, AllDue;
    var q1 := ChangeConverted(params, q, i);
    if q1 != q {
      FlushKind(params, q, q1, i, true, batchK);
    }
    var q2 := q1.(converted := q1.converted + [i]);
    JoinKind(params, q1, q2, i, true, batchK);
    if |q2.converted| >= Max(batchK, 1) {
      FlushKind(params, q2, FlushConverted(params, q2), i + 1, true, batchK);
    }
  }

  lemma FlushedBatches(params: seq<Param>, q: Queues)
    requires Below(q.placed, |params|) && Below(q.converted, |params|)
    ensures FlushPlaced(params, q).placed == FlushConverted(params, q).converted == []
    ensures var r := FlushPlaced(params, q);
      r.converted == q.converted && (r.done == q.done || exists b: Batch :: !b.grouped && r.done == q.done + [b])
    ensures var r := FlushConverted(params, q);
      r.placed == q.placed && (r.done == q.done || exists b: Batch :: b.grouped && r.done == q.done + [b])
  {
    if q.placed != [] {
      var b := Batch(false, params[q.placed[0]].group, q.placed);
      assert !b.grouped && FlushPlaced(params, q).done == q.done + [b];
    }
    if q.converted != [] {
      var b := Batch(true, params[q.converted[0]].group, q.converted);
      assert b.grouped && FlushConverted(params, q).done == q.done + [b];
    }
  }

  ghost predicate KindWaits(params: seq<Param>, q: Queues, i: nat, converted: bool, batchK: nat) {
    KindOk(params, q, i, converted, batchK) && Waiting(q, converted, batchK)
  }

  lemma OtherFlush(params: seq<Param>, q: Queues, r: Queues, i: nat, other: bool, batchK: nat)
    requires KindWaits(params, q, i, other, batchK) && QueueOf(r, other) == QueueOf(q, other)
    requires r.done == q.done || exists b: Batch :: b.grouped != other && r.done == q.done + [b]
    ensures KindWaits(params, r, i, other, batchK)
  {
    hide OfKind, Members, KindUpTo, KindOk, Waiting;
    OtherKind(params, q, r, i, other, batchK);
    SameKind(q, r, other, batchK);
  }

  /** A parameter of one kind leaves what is said about the other kind alone. */
  lemma OtherThrough(params: seq<Param>, q: Queues, i: nat, batchK: nat)
    requires QueuesOk(params, q, batchK) && i < |params|
    requires KindWaits(params, q, i, !params[i].profile.Converted?, batchK)
    ensures KindWaits(params, Enqueue(params, q, i, batchK), i + 1, !params[i].profile.Converted?, batchK)
  {
    hide KindWaits, QueuesOk, FlushPlaced, FlushConverted;
    var other := !params[i].profile.Converted?;
    QueuesBelow(params, q, batchK);
    FlushedBatches(params, q);
    var q1 := if other then ChangePlaced(params, q, i) else ChangeConverted(params, q, i);
    var q2 := if other then q1.(placed := q1.placed + [i]) else q1.(converted := q1.converted + [i]);
    OtherFlush(params, q, q1, i, other, batchK);
    OtherFlush(params, q1, q2, i, other, batchK);
    OtherWaits(params, q2, i, other, batchK);
    FlushedBatches(params, q2);
    OtherFlush(params, q2, Enqueue(params, q, i, batchK), i + 1, other, batchK);
  }

  lemma QueuesBelow(params: seq<Param>, q: Queues, batchK: nat)
    requires QueuesOk(params, q, batchK)
    ensures Below(q.placed, |params|) && Below(q.converted, |params|)
  {
  }

  lemma OtherWaits(params: seq<Param>, q: Queues, i: nat, converted: bool, batchK: nat)
    requires KindWaits(params, q, i, converted, batchK) && i < |params|
    requires params[i].profile.Converted? != converted
    ensures KindWaits(params, q, i + 1, converted, batchK)
  {
    hide OfKind, Members, KindUpTo, KindOk, Waiting;
    OtherParam(params, q, i, converted, batchK);
  }

  lemma {:induction false} LoopStaysOk(params: seq<Param>, i: nat, batchK: nat)
    requires i <= |params|
    ensures LoopOk(params, PlanUpTo(params, i, batchK), i, batchK)
  {
    hide QueuesOk, Enqueue, KindOk, Waiting;
    if i == 0 {
      NothingPlanned(params, batchK);
    } else {
      var q := PlanUpTo(params, i - 1, batchK);
      LoopStaysOk(params, i - 1, batchK);
      PlanUpToOk(params, i - 1, batchK);
      assert KindWaits(params, q, i - 1, !params[i - 1].profile.Converted?, batchK);
      OtherThrough(params, q, i - 1, batchK);
      if params[i - 1].profile.Converted? {
        EnqueueConvertedKind(params, q, i - 1, batchK);
      } else {
        EnqueuePlacedKind(params, q, i - 1, batchK);
      }
    }
  }

  lemma NothingPlanned(params: seq<Param>, batchK: nat)
    ensures LoopOk(params, Queues([], [], []), 0, batchK)
  {
  }

  /**
   The batches of each kind hold its parameters in the order of the stream, and a batch is flushed only when it
   has batch_gather members, or when the next one belongs to another process group, or at the end of the stream.
  */
  lemma PlanIsGreedy(params: seq<Param>, batchK: nat, converted: bool)
    ensures Members(OfKind(Plan(params, batchK), converted)) == KindUpTo(params, |params|, converted)
    ensures var batches := OfKind(Plan(params, batchK), converted);
      forall j | 0 <= j < |batches| - 1 ::
        |batches[j].members| == (if batchK > 1 then batchK else 1) || batches[j].group != batches[j + 1].group
  {
    hide OfKind, Members, KindUpTo, KindOk, QueuesOk, AllDue;
    var n := |params|;
    var q := PlanUpTo(params, n, batchK);
    LoopStaysOk(params, n, batchK);
    var q1 := FlushPlaced(params, q);
    FlushedBatches(params, q);
    if q.placed != [] {
      FlushKind(params, q, q1, n, false, batchK);
    }
    OtherKind(params, q, q1, n, true, batchK);
    var q2 := FlushConverted(params, q1);
    FlushedBatches(params, q1);
    if q1.converted != [] {
      FlushKind(params, q1, q2, n, true, batchK);
    }
    OtherKind(params, q1, q2, n, false, batchK);
    KindDone(params, q2, n, converted, batchK);
  }

  lemma KindDone(params: seq<Param>, q: Queues, n: nat, converted: bool, batchK: nat)
    requires KindOk(params, q, n, converted, batchK) && QueueOf(q, converted) == []
    ensures Members(OfKind(q.done, converted)) == KindUpTo(params, n, converted)
    ensures var batches := OfKind(q.done, converted);
      forall j | 0 <= j < |batches| - 1 ::
        |batches[j].members| == (if batchK > 1 then batchK else 1) || batches[j].group != batches[j + 1].group
  {
    hide OfKind, Members, KindUpTo;
  }

  /**
   Batches of both kinds, in pairs: a full batch goes out at once, one of another process group with its successor,
   and what is left at the end, placement gathers first.
  */
  lemma FiveParameters(params: seq<Param>)
    requires |params| == 5 && params[1].profile.Converted? && params[4].profile.Converted?
    requires params[0].profile.Placed? && params[2].profile.Placed? && params[3].profile.Placed?
    requires params[0].group == params[2].group == params[3].group == Some(0)
    requires params[1].group == Some(0) && params[4].group == Some(1)
    ensures Plan(params, 2) ==
      [Batch(false, Some(0), [0, 2]), Batch(true, Some(0), [1]), Batch(false, Some(0), [3]), Batch(true, Some(1), [4])]
  {
    hide PlanUpTo, Members;
    FirstThree(params);
    PlanStep(params, 4, 2);
    PlanStep(params, 5, 2);
    var none: seq<nat> := [];
    assert none + [3] == [3] && none + [4] == [4];
    assert PlanUpTo(params, 4, 2) == Queues([3], [1], [Batch(false, Some(0), [0, 2])]);
    assert PlanUpTo(params, 5, 2) == Queues([3], [4], [Batch(false, Some(0), [0, 2]), Batch(true, Some(0), [1])]);
  }

  lemma FirstThree(params: seq<Param>)
    requires |params| >= 3
    requires params[0].profile.Placed? && params[1].profile.Converted? && params[2].profile.Placed?
    requires params[0].group == params[2].group == Some(0)
    ensures PlanUpTo(params, 3, 2) == Queues([], [1], [Batch(false, Some(0), [0, 2])])
  {
    hide PlanUpTo, Members;
    PlanStart(params, 2);
    PlanStep(params, 1, 2);
    PlanStep(params, 2, 2);
    PlanStep(params, 3, 2);
    var none: seq<nat> := [];
    assert none + [0] == [0] && none + [1] == [1] && [0] + [2] == [0, 2];
    assert PlanUpTo(params, 2, 2) == Queues([0], [1], []);
    var done: seq<Batch> := [];
    assert done + [Batch(false, Some(0), [0, 2])] == [Batch(false, Some(0), [0, 2])];
  }

  lemma PlanStart(params: seq<Param>, batchK: nat)
    ensures PlanUpTo(params, 0, batchK) == Queues([], [], [])
  {
  }

  lemma PlanStep(params: seq<Param>, i: nat, batchK: nat)
    requires 0 < i <= |params|
    ensures PlanUpTo(params, i, batchK) == Enqueue(params, PlanUpTo(params, i - 1, batchK), i - 1, batchK)
  {
  }

  // ---------- a trainer rank ----------

  /** This rank's part of a parameter, and what `derive_placement` says about it. */
  datatype LocalShard = LocalShard(data: seq<Value>, offset: nat, contributes: bool)

  /** The arguments of one gather, or for `group is None` the deltas that need none. */
  datatype Call = Call(batch: Batch, payload: seq<Delta>)

  predicate HasSnapshot(p: Param, local: LocalShard, snap: map<string, seq<Value>>) {
    local.contributes ==> p.name in snap && |snap[p.name]| == |local.data|
  }

  function RankDelta(p: Param, local: LocalShard, snap: map<string, seq<Value>>): (d: Delta)
    requires HasSnapshot(p, local, snap)
    ensures |d.idx| == |d.values|
  {
    if !local.contributes then Delta([], [])
    else Diff(local.data, snap[p.name], if p.profile.Placed? then local.offset else 0)
  }

  function Shifted(idx: seq<nat>, offset: nat): seq<nat> {
    seq(|idx|, i requires 0 <= i < |idx| => idx[i] + offset)
  }

  lemma {:induction false} DiffShifted(local: seq<Value>, snap: seq<Value>, offset: nat)
    requires |local| == |snap|
    ensures Diff(local, snap, offset) == Delta(Shifted(Diff(local, snap, 0).idx, offset), Diff(local, snap, 0).values)
  {
    if local != [] {
      var n := |local| - 1;
      DiffShifted(local[..n], snap[..n], offset);
    }
  }

  function Select(deltas: seq<Delta>, members: seq<nat>): seq<Delta>
    requires forall k | 0 <= k < |members| :: members[k] < |deltas|
  {
    seq(|members|, k requires 0 <= k < |members| => deltas[members[k]])
  }

  ghost predicate DistinctParams(params: seq<Param>) {
    forall i, j | 0 <= i < j < |params| :: params[i].name != params[j].name
  }

  ghost predicate Ready(params: seq<Param>, locals: seq<LocalShard>, snap: map<string, seq<Value>>) {
    |locals| == |params| && forall i | 0 <= i < |params| :: HasSnapshot(params[i], locals[i], snap)
  }

  ghost function RankDeltas(params: seq<Param>, locals: seq<LocalShard>, snap: map<string, seq<Value>>): seq<Delta>
    requires Ready(params, locals, snap)
  {
    seq(|params|, i requires 0 <= i < |params| => RankDelta(params[i], locals[i], snap))
  }

  /** The calls carry the planned batches, each with this rank's deltas of its members. */
  ghost predicate CallsAre(calls: seq<Call>, batches: seq<Batch>, deltas: seq<Delta>) {
    && |calls| == |batches|
    && forall c | 0 <= c < |calls| :: CallIs(calls[c], batches[c], deltas)
  }

  ghost predicate CallIs(call: Call, batch: Batch, deltas: seq<Delta>) {
    call.batch == batch && Below(batch.members, |deltas|) && call.payload == Select(deltas, batch.members)
  }

  class TrainerRank {
    var shardSnap: map<string, seq<Value>>
    var shardSeeded: bool

    constructor ()
      ensures shardSnap == map[] && !shardSeeded
    {
      shardSnap, shardSeeded := map[], false;
    }

    /** The snapshot part of the seeding loop: whatever was there, the shard is there afterwards. */
    method Seed(params: seq<Param>, locals: seq<LocalShard>)
      requires |locals| == |params| && DistinctParams(params)
      modifies this
      ensures shardSeeded
      ensures forall i | 0 <= i < |params| :: params[i].name in shardSnap && shardSnap[params[i].name] == locals[i].data
      ensures Ready(params, locals, shardSnap)
    {
      for i := 0 to |params|
        invariant forall j | 0 <= j < i :: params[j].name in shardSnap && shardSnap[params[j].name] == locals[j].data
      {
        shardSnap := shardSnap[params[i].name := locals[i].data];
      }
      shardSeeded := true;
    }

    /** Diff one shard against its snapshot, and bring the snapshot up to date. */
    method TakeDelta(p: Param, local: LocalShard) returns (d: Delta)
      requires HasSnapshot(p, local, shardSnap)
      modifies `shardSnap
      ensures d == RankDelta(p, local, old(shardSnap)) && shardSnap == old(shardSnap)[p.name := local.data]
    {
      d := Delta([], []);
      if local.contributes {
        d := Diff(local.data, shardSnap[p.name], 0);
        if p.profile.Placed? && |d.idx| > 0 {
          DiffShifted(local.data, shardSnap[p.name], local.offset);
          d := Delta(Shifted(d.idx, local.offset), d.values);
        } else if p.profile.Placed? {
          DiffShifted(local.data, shardSnap[p.name], local.offset);
        }
      }
      shardSnap := shardSnap[p.name := local.data];
    }

    /**
     The loop of `send_weights`: which gathers are issued, and in which order, is fixed by the specs and the
     batch size; only the payloads depend on what has changed. Every snapshot ends up equal to its shard.
    */
    method IssueGathers(params: seq<Param>, locals: seq<LocalShard>, batchK: nat) returns (calls: seq<Call>)
      requires DistinctParams(params) && Ready(params, locals, shardSnap)
      modifies `shardSnap
      ensures CallsAre(calls, Plan(params, batchK), RankDeltas(params, locals, old(shardSnap)))
      ensures forall i | 0 <= i < |params| :: params[i].name in shardSnap && shardSnap[params[i].name] == locals[i].data
    {
      ghost var snap := shardSnap;
      ghost var deltas := RankDeltas(params, locals, snap);
      hide RankDelta, CallsAre, FlushPlaced, FlushConverted, Enqueue, SnapsUpTo, HasSnapshot;
      SnapsBegin(params, locals, snap);
      var queue := new GatherQueue(params, batchK);
      NoCalls(deltas);
      for i := 0 to |params|
        invariant SnapsUpTo(params, locals, snap, shardSnap, i)
        invariant queue.Valid(deltas) && fresh(queue) && queue.params == params && queue.batchK == batchK
        invariant queue.Abs() == PlanUpTo(params, i, batchK)
      {
        SnapStep(params, locals, snap, shardSnap, i);
        var d := TakeDelta(params[i], locals[i]);
        queue.Add(i, d, deltas);
      }
      queue.FlushGroup(deltas);
      queue.FlushNanGroup(deltas);
      calls := queue.calls;
      SnapsEnd(params, locals, snap, shardSnap);
      assert queue.Abs().done == Plan(params, batchK);
    }
  }

  lemma NoCalls(deltas: seq<Delta>)
    ensures CallsAre([], [], deltas) && Select(deltas, []) == []
  {
  }

  function Batches(calls: seq<Call>): seq<Batch> {
    seq(|calls|, c requires 0 <= c < |calls| => calls[c].batch)
  }

  /** The variables that `_flush_group` and `_flush_nan_group` share with the loop. */
  class GatherQueue {
    const params: seq<Param>
    const batchK: nat
    var group: seq<nat>
    var groupDeltas: seq<Delta>
    var nanGroup: seq<nat>
    var nanDeltas: seq<Delta>
    var calls: seq<Call>

    ghost function Abs(): Queues
      reads this
    {
      Queues(group, nanGroup, Batches(calls))
    }

    ghost predicate Valid(deltas: seq<Delta>)
      reads this
    {
      && |deltas| == |params| && Below(group, |params|) && Below(nanGroup, |params|)
      && groupDeltas == Select(deltas, group) && nanDeltas == Select(deltas, nanGroup)
      && CallsAre(calls, Batches(calls), deltas)
    }

    constructor (params: seq<Param>, batchK: nat)
      ensures this.params == params && this.batchK == batchK
      ensures Abs() == Queues([], [], []) && groupDeltas == nanDeltas == [] && calls == []
    {
      this.params, this.batchK := params, batchK;
      group, groupDeltas, nanGroup, nanDeltas, calls := [], [], [], [], [];
    }

    method FlushGroup(ghost deltas: seq<Delta>)
      requires Valid(deltas)
      modifies this
      ensures Valid(deltas) && Abs() == FlushPlaced(params, old(Abs()))
    {
      if group != [] {
        var batch := Batch(false, params[group[0]].group, group);
        CallAppended(calls, Batches(calls), deltas, batch);
        hide CallsAre;
        assert Batches(calls + [Call(batch, groupDeltas)]) == Batches(calls) + [batch];
        calls := calls + [Call(batch, groupDeltas)];
        group, groupDeltas := [], [];
      }
    }

    method FlushNanGroup(ghost deltas: seq<Delta>)
      requires Valid(deltas)
      modifies this
      ensures Valid(deltas) && Abs() == FlushConverted(params, old(Abs()))
    {
      if nanGroup != [] {
        var batch := Batch(true, params[nanGroup[0]].group, nanGroup);
        CallAppended(calls, Batches(calls), deltas, batch);
        hide CallsAre;
        assert Batches(calls + [Call(batch, nanDeltas)]) == Batches(calls) + [batch];
        calls := calls + [Call(batch, nanDeltas)];
        nanGroup, nanDeltas := [], [];
      }
    }

    /** The part of the loop body after the diff. */
    method Add(i: nat, d: Delta, ghost deltas: seq<Delta>)
      requires Valid(deltas) && i < |params| && d == deltas[i]
      modifies this
      ensures Valid(deltas) && Abs() == Enqueue(params, old(Abs()), i, batchK)
    {
      hide CallsAre, FlushPlaced, FlushConverted;
      if params[i].profile.Converted? {
        if nanGroup != [] && params[nanGroup[0]].group != params[i].group {
          FlushNanGroup(deltas);
        }
        nanGroup, nanDeltas := nanGroup + [i], nanDeltas + [d];
        if |nanGroup| >= Max(batchK, 1) {
          FlushNanGroup(deltas);
        }
      } else {
        if group != [] && params[group[|group| - 1]].group != params[i].group {
          FlushGroup(deltas);
        }
        group, groupDeltas := group + [i], groupDeltas + [d];
        if |group| >= Max(batchK, 1) {
          FlushGroup(deltas);
        }
      }
    }
  }

  /** The first i snapshots are up to date, the others as they were. */
  ghost predicate SnapsUpTo(params: seq<Param>, locals: seq<LocalShard>, snap: map<string, seq<Value>>,
                            now: map<string, seq<Value>>, i: nat)
    requires i <= |params| == |locals|
  {
    && (forall j | 0 <= j < i :: params[j].name in now && now[params[j].name] == locals[j].data)
    && (forall j | i <= j < |params| && params[j].name in snap ::
          params[j].name in now && now[params[j].name] == snap[params[j].name])
  }

  lemma SnapsBegin(params: seq<Param>, locals: seq<LocalShard>, snap: map<string, seq<Value>>)
    requires |params| == |locals|
    ensures SnapsUpTo(params, locals, snap, snap, 0)
  {
  }

  lemma SnapsEnd(params: seq<Param>, locals: seq<LocalShard>, snap: map<string, seq<Value>>,
                 now: map<string, seq<Value>>)
    requires |params| == |locals| && SnapsUpTo(params, locals, snap, now, |params|)
    ensures forall i | 0 <= i < |params| :: params[i].name in now && now[params[i].name] == locals[i].data
  {
  }

  lemma SnapStep(params: seq<Param>, locals: seq<LocalShard>, snap: map<string, seq<Value>>,
                 now: map<string, seq<Value>>, i: nat)
    requires DistinctParams(params) && Ready(params, locals, snap) && i < |params|
    requires SnapsUpTo(params, locals, snap, now, i)
    ensures HasSnapshot(params[i], locals[i], now)
    ensures RankDelta(params[i], locals[i], now) == RankDeltas(params, locals, snap)[i]
    ensures SnapsUpTo(params, locals, snap, now[params[i].name := locals[i].data], i + 1)
  {
    hide RankDelta;
    SameSnapshot(params[i], locals[i], snap, now);
  }

  lemma SameSnapshot(p: Param, local: LocalShard, snap: map<string, seq<Value>>, snap': map<string, seq<Value>>)
    requires HasSnapshot(p, local, snap)
    requires p.name in snap ==> p.name in snap' && snap'[p.name] == snap[p.name]
    ensures HasSnapshot(p, local, snap') && RankDelta(p, local, snap') == RankDelta(p, local, snap)
  {
  }

  lemma CallAppended(calls: seq<Call>, batches: seq<Batch>, deltas: seq<Delta>, b: Batch)
    requires CallsAre(calls, batches, deltas) && Below(b.members, |deltas|)
    ensures CallsAre(calls + [Call(b, Select(deltas, b.members))], batches + [b], deltas)
  {
  }

  /** Two ranks with the same specs issue the same gathers in the same order, for the same parameters. */
  lemma RanksInLockstep(params: seq<Param>, batchK: nat, calls: seq<Call>, deltas: seq<Delta>, calls': seq<Call>,
                        deltas': seq<Delta>)
    requires CallsAre(calls, Plan(params, batchK), deltas) && CallsAre(calls', Plan(params, batchK), deltas')
    ensures |calls| == |calls'|
    ensures forall c | 0 <= c < |calls| ::
      calls[c].batch == calls'[c].batch && |calls[c].payload| == |calls'[c].payload| == |calls[c].batch.members|
  {
    forall c | 0 <= c < |calls|
      ensures calls[c].batch == calls'[c].batch && |calls[c].payload| == |calls'[c].payload| == |calls[c].batch.members|
    {
      assert CallIs(calls[c], Plan(params, batchK)[c], deltas) && CallIs(calls'[c], Plan(params, batchK)[c], deltas');
    }
  }
}
