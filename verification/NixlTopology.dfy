/**
 How the NIXL engine lines the workers up (`build_topology`, `init_process_group`), how the
 manager checks the lists, and how a rank waits for the notification of its one reader.
*/
module NixlTopology {
  import opened Weights

  // ---------- Python slices ----------

  function ClampIndex(i: int, n: nat): (r: nat)
    ensures r <= n
  {
    if i < 0 then (if i + n < 0 then 0 else i + n) else if i > n then n else i
  }

  /** `s[lo:hi]`, where negative bounds count from the end. */
  function PySlice<T>(s: seq<T>, lo: int, hi: int): seq<T> {
    var a, b := ClampIndex(lo, |s|), ClampIndex(hi, |s|);
    if a <= b then s[a..b] else []
  }

  function PyAt<T>(s: seq<T>, i: int): T
    requires -|s| <= i < |s|
  {
    if i < 0 then s[|s| + i] else s[i]
  }

  function FromEnd(n: nat): int {
    -(n as int)
  }

  function Repeat<T>(x: T, n: nat): seq<T> {
    seq(n, _ => x)
  }

  function Wrap<T>(s: seq<T>): seq<Option<T>> {
    seq(|s|, i requires 0 <= i < |s| => Some(s[i]))
  }

  // ---------- build_topology ----------

  datatype Kwargs<T> = Kwargs(rank: seq<int>, worldSize: seq<int>, prev: seq<Option<T>>, next: seq<Option<T>>)

  function ActorKwargs<T>(actors: nat, rollouts: nat, metadata: seq<T>): Kwargs<T>
    requires actors >= 1 && |metadata| == actors + rollouts
  {
    Kwargs(
      [0] + Repeat<int>(-1, actors - 1),
      Repeat(rollouts + 1, actors),
      Repeat(None, actors),
      [Some(PyAt(metadata, FromEnd(rollouts)))] + Repeat(None, actors - 1))
  }

  function RolloutKwargs<T>(actors: nat, rollouts: nat, metadata: seq<T>): Kwargs<T>
    requires actors >= 1 && |metadata| == actors + rollouts
  {
    Kwargs(
      seq(rollouts, (i: nat) => (i + 1) as int),
      Repeat(rollouts + 1, rollouts),
      [Some(metadata[0])] + Wrap(PySlice(metadata, FromEnd(rollouts), -1)),
      Wrap(PySlice(metadata, FromEnd(rollouts) + 1, |metadata|)) + [None])
  }

  /** The manager's check: every list is as long as the group of workers it is dealt out to. */
  predicate LengthsOk<T>(k: Kwargs<T>, n: nat) {
    |k.rank| == |k.worldSize| == |k.prev| == |k.next| == n
  }

  /** The assertions of `init_process_group`. */
  predicate InitAccepts<T>(rank: int, worldSize: int, prev: Option<T>, next: Option<T>) {
    if rank < 0 then prev.None? && next.None?
    else if rank == 0 then prev.None? && next.Some?
    else if rank < worldSize - 1 then prev.Some? && next.Some?
    else if rank == worldSize - 1 then prev.Some? && next.None?
    else true
  }

  /** The lists fit exactly when there are at least two rollout workers. */
  lemma AcceptedFromTwoRollouts<T>(actors: nat, rollouts: nat, metadata: seq<T>)
    requires actors >= 1 && |metadata| == actors + rollouts
    ensures LengthsOk(ActorKwargs(actors, rollouts, metadata), actors)
    ensures LengthsOk(RolloutKwargs(actors, rollouts, metadata), rollouts) <==> rollouts >= 2
  {
  }

  /** Each rank of the chain has a predecessor unless it is the first, and a successor unless it is the last. */
  lemma InitAcceptsIff<T>(rank: int, worldSize: int, prev: Option<T>, next: Option<T>)
    requires worldSize >= 2 && -1 <= rank < worldSize
    ensures InitAccepts(rank, worldSize, prev, next) <==>
      (prev.Some? <==> 0 < rank) && (next.Some? <==> 0 <= rank < worldSize - 1)
  {
  }

  /** The neighbours of one rollout worker. */
  lemma RolloutLinks<T>(actors: nat, rollouts: nat, metadata: seq<T>, i: nat)
    requires actors >= 1 && rollouts >= 2 && |metadata| == actors + rollouts && i < rollouts
    ensures var k := RolloutKwargs(actors, rollouts, metadata);
      && |k.prev| == |k.next| == rollouts
      && k.prev[i] == Some(if i == 0 then metadata[0] else metadata[actors + i - 1])
      && k.next[i] == if i + 1 == rollouts then None else Some(metadata[actors + i + 1])
  {
    assert PySlice(metadata, FromEnd(rollouts), -1) == metadata[actors..actors + rollouts - 1];
    assert PySlice(metadata, FromEnd(rollouts) + 1, |metadata|) == metadata[actors + 1..];
    hide PySlice;
  }

  /** What is said of one rollout worker: its rank, and the ranks beside it. */
  ghost predicate Linked<T>(k: Kwargs<T>, actors: nat, rollouts: nat, metadata: seq<T>, i: nat)
    requires actors >= 1 && |metadata| == actors + rollouts && i < rollouts && LengthsOk(k, rollouts)
  {
    && k.rank[i] == i + 1 && k.worldSize[i] == rollouts + 1
    // worker i has the metadata entry actors + i
    && k.prev[i] == Some(if i == 0 then metadata[0] else metadata[actors + i - 1])
    && k.next[i] == (if i + 1 == rollouts then None else Some(metadata[actors + i + 1]))
    && InitAccepts(k.rank[i], k.worldSize[i], k.prev[i], k.next[i])
  }

  lemma RolloutLinked<T>(actors: nat, rollouts: nat, metadata: seq<T>, i: nat)
    requires actors >= 1 && rollouts >= 2 && |metadata| == actors + rollouts && i < rollouts
    ensures var k := RolloutKwargs(actors, rollouts, metadata);
      LengthsOk(k, rollouts) && Linked(k, actors, rollouts, metadata, i)
  {
    RolloutLinks(actors, rollouts, metadata, i);
    AcceptedFromTwoRollouts(actors, rollouts, metadata);
    hide PySlice;
  }

  /** For two or more rollout workers the result is a chain: each rank's neighbours are the ranks beside it. */
  lemma TopologyIsChain<T>(actors: nat, rollouts: nat, metadata: seq<T>)
    requires actors >= 1 && rollouts >= 2 && |metadata| == actors + rollouts
    ensures var a := ActorKwargs(actors, rollouts, metadata);
      && a.rank[0] == 0 && a.prev[0] == None && a.next[0] == Some(metadata[actors])
      && (forall i | 0 <= i < actors :: a.worldSize[i] == rollouts + 1)
      && InitAccepts(0, a.worldSize[0], a.prev[0], a.next[0])
      && forall i | 1 <= i < actors ::
        a.rank[i] == -1 && InitAccepts(a.rank[i], a.worldSize[i], a.prev[i], a.next[i])
    ensures var k := RolloutKwargs(actors, rollouts, metadata);
      LengthsOk(k, rollouts) && forall i | 0 <= i < rollouts :: Linked(k, actors, rollouts, metadata, i)
  {
    hide RolloutKwargs, Linked;
    AcceptedFromTwoRollouts(actors, rollouts, metadata);
    forall i | 0 <= i < rollouts
      ensures Linked(RolloutKwargs(actors, rollouts, metadata), actors, rollouts, metadata, i)
    {
      RolloutLinked(actors, rollouts, metadata, i);
    }
  }

  // ---------- queues by peer ----------

  /** The queue of a peer: a `defaultdict(deque)` that was never asked for has an empty one. */
  function Queue<K>(queues: map<string, seq<K>>, name: string): seq<K> {
    if name in queues then queues[name] else []
  }

  function Extend<K>(queues: map<string, seq<K>>, name: string, keys: seq<K>): map<string, seq<K>> {
    queues[name := Queue(queues, name) + keys]
  }

  /** `popleft` on one queue: its oldest element comes out, and nothing else changes. */
  ghost predicate TakenFrom<K>(before: map<string, seq<K>>, name: string, k: K, after: map<string, seq<K>>) {
    && Queue(before, name) == [k] + Queue(after, name)
    && forall other | other != name :: Queue(after, other) == Queue(before, other)
  }

  /** What has been taken from one queue so far, where `total` are the queues with nothing taken. */
  ghost predicate TakenSoFar<K>(total: map<string, seq<K>>, name: string, taken: seq<K>, now: map<string, seq<K>>) {
    && Queue(total, name) == taken + Queue(now, name)
    && forall other | other != name :: Queue(now, other) == Queue(total, other)
  }

  /** Both have grown by the same at the end. */
  ghost predicate GrownAlike<K>(a: map<string, seq<K>>, a': map<string, seq<K>>, b: map<string, seq<K>>,
                                b': map<string, seq<K>>, name: string) {
    Queue(b, name) <= Queue(b', name) && Queue(a', name) == Queue(a, name) + Queue(b', name)[|Queue(b, name)|..]
  }

  ghost predicate AllGrownAlike<K>(a: map<string, seq<K>>, a': map<string, seq<K>>, b: map<string, seq<K>>,
                                   b': map<string, seq<K>>) {
    forall name :: GrownAlike(a, a', b, b', name)
  }

  lemma TakenOn<K>(total: map<string, seq<K>>, total': map<string, seq<K>>, name: string, taken: seq<K>,
                   was: map<string, seq<K>>, all: map<string, seq<K>>)
    requires TakenSoFar(total, name, taken, was) && AllGrownAlike(total, total', was, all)
    ensures TakenSoFar(total', name, taken, all)
  {
    hide Queue, GrownAlike;
    assert GrownAlike(total, total', was, all, name);
    TakenGrown(total, total', was, all, name, taken);
    forall other | other != name ensures Queue(all, other) == Queue(total', other) {
      assert GrownAlike(total, total', was, all, other);
      TakenGrown(total, total', was, all, other, []);
    }
  }

  lemma TakenGrown<K>(total: map<string, seq<K>>, total': map<string, seq<K>>, was: map<string, seq<K>>,
                      all: map<string, seq<K>>, name: string, taken: seq<K>)
    requires GrownAlike(total, total', was, all, name) && Queue(total, name) == taken + Queue(was, name)
    ensures Queue(total', name) == taken + Queue(all, name)
    ensures taken == [] ==> Queue(total', name) == Queue(all, name)
  {
    hide Queue;
    var (q, now) := (Queue(was, name), Queue(all, name));
    assert now == q + now[|q|..];
    assert (taken + q) + now[|q|..] == taken + (q + now[|q|..]);
  }

  lemma PrefixTaken<K>(queued: seq<K>, seen: seq<K>, rest: seq<K>, taken: seq<K>, left: seq<K>, k: nat)
    requires queued + seen == taken + left && |taken| <= k
    ensures taken <= queued + (seen + rest)
    ensures |taken| == k || (left == [] && rest == []) ==> |taken| == Min(k, |queued + (seen + rest)|)
  {
    assert queued + (seen + rest) == (queued + seen) + rest == taken + (left + rest);
  }

  lemma TakenFirst<K>(before: map<string, seq<K>>, name: string, k: K, after: map<string, seq<K>>)
    requires TakenFrom(before, name, k, after)
    ensures Queue(before, name) != [] && Queue(before, name)[0] == k
  {
    hide Queue;
  }

  lemma TakenOneMore<K>(total: map<string, seq<K>>, name: string, taken: seq<K>, all: map<string, seq<K>>, k: K,
                        now: map<string, seq<K>>)
    requires TakenSoFar(total, name, taken, all) && TakenFrom(all, name, k, now)
    ensures TakenSoFar(total, name, taken + [k], now)
  {
    hide Queue;
  }

  lemma ExtendAt<K>(queues: map<string, seq<K>>, name: string, keys: seq<K>, other: string)
    ensures Queue(Extend(queues, name, keys), other) == Queue(queues, other) + if other == name then keys else []
  {
  }

  // ---------- reading a message ----------

  /** The queues after the messages have been received. */
  function Delivered<M>(queues: map<string, seq<M>>, arriving: seq<(string, M)>): map<string, seq<M>> {
    if arriving == [] then queues
    else
      var n := |arriving| - 1;
      Extend(Delivered(queues, arriving[..n]), arriving[n].0, [arriving[n].1])
  }

  /** The messages of one sender, in the order in which they arrive. */
  function MessagesFrom<M>(arriving: seq<(string, M)>, name: string): seq<M> {
    if arriving == [] then []
    else
      var n := |arriving| - 1;
      MessagesFrom(arriving[..n], name) + if arriving[n].0 == name then [arriving[n].1] else []
  }

  /** Those are exactly the messages that came from the sender, at increasing places in what arrives. */
  lemma {:induction false} MessagesAre<M>(arriving: seq<(string, M)>, name: string) returns (at: seq<nat>)
    ensures |at| == |MessagesFrom(arriving, name)|
    ensures forall k | 0 <= k < |at| :: MessageAt(arriving, name, MessagesFrom(arriving, name)[k], at[k])
    ensures forall j, k | 0 <= j < k < |at| :: at[j] < at[k]
    ensures forall i: nat | i < |arriving| && arriving[i].0 == name :: i in at
  {
    hide MessagesFrom, MessageAt;
    at := [];
    if arriving == [] {
      NothingFrom(arriving, name);
    } else {
      var n := |arriving| - 1;
      var before := MessagesAre(arriving[..n], name);
      MessagesStep(arriving, n, name);
      MessagesPlaced(arriving, n, name, MessagesFrom(arriving[..n], name), before);
      EarlierPlaces(arriving, n, name, MessagesFrom(arriving[..n], name), before);
      at := if arriving[n].0 == name then before + [n] else before;
      forall i: nat | i < |arriving| && arriving[i].0 == name ensures i in at {
        if i < n {
          assert arriving[..n][i] == arriving[i] && i in before;
        }
      }
    }
  }

  lemma EarlierPlaces<M>(arriving: seq<(string, M)>, n: nat, name: string, keys: seq<M>, before: seq<nat>)
    requires n < |arriving| && |before| == |keys|
    requires forall k | 0 <= k < |before| :: MessageAt(arriving[..n], name, keys[k], before[k])
    ensures forall k | 0 <= k < |before| :: before[k] < n
  {
    forall k | 0 <= k < |before| ensures before[k] < n {
      assert MessageAt(arriving[..n], name, keys[k], before[k]);
    }
  }

  lemma NothingFrom<M>(arriving: seq<(string, M)>, name: string)
    requires arriving == []
    ensures MessagesFrom(arriving, name) == []
  {
  }

  ghost predicate MessageAt<M>(arriving: seq<(string, M)>, name: string, m: M, i: nat) {
    i < |arriving| && arriving[i] == (name, m)
  }

  lemma MessagesStep<M>(arriving: seq<(string, M)>, n: nat, name: string)
    requires n == |arriving| - 1
    ensures MessagesFrom(arriving, name) ==
      MessagesFrom(arriving[..n], name) + if arriving[n].0 == name then [arriving[n].1] else []
  {
  }

  lemma MessagesPlaced<M>(arriving: seq<(string, M)>, n: nat, name: string, keys: seq<M>, before: seq<nat>)
    requires n == |arriving| - 1 && |before| == |keys|
    requires forall k | 0 <= k < |before| :: MessageAt(arriving[..n], name, keys[k], before[k])
    ensures arriving[n].0 == name ==>
      forall k | 0 <= k < |before| + 1 ::
        MessageAt(arriving, name, (keys + [arriving[n].1])[k], (before + [n])[k])
    ensures forall k | 0 <= k < |before| :: MessageAt(arriving, name, keys[k], before[k])
  {
    forall k | 0 <= k < |before| ensures MessageAt(arriving, name, keys[k], before[k]) {
      assert MessageAt(arriving[..n], name, keys[k], before[k]);
      assert arriving[..n][before[k]] == arriving[before[k]];
    }
    assert arriving[n] == (arriving[n].0, arriving[n].1);
  }

  lemma {:induction false} MessagesConcat<M>(a: seq<(string, M)>, b: seq<(string, M)>, name: string)
    ensures MessagesFrom(a + b, name) == MessagesFrom(a, name) + MessagesFrom(b, name)
  {
    hide MessagesFrom;
    if b == [] {
      assert a + b == a;
      NothingFrom(b, name);
    } else {
      var n := |b| - 1;
      assert (a + b)[..|a| + n] == a + b[..n] && (a + b)[|a| + n] == b[n];
      MessagesConcat(a, b[..n], name);
      MessagesStep(b, n, name);
      MessagesStep(a + b, |a| + n, name);
    }
  }

  /** However the senders interleave, each one's messages are queued in order. */
  lemma {:induction false} DeliveredInOrder<M>(queues: map<string, seq<M>>, arriving: seq<(string, M)>, name: string)
    ensures Queue(Delivered(queues, arriving), name) == Queue(queues, name) + MessagesFrom(arriving, name)
  {
    hide Extend;
    if arriving != [] {
      var n := |arriving| - 1;
      DeliveredInOrder(queues, arriving[..n], name);
      ExtendAt(Delivered(queues, arriving[..n]), arriving[n].0, [arriving[n].1], name);
    }
  }

  class Mailbox<M> {
    var messages: map<string, seq<M>>

    constructor ()
      ensures messages == map[]
    {
      messages := map[];
    }

    /**
     `read_message`: the oldest message of the sender asked for, after receiving no more than that takes.
     `arriving` is what the socket delivers; when it runs out the caller is still waiting.
    */
    method ReadMessage(agentName: string, arriving: seq<(string, M)>) returns (message: Option<M>, used: nat)
      modifies this
      ensures used <= |arriving|
      ensures forall u | 0 <= u < used :: Queue(Delivered(old(messages), arriving[..u]), agentName) == []
      ensures var all := Delivered(old(messages), arriving[..used]);
        match message
        case Some(m) => TakenFrom(all, agentName, m, messages)
        case None => used == |arriving| && Queue(all, agentName) == [] && messages == all
    {
      hide Queue, Extend;
      used := 0;
      while Queue(messages, agentName) == []
        invariant used <= |arriving| && messages == Delivered(old(messages), arriving[..used])
        invariant forall u | 0 <= u < used :: Queue(Delivered(old(messages), arriving[..u]), agentName) == []
        decreases |arriving| - used
      {
        if used == |arriving| {
          return None, used;
        }
        assert arriving[..used + 1][..used] == arriving[..used];
        messages := Extend(messages, arriving[used].0, [arriving[used].1]);
        used := used + 1;
      }
      var queue := Queue(messages, agentName);
      message := Some(queue[0]);
      Popped(messages, agentName, queue);
      messages := messages[agentName := queue[1..]];
    }

    /**
     Successive reads from one sender hand out its messages in order, each once, and leave those of the others:
     as many as were asked for, or all that there are when what arrives runs out.
    */
    method ReadMessages(agentName: string, arriving: seq<(string, M)>, k: nat) returns (read: seq<M>, used: nat)
      modifies this
      ensures used <= |arriving|
      ensures read <= Queue(old(messages), agentName) + MessagesFrom(arriving, agentName)
      ensures |read| == Min(k, |Queue(old(messages), agentName) + MessagesFrom(arriving, agentName)|)
      ensures Queue(old(messages), agentName) + MessagesFrom(arriving[..used], agentName) ==
        read + Queue(messages, agentName)
      ensures forall other | other != agentName ::
        Queue(messages, other) == Queue(old(messages), other) + MessagesFrom(arriving[..used], other)
    {
      hide Queue, Delivered, MessagesFrom, TakenSoFar, TakenFrom;
      read, used := [], 0;
      NothingTaken(messages, arriving, agentName);
      while |read| < k
        invariant |read| <= k && used <= |arriving|
        invariant TakenSoFar(Delivered(old(messages), arriving[..used]), agentName, read, messages)
        decreases k - |read|
      {
        ghost var was := messages;
        var message, more := ReadMessage(agentName, arriving[used..]);
        ghost var total, all :=
          Delivered(old(messages), arriving[..used + more]), Delivered(was, arriving[used..][..more]);
        DeliveredAlike(old(messages), was, arriving, used, more);
        TakenOn(Delivered(old(messages), arriving[..used]), total, agentName, read, was, all);
        used := used + more;
        if message.None? {
          assert arriving[..used] == arriving;
          TakenMeans(old(messages), arriving, used, agentName, read, messages, k);
          return;
        }
        TakenOneMore(total, agentName, read, all, message.value, messages);
        read := read + [message.value];
      }
      TakenMeans(old(messages), arriving, used, agentName, read, messages, k);
    }
  }

  lemma NothingTaken<M>(queues: map<string, seq<M>>, arriving: seq<(string, M)>, name: string)
    ensures TakenSoFar(Delivered(queues, arriving[..0]), name, [], queues)
  {
  }

  lemma DeliveredAlike<M>(queues: map<string, seq<M>>, was: map<string, seq<M>>, arriving: seq<(string, M)>, used: nat,
                          more: nat)
    requires used + more <= |arriving|
    ensures AllGrownAlike(Delivered(queues, arriving[..used]), Delivered(queues, arriving[..used + more]),
                          was, Delivered(was, arriving[used..][..more]))
  {
    hide Queue, Delivered, MessagesFrom;
    var seen, next := arriving[..used], arriving[used..][..more];
    assert arriving[..used + more] == seen + next;
    forall x: string ensures GrownAlike(Delivered(queues, seen), Delivered(queues, seen + next), was,
                                        Delivered(was, next), x) {
      DeliveredInOrder(queues, seen, x);
      DeliveredInOrder(queues, seen + next, x);
      DeliveredInOrder(was, next, x);
      MessagesConcat(seen, next, x);
    }
  }

  lemma TakenMeans<M>(queues: map<string, seq<M>>, arriving: seq<(string, M)>, used: nat, name: string, read: seq<M>,
                      now: map<string, seq<M>>, k: nat)
    requires used <= |arriving| && TakenSoFar(Delivered(queues, arriving[..used]), name, read, now)
    requires |read| <= k && (|read| == k || (used == |arriving| && Queue(now, name) == []))
    ensures read <= Queue(queues, name) + MessagesFrom(arriving, name)
    ensures |read| == Min(k, |Queue(queues, name) + MessagesFrom(arriving, name)|)
    ensures Queue(queues, name) + MessagesFrom(arriving[..used], name) == read + Queue(now, name)
    ensures forall other | other != name ::
      Queue(now, other) == Queue(queues, other) + MessagesFrom(arriving[..used], other)
  {
    hide Queue, Delivered, MessagesFrom;
    forall x: string
      ensures Queue(Delivered(queues, arriving[..used]), x) == Queue(queues, x) + MessagesFrom(arriving[..used], x)
    {
      DeliveredInOrder(queues, arriving[..used], x);
    }
    assert arriving == arriving[..used] + arriving[used..];
    MessagesConcat(arriving[..used], arriving[used..], name);
    PrefixTaken(Queue(queues, name), MessagesFrom(arriving[..used], name), MessagesFrom(arriving[used..], name), read,
                Queue(now, name), k);
    if used == |arriving| {
      NothingFrom(arriving[used..], name);
    }
  }

  lemma Popped<K>(queues: map<string, seq<K>>, name: string, queue: seq<K>)
    requires queue != [] && queue == Queue(queues, name)
    ensures TakenFrom(queues, name, queue[0], queues[name := queue[1..]])
  {
  }

  // ---------- waiting for a notification ----------

  /** One poll of `get_new_notifs`: the peers that notified since the last poll, in dictionary order. */
  type Poll<K> = seq<(string, seq<K>)>

  /** The queues after a poll. */
  function Polled<K>(queues: map<string, seq<K>>, p: Poll<K>): map<string, seq<K>> {
    if p == [] then queues
    else
      var n := |p| - 1;
      Extend(Polled(queues, p[..n]), p[n].0, p[n].1)
  }

  function AllPolled<K>(queues: map<string, seq<K>>, polls: seq<Poll<K>>): map<string, seq<K>> {
    if polls == [] then queues else Polled(AllPolled(queues, polls[..|polls| - 1]), polls[|polls| - 1])
  }

  /** The name that is left in the loop variable after a poll, and after all polls. */
  function NameAfter<K>(name: string, p: Poll<K>): string {
    if p == [] then name else p[|p| - 1].0
  }

  function LastName<K>(asked: string, polls: seq<Poll<K>>): string {
    if polls == [] then asked else NameAfter(LastName(asked, polls[..|polls| - 1]), polls[|polls| - 1])
  }

  /** The keys of one peer, in the order in which they arrive. */
  function KeysIn<K>(p: Poll<K>, name: string): seq<K> {
    if p == [] then []
    else
      var n := |p| - 1;
      KeysIn(p[..n], name) + if p[n].0 == name then p[n].1 else []
  }

  function KeysOf<K>(polls: seq<Poll<K>>, name: string): seq<K> {
    if polls == [] then [] else KeysOf(polls[..|polls| - 1], name) + KeysIn(polls[|polls| - 1], name)
  }

  /** The place of a key: the poll, the peer's entry in it, and the key in that entry. */
  datatype Place = Place(poll: nat, entry: nat, key: nat)

  predicate Before(a: Place, b: Place) {
    a.poll < b.poll || (a.poll == b.poll && (a.entry < b.entry || (a.entry == b.entry && a.key < b.key)))
  }

  predicate PlaceOf<K>(polls: seq<Poll<K>>, at: Place, name: string) {
    && at.poll < |polls| && at.entry < |polls[at.poll]| && at.key < |polls[at.poll][at.entry].1|
    && polls[at.poll][at.entry].0 == name
  }

  ghost predicate KeyAt<K>(polls: seq<Poll<K>>, at: Place, name: string, k: K) {
    PlaceOf(polls, at, name) && polls[at.poll][at.entry].1[at.key] == k
  }

  /** A list of keys is those of one peer: each at its own place, the places in order, and none is left out. */
  ghost predicate KeysPlaced<K>(polls: seq<Poll<K>>, name: string, keys: seq<K>, at: seq<Place>) {
    && |at| == |keys| && (forall k | 0 <= k < |at| :: KeyAt(polls, at[k], name, keys[k]))
    && (forall j, k | 0 <= j < k < |at| :: Before(at[j], at[k]))
    && forall p: Place | PlaceOf(polls, p, name) :: p in at
  }

  /** The places of one entry's keys. */
  function EntryPlaces(poll: nat, entry: nat, n: nat): seq<Place> {
    seq(n, k requires 0 <= k < n => Place(poll, entry, k))
  }

  lemma {:induction false} KeysInAre<K>(polls: seq<Poll<K>>, i: nat, n: nat, name: string) returns (at: seq<Place>)
    requires i < |polls| && n <= |polls[i]|
    ensures |at| == |KeysIn(polls[i][..n], name)|
    ensures forall k | 0 <= k < |at| ::
      at[k].poll == i && at[k].entry < n && KeyAt(polls, at[k], name, KeysIn(polls[i][..n], name)[k])
    ensures forall j, k | 0 <= j < k < |at| :: Before(at[j], at[k])
    ensures forall p: Place | PlaceOf(polls, p, name) && p.poll == i && p.entry < n :: p in at
  {
    at := [];
    if n > 0 {
      var p := polls[i][..n];
      assert p[..n - 1] == polls[i][..n - 1];
      var before := KeysInAre(polls, i, n - 1, name);
      var here := EntryPlaces(i, n - 1, |p[n - 1].1|);
      at := if p[n - 1].0 == name then before + here else before;
      forall q: Place | PlaceOf(polls, q, name) && q.poll == i && q.entry < n ensures q in at {
        if q.entry == n - 1 {
          assert here[q.key] == q;
        }
      }
    }
  }

  /** The keys of a peer over all polls are exactly those that it sent, in the order of arrival. */
  lemma {:induction false} KeysAre<K>(polls: seq<Poll<K>>, n: nat, name: string) returns (at: seq<Place>)
    requires n <= |polls|
    ensures KeysPlaced(polls[..n], name, KeysOf(polls[..n], name), at)
  {
    hide KeysIn;
    at := [];
    if n > 0 {
      assert polls[..n][..n - 1] == polls[..n - 1] && polls[..n][n - 1] == polls[n - 1];
      var before := KeysAre(polls, n - 1, name);
      var here := KeysInAre(polls[..n], n - 1, |polls[n - 1]|, name);
      assert polls[..n][n - 1][..|polls[n - 1]|] == polls[n - 1];
      at := before + here;
      KeysJoined(polls, n, name, before, here);
    }
  }

  lemma KeysJoined<K>(polls: seq<Poll<K>>, n: nat, name: string, before: seq<Place>, here: seq<Place>)
    requires 0 < n <= |polls| && KeysPlaced(polls[..n - 1], name, KeysOf(polls[..n - 1], name), before)
    requires |here| == |KeysIn(polls[n - 1], name)|
    requires forall k | 0 <= k < |here| ::
      here[k].poll == n - 1 && KeyAt(polls[..n], here[k], name, KeysIn(polls[n - 1], name)[k])
    requires forall j, k | 0 <= j < k < |here| :: Before(here[j], here[k])
    requires forall p: Place | PlaceOf(polls[..n], p, name) && p.poll == n - 1 :: p in here
    ensures KeysPlaced(polls[..n], name, KeysOf(polls[..n - 1], name) + KeysIn(polls[n - 1], name), before + here)
  {
    hide KeysIn, KeysOf;
    var at, keys := before + here, KeysOf(polls[..n - 1], name) + KeysIn(polls[n - 1], name);
    forall k | 0 <= k < |at| ensures KeyAt(polls[..n], at[k], name, keys[k]) {
      if k < |before| {
        assert KeyAt(polls[..n - 1], before[k], name, keys[k]);
      }
    }
    forall j, k | 0 <= j < k < |at| ensures Before(at[j], at[k]) {
      if j < |before| <= k {
        assert KeyAt(polls[..n - 1], before[j], name, keys[j]);
      } else if |before| <= j {
        assert Before(here[j - |before|], here[k - |before|]);
      }
    }
    forall p: Place | PlaceOf(polls[..n], p, name) ensures p in at {
      if p.poll < n - 1 {
        assert PlaceOf(polls[..n - 1], p, name);
      }
    }
  }

  lemma {:induction false} KeysConcat<K>(a: seq<Poll<K>>, b: seq<Poll<K>>, name: string)
    ensures KeysOf(a + b, name) == KeysOf(a, name) + KeysOf(b, name)
  {
    hide KeysOf, KeysIn;
    if b == [] {
      assert a + b == a;
      NoKeysOf(b, name);
    } else {
      var n := |b| - 1;
      assert (a + b)[..|a| + n] == a + b[..n] && (a + b)[|a| + n] == b[n];
      KeysConcat(a, b[..n], name);
      KeysStep(b, n, name);
      KeysStep(a + b, |a| + n, name);
    }
  }

  lemma KeysStep<K>(polls: seq<Poll<K>>, n: nat, name: string)
    requires n == |polls| - 1
    ensures KeysOf(polls, name) == KeysOf(polls[..n], name) + KeysIn(polls[n], name)
  {
  }

  lemma NoKeysOf<K>(polls: seq<Poll<K>>, name: string)
    requires polls == []
    ensures KeysOf(polls, name) == []
  {
  }

  lemma {:induction false} PolledInOrder<K>(queues: map<string, seq<K>>, p: Poll<K>, name: string)
    ensures Queue(Polled(queues, p), name) == Queue(queues, name) + KeysIn(p, name)
  {
    hide Extend;
    if p != [] {
      var n := |p| - 1;
      PolledInOrder(queues, p[..n], name);
      ExtendAt(Polled(queues, p[..n]), p[n].0, p[n].1, name);
    }
  }

  /** Every key is queued for the peer that sent it, in the order of arrival. */
  lemma {:induction false} QueuedInOrder<K>(queues: map<string, seq<K>>, polls: seq<Poll<K>>, name: string)
    ensures Queue(AllPolled(queues, polls), name) == Queue(queues, name) + KeysOf(polls, name)
  {
    hide Polled, KeysIn;
    if polls != [] {
      var n := |polls| - 1;
      QueuedInOrder(queues, polls[..n], name);
      PolledInOrder(AllPolled(queues, polls[..n]), polls[n], name);
    }
  }

  /** The polls may mix peers, as long as each that is not empty lists the asked one last. */
  ghost predicate AskedIsLast<K>(asked: string, polls: seq<Poll<K>>) {
    forall i | 0 <= i < |polls| :: polls[i] != [] ==> NameAfter("", polls[i]) == asked
  }

  ghost predicate OnlyFrom<K>(p: Poll<K>, name: string) {
    forall e <- p :: e.0 == name
  }

  /**
   The wait looks at the queue of the peer it was asked for, after any number of polls, exactly when each poll
   that is not empty lists that peer last.
  */
  lemma {:induction false} RightPeerIff<K>(asked: string, polls: seq<Poll<K>>)
    ensures (forall u | 0 <= u <= |polls| :: LastName(asked, polls[..u]) == asked) <==> AskedIsLast(asked, polls)
  {
    if polls != [] {
      var n := |polls| - 1;
      RightPeerIff(asked, polls[..n]);
      assert polls[..n + 1] == polls && forall u | 0 <= u <= n :: polls[..n][..u] == polls[..u];
      assert LastName(asked, polls) == NameAfter(LastName(asked, polls[..n]), polls[n]);
      assert AskedIsLast(asked, polls)
        <==> AskedIsLast(asked, polls[..n]) && (polls[n] != [] ==> NameAfter("", polls[n]) == asked);
    }
  }

  lemma AskedStays<K>(asked: string, polls: seq<Poll<K>>, used: nat)
    requires AskedIsLast(asked, polls) && used <= |polls|
    ensures forall u | 0 <= u <= |polls[used..]| :: LastName(asked, polls[used..][..u]) == asked
  {
    var rest := polls[used..];
    forall i | 0 <= i < |rest| && rest[i] != [] ensures NameAfter("", rest[i]) == asked {
      assert rest[i] == polls[used + i];
    }
    RightPeerIff(asked, rest);
    assert AskedIsLast(asked, rest);
    assert forall u | 0 <= u <= |rest| :: LastName(asked, rest[..u]) == asked;
  }

  class Notifications<K> {
    var notifications: map<string, seq<K>>

    constructor ()
      ensures notifications == map[]
    {
      notifications := map[];
    }

    /** One round of the wait: the loop over what arrived rebinds the name it was asked for. */
    method TakePoll(p: Poll<K>, remote: string) returns (remote': string)
      modifies this
      ensures notifications == Polled(old(notifications), p) && remote' == NameAfter(remote, p)
    {
      hide Extend;
      remote' := remote;
      for j := 0 to |p|
        invariant notifications == Polled(old(notifications), p[..j]) && remote' == NameAfter(remote, p[..j])
      {
        assert p[..j + 1][..j] == p[..j];
        remote' := p[j].0;
        notifications := Extend(notifications, remote', p[j].1);
      }
      assert p[..|p|] == p;
    }

    /**
     `get_notification`, for any peers and any polls. It stops at the first poll after which the peer named
     last has a key, and hands out that peer's oldest key, whoever was asked for. `polls` are the results of
     the successive polls; when they run out the caller is still waiting.
    */
    method GetNotification(remoteName: string, polls: seq<Poll<K>>) returns (key: Option<K>, used: nat)
      modifies this
      ensures used <= |polls|
      ensures forall u | 0 <= u < used ::
        Queue(AllPolled(old(notifications), polls[..u]), LastName(remoteName, polls[..u])) == []
      ensures var who, all := LastName(remoteName, polls[..used]), AllPolled(old(notifications), polls[..used]);
        match key
        case Some(k) => TakenFrom(all, who, k, notifications)
        case None => used == |polls| && Queue(all, who) == [] && notifications == all
    {
      hide Queue, Extend, Polled, NameAfter;
      var remote := remoteName;
      used := 0;
      while Queue(notifications, remote) == []
        invariant used <= |polls| && remote == LastName(remoteName, polls[..used])
        invariant notifications == AllPolled(old(notifications), polls[..used])
        invariant forall u | 0 <= u < used ::
          Queue(AllPolled(old(notifications), polls[..u]), LastName(remoteName, polls[..u])) == []
        decreases |polls| - used
      {
        if used == |polls| {
          return None, used;
        }
        assert polls[..used + 1][..used] == polls[..used];
        remote := TakePoll(polls[used], remote);
        used := used + 1;
      }
      var queue := Queue(notifications, remote);
      key := Some(queue[0]);
      Popped(notifications, remote, queue);
      notifications := notifications[remote := queue[1..]];
    }

    /**
     Successive waits for the one peer that every poll lists last hand out its keys in order, each once, and
     leave those of the others: as many as were asked for, or all that there are when the polls run out.
    */
    method GetNotifications(asked: string, polls: seq<Poll<K>>, k: nat) returns (keys: seq<K>, used: nat)
      requires AskedIsLast(asked, polls)
      modifies this
      ensures used <= |polls|
      ensures keys <= Queue(old(notifications), asked) + KeysOf(polls, asked)
      ensures |keys| == Min(k, |Queue(old(notifications), asked) + KeysOf(polls, asked)|)
      ensures Queue(old(notifications), asked) + KeysOf(polls[..used], asked) == keys + Queue(notifications, asked)
      ensures forall other | other != asked ::
        Queue(notifications, other) == Queue(old(notifications), other) + KeysOf(polls[..used], other)
    {
      hide Queue, AllPolled, KeysOf, LastName, NameAfter, TakenSoFar, TakenFrom;
      keys, used := [], 0;
      NoKeyTaken(notifications, polls, asked);
      while |keys| < k
        invariant |keys| <= k && used <= |polls|
        invariant TakenSoFar(AllPolled(old(notifications), polls[..used]), asked, keys, notifications)
        decreases k - |keys|
      {
        ghost var was := notifications;
        AskedStays(asked, polls, used);
        var key, more := GetNotification(asked, polls[used..]);
        ghost var total, all :=
          AllPolled(old(notifications), polls[..used + more]), AllPolled(was, polls[used..][..more]);
        PolledAlike(old(notifications), was, polls, used, more);
        TakenOn(AllPolled(old(notifications), polls[..used]), total, asked, keys, was, all);
        used := used + more;
        if key.None? {
          KeysTakenMeans(old(notifications), polls, used, asked, keys, notifications, k);
          return;
        }
        TakenOneMore(total, asked, keys, all, key.value, notifications);
        keys := keys + [key.value];
      }
      KeysTakenMeans(old(notifications), polls, used, asked, keys, notifications, k);
    }
  }

  lemma NoKeyTaken<K>(queues: map<string, seq<K>>, polls: seq<Poll<K>>, name: string)
    ensures TakenSoFar(AllPolled(queues, polls[..0]), name, [], queues)
  {
  }

  lemma PolledAlike<K>(queues: map<string, seq<K>>, was: map<string, seq<K>>, polls: seq<Poll<K>>, used: nat, more: nat)
    requires used + more <= |polls|
    ensures AllGrownAlike(AllPolled(queues, polls[..used]), AllPolled(queues, polls[..used + more]),
                          was, AllPolled(was, polls[used..][..more]))
  {
    hide Queue, AllPolled, KeysOf;
    var seen, next := polls[..used], polls[used..][..more];
    assert polls[..used + more] == seen + next;
    forall x: string ensures GrownAlike(AllPolled(queues, seen), AllPolled(queues, seen + next), was,
                                        AllPolled(was, next), x) {
      QueuedInOrder(queues, seen, x);
      QueuedInOrder(queues, seen + next, x);
      QueuedInOrder(was, next, x);
      KeysConcat(seen, next, x);
    }
  }

  lemma KeysTakenMeans<K>(queues: map<string, seq<K>>, polls: seq<Poll<K>>, used: nat, name: string, keys: seq<K>,
                          now: map<string, seq<K>>, k: nat)
    requires used <= |polls| && TakenSoFar(AllPolled(queues, polls[..used]), name, keys, now)
    requires |keys| <= k && (|keys| == k || (used == |polls| && Queue(now, name) == []))
    ensures keys <= Queue(queues, name) + KeysOf(polls, name)
    ensures |keys| == Min(k, |Queue(queues, name) + KeysOf(polls, name)|)
    ensures Queue(queues, name) + KeysOf(polls[..used], name) == keys + Queue(now, name)
    ensures forall other | other != name :: Queue(now, other) == Queue(queues, other) + KeysOf(polls[..used], other)
  {
    hide Queue, AllPolled, KeysOf;
    forall x: string ensures Queue(AllPolled(queues, polls[..used]), x) == Queue(queues, x) + KeysOf(polls[..used], x) {
      QueuedInOrder(queues, polls[..used], x);
    }
    assert polls == polls[..used] + polls[used..];
    KeysConcat(polls[..used], polls[used..], name);
    PrefixTaken(Queue(queues, name), KeysOf(polls[..used], name), KeysOf(polls[used..], name), keys, Queue(now, name),
                k);
    if used == |polls| {
      NoKeysOf(polls[used..], name);
    }
  }

  /** In the chain every rank has one reader, so only that peer ever notifies it, and the wait is right. */
  lemma OneReaderIsRight<K>(asked: string, polls: seq<Poll<K>>)
    requires forall i | 0 <= i < |polls| :: OnlyFrom(polls[i], asked)
    ensures forall u | 0 <= u <= |polls| :: LastName(asked, polls[..u]) == asked
  {
    RightPeerIff(asked, polls);
    forall i | 0 <= i < |polls| && polls[i] != [] ensures NameAfter("", polls[i]) == asked {
      assert OnlyFrom(polls[i], asked) && polls[i][|polls[i]| - 1] in polls[i];
    }
  }

  function TwoPeers(): seq<Poll<nat>> {
    [[("rank1", [1]), ("rank2", [2])]]
  }

  lemma TwoPeersQueued()
    ensures Queue(AllPolled<nat>(map[], TwoPeers()[..0]), LastName("rank1", TwoPeers()[..0])) == []
    ensures Queue(AllPolled(map[], TwoPeers()[..1]), LastName("rank1", TwoPeers()[..1])) == [2]
  {
    hide Queue, Polled, AllPolled, KeysOf;
    var polls := TwoPeers();
    var p: Poll<nat> := polls[0];
    assert polls[..0] == [] && polls[..1] == polls && LastName("rank1", polls) == NameAfter("rank1", p) == "rank2";
    QueuedInOrder<nat>(map[], polls, "rank2");
    KeysStep(polls, 0, "rank2");
    NoKeysOf(polls[..0], "rank2");
    assert |p[..1][..0]| == 0 && p[..1][0] == ("rank1", [1]) && KeysIn(p[..1], "rank2") == [];
    NothingQueued<nat>("rank1");
    NothingQueued<nat>("rank2");
  }

  lemma NothingQueued<K>(name: string)
    ensures Queue<K>(map[], name) == [] && AllPolled<K>(map[], []) == map[]
  {
  }

  /** With two peers in one poll, of which the first was asked for, the other one's key comes back. */
  method AskedForTheOther() returns (key: Option<nat>)
    ensures key == Some(2)
  {
    hide Queue, AllPolled, LastName, TakenFrom;
    var notifications := new Notifications<nat>();
    var used;
    key, used := notifications.GetNotification("rank1", TwoPeers());
    TwoPeersQueued();
    ghost var all := AllPolled(map[], TwoPeers()[..used]);
    if key.Some? {
      TakenFirst(all, LastName("rank1", TwoPeers()[..used]), key.value, notifications.notifications);
    }
  }
}
