/**
 The asynchronous activation offload handler (verl/verl/utils/activation_offload.py): saved tensors are
 pushed group by group in the forward pass, moved to the CPU in bulk one window later, brought back in
 bulk one window ahead of their use in the backward pass, and popped.
*/
module ActivationOffload {
  import opened Arithmetic
  import opened Weights

  /** A saved tensor: the storage key that identifies equal tensors, its shape, and its elements. */
  datatype Key = Key(address: int, dtype: string)
  datatype Saved = Saved(key: Key, shape: seq<nat>, data: seq<int>)

  datatype Tag = Tag(group: nat, index: nat)

  /** What autograd keeps for a saved tensor: its tag, or the tensor itself when it is not to be offloaded. */
  datatype Kept = Tagged(tag: Tag) | Itself(tensor: Saved)

  /** An entry of `tensor_tag_to_state`: the tensor itself, or the key of its CPU copy and its shape. */
  datatype Entry = OnDevice(tensor: Saved) | Offloaded(key: Key, shape: seq<nat>)

  /** The handler's fields. A Python dict is a map together with its insertion order, where that matters. */
  datatype Handler = Handler(
    numOffload: nat, numLayers: nat, window: map<int, int>,
    currentGroup: nat, tensorCount: nat, offloadedCount: nat,
    order: seq<Tag>, state: map<Tag, Entry>, buf: map<Tag, Option<Saved>>,
    mapping: map<nat, map<Key, Saved>>)

  // ---------- the window map ----------

  /** The forward commit at which group i's device memory is released. */
  function Window(n: nat, num: nat, i: nat): int
    requires num > 0
  {
    (n / num) * (i + 1) - 1 + Min(i + 1, n % num)
  }

  function WindowMap(n: nat, num: nat): map<int, int> {
    map i: int | 0 <= i < num :: Window(n, num, i)
  }

  lemma WindowIs(n: nat, num: nat, i: nat)
    requires i < num
    ensures Window(n, num, i) == (n / num) * (i + 1) - 1 + Min(i + 1, n % num)
  {
  }

  /** The constructor's loop, with its running `constant`. */
  method BuildWindowMap(n: nat, num: nat) returns (window: map<int, int>)
    ensures window == WindowMap(n, num)
  {
    hide Window;
    window := map[];
    var constant := 0;
    for i := 0 to num
      invariant forall j: int :: j in window <==> 0 <= j < i
      invariant forall j: nat | j < i :: window[j] == Window(n, num, j)
      invariant num > 0 ==> constant == Min(i, n % num)
    {
      WindowIs(n, num, i);
      window := window[i := (n / num) * (i + 1) - 1];
      if i < n % num {
        window := window[i := window[i] + i + 1];
        constant := i + 1;
      } else {
        window := window[i := window[i] + constant];
      }
    }
  }

  /** Releases are spread evenly over the forward pass: strictly in order, in gaps that differ by at most one. */
  lemma WindowStep(n: nat, num: nat, i: nat)
    requires 1 <= num <= n && i < num
    ensures i <= Window(n, num, i) < n
    ensures num < n ==> i + 1 <= Window(n, num, i)
    ensures i == num - 1 ==> Window(n, num, i) == n - 1
    ensures i + 1 < num ==> Window(n, num, i + 1) - Window(n, num, i) == n / num + if i + 1 < n % num then 1 else 0
    ensures Window(n, num, 0) == n / num - 1 + Min(1, n % num)
  {
    var q, r := n / num, n % num;
    QuotientOf(n, num);
    EvenSteps(q, r, num, i);
  }

  lemma QuotientOf(n: nat, num: nat)
    requires 1 <= num <= n
    ensures n == n / num * num + n % num && n / num >= 1
    ensures num < n && n / num == 1 ==> n % num >= 1
  {
  }

  lemma EvenSteps(q: nat, r: nat, num: nat, i: nat)
    requires q >= 1 && r < num && i < num
    ensures i + 1 <= q * (i + 1) <= q * num
    ensures q >= 2 ==> 2 * (i + 1) <= q * (i + 1)
    ensures q * (i + 2) == q * (i + 1) + q
    ensures i == num - 1 ==> q * (i + 1) == q * num
  {
    MulMono(0, q - 1, i + 1);
    MulMono(0, q, num - (i + 1));
    assert q * (i + 1) == (q - 1) * (i + 1) + (i + 1);
    assert q * num == q * (i + 1) + q * (num - (i + 1));
    if q >= 2 {
      MulMono(0, q - 2, i + 1);
      assert q * (i + 1) == (q - 2) * (i + 1) + 2 * (i + 1);
    }
  }

  lemma {:induction false} WindowIncreasing(n: nat, num: nat, i: nat, j: nat)
    requires 1 <= num <= n && i < j < num
    ensures Window(n, num, i) < Window(n, num, j)
    decreases j - i
  {
    WindowStep(n, num, i);
    assert n / num >= 1;
    if i + 1 < j {
      WindowIncreasing(n, num, i + 1, j);
    }
  }

  /** With one group fewer than layers, as `enable_activation_offloading` sets it up, the window is one commit. */
  lemma WindowOneBehind(n: nat, i: nat)
    requires n >= 2 && i < n - 1
    ensures Window(n, n - 1, i) == i + 1
  {
    if n == 2 {
      assert n / (n - 1) == 2 && n % (n - 1) == 0;
    } else {
      assert n / (n - 1) == 1 && n % (n - 1) == 1;
    }
  }

  // ---------- what each operation does ----------

  function Fresh(n: nat, num: nat): Handler {
    Handler(num, n, WindowMap(n, num), 0, 0, 0, [], map[], map[], map[])
  }

  function NextTag(h: Handler): Tag {
    Tag(h.currentGroup, h.tensorCount)
  }

  /** `tensor_push`; None when its assertion fails. */
  function Push(h: Handler, t: Saved): Option<Handler> {
    var tag := NextTag(h);
    if tag in h.state then None
    else Some(h.(
      tensorCount := h.tensorCount + 1, order := h.order + [tag], state := h.state[tag := OnDevice(t)],
      buf := if h.currentGroup < h.numOffload then h.buf[tag := Some(t)] else h.buf))
  }

  function Remove(order: seq<Tag>, tag: Tag): seq<Tag> {
    if order == [] then []
    else if order[0] == tag then order[1..]
    else [order[0]] + Remove(order[1..], tag)
  }

  /** `tensor_pop`; None when the tag is unknown or its tensor is still on the CPU. */
  function Pop(h: Handler, tag: Tag): Option<(Handler, Saved)> {
    if tag !in h.state || h.state[tag].Offloaded? then None
    else Some((h.(order := Remove(h.order, tag), state := h.state - {tag}, buf := h.buf - {tag}), h.state[tag].tensor))
  }

  /** The tensor that is copied for each key: the first of the group in insertion order. */
  function FirstByKey(order: seq<Tag>, state: map<Tag, Entry>, g: nat): map<Key, Saved> {
    if order == [] then map[]
    else
      var n := |order| - 1;
      var m := FirstByKey(order[..n], state, g);
      var tag := order[n];
      if tag.group == g && tag in state && state[tag].OnDevice? && state[tag].tensor.key !in m
      then m[state[tag].tensor.key := state[tag].tensor] else m
  }

  predicate OnDeviceGroup(h: Handler, g: nat) {
    forall tag <- h.state :: tag.group == g ==> h.state[tag].OnDevice?
  }

  function ToOffloaded(e: Entry): Entry {
    if e.OnDevice? then Offloaded(e.tensor.key, e.tensor.shape) else e
  }

  /** `bulk_offload_group`. */
  function BulkOffload(h: Handler, g: nat): Option<Handler> {
    if !OnDeviceGroup(h, g) then None
    else Some(h.(
      state := map tag | tag in h.state :: if tag.group == g then ToOffloaded(h.state[tag]) else h.state[tag],
      mapping := h.mapping[g := FirstByKey(h.order, h.state, g)]))
  }

  /** Every tensor of the group can be rebuilt: its key was copied and the copy has as many elements. */
  predicate Reloadable(h: Handler, g: nat, copies: map<Key, Saved>) {
    forall tag <- h.state :: tag.group == g && h.state[tag].Offloaded? ==> Rebuilds(h.state[tag], copies)
  }

  predicate Rebuilds(e: Entry, copies: map<Key, Saved>)
    requires e.Offloaded?
  {
    e.key in copies && Numel(e.shape) == |copies[e.key].data|
  }

  function Restore(e: Entry, copies: map<Key, Saved>): Entry {
    if e.Offloaded? && e.key in copies then OnDevice(Saved(e.key, e.shape, copies[e.key].data)) else e
  }

  /** `bulk_reload_group`. */
  function BulkReload(h: Handler, g: int): Option<Handler> {
    if !(0 <= g < h.numOffload) || g !in h.mapping || !Reloadable(h, g, h.mapping[g]) then None
    else Some(h.(
      state := map tag | tag in h.state :: if tag.group == g then Restore(h.state[tag], h.mapping[g]) else h.state[tag],
      mapping := h.mapping - {g}))
  }

  function ReleaseBuffers(h: Handler, g: nat): Handler {
    h.(buf := map tag | tag in h.buf :: if tag.group == g then None else h.buf[tag])
  }

  /** The first forward commit starts the offloading of group 0. */
  function StartForward(h: Handler): Option<Handler> {
    if h.currentGroup == 0 then BulkOffload(h, 0) else Some(h)
  }

  /** A commit that closes the window of the next group releases it and starts offloading its successor. */
  function CloseWindow(h: Handler): Option<Handler> {
    if h.offloadedCount !in h.window then None
    else if h.window[h.offloadedCount] != h.currentGroup then Some(h)
    else
      var released := ReleaseBuffers(h, h.offloadedCount);
      var next :=
        if h.offloadedCount < h.numOffload - 1 then BulkOffload(released, h.offloadedCount + 1) else Some(released);
      if next.None? then None else Some(next.value.(offloadedCount := h.offloadedCount + 1))
  }

  /** `synchronize_on_group_commit_forward`. */
  function SyncForward(h: Handler): Option<Handler> {
    var start := StartForward(h);
    if start.None? then None else CloseWindow(start.value)
  }

  /** `on_group_commit_forward`. */
  function CommitForward(h: Handler): Option<Handler> {
    var synced := SyncForward(h);
    if synced.None? then None
    else Some(synced.value.(currentGroup := h.currentGroup + 1, tensorCount := 0))
  }

  /** A backward commit that opens the window of the last offloaded group brings that group back. */
  function OpenWindow(h: Handler): Option<Handler> {
    if h.offloadedCount - 1 !in h.window then None
    else if h.window[h.offloadedCount - 1] != h.currentGroup then Some(h)
    else
      var reloaded := BulkReload(h, h.offloadedCount - 1);
      if reloaded.None? then None
      else Some(reloaded.value.(offloadedCount := h.offloadedCount - if h.offloadedCount > 1 then 1 else 0))
  }

  /** `on_group_commit_backward`. */
  function CommitBackward(h: Handler): Option<Handler> {
    if h.currentGroup == 0 then None
    else
      var reopened := OpenWindow(h.(currentGroup := h.currentGroup - 1));
      if reopened.None? then None
      else Some(if h.currentGroup == 1 then reopened.value.(offloadedCount := 0) else reopened.value)
  }

  // ---------- the handler as an object ----------

  ghost predicate Distinct(order: seq<Tag>) {
    forall i, j | 0 <= i < j < |order| :: order[i] != order[j]
  }

  ghost predicate OrderOk(h: Handler) {
    && (forall tag <- h.order :: tag in h.state)
    && (forall tag <- h.state :: tag in h.order)
    && Distinct(h.order)
  }

  /** `AsyncDoubleBufferGroupOffloadHandler`. An operation reports false where the original raises. */
  class AsyncDoubleBufferHandler {
    const numOffloadGroup: nat
    const numLayers: nat
    var layerWindowMap: map<int, int>
    var currentGroup: nat
    var tensorCountCurrentGroup: nat
    var offloadedGroupCount: nat
    var tagOrder: seq<Tag>
    var tensorTagToState: map<Tag, Entry>
    var tensorTagToBuf: map<Tag, Option<Saved>>
    var groupOffloadMapping: map<nat, map<Key, Saved>>

    ghost function Abs(): Handler
      reads this
    {
      Handler(numOffloadGroup, numLayers, layerWindowMap, currentGroup, tensorCountCurrentGroup, offloadedGroupCount,
              tagOrder, tensorTagToState, tensorTagToBuf, groupOffloadMapping)
    }

    /** The insertion order lists the dictionary's keys. */
    ghost predicate Valid()
      reads this
    {
      OrderOk(Abs())
    }

    constructor (numOffloadGroup: nat, numModelGroup: nat)
      ensures Valid() && Abs() == Fresh(numModelGroup, numOffloadGroup)
    {
      this.numOffloadGroup, numLayers := numOffloadGroup, numModelGroup;
      currentGroup, tensorCountCurrentGroup, offloadedGroupCount := 0, 0, 0;
      tagOrder, tensorTagToState, tensorTagToBuf, groupOffloadMapping := [], map[], map[], map[];
      var window := BuildWindowMap(numModelGroup, numOffloadGroup);
      layerWindowMap := window;
    }

    /** `needOffload` is the outcome of the checks for stray tensors and by the user's function. */
    method TensorPush(t: Saved, needOffload: bool) returns (ok: bool, kept: Kept)
      requires Valid()
      modifies this
      ensures !needOffload ==> ok && Valid() && kept == Itself(t) && Abs() == old(Abs())
      ensures needOffload ==> (ok <==> Push(old(Abs()), t).Some?)
      ensures needOffload && ok ==>
        Valid() && kept == Tagged(NextTag(old(Abs()))) && Abs() == Push(old(Abs()), t).value
      ensures needOffload && ok ==>
        var tag := Tag(old(currentGroup), old(tensorCountCurrentGroup));
        && kept == Tagged(tag) && tag !in old(tensorTagToState)
        && tensorTagToState == old(tensorTagToState)[tag := OnDevice(t)]
        && tensorTagToBuf ==
           if currentGroup < numOffloadGroup then old(tensorTagToBuf)[tag := Some(t)] else old(tensorTagToBuf)
    {
      if !needOffload {
        return true, Itself(t);
      }
      var tag := Tag(currentGroup, tensorCountCurrentGroup);
      tensorCountCurrentGroup := tensorCountCurrentGroup + 1;
      ok, kept := tag !in tensorTagToState, Tagged(tag);
      if ok {
        tagOrder, tensorTagToState := tagOrder + [tag], tensorTagToState[tag := OnDevice(t)];
        if currentGroup < numOffloadGroup {
          tensorTagToBuf := tensorTagToBuf[tag := Some(t)];
        }
        PushOrder(old(Abs()), t, Abs());
      }
    }

    method TensorPop(kept: Kept) returns (t: Option<Saved>)
      requires Valid()
      modifies this
      ensures kept.Itself? ==> t == Some(kept.tensor) && Valid() && Abs() == old(Abs())
      ensures kept.Tagged? ==> (t.Some? <==> Pop(old(Abs()), kept.tag).Some?)
      ensures kept.Tagged? && t.Some? ==> Valid() && (Abs(), t.value) == Pop(old(Abs()), kept.tag).value
      ensures kept.Tagged? ==>
        (t.Some? <==> kept.tag in old(tensorTagToState) && old(tensorTagToState)[kept.tag].OnDevice?)
      ensures kept.Tagged? && t.Some? ==>
        && old(tensorTagToState)[kept.tag] == OnDevice(t.value)
        && tensorTagToState == old(tensorTagToState) - {kept.tag} && tensorTagToBuf == old(tensorTagToBuf) - {kept.tag}
    {
      if kept.Itself? {
        return Some(kept.tensor);
      }
      var tag := kept.tag;
      if tag !in tensorTagToState {
        return None;
      }
      var entry := tensorTagToState[tag];
      RemoveProps(tagOrder, tag);
      tensorTagToState, tagOrder := tensorTagToState - {tag}, Remove(tagOrder, tag);
      tensorTagToBuf := tensorTagToBuf - {tag};
      t := if entry.OnDevice? then Some(entry.tensor) else None;
    }

    method BulkOffloadGroup(group: nat) returns (ok: bool)
      requires Valid()
      modifies this
      ensures ok <==> BulkOffload(old(Abs()), group).Some?
      ensures ok ==> Valid() && Abs() == BulkOffload(old(Abs()), group).value
    {
      hide OffloadedUpTo, FirstByKey, OrderOk, OnDeviceGroup, ToOffloaded;
      ghost var h := Abs();
      var copies: map<Key, Saved> := map[];
      OffloadLoopBegins(h, group);
      for i := 0 to |tagOrder|
        invariant Abs() == h.(state := tensorTagToState)
        invariant copies == FirstByKey(h.order[..i], h.state, group)
        invariant OffloadedUpTo(h, tensorTagToState, group, i)
      {
        var tag := tagOrder[i];
        OffloadLoopStep(h, tensorTagToState, group, i);
        if tag.group == group {
          if tensorTagToState[tag].Offloaded? {
            return false;
          }
          var t := tensorTagToState[tag].tensor;
          if t.key !in copies {
            copies := copies[t.key := t];
          }
          tensorTagToState := tensorTagToState[tag := Offloaded(t.key, t.shape)];
        }
      }
      assert h.order[..|h.order|] == h.order;
      groupOffloadMapping := groupOffloadMapping[group := copies];
      ok := true;
      OffloadLoopDone(h, tensorTagToState, group);
    }

    method BulkReloadGroup(group: int) returns (ok: bool)
      requires Valid()
      modifies this
      ensures ok <==> BulkReload(old(Abs()), group).Some?
      ensures ok ==> Valid() && Abs() == BulkReload(old(Abs()), group).value
    {
      if group >= numOffloadGroup || group !in groupOffloadMapping {
        return false;
      }
      hide Numel, RestoredUpTo, OrderOk, Reloadable, Restore;
      ghost var h := Abs();
      var copies := groupOffloadMapping[group];
      groupOffloadMapping := groupOffloadMapping - {group};
      RestoreLoopBegins(h, group, copies);
      for i := 0 to |tagOrder|
        invariant Abs() == h.(state := tensorTagToState, mapping := h.mapping - {group})
        invariant RestoredUpTo(h, tensorTagToState, group, copies, i)
      {
        var tag := tagOrder[i];
        RestoreLoopStep(h, tensorTagToState, group, copies, i);
        if tag.group == group && tensorTagToState[tag].Offloaded? {
          var entry := tensorTagToState[tag];
          if entry.key !in copies || Numel(entry.shape) != |copies[entry.key].data| {
            return false;
          }
          tensorTagToState := tensorTagToState[tag := OnDevice(Saved(entry.key, entry.shape, copies[entry.key].data))];
        }
      }
      ok := true;
      RestoreLoopDone(h, tensorTagToState, group, copies);
    }

    /** The loop that sets the buffers of a group to None. */
    method ReleaseGroupBuffers(group: nat)
      requires Valid()
      modifies this`tensorTagToBuf
      ensures Valid() && Abs() == ReleaseBuffers(old(Abs()), group)
    {
      var todo := tensorTagToBuf.Keys;
      while todo != {}
        invariant tensorTagToBuf.Keys == old(tensorTagToBuf).Keys && todo <= tensorTagToBuf.Keys
        invariant forall tag <- tensorTagToBuf ::
          tensorTagToBuf[tag] == if tag.group == group && tag !in todo then None else old(tensorTagToBuf)[tag]
      {
        var tag :| tag in todo;
        if tag.group == group {
          tensorTagToBuf := tensorTagToBuf[tag := None];
        }
        todo := todo - {tag};
      }
    }

    method SynchronizeOnGroupCommitForward() returns (ok: bool)
      requires Valid()
      modifies this
      ensures ok <==> SyncForward(old(Abs())).Some?
      ensures ok ==> Valid() && Abs() == SyncForward(old(Abs())).value
    {
      hide BulkOffload, OrderOk;
      if currentGroup == 0 {
        ok := BulkOffloadGroup(currentGroup);
        if !ok {
          return false;
        }
      }
      ghost var h := Abs();
      assert StartForward(old(Abs())) == Some(h);
      if offloadedGroupCount !in layerWindowMap {
        return false;
      }
      if layerWindowMap[offloadedGroupCount] == currentGroup {
        ReleaseGroupBuffers(offloadedGroupCount);
        if offloadedGroupCount < numOffloadGroup - 1 {
          OffloadKeepsCount(Abs(), offloadedGroupCount + 1);
          ok := BulkOffloadGroup(offloadedGroupCount + 1);
          if !ok {
            return false;
          }
        }
        SameOrder(Abs(), Abs().(offloadedCount := offloadedGroupCount + 1));
        offloadedGroupCount := offloadedGroupCount + 1;
      }
      ok := true;
    }

    method OnGroupCommitForward() returns (ok: bool)
      requires Valid()
      modifies this
      ensures ok <==> CommitForward(old(Abs())).Some?
      ensures ok ==> Valid() && Abs() == CommitForward(old(Abs())).value
    {
      hide SyncForward, OrderOk;
      ok := SynchronizeOnGroupCommitForward();
      if ok {
        SyncKeepsGroup(old(Abs()));
        SameOrder(Abs(), Abs().(currentGroup := currentGroup + 1, tensorCount := 0));
        currentGroup, tensorCountCurrentGroup := currentGroup + 1, 0;
      }
    }

    method OnGroupCommitBackward() returns (ok: bool)
      requires Valid()
      modifies this
      ensures ok <==> CommitBackward(old(Abs())).Some?
      ensures ok ==> Valid() && Abs() == CommitBackward(old(Abs())).value
    {
      hide BulkReload, OrderOk;
      if currentGroup == 0 {
        return false;
      }
      SameOrder(Abs(), Abs().(currentGroup := currentGroup - 1));
      currentGroup := currentGroup - 1;
      ghost var h := Abs();
      if offloadedGroupCount - 1 !in layerWindowMap {
        return false;
      }
      if layerWindowMap[offloadedGroupCount - 1] == currentGroup {
        ReloadKeepsCount(h, offloadedGroupCount - 1);
        ok := BulkReloadGroup(offloadedGroupCount - 1);
        if !ok {
          return false;
        }
        SameOrder(Abs(), Abs().(offloadedCount := offloadedGroupCount - if offloadedGroupCount > 1 then 1 else 0));
        offloadedGroupCount := offloadedGroupCount - if offloadedGroupCount > 1 then 1 else 0;
      }
      assert OpenWindow(h) == Some(Abs());
      if currentGroup == 0 {
        SameOrder(Abs(), Abs().(offloadedCount := 0));
        offloadedGroupCount := 0;
      }
      ok := true;
    }
  }

  lemma SameOrder(h: Handler, h': Handler)
    requires OrderOk(h) && h'.order == h.order && h'.state == h.state
    ensures OrderOk(h')
  {
  }

  lemma ReloadKeepsCount(h: Handler, g: int)
    ensures BulkReload(h, g).Some? ==>
      BulkReload(h, g).value.offloadedCount == h.offloadedCount && BulkReload(h, g).value.currentGroup == h.currentGroup
  {
  }

  lemma OffloadKeepsCount(h: Handler, g: nat)
    ensures BulkOffload(h, g).Some? ==> BulkOffload(h, g).value.offloadedCount == h.offloadedCount
  {
  }

  lemma SyncKeepsGroup(h: Handler)
    requires SyncForward(h).Some?
    ensures SyncForward(h).value.currentGroup == h.currentGroup
  {
  }

  /** The entries whose tags are among the first i have been replaced, the others not yet. */
  ghost predicate OffloadedUpTo(h: Handler, state: map<Tag, Entry>, g: nat, i: nat)
    requires i <= |h.order|
  {
    && state.Keys == h.state.Keys
    && (forall k | 0 <= k < |h.order| && h.order[k] in state ::
          OffloadedAt(h.state[h.order[k]], state[h.order[k]], h.order[k].group == g, k < i))
  }

  ghost predicate OffloadedAt(before: Entry, now: Entry, inGroup: bool, done: bool) {
    && (done && inGroup ==> before.OnDevice?)
    && now == if done && inGroup then ToOffloaded(before) else before
  }

  lemma OffloadLoopBegins(h: Handler, g: nat)
    ensures OffloadedUpTo(h, h.state, g, 0) && FirstByKey(h.order[..0], h.state, g) == map[]
  {
    assert h.order[..0] == [];
  }

  lemma OffloadLoopStep(h: Handler, state: map<Tag, Entry>, g: nat, i: nat)
    requires OrderOk(h) && i < |h.order| && OffloadedUpTo(h, state, g, i)
    ensures h.order[i] in state
    ensures h.order[i].group != g ==> OffloadedUpTo(h, state, g, i + 1)
    ensures h.order[i].group == g && state[h.order[i]].Offloaded? ==> !OnDeviceGroup(h, g)
    ensures h.order[i].group == g && state[h.order[i]].OnDevice? ==>
      var t := state[h.order[i]].tensor; OffloadedUpTo(h, state[h.order[i] := Offloaded(t.key, t.shape)], g, i + 1)
    ensures FirstByKey(h.order[..i + 1], h.state, g) ==
      var copies := FirstByKey(h.order[..i], h.state, g);
      if h.order[i].group == g && state[h.order[i]].OnDevice? && state[h.order[i]].tensor.key !in copies
      then copies[state[h.order[i]].tensor.key := state[h.order[i]].tensor] else copies
  {
    var tag := h.order[i];
    assert OffloadedAt(h.state[tag], state[tag], tag.group == g, false);
    assert h.order[..i + 1][..i] == h.order[..i];
    if tag.group == g && state[tag].OnDevice? {
      var state' := state[tag := Offloaded(state[tag].tensor.key, state[tag].tensor.shape)];
      forall k | 0 <= k < |h.order| && h.order[k] in state'
        ensures OffloadedAt(h.state[h.order[k]], state'[h.order[k]], h.order[k].group == g, k < i + 1)
      {
        assert OffloadedAt(h.state[h.order[k]], state[h.order[k]], h.order[k].group == g, k < i);
        assert k != i ==> h.order[k] != tag;
      }
    }
  }

  lemma OffloadLoopDone(h: Handler, state: map<Tag, Entry>, g: nat)
    requires OrderOk(h) && OffloadedUpTo(h, state, g, |h.order|)
    ensures OnDeviceGroup(h, g) && BulkOffload(h, g).value.state == state
    ensures OrderOk(BulkOffload(h, g).value)
  {
  }

  ghost predicate RestoredUpTo(h: Handler, state: map<Tag, Entry>, g: nat, copies: map<Key, Saved>, i: nat)
    requires i <= |h.order|
  {
    && state.Keys == h.state.Keys
    && (forall k | 0 <= k < |h.order| && h.order[k] in state ::
          RestoredAt(h.state[h.order[k]], state[h.order[k]], h.order[k].group == g, copies, k < i))
  }

  ghost predicate RestoredAt(before: Entry, now: Entry, inGroup: bool, copies: map<Key, Saved>, done: bool) {
    && (done && inGroup && before.Offloaded? ==> Rebuilds(before, copies))
    && now == if done && inGroup then Restore(before, copies) else before
  }

  lemma RestoreLoopBegins(h: Handler, g: nat, copies: map<Key, Saved>)
    ensures RestoredUpTo(h, h.state, g, copies, 0)
  {
    hide Restore;
  }

  lemma RestoreLoopStep(h: Handler, state: map<Tag, Entry>, g: nat, copies: map<Key, Saved>, i: nat)
    requires OrderOk(h) && i < |h.order| && RestoredUpTo(h, state, g, copies, i)
    ensures h.order[i] in state
    ensures h.order[i].group != g || state[h.order[i]].OnDevice? ==> RestoredUpTo(h, state, g, copies, i + 1)
    ensures h.order[i].group == g && state[h.order[i]].Offloaded? ==>
      var e := state[h.order[i]];
      if Rebuilds(e, copies)
      then RestoredUpTo(h, state[h.order[i] := OnDevice(Saved(e.key, e.shape, copies[e.key].data))], g, copies, i + 1)
      else !Reloadable(h, g, copies)
  {
    hide Rebuilds;
    var tag := h.order[i];
    assert RestoredAt(h.state[tag], state[tag], tag.group == g, copies, false);
    if tag.group == g && state[tag].Offloaded? && Rebuilds(state[tag], copies) {
      RestoreOne(state[tag], copies);
      var state' := state[tag := Restore(state[tag], copies)];
      forall k | 0 <= k < |h.order| && h.order[k] in state'
        ensures RestoredAt(h.state[h.order[k]], state'[h.order[k]], h.order[k].group == g, copies, k < i + 1)
      {
        assert RestoredAt(h.state[h.order[k]], state[h.order[k]], h.order[k].group == g, copies, k < i);
        assert k != i ==> h.order[k] != tag;
      }
    }
  }

  lemma RestoreOne(e: Entry, copies: map<Key, Saved>)
    requires e.Offloaded? && Rebuilds(e, copies)
    ensures e.key in copies && Restore(e, copies) == OnDevice(Saved(e.key, e.shape, copies[e.key].data))
  {
    hide Numel;
  }

  lemma RestoreLoopDone(h: Handler, state: map<Tag, Entry>, g: nat, copies: map<Key, Saved>)
    requires OrderOk(h) && RestoredUpTo(h, state, g, copies, |h.order|)
    requires g in h.mapping && h.mapping[g] == copies && g < h.numOffload
    ensures BulkReload(h, g).Some? && BulkReload(h, g).value.state == state
    ensures OrderOk(BulkReload(h, g).value)
  {
    hide Rebuilds, Restore;
    forall tag <- h.state
      ensures RestoredAt(h.state[tag], state[tag], tag.group == g, copies, true)
    {
      var k :| 0 <= k < |h.order| && h.order[k] == tag;
    }
  }

  // ---------- a training step ----------

  /**
   The handler together with what the autograd engine knows: the tensors pushed and not yet popped, and
   whether the backward pass has begun.
  */
  datatype Pass = Pass(h: Handler, live: map<Tag, Saved>, backward: bool)

  datatype Op = PushTensor(t: Saved) | PopTensor(tag: Tag) | ForwardCommit | BackwardCommit

  /** Equal storage keys within a group mean equal contents. */
  ghost predicate KeysAgree(live: map<Tag, Saved>) {
    forall a <- live, b <- live | a.group == b.group && live[a].key == live[b].key :: live[a].data == live[b].data
  }

  ghost predicate ValidSaved(t: Saved) {
    Numel(t.shape) == |t.data|
  }

  /**
   A forward pass commits each of the n groups after its pushes; the backward pass commits them in
   reverse, and pops tensors of groups that have been committed backward.
  */
  ghost predicate Legal(p: Pass, op: Op) {
    match op
    case PushTensor(t) =>
      && !p.backward && p.h.currentGroup < p.h.numLayers
      && ValidSaved(t) && KeysAgree(p.live[NextTag(p.h) := t])
    case ForwardCommit => !p.backward && p.h.currentGroup < p.h.numLayers
    case BackwardCommit => p.h.currentGroup > 0 && (!p.backward ==> p.h.currentGroup == p.h.numLayers)
    case PopTensor(tag) => p.backward && tag in p.live && tag.group >= p.h.currentGroup
  }

  /** The handler's part of an operation; None means that an assertion or a lookup failed. */
  ghost function Run(p: Pass, op: Op): Option<Pass> {
    match op
    case PushTensor(t) =>
      var r := Push(p.h, t);
      if r.None? then None else Some(Pass(r.value, p.live[NextTag(p.h) := t], p.backward))
    case PopTensor(tag) =>
      var r := Pop(p.h, tag);
      if r.None? then None else Some(Pass(r.value.0, p.live - {tag}, p.backward))
    case ForwardCommit =>
      var r := CommitForward(p.h);
      if r.None? then None else Some(Pass(r.value, p.live, p.backward))
    case BackwardCommit =>
      var r := CommitBackward(p.h);
      if r.None? then None else Some(Pass(r.value, p.live, true))
  }

  // ---------- the invariant ----------

  /** m groups have a window that closed before forward commit c. */
  ghost predicate Released(n: nat, num: nat, m: nat, c: nat)
    requires num > 0
  {
    m <= num && (m > 0 ==> Window(n, num, m - 1) < c) && (m < num ==> c <= Window(n, num, m))
  }

  ghost predicate Configured(h: Handler) {
    1 <= h.numOffload <= h.numLayers && h.window == WindowMap(h.numLayers, h.numOffload)
  }

  /** What is saved for a tag has the shape and the contents that were pushed. */
  ghost predicate EntryOk(h: Handler, live: map<Tag, Saved>, tag: Tag)
    requires tag in h.state && tag in live
  {
    var t := live[tag];
    ValidSaved(t) &&
    match h.state[tag]
    case OnDevice(u) => u.key == t.key && u.shape == t.shape && u.data == t.data
    case Offloaded(key, shape) =>
      && key == t.key && shape == t.shape
      && tag.group in h.mapping && key in h.mapping[tag.group] && h.mapping[tag.group][key].data == t.data
  }

  ghost predicate EntriesOk(h: Handler, live: map<Tag, Saved>) {
    && h.state.Keys == live.Keys
    && forall tag <- h.state :: EntryOk(h, live, tag)
  }

  ghost predicate BufferOk(h: Handler) {
    forall tag <- h.buf :: tag in h.state && tag.group < h.numOffload
  }

  ghost predicate ForwardOk(h: Handler) {
    && Configured(h) && h.currentGroup <= h.numLayers
    && Released(h.numLayers, h.numOffload, h.offloadedCount, h.currentGroup)
    && (forall g: nat :: g in h.mapping <==> h.currentGroup > 0 && g <= h.offloadedCount && g < h.numOffload)
    && (forall tag <- h.state ::
          tag.group < h.currentGroup || (tag.group == h.currentGroup && tag.index < h.tensorCount))
    && (h.currentGroup == h.numLayers ==> h.tensorCount == 0)
    && (forall tag <- h.buf :: h.buf[tag].Some? ==> h.offloadedCount <= tag.group)
  }

  /** In the backward pass: how many groups are still on the CPU. */
  ghost function Remaining(h: Handler): nat {
    if 0 in h.mapping then h.offloadedCount else 0
  }

  ghost predicate BackwardOk(h: Handler) {
    && Configured(h) && h.currentGroup < h.numLayers && h.tensorCount == 0
    && Released(h.numLayers, h.numOffload, Remaining(h), h.currentGroup)
    && h.offloadedCount == (if h.currentGroup == 0 then 0 else if Remaining(h) > 1 then Remaining(h) else 1)
    && MappedBelow(h, Remaining(h))
    && (forall tag <- h.buf :: h.buf[tag].None?)
  }

  ghost predicate MappedBelow(h: Handler, m: nat) {
    forall g: nat :: g in h.mapping <==> g < m
  }

  ghost predicate Inv(p: Pass) {
    && EntriesOk(p.h, p.live) && OrderOk(p.h) && BufferOk(p.h) && KeysAgree(p.live)
    && if p.backward then BackwardOk(p.h) else ForwardOk(p.h)
  }

  lemma FreshInv(n: nat, num: nat)
    requires 1 <= num <= n
    ensures Inv(Pass(Fresh(n, num), map[], false))
  {
    WindowStep(n, num, 0);
  }

  // ---------- each operation keeps it and cannot fail ----------

  lemma OrderAppend(order: seq<Tag>, tag: Tag)
    requires tag !in order && Distinct(order)
    ensures Distinct(order + [tag])
  {
  }

  lemma CountBehind(n: nat, num: nat, m: nat, c: nat)
    requires 1 <= num <= n && Released(n, num, m, c)
    ensures m <= c
  {
    if m > 0 {
      WindowStep(n, num, m - 1);
    }
  }

  lemma PushOk(p: Pass, t: Saved)
    requires Inv(p) && Legal(p, PushTensor(t))
    ensures Run(p, PushTensor(t)).Some? && Inv(Run(p, PushTensor(t)).value)
  {
    hide Window, WindowMap, Numel, Released, EntriesOk, OrderOk, KeysAgree;
    NextTagFree(p.h);
    var h' := Push(p.h, t).value;
    PushEntries(p, t, h');
    PushOrder(p.h, t, h');
    PushRest(p.h, t, h');
    hide BufferOk, ForwardOk;
  }

  lemma NextTagFree(h: Handler)
    requires ForwardOk(h)
    ensures NextTag(h) !in h.state
  {
    hide Window, WindowMap, Released;
  }

  lemma PushRest(h: Handler, t: Saved, h': Handler)
    requires BufferOk(h) && ForwardOk(h) && h.currentGroup < h.numLayers && Push(h, t) == Some(h')
    ensures BufferOk(h') && ForwardOk(h')
  {
    CountBehind(h.numLayers, h.numOffload, h.offloadedCount, h.currentGroup);
    hide Window, WindowMap, Released;
  }

  lemma PushOrder(h: Handler, t: Saved, h': Handler)
    requires OrderOk(h) && Push(h, t) == Some(h')
    ensures OrderOk(h')
  {
    OrderAppend(h.order, NextTag(h));
  }

  lemma PushEntries(p: Pass, t: Saved, h': Handler)
    requires EntriesOk(p.h, p.live) && ValidSaved(t) && NextTag(p.h) !in p.h.state
    requires Push(p.h, t) == Some(h')
    ensures EntriesOk(h', p.live[NextTag(p.h) := t])
  {
    hide Numel;
    var tag := NextTag(p.h);
    forall u <- h'.state ensures EntryOk(h', p.live[tag := t], u) {
      if u != tag {
        assert EntryOk(p.h, p.live, u);
      }
    }
  }

  lemma {:induction false} RemoveProps(order: seq<Tag>, tag: Tag)
    requires Distinct(order)
    ensures forall u :: u in Remove(order, tag) <==> u in order && u != tag
    ensures Distinct(Remove(order, tag))
  {
    if order != [] {
      var rest := order[1..];
      assert order == [order[0]] + rest;
      assert order[0] !in rest;
      RemoveProps(rest, tag);
      if order[0] != tag {
        var r, r1 := Remove(order, tag), Remove(rest, tag);
        assert r == [order[0]] + r1 && order[0] !in r1;
        forall i, j | 0 <= i < j < |r| ensures r[i] != r[j] {
          assert r[j] == r1[j - 1] && r1[j - 1] in r1;
          if i > 0 {
            assert r[i] == r1[i - 1] && r1[i - 1] != r1[j - 1];
          }
        }
      }
    }
  }

  /** A group that has been committed backward is no longer on the CPU. */
  lemma ReloadedByNow(h: Handler, g: nat)
    requires BackwardOk(h) && h.currentGroup <= g
    ensures g !in h.mapping
  {
    var m := Remaining(h);
    if g < m {
      WindowStep(h.numLayers, h.numOffload, m - 1);
    }
  }

  lemma PoppedEntries(p: Pass, tag: Tag)
    requires EntriesOk(p.h, p.live) && tag in p.h.state && p.h.state[tag].OnDevice?
    ensures EntriesOk(Pop(p.h, tag).value.0, p.live - {tag})
    ensures Pop(p.h, tag).value.1.shape == p.live[tag].shape && Pop(p.h, tag).value.1.data == p.live[tag].data
  {
    hide Numel;
    assert EntryOk(p.h, p.live, tag);
    var h' := Pop(p.h, tag).value.0;
    forall u <- h'.state ensures EntryOk(h', p.live - {tag}, u) {
      assert EntryOk(p.h, p.live, u);
    }
  }

  /** `tensor_pop` returns the contents and the shape that were pushed. */
  lemma PopOk(p: Pass, tag: Tag)
    requires Inv(p) && Legal(p, PopTensor(tag))
    ensures Pop(p.h, tag).Some?
    ensures var t := Pop(p.h, tag).value.1;
      t.shape == p.live[tag].shape && t.data == p.live[tag].data
    ensures Inv(Run(p, PopTensor(tag)).value)
  {
    hide Window, WindowMap, Numel, Released, Configured, BackwardOk, OrderOk, EntriesOk;
    ReloadedByNow(p.h, tag.group);
    PoppableEntry(p, tag);
    PoppedEntries(p, tag);
    PoppedRest(p.h, tag);
  }

  lemma PoppableEntry(p: Pass, tag: Tag)
    requires EntriesOk(p.h, p.live) && tag in p.live && tag.group !in p.h.mapping
    ensures tag in p.h.state && p.h.state[tag].OnDevice?
  {
    assert EntryOk(p.h, p.live, tag);
  }

  lemma PoppedRest(h: Handler, tag: Tag)
    requires OrderOk(h) && BackwardOk(h) && Pop(h, tag).Some?
    ensures OrderOk(Pop(h, tag).value.0) && BackwardOk(Pop(h, tag).value.0)
  {
    hide Window, WindowMap, Released;
    RemoveProps(h.order, tag);
  }

  /** A copy was taken for every key of the group, and it has the contents of each tensor with that key. */
  ghost predicate CopiesAgree(m: map<Key, Saved>, live: map<Tag, Saved>, g: nat) {
    forall u <- live | u.group == g && live[u].key in m :: m[live[u].key].data == live[u].data
  }

  ghost predicate CopiesCover(m: map<Key, Saved>, order: seq<Tag>, h: Handler, live: map<Tag, Saved>, g: nat) {
    forall u <- order | u in h.state && u in live && u.group == g && h.state[u].OnDevice? :: live[u].key in m
  }

  lemma {:induction false} FirstByKeyCopies(order: seq<Tag>, h: Handler, live: map<Tag, Saved>, g: nat)
    requires EntriesOk(h, live) && KeysAgree(live) && forall tag <- order :: tag in h.state
    ensures CopiesAgree(FirstByKey(order, h.state, g), live, g)
    ensures CopiesCover(FirstByKey(order, h.state, g), order, h, live, g)
  {
    hide Numel;
    if order != [] {
      var n := |order| - 1;
      var rest, tag := order[..n], order[n];
      assert order == rest + [tag];
      assert forall u <- rest :: u in order;
      FirstByKeyCopies(rest, h, live, g);
      assert tag in order && tag in h.state;
      CopyOneMore(FirstByKey(rest, h.state, g), rest, h, live, g, tag);
    }
  }

  lemma CopyOneMore(m: map<Key, Saved>, rest: seq<Tag>, h: Handler, live: map<Tag, Saved>, g: nat, tag: Tag)
    requires EntriesOk(h, live) && KeysAgree(live) && tag in h.state
    requires CopiesAgree(m, live, g) && CopiesCover(m, rest, h, live, g)
    ensures var m' := if tag.group == g && h.state[tag].OnDevice? && h.state[tag].tensor.key !in m
        then m[h.state[tag].tensor.key := h.state[tag].tensor] else m;
      CopiesAgree(m', live, g) && CopiesCover(m', rest + [tag], h, live, g)
  {
    hide Numel;
    assert EntryOk(h, live, tag);
  }

  /** Moving a group to the CPU keeps what every tag stands for. */
  lemma OffloadOk(h: Handler, live: map<Tag, Saved>, g: nat)
    requires EntriesOk(h, live) && OrderOk(h) && KeysAgree(live) && g !in h.mapping
    ensures BulkOffload(h, g).Some?
    ensures var h' := BulkOffload(h, g).value;
      && EntriesOk(h', live) && OrderOk(h') && h'.mapping.Keys == h.mapping.Keys + {g}
      && h' == h.(state := h'.state, mapping := h'.mapping) && h'.state.Keys == h.state.Keys
  {
    hide FirstByKey, KeysAgree, EntryOk, Distinct, BulkOffload, ToOffloaded;
    Offloads(h, live, g);
    FirstByKeyCopies(h.order, h, live, g);
    var h' := BulkOffload(h, g).value;
    forall tag <- h'.state ensures EntryOk(h', live, tag) {
      OffloadEntry(h, h', live, g, tag, FirstByKey(h.order, h.state, g));
    }
  }

  /** None of the group has been offloaded before, so all of it can be. */
  lemma Offloads(h: Handler, live: map<Tag, Saved>, g: nat)
    requires EntriesOk(h, live) && g !in h.mapping
    ensures BulkOffload(h, g).Some?
    ensures var h' := BulkOffload(h, g).value;
      && h' == h.(state := h'.state, mapping := h.mapping[g := FirstByKey(h.order, h.state, g)])
      && h'.state.Keys == h.state.Keys && h'.mapping.Keys == h.mapping.Keys + {g}
      && forall tag <- h.state ::
           && (tag.group == g ==> h.state[tag].OnDevice?)
           && h'.state[tag] == if tag.group == g then ToOffloaded(h.state[tag]) else h.state[tag]
  {
    hide Numel, FirstByKey;
    forall tag <- h.state | tag.group == g ensures h.state[tag].OnDevice? {
      assert EntryOk(h, live, tag);
    }
    assert h.mapping[g := FirstByKey(h.order, h.state, g)].Keys == h.mapping.Keys + {g};
  }

  lemma OffloadEntry(h: Handler, h': Handler, live: map<Tag, Saved>, g: nat, tag: Tag, copies: map<Key, Saved>)
    requires tag in h.state && tag in live && tag in h'.state && EntryOk(h, live, tag)
    requires g !in h.mapping && tag in h.order && (tag.group == g ==> h.state[tag].OnDevice?)
    requires h'.state[tag] == if tag.group == g then ToOffloaded(h.state[tag]) else h.state[tag]
    requires h'.mapping == h.mapping[g := copies]
    requires CopiesAgree(copies, live, g) && CopiesCover(copies, h.order, h, live, g)
    ensures EntryOk(h', live, tag)
  {
    hide Numel;
  }

  /** Bringing a group back rebuilds each of its tensors from the copy of its key. */
  lemma ReloadOk(h: Handler, live: map<Tag, Saved>, g: nat)
    requires EntriesOk(h, live) && OrderOk(h) && g in h.mapping && g < h.numOffload
    ensures BulkReload(h, g).Some?
    ensures var h' := BulkReload(h, g).value;
      && EntriesOk(h', live) && OrderOk(h') && h'.mapping == h.mapping - {g}
      && h' == h.(state := h'.state, mapping := h'.mapping) && h'.state.Keys == h.state.Keys
  {
    hide Numel, Restore;
    assert Reloadable(h, g, h.mapping[g]) by {
      forall tag <- h.state | tag.group == g && h.state[tag].Offloaded?
        ensures Rebuilds(h.state[tag], h.mapping[g])
      {
        assert EntryOk(h, live, tag);
      }
    }
    hide Reloadable;
    var h' := BulkReload(h, g).value;
    forall tag <- h'.state ensures EntryOk(h', live, tag) {
      assert EntryOk(h, live, tag);
      ReloadEntry(h, h', live, g, tag);
    }
    assert OrderOk(h');
  }

  lemma ReloadEntry(h: Handler, h': Handler, live: map<Tag, Saved>, g: nat, tag: Tag)
    requires tag in h.state && tag in live && tag in h'.state && EntryOk(h, live, tag) && g in h.mapping
    requires h'.state[tag] == if tag.group == g then Restore(h.state[tag], h.mapping[g]) else h.state[tag]
    requires h'.mapping == h.mapping - {g}
    ensures EntryOk(h', live, tag)
  {
    hide Numel;
  }

  lemma ReleasedNext(n: nat, num: nat, m: nat, c: nat)
    requires 1 <= num <= n && Released(n, num, m, c) && c < n
    ensures m < num && m <= c <= Window(n, num, m)
    ensures Window(n, num, m) == c ==> Released(n, num, m + 1, c + 1)
    ensures Window(n, num, m) != c ==> Released(n, num, m, c + 1)
    ensures c == 0 ==> m == 0
  {
    WindowStep(n, num, num - 1);
    CountBehind(n, num, m, c);
    if m + 1 < num {
      WindowIncreasing(n, num, m, m + 1);
    }
  }

  /** What a step of the forward commit leaves alone, and what it keeps of the saved tensors. */
  ghost predicate Keeps(h: Handler, h': Handler, live: map<Tag, Saved>) {
    && EntriesOk(h', live) && OrderOk(h') && h'.state.Keys == h.state.Keys && h'.buf.Keys == h.buf.Keys
    && h'.numOffload == h.numOffload && h'.numLayers == h.numLayers && h'.window == h.window
    && h'.currentGroup == h.currentGroup && h'.tensorCount == h.tensorCount
  }

  ghost predicate MappedUpTo(h: Handler, m: nat) {
    forall g: nat :: g in h.mapping <==> g <= m && g < h.numOffload
  }

  ghost predicate HeldFrom(h: Handler, m: nat) {
    forall tag <- h.buf :: h.buf[tag].Some? ==> m <= tag.group
  }

  /** What closing a window relies on. */
  ghost predicate ReadyToClose(h: Handler, live: map<Tag, Saved>) {
    && EntriesOk(h, live) && OrderOk(h) && KeysAgree(live) && Configured(h) && h.currentGroup < h.numLayers
    && Released(h.numLayers, h.numOffload, h.offloadedCount, h.currentGroup)
    && MappedUpTo(h, h.offloadedCount) && HeldFrom(h, h.offloadedCount)
  }

  /** What closing a window leaves. */
  ghost predicate Closed(h: Handler, h': Handler, live: map<Tag, Saved>) {
    && Keeps(h, h', live) && MappedUpTo(h', h'.offloadedCount) && HeldFrom(h', h'.offloadedCount)
    && h'.numOffload > 0 && Released(h'.numLayers, h'.numOffload, h'.offloadedCount, h'.currentGroup + 1)
  }

  lemma StartOk(p: Pass)
    requires Inv(p) && Legal(p, ForwardCommit)
    ensures StartForward(p.h).Some?
    ensures var h := StartForward(p.h).value; ReadyToClose(h, p.live) && Keeps(p.h, h, p.live)
  {
    hide EntriesOk, OrderOk, WindowMap, KeysAgree, BufferOk, BulkOffload;
    ReleasedNext(p.h.numLayers, p.h.numOffload, p.h.offloadedCount, p.h.currentGroup);
    if p.h.currentGroup == 0 {
      OffloadOk(p.h, p.live, 0);
    }
  }

  lemma CloseWindowOk(h: Handler, live: map<Tag, Saved>)
    requires ReadyToClose(h, live)
    ensures CloseWindow(h).Some? && Closed(h, CloseWindow(h).value, live)
  {
    hide EntriesOk, OrderOk, KeysAgree, BulkOffload, ReleaseBuffers, Released, Closed;
    var m := h.offloadedCount;
    ReleasedNext(h.numLayers, h.numOffload, m, h.currentGroup);
    assert m in h.window && h.window[m] == Window(h.numLayers, h.numOffload, m);
    if h.window[m] == h.currentGroup {
      ReleaseAndOffload(h, live);
    } else {
      StillOpen(h, live);
    }
  }

  lemma StillOpen(h: Handler, live: map<Tag, Saved>)
    requires ReadyToClose(h, live) && Released(h.numLayers, h.numOffload, h.offloadedCount, h.currentGroup + 1)
    ensures Closed(h, h, live)
  {
    hide EntriesOk, OrderOk, KeysAgree, Released, WindowMap;
  }

  /** The window closes: the group's buffers go, and the next group, if there is one, is copied. */
  lemma ReleaseAndOffload(h: Handler, live: map<Tag, Saved>)
    requires ReadyToClose(h, live) && h.offloadedCount < h.numOffload
    requires h.offloadedCount in h.window && h.window[h.offloadedCount] == h.currentGroup
    requires Released(h.numLayers, h.numOffload, h.offloadedCount + 1, h.currentGroup + 1)
    ensures CloseWindow(h).Some? && Closed(h, CloseWindow(h).value, live)
  {
    hide EntriesOk, OrderOk, KeysAgree, BulkOffload, Released, Configured, WindowMap, Window;
    var m := h.offloadedCount;
    var h2 := ReleaseBuffers(h, m);
    SameEntries(h, h2, live);
    ReleasedHeld(h, m);
    if m < h2.numOffload - 1 {
      OffloadOk(h2, live, m + 1);
      SameEntries(BulkOffload(h2, m + 1).value, BulkOffload(h2, m + 1).value.(offloadedCount := m + 1), live);
    } else {
      SameEntries(h2, h2.(offloadedCount := m + 1), live);
    }
  }

  lemma ReleasedHeld(h: Handler, m: nat)
    requires HeldFrom(h, m)
    ensures HeldFrom(ReleaseBuffers(h, m), m + 1) && ReleaseBuffers(h, m).buf.Keys == h.buf.Keys
  {
  }

  lemma SameEntries(h: Handler, h': Handler, live: map<Tag, Saved>)
    requires EntriesOk(h, live) && h'.state == h.state && h'.mapping == h.mapping && h'.order == h.order
    ensures EntriesOk(h', live) && (OrderOk(h) ==> OrderOk(h'))
  {
    hide Numel;
    forall tag <- h'.state ensures EntryOk(h', live, tag) {
      assert EntryOk(h, live, tag);
    }
  }

  lemma ForwardAfter(p: Pass, h: Handler, h': Handler)
    requires Inv(p) && Legal(p, ForwardCommit) && Keeps(p.h, h, p.live) && Closed(h, h', p.live)
    ensures Inv(Pass(h'.(currentGroup := h'.currentGroup + 1, tensorCount := 0), p.live, false))
  {
    hide EntriesOk, KeysAgree, Released, WindowMap, OrderOk;
    SameEntries(h', h'.(currentGroup := h'.currentGroup + 1, tensorCount := 0), p.live);
  }

  lemma CommittedForward(h: Handler)
    requires StartForward(h).Some? && CloseWindow(StartForward(h).value).Some?
    requires CloseWindow(StartForward(h).value).value.currentGroup == h.currentGroup
    ensures var h' := CloseWindow(StartForward(h).value).value;
      CommitForward(h) == Some(h'.(currentGroup := h'.currentGroup + 1, tensorCount := 0))
  {
    hide StartForward, CloseWindow;
  }

  /** A forward commit finds its window entry, never offloads a group twice, and keeps every saved tensor. */
  lemma CommitForwardOk(p: Pass)
    requires Inv(p) && Legal(p, ForwardCommit)
    ensures Run(p, ForwardCommit).Some? && Inv(Run(p, ForwardCommit).value)
  {
    hide Inv, CloseWindow, StartForward, CommitForward, Closed, ReadyToClose, EntriesOk, OrderOk;
    ForwardPass(p);
    StartOk(p);
    var h := StartForward(p.h).value;
    CloseWindowOk(h, p.live);
    var h' := CloseWindow(h).value;
    ClosedGroup(h, h', p.live);
    CommittedForward(p.h);
    ForwardAfter(p, h, h');
  }

  lemma ForwardPass(p: Pass)
    requires Legal(p, ForwardCommit)
    ensures !p.backward
  {
  }

  lemma ClosedGroup(h: Handler, h': Handler, live: map<Tag, Saved>)
    requires Closed(h, h', live)
    ensures h'.currentGroup == h.currentGroup
  {
    hide EntriesOk, OrderOk;
  }

  // ---------- the backward pass ----------

  /** What a backward commit finds, whether it is the first one or a later one. */
  ghost predicate BeforeBackward(h: Handler) {
    && Configured(h) && 0 < h.currentGroup <= h.numLayers && h.tensorCount == 0
    && Released(h.numLayers, h.numOffload, Remaining(h), h.currentGroup)
    && h.offloadedCount == (if Remaining(h) > 1 then Remaining(h) else 1)
    && MappedBelow(h, Remaining(h))
    && (forall tag <- h.buf :: h.buf[tag].None?)
  }

  lemma BackwardReady(p: Pass)
    requires Inv(p) && Legal(p, BackwardCommit)
    ensures BeforeBackward(p.h)
  {
    hide EntriesOk, OrderOk, KeysAgree, WindowMap;
    if !p.backward {
      WindowStep(p.h.numLayers, p.h.numOffload, p.h.numOffload - 1);
      AllReleased(p.h.numLayers, p.h.numOffload, p.h.offloadedCount);
      assert 0 in p.h.mapping;
    }
  }

  lemma AllReleased(n: nat, num: nat, m: nat)
    requires 1 <= num <= n && Released(n, num, m, n)
    ensures m == num
  {
    if m < num {
      WindowStep(n, num, m);
    }
  }

  lemma ReleasedPrevious(n: nat, num: nat, m: nat, c: nat)
    requires 1 <= num <= n && Released(n, num, m, c + 1)
    ensures m > 0 && Window(n, num, m - 1) == c ==> Released(n, num, m - 1, c) && (c == 0 ==> m == 1)
    ensures m > 0 && Window(n, num, m - 1) != c ==> Released(n, num, m, c) && c > 0
    ensures m == 0 ==> Released(n, num, 0, c) && Window(n, num, 0) > c
    ensures m <= num
  {
    if m > 0 {
      WindowStep(n, num, m - 1);
    }
    if m > 1 {
      WindowStep(n, num, m - 2);
      WindowIncreasing(n, num, m - 2, m - 1);
    }
  }

  lemma BackwardAfter(p: Pass, h: Handler, m: nat)
    requires Inv(p) && BeforeBackward(p.h) && EntriesOk(h, p.live) && OrderOk(h)
    requires h == p.h.(state := h.state, mapping := h.mapping, currentGroup := h.currentGroup,
                       offloadedCount := h.offloadedCount)
    requires h.state.Keys == p.h.state.Keys && h.currentGroup + 1 == p.h.currentGroup
    requires MappedBelow(h, m) && Released(h.numLayers, h.numOffload, m, h.currentGroup)
    requires h.offloadedCount == (if h.currentGroup == 0 then 0 else if m > 1 then m else 1)
    requires h.currentGroup == 0 ==> m == 0
    ensures Inv(Pass(h, p.live, true))
  {
    hide EntriesOk, OrderOk, KeysAgree, Released, WindowMap;
    assert Remaining(h) == m;
  }

  lemma NoneRemain(n: nat, num: nat, m: nat)
    requires 1 <= num <= n && Released(n, num, m, 0)
    ensures m == 0
  {
    CountBehind(n, num, m, 0);
  }

  /** What opening a window leaves: m groups still on the CPU. */
  ghost predicate Opened(h: Handler, h': Handler, live: map<Tag, Saved>, m: nat) {
    && EntriesOk(h', live) && OrderOk(h') && h'.state.Keys == h.state.Keys
    && h' == h.(state := h'.state, mapping := h'.mapping, offloadedCount := h'.offloadedCount)
    && MappedBelow(h', m) && h'.numOffload > 0 && Released(h'.numLayers, h'.numOffload, m, h'.currentGroup)
    && h'.offloadedCount == (if m > 1 then m else 1)
  }

  /** What opening a window relies on: m groups on the CPU, and the group below the current one is next. */
  ghost predicate ReadyToOpen(h: Handler, live: map<Tag, Saved>, m: nat) {
    && EntriesOk(h, live) && OrderOk(h) && Configured(h) && h.currentGroup < h.numLayers
    && Released(h.numLayers, h.numOffload, m, h.currentGroup + 1) && MappedBelow(h, m)
    && h.offloadedCount == (if m > 1 then m else 1)
  }

  lemma OpenWindowOk(h: Handler, live: map<Tag, Saved>, m: nat) returns (left: nat)
    requires ReadyToOpen(h, live, m)
    ensures OpenWindow(h).Some? && Opened(h, OpenWindow(h).value, live, left)
    ensures h.currentGroup == 0 ==> left == 0
  {
    hide EntriesOk, OrderOk, Window, BulkReload, Released, Opened;
    var c := h.currentGroup;
    ReleasedPrevious(h.numLayers, h.numOffload, m, c);
    assert h.offloadedCount - 1 in h.window
      && h.window[h.offloadedCount - 1] == Window(h.numLayers, h.numOffload, h.offloadedCount - 1);
    if m > 0 && h.window[m - 1] == c {
      left := m - 1;
      ReloadAndCount(h, live, m);
    } else {
      left := m;
      NothingOpened(h, live, m);
    }
    if c == 0 {
      NoneRemain(h.numLayers, h.numOffload, left);
    }
  }

  lemma NothingOpened(h: Handler, live: map<Tag, Saved>, m: nat)
    requires ReadyToOpen(h, live, m) && Released(h.numLayers, h.numOffload, m, h.currentGroup)
    ensures Opened(h, h, live, m)
  {
    hide EntriesOk, OrderOk, Released, WindowMap;
  }

  lemma ReloadAndCount(h: Handler, live: map<Tag, Saved>, m: nat)
    requires ReadyToOpen(h, live, m) && m > 0 && m <= h.numOffload && m - 1 in h.window
    requires h.window[m - 1] == h.currentGroup
    requires Released(h.numLayers, h.numOffload, m - 1, h.currentGroup)
    ensures OpenWindow(h).Some? && Opened(h, OpenWindow(h).value, live, m - 1)
  {
    hide EntriesOk, OrderOk, Released, BulkReload, Configured;
    ReloadOk(h, live, m - 1);
    var h2 := BulkReload(h, m - 1).value;
    SameEntries(h2, OpenWindow(h).value, live);
  }

  lemma ReadyBackward(p: Pass)
    requires Inv(p) && BeforeBackward(p.h)
    ensures p.h.currentGroup > 0
    ensures ReadyToOpen(p.h.(currentGroup := p.h.currentGroup - 1), p.live, Remaining(p.h))
  {
    hide EntriesOk, OrderOk, Released, KeysAgree, WindowMap, BufferOk, ForwardOk, BackwardOk;
    SameEntries(p.h, p.h.(currentGroup := p.h.currentGroup - 1), p.live);
  }

  lemma CommittedBackward(h: Handler)
    requires h.currentGroup > 0 && OpenWindow(h.(currentGroup := h.currentGroup - 1)).Some?
    ensures var h' := OpenWindow(h.(currentGroup := h.currentGroup - 1)).value;
      CommitBackward(h) == Some(h'.(offloadedCount := if h.currentGroup == 1 then 0 else h'.offloadedCount))
  {
    hide OpenWindow;
  }

  lemma OpenedAfter(p: Pass, h: Handler, h': Handler, left: nat)
    requires Inv(p) && BeforeBackward(p.h) && h == p.h.(currentGroup := p.h.currentGroup - 1)
    requires Opened(h, h', p.live, left)
    requires h.currentGroup == 0 ==> left == 0
    ensures Inv(Pass(h'.(offloadedCount := if h.currentGroup == 0 then 0 else h'.offloadedCount), p.live, true))
  {
    hide EntriesOk, OrderOk, KeysAgree, Released, WindowMap, Configured, BufferOk, ForwardOk, BackwardOk;
    var last := h'.(offloadedCount := if h.currentGroup == 0 then 0 else h'.offloadedCount);
    SameEntries(h', last, p.live);
    BackwardAfter(p, last, left);
  }

  /** A backward commit finds its window entry and brings back the right group. */
  lemma CommitBackwardOk(p: Pass)
    requires Inv(p) && Legal(p, BackwardCommit)
    ensures Run(p, BackwardCommit).Some? && Inv(Run(p, BackwardCommit).value)
  {
    hide Inv, Legal, CommitBackward, OpenWindow, ReadyToOpen, Opened, BeforeBackward;
    BackwardReady(p);
    ReadyBackward(p);
    var h := p.h.(currentGroup := p.h.currentGroup - 1);
    var left := OpenWindowOk(h, p.live, Remaining(p.h));
    CommittedBackward(p.h);
    OpenedAfter(p, h, OpenWindow(h).value, left);
  }

  /** No operation of a training step fails, and each keeps the invariant. */
  lemma StepOk(p: Pass, op: Op)
    requires Inv(p) && Legal(p, op)
    ensures Run(p, op).Some? && Inv(Run(p, op).value)
  {
    hide Inv, Legal, Run;
    match op
    case PushTensor(t) => PushOk(p, t);
    case PopTensor(tag) => PopStep(p, tag);
    case ForwardCommit => CommitForwardOk(p);
    case BackwardCommit => CommitBackwardOk(p);
  }

  lemma PopStep(p: Pass, tag: Tag)
    requires Inv(p) && Legal(p, PopTensor(tag))
    ensures Run(p, PopTensor(tag)).Some? && Inv(Run(p, PopTensor(tag)).value)
  {
    hide Inv;
    PopOk(p, tag);
  }

  lemma RunKeepsSizes(p: Pass, op: Op)
    requires Run(p, op).Some?
    ensures var h := Run(p, op).value.h; h.numLayers == p.h.numLayers && h.numOffload == p.h.numOffload
  {
  }

  ghost predicate LegalRun(p: Pass, ops: seq<Op>)
    decreases |ops|
  {
    ops == [] || (Legal(p, ops[0]) && (Run(p, ops[0]).Some? ==> LegalRun(Run(p, ops[0]).value, ops[1..])))
  }

  /** What the pops of a run hand back, and what was pushed under the popped tags. */
  ghost function Popped(p: Pass, ops: seq<Op>): seq<(Tag, seq<nat>, seq<int>)>
    decreases |ops|
  {
    if ops == [] || Run(p, ops[0]).None? then []
    else
      var rest := Popped(Run(p, ops[0]).value, ops[1..]);
      if !ops[0].PopTensor? then rest
      else [(ops[0].tag, Pop(p.h, ops[0].tag).value.1.shape, Pop(p.h, ops[0].tag).value.1.data)] + rest
  }

  ghost function Pushed(p: Pass, ops: seq<Op>): seq<(Tag, seq<nat>, seq<int>)>
    decreases |ops|
  {
    if ops == [] || Run(p, ops[0]).None? then []
    else
      var rest := Pushed(Run(p, ops[0]).value, ops[1..]);
      if !ops[0].PopTensor? || ops[0].tag !in p.live then rest
      else [(ops[0].tag, p.live[ops[0].tag].shape, p.live[ops[0].tag].data)] + rest
  }

  ghost function RunAll(p: Pass, ops: seq<Op>): Option<Pass>
    decreases |ops|
  {
    if ops == [] then Some(p)
    else
      var r := Run(p, ops[0]);
      if r.None? then None else RunAll(r.value, ops[1..])
  }

  lemma {:induction false} RunAllOk(p: Pass, ops: seq<Op>)
    requires Inv(p) && LegalRun(p, ops)
    ensures RunAll(p, ops).Some? && Inv(RunAll(p, ops).value)
    ensures var h := RunAll(p, ops).value.h; h.numLayers == p.h.numLayers && h.numOffload == p.h.numOffload
    ensures Popped(p, ops) == Pushed(p, ops)
    decreases |ops|
  {
    hide Inv, Run;
    if ops != [] {
      StepOk(p, ops[0]);
      if ops[0].PopTensor? {
        PopOk(p, ops[0].tag);
      }
      RunKeepsSizes(p, ops[0]);
      RunAllOk(Run(p, ops[0]).value, ops[1..]);
    }
  }

  lemma OrderedIsSaved(h: Handler)
    requires OrderOk(h) && h.order != []
    ensures h.state != map[]
  {
    assert h.order[0] in h.state;
  }

  /** Once the backward pass is through and everything has been popped, the handler is as if freshly built. */
  lemma EndsFresh(p: Pass)
    requires Inv(p) && p.backward && p.h.currentGroup == 0 && p.live == map[]
    ensures p.h == Fresh(p.h.numLayers, p.h.numOffload)
  {
    var h := p.h;
    NoneRemain(h.numLayers, h.numOffload, Remaining(h));
    assert h.state == map[];
    if h.order != [] {
      OrderedIsSaved(h);
    }
    assert h.mapping.Keys == {};
    assert h.buf.Keys == {};
  }

  /**
   A whole training step, for 1 <= num <= n: no assertion or lookup fails, every pop returns the shape and
   the contents that were pushed, and the step ends with the handler as it began.
  */
  lemma TrainingStep(n: nat, num: nat, ops: seq<Op>)
    requires 1 <= num <= n && LegalRun(Pass(Fresh(n, num), map[], false), ops)
    ensures RunAll(Pass(Fresh(n, num), map[], false), ops).Some?
    ensures var p := RunAll(Pass(Fresh(n, num), map[], false), ops).value;
      p.backward && p.h.currentGroup == 0 && p.live == map[] ==> p.h == Fresh(n, num)
    ensures Popped(Pass(Fresh(n, num), map[], false), ops) == Pushed(Pass(Fresh(n, num), map[], false), ops)
  {
    hide Inv, Legal, LegalRun, RunAll, Popped, Pushed;
    var start := Pass(Fresh(n, num), map[], false);
    FreshInv(n, num);
    RunAllOk(start, ops);
    var p := RunAll(start, ops).value;
    if p.backward && p.h.currentGroup == 0 && p.live == map[] {
      EndsFresh(p);
    }
  }

  // ---------- residency ----------

  /** Group g occupies device memory: through a saved tensor, or through a buffer that is not yet released. */
  ghost predicate Resident(h: Handler, g: nat) {
    || (exists tag <- h.state :: tag.group == g && h.state[tag].OnDevice?)
    || (exists tag <- h.buf :: tag.group == g && h.buf[tag].Some?)
  }

  /** A group that has been mapped to the CPU has nothing left on the device. */
  ghost predicate MappedOffloaded(h: Handler) {
    forall tag <- h.state :: tag.group in h.mapping ==> h.state[tag].Offloaded?
  }

  /** Nothing is pushed to a group after it was offloaded: true because windows close late when num < n. */
  lemma MappedBehind(h: Handler, g: nat)
    requires ForwardOk(h) && h.numOffload < h.numLayers && g in h.mapping
    ensures g < h.currentGroup
  {
    if h.offloadedCount > 0 {
      WindowStep(h.numLayers, h.numOffload, h.offloadedCount - 1);
    }
  }

  lemma OffloadKeepsMapped(h: Handler, g: nat)
    requires MappedOffloaded(h) && BulkOffload(h, g).Some?
    ensures MappedOffloaded(BulkOffload(h, g).value)
  {
  }

  lemma ReloadKeepsMapped(h: Handler, g: int)
    requires MappedOffloaded(h) && BulkReload(h, g).Some?
    ensures MappedOffloaded(BulkReload(h, g).value)
  {
  }

  lemma StepKeepsMapped(p: Pass, op: Op)
    requires Inv(p) && Legal(p, op) && Run(p, op).Some? && p.h.numOffload < p.h.numLayers && MappedOffloaded(p.h)
    ensures MappedOffloaded(Run(p, op).value.h)
  {
    hide EntriesOk, OrderOk, KeysAgree, BufferOk, WindowMap, BackwardOk, BulkOffload, BulkReload, Numel;
    match op
    case PushTensor(t) =>
      if p.h.currentGroup in p.h.mapping {
        MappedBehind(p.h, p.h.currentGroup);
      }
    case PopTensor(tag) =>
    case ForwardCommit =>
      hide ForwardOk;
      var h := StartForward(p.h).value;
      if p.h.currentGroup == 0 {
        OffloadKeepsMapped(p.h, 0);
      }
      if h.window[h.offloadedCount] == h.currentGroup && h.offloadedCount < h.numOffload - 1 {
        OffloadKeepsMapped(ReleaseBuffers(h, h.offloadedCount), h.offloadedCount + 1);
      }
    case BackwardCommit =>
      hide ForwardOk;
      var h1 := p.h.(currentGroup := p.h.currentGroup - 1);
      if h1.window[h1.offloadedCount - 1] == h1.currentGroup {
        ReloadKeepsMapped(h1, h1.offloadedCount - 1);
      }
  }

  /** Nothing is left of groups above the current one; in the forward pass that is always so. */
  ghost predicate PoppedAbove(p: Pass) {
    p.backward ==> forall tag <- p.live :: tag.group <= p.h.currentGroup
  }

  ghost function Unreleased(p: Pass): nat {
    if p.backward then Remaining(p.h) else p.h.offloadedCount
  }

  /** The resident groups lie between the first group that is not released and the current one. */
  lemma ResidentRange(p: Pass, g: nat)
    requires Inv(p) && MappedOffloaded(p.h) && p.h.numOffload < p.h.numLayers && PoppedAbove(p) && Resident(p.h, g)
    ensures Unreleased(p) <= g <= p.h.currentGroup
  {
    hide Window, WindowMap, KeysAgree, EntryOk, OrderOk;
    CountBehind(p.h.numLayers, p.h.numOffload, Unreleased(p), p.h.currentGroup);
    if tag :| tag in p.h.buf && tag.group == g && p.h.buf[tag].Some? {
      assert tag in p.h.state;
    } else {
      var tag :| tag in p.h.state && tag.group == g && p.h.state[tag].OnDevice?;
      assert g !in p.h.mapping;
    }
  }

  /** With one group fewer than layers, only the current group and the one before it can be resident. */
  lemma TwoGroupsResident(p: Pass, g: nat)
    requires Inv(p) && MappedOffloaded(p.h) && p.h.numOffload == p.h.numLayers - 1 && PoppedAbove(p) && Resident(p.h, g)
    ensures p.h.currentGroup - 1 <= g <= p.h.currentGroup
  {
    hide EntriesOk, OrderOk, BufferOk, KeysAgree, MappedOffloaded, Resident, WindowMap, Window, PoppedAbove;
    hide MappedBelow;
    ResidentRange(p, g);
    var n, m := p.h.numLayers, Unreleased(p);
    assert p.h.currentGroup <= n && 1 <= p.h.numOffload;
    assert Released(n, n - 1, m, p.h.currentGroup);
    if m < n - 1 {
      WindowOneBehind(n, m);
    }
  }

  lemma {:induction false} RunKeepsMapped(p: Pass, ops: seq<Op>)
    requires Inv(p) && LegalRun(p, ops) && p.h.numOffload < p.h.numLayers && MappedOffloaded(p.h)
    ensures RunAll(p, ops).Some? && MappedOffloaded(RunAll(p, ops).value.h)
    decreases |ops|
  {
    hide Inv, Legal, Run, MappedOffloaded;
    if ops != [] {
      StepOk(p, ops[0]);
      RunKeepsSizes(p, ops[0]);
      StepKeepsMapped(p, ops[0]);
      RunKeepsMapped(Run(p, ops[0]).value, ops[1..]);
    }
  }

  /**
   The memory claim of `enable_activation_offloading`: at every point of a training step in which each
   group is popped before the next backward commit, at most two groups are in device memory.
  */
  lemma AtMostTwoGroups(n: nat, ops: seq<Op>, g: nat, g': nat)
    requires n >= 2 && LegalRun(Pass(Fresh(n, n - 1), map[], false), ops)
    ensures RunAll(Pass(Fresh(n, n - 1), map[], false), ops).Some?
    ensures var p := RunAll(Pass(Fresh(n, n - 1), map[], false), ops).value;
      PoppedAbove(p) && Resident(p.h, g) && Resident(p.h, g') ==>
        p.h.currentGroup - 1 <= g <= p.h.currentGroup && -1 <= g - g' <= 1
  {
    hide Inv, Legal, LegalRun, RunAll, Resident;
    var start := Pass(Fresh(n, n - 1), map[], false);
    FreshInv(n, n - 1);
    RunAllOk(start, ops);
    RunKeepsMapped(start, ops);
    var p := RunAll(start, ops).value;
    if PoppedAbove(p) && Resident(p.h, g) && Resident(p.h, g') {
      TwoGroupsResident(p, g);
      TwoGroupsResident(p, g');
    }
  }

  // ---------- where every tensor is ----------

  /**
   Every saved tensor of an offloaded group has its place in the buffer dictionary, and there the tensor itself
   until the group is released: the copy may still be under way.
  */
  ghost predicate BuffersHold(p: Pass) {
    forall tag <- p.live | tag.group < p.h.numOffload ::
      tag in p.h.buf && (!p.backward && p.h.offloadedCount <= tag.group ==> p.h.buf[tag] == Some(p.live[tag]))
  }

  lemma PushHolds(p: Pass, t: Saved)
    requires BuffersHold(p) && Run(p, PushTensor(t)).Some?
    ensures BuffersHold(Run(p, PushTensor(t)).value)
  {
  }

  lemma OffloadKeepsTags(h: Handler, g: nat)
    requires BulkOffload(h, g).Some?
    ensures BulkOffload(h, g).value.state.Keys == h.state.Keys
    ensures BulkOffload(h, g).value ==
      h.(state := BulkOffload(h, g).value.state, mapping := BulkOffload(h, g).value.mapping)
  {
  }

  /** A forward commit takes no more from the buffers than the group that it releases. */
  lemma CommitTakes(h: Handler)
    requires CommitForward(h).Some?
    ensures var h' := CommitForward(h).value;
      && h'.buf.Keys == h.buf.Keys && h'.numOffload == h.numOffload && h'.offloadedCount >= h.offloadedCount
      && forall tag <- h.buf | h'.offloadedCount <= tag.group :: h'.buf[tag] == h.buf[tag]
  {
    hide BulkOffload, ReleaseBuffers;
    if h.currentGroup == 0 {
      OffloadKeepsTags(h, 0);
    }
    var h1 := StartForward(h).value;
    if h1.window[h1.offloadedCount] == h1.currentGroup {
      ReleaseTakes(h1, h1.offloadedCount);
      if h1.offloadedCount < h1.numOffload - 1 {
        OffloadKeepsTags(ReleaseBuffers(h1, h1.offloadedCount), h1.offloadedCount + 1);
      }
    }
  }

  lemma ReleaseTakes(h: Handler, g: nat)
    ensures var h' := ReleaseBuffers(h, g);
      && h' == h.(buf := h'.buf) && h'.buf.Keys == h.buf.Keys
      && forall tag <- h.buf | tag.group != g :: h'.buf[tag] == h.buf[tag]
  {
  }

  lemma ForwardHolds(p: Pass)
    requires BuffersHold(p) && Run(p, ForwardCommit).Some?
    ensures BuffersHold(Run(p, ForwardCommit).value)
  {
    CommitTakes(p.h);
    hide CommitForward;
  }

  lemma BackwardKeepsBuffers(h: Handler)
    requires CommitBackward(h).Some?
    ensures CommitBackward(h).value.buf == h.buf && CommitBackward(h).value.numOffload == h.numOffload
  {
    hide Reloadable, Restore;
  }

  lemma StepHolds(p: Pass, op: Op)
    requires BuffersHold(p) && Legal(p, op) && Run(p, op).Some?
    ensures BuffersHold(Run(p, op).value)
  {
    match op
    case PushTensor(t) => PushHolds(p, t);
    case PopTensor(tag) =>
    case ForwardCommit => ForwardHolds(p);
    case BackwardCommit => BackwardKeepsBuffers(p.h);
  }

  lemma {:induction false} RunHolds(p: Pass, ops: seq<Op>)
    requires Inv(p) && LegalRun(p, ops) && BuffersHold(p)
    ensures RunAll(p, ops).Some? && BuffersHold(RunAll(p, ops).value)
    decreases |ops|
  {
    hide Inv, Legal, Run, BuffersHold;
    if ops != [] {
      StepOk(p, ops[0]);
      StepHolds(p, ops[0]);
      RunHolds(Run(p, ops[0]).value, ops[1..]);
    }
  }

  lemma ReleasedIff(n: nat, num: nat, m: nat, c: nat, g: nat)
    requires 1 <= num <= n && Released(n, num, m, c) && g < num
    ensures g < m <==> Window(n, num, g) < c
  {
    if g < m - 1 {
      WindowIncreasing(n, num, g, m - 1);
    }
    if m < g {
      WindowIncreasing(n, num, m, g);
    }
  }

  lemma ReleasedNow(p: Pass)
    requires Inv(p)
    ensures Configured(p.h) && Released(p.h.numLayers, p.h.numOffload, Unreleased(p), p.h.currentGroup)
  {
    hide EntriesOk, OrderOk, KeysAgree, Released, BufferOk, WindowMap;
  }

  /**
   The buffer of a saved tensor, in any reachable state: in the forward pass the tensor itself up to the commit
   that closes its group's window, and nothing from then on.
  */
  lemma HeldUntilReleased(p: Pass, tag: Tag)
    requires Inv(p) && BuffersHold(p) && tag in p.live && tag.group < p.h.numOffload
    ensures tag in p.h.buf && p.h.numOffload > 0
    ensures p.h.buf[tag] ==
      if !p.backward && p.h.currentGroup <= Window(p.h.numLayers, p.h.numOffload, tag.group) then Some(p.live[tag])
      else None
  {
    ReleasedNow(p);
    ReleasedIff(p.h.numLayers, p.h.numOffload, Unreleased(p), p.h.currentGroup, tag.group);
    hide EntriesOk, OrderOk, KeysAgree, Released, WindowMap, Window;
  }

  /**
   A group with a saved tensor is in device memory exactly when it is not offloaded at all, or as long as its
   window is open: until the forward commit that closes it, and again from the backward commit that opens it.
  */
  lemma ResidentIff(p: Pass, tag: Tag)
    requires Inv(p) && BuffersHold(p) && MappedOffloaded(p.h) && p.h.numOffload < p.h.numLayers && tag in p.live
    ensures p.h.numOffload > 0
    ensures Resident(p.h, tag.group) <==>
      tag.group >= p.h.numOffload || p.h.currentGroup <= Window(p.h.numLayers, p.h.numOffload, tag.group)
  {
    var g := tag.group;
    ReleasedNow(p);
    if g >= p.h.numOffload {
      NeverMapped(p, g);
      NotOffloaded(p, tag);
    } else {
      ReleasedIff(p.h.numLayers, p.h.numOffload, Unreleased(p), p.h.currentGroup, g);
      if Unreleased(p) <= g {
        StillResident(p, tag);
      } else {
        NotResident(p, g);
      }
    }
  }

  lemma NotOffloaded(p: Pass, tag: Tag)
    requires Inv(p) && tag in p.live && tag.group !in p.h.mapping
    ensures Resident(p.h, tag.group)
  {
    hide KeysAgree, Numel, Window, WindowMap, OrderOk, BufferOk;
    assert EntryOk(p.h, p.live, tag);
  }

  lemma NeverMapped(p: Pass, g: nat)
    requires Inv(p) && g >= p.h.numOffload
    ensures g !in p.h.mapping
  {
    ReleasedNow(p);
    hide EntriesOk, KeysAgree, Window, WindowMap, OrderOk, BufferOk;
  }

  lemma StillResident(p: Pass, tag: Tag)
    requires Inv(p) && BuffersHold(p) && tag in p.live && tag.group < p.h.numOffload && Unreleased(p) <= tag.group
    ensures Resident(p.h, tag.group)
  {
    hide KeysAgree, Numel, Window, WindowMap, OrderOk, Released;
    if p.backward {
      assert tag.group !in p.h.mapping;
      hide BuffersHold;
      NotOffloaded(p, tag);
    } else {
      assert p.h.buf[tag] == Some(p.live[tag]);
    }
  }

  lemma NotResident(p: Pass, g: nat)
    requires Inv(p) && MappedOffloaded(p.h) && g < Unreleased(p)
    ensures !Resident(p.h, g)
  {
    ReleasedNow(p);
    if !p.backward {
      CountBehind(p.h.numLayers, p.h.numOffload, p.h.offloadedCount, p.h.currentGroup);
    }
    hide KeysAgree, EntryOk, Window, WindowMap, OrderOk;
    assert g in p.h.mapping;
  }

  /**
   The whole schedule, at every point of any training step with fewer groups than layers offloaded: what is in
   the buffer of each saved tensor, and which groups are in device memory.
  */
  lemma WhereTensorsAre(n: nat, num: nat, ops: seq<Op>, tag: Tag)
    requires 1 <= num < n && LegalRun(Pass(Fresh(n, num), map[], false), ops)
    ensures RunAll(Pass(Fresh(n, num), map[], false), ops).Some?
    ensures var p := RunAll(Pass(Fresh(n, num), map[], false), ops).value;
      tag in p.live ==>
        && (Resident(p.h, tag.group) <==> tag.group >= num || p.h.currentGroup <= Window(n, num, tag.group))
        && (tag.group < num ==>
              && tag in p.h.buf
              && p.h.buf[tag] ==
                 if !p.backward && p.h.currentGroup <= Window(n, num, tag.group) then Some(p.live[tag]) else None)
  {
    hide Inv, Legal, LegalRun, RunAll, Resident, BuffersHold;
    var start := Pass(Fresh(n, num), map[], false);
    FreshInv(n, num);
    RunAllOk(start, ops);
    RunKeepsMapped(start, ops);
    NothingToHold(n, num);
    RunHolds(start, ops);
    var p := RunAll(start, ops).value;
    if tag in p.live {
      ResidentIff(p, tag);
      if tag.group < num {
        HeldUntilReleased(p, tag);
      }
    }
  }

  lemma NothingToHold(n: nat, num: nat)
    ensures BuffersHold(Pass(Fresh(n, num), map[], false))
  {
  }

  // ---------- offloading every group ----------

  /** With as many groups offloaded as there are layers, only the first group's tensors are ever moved. */
  ghost predicate OnlyFirstMoved(h: Handler) {
    forall tag <- h.state | h.state[tag].Offloaded? :: tag.group == 0
  }

  lemma WindowOfAll(n: nat, i: nat)
    requires i < n
    ensures Window(n, n, i) == i
  {
    DivUnique(n, n, 1, 0);
  }

  lemma EarlyOffloadMovesNothing(h: Handler, g: nat)
    requires OnlyFirstMoved(h) && BulkOffload(h, g).Some? && (g == 0 || forall tag <- h.state :: tag.group != g)
    ensures OnlyFirstMoved(BulkOffload(h, g).value)
  {
  }

  lemma StepMovesFirst(p: Pass, op: Op)
    requires Inv(p) && Legal(p, op) && Run(p, op).Some? && p.h.numOffload == p.h.numLayers && OnlyFirstMoved(p.h)
    ensures OnlyFirstMoved(Run(p, op).value.h)
  {
    hide EntriesOk, OrderOk, KeysAgree, BufferOk, BulkOffload, BulkReload, Numel, Window;
    match op
    case PushTensor(t) =>
    case PopTensor(tag) =>
    case ForwardCommit => ForwardMovesFirst(p);
    case BackwardCommit =>
      var h1 := p.h.(currentGroup := p.h.currentGroup - 1);
      if h1.window[h1.offloadedCount - 1] == h1.currentGroup {
        ReloadMovesFirst(h1, h1.offloadedCount - 1);
      }
  }

  lemma ReloadMovesFirst(h: Handler, g: int)
    requires OnlyFirstMoved(h) && BulkReload(h, g).Some?
    ensures OnlyFirstMoved(BulkReload(h, g).value)
  {
  }

  lemma ForwardMovesFirst(p: Pass)
    requires Inv(p) && Legal(p, ForwardCommit) && Run(p, ForwardCommit).Some?
    requires p.h.numOffload == p.h.numLayers && OnlyFirstMoved(p.h)
    ensures OnlyFirstMoved(Run(p, ForwardCommit).value.h)
  {
    hide EntriesOk, OrderOk, KeysAgree, BufferOk, BulkOffload, Numel, Window, Released;
    ReleasedNow(p);
    var h := StartForward(p.h).value;
    if p.h.currentGroup == 0 {
      EarlyOffloadMovesNothing(p.h, 0);
      OffloadKeepsTags(p.h, 0);
    }
    if h.window[h.offloadedCount] == h.currentGroup && h.offloadedCount < h.numOffload - 1 {
      WindowOfAll(h.numLayers, h.offloadedCount);
      EarlyOffloadMovesNothing(ReleaseBuffers(h, h.offloadedCount), h.offloadedCount + 1);
    }
  }

  lemma {:induction false} RunMovesFirst(p: Pass, ops: seq<Op>)
    requires Inv(p) && LegalRun(p, ops) && p.h.numOffload == p.h.numLayers && OnlyFirstMoved(p.h)
    ensures RunAll(p, ops).Some? && OnlyFirstMoved(RunAll(p, ops).value.h)
    decreases |ops|
  {
    hide Inv, Legal, Run, OnlyFirstMoved;
    if ops != [] {
      StepOk(p, ops[0]);
      RunKeepsSizes(p, ops[0]);
      StepMovesFirst(p, ops[0]);
      RunMovesFirst(Run(p, ops[0]).value, ops[1..]);
    }
  }

  /**
   Offloading all n groups moves less than offloading n - 1: group g + 1 is offloaded when commit g closes
   the window of group g, before anything has been pushed to it.
  */
  lemma AllGroupsStay(n: nat, ops: seq<Op>, tag: Tag)
    requires n >= 1 && LegalRun(Pass(Fresh(n, n), map[], false), ops) && tag.group > 0
    ensures RunAll(Pass(Fresh(n, n), map[], false), ops).Some?
    ensures var h := RunAll(Pass(Fresh(n, n), map[], false), ops).value.h;
      tag in h.state ==> h.state[tag].OnDevice?
  {
    hide Inv, Legal, LegalRun, RunAll;
    var start := Pass(Fresh(n, n), map[], false);
    FreshInv(n, n);
    RunMovesFirst(start, ops);
  }
}
