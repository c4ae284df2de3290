/**
 Merging the model chunks of one pipeline rank into one state dict (`_merge_state_dicts` in
 verl/verl/model_merger/megatron_model_merger.py): local layers are renumbered globally, and fused tensors are
 entered part by part.
*/
module StateDictMerge {
  import opened Arithmetic
  import opened Weights

  // ---------- places within consecutive blocks ----------

  /** Position `at` of block b, when blocks of the given sizes follow one another. */
  function Place(sizes: seq<nat>, b: nat, at: nat): nat
    requires b < |sizes| && at < sizes[b]
  {
    Sum(sizes[..b]) + at
  }

  lemma PlaceInRange(sizes: seq<nat>, b: nat, at: nat)
    requires b < |sizes| && at < sizes[b]
    ensures Sum(sizes[..b]) <= Place(sizes, b, at) < Sum(sizes[..b + 1]) <= Sum(sizes)
  {
    SumStep(sizes, b);
    SumMono(sizes, b + 1, |sizes|);
    assert sizes[..|sizes|] == sizes;
  }

  lemma PlaceInjective(sizes: seq<nat>, b: nat, at: nat, b': nat, at': nat)
    requires b < |sizes| && at < sizes[b] && b' < |sizes| && at' < sizes[b']
    requires Place(sizes, b, at) == Place(sizes, b', at')
    ensures b == b' && at == at'
  {
    PlaceInRange(sizes, b, at);
    PlaceInRange(sizes, b', at');
    if b < b' {
      SumMono(sizes, b + 1, b');
    } else if b' < b {
      SumMono(sizes, b' + 1, b);
    }
  }

  lemma {:induction false} PlaceSurjective(sizes: seq<nat>, g: nat) returns (b: nat, at: nat)
    requires g < Sum(sizes)
    ensures b < |sizes| && at < sizes[b] && Place(sizes, b, at) == g
  {
    var n := |sizes| - 1;
    if g < Sum(sizes[..n]) {
      b, at := PlaceSurjective(sizes[..n], g);
      assert sizes[..n][..b] == sizes[..b];
    } else {
      b, at := n, g - Sum(sizes[..n]);
    }
  }

  // ---------- the entries of a model chunk ----------

  /** What `_split_tensors` returns: one tensor, gate and up, or query, key and value. */
  datatype Parts<T> = Whole(tensor: T) | GateUp(gate: T, up: T) | Qkv(q: T, k: T, v: T)

  /** A tensor of one model chunk: its local layer, if it belongs to one, and the rest of its renamed key. */
  datatype Entry<T> = Entry(layer: Option<nat>, rest: string, parts: Parts<T>)

  /** `s.replace(old, new)`. */
  function Replace(s: string, old_: string, new_: string): string
    requires old_ != ""
  {
    if |s| < |old_| then s
    else if s[..|old_|] == old_ then new_ + Replace(s[|old_|..], old_, new_)
    else [s[0]] + Replace(s[1..], old_, new_)
  }

  /** The assignments of one entry: name and tensor. */
  function Named<T>(e: Entry<T>): seq<(string, T)> {
    match e.parts
    case Whole(t) => [(e.rest, t)]
    case GateUp(g, u) => [(Replace(e.rest, "gate_up", "gate"), g), (Replace(e.rest, "gate_up", "up"), u)]
    case Qkv(q, k, v) =>
      [(Replace(e.rest, "qkv", "q"), q), (Replace(e.rest, "qkv", "k"), k), (Replace(e.rest, "qkv", "v"), v)]
  }

  type Key = (Option<nat>, string)

  function NewLayer(layer: Option<nat>, layersCum: nat): Option<nat> {
    if layer.Some? then Some(layer.value + layersCum) else None
  }

  /** An assignment before renumbering. */
  type Item<T> = (Key, T)

  function EntryItems<T>(e: Entry<T>): seq<Item<T>> {
    var named := Named(e);
    seq(|named|, i requires 0 <= i < |named| => ((e.layer, named[i].0), named[i].1))
  }

  function Items<T>(chunk: seq<Entry<T>>): seq<Item<T>> {
    if chunk == [] then [] else Items(chunk[..|chunk| - 1]) + EntryItems(chunk[|chunk| - 1])
  }

  function Renumbered<T>(items: seq<Item<T>>, layersCum: nat): seq<(Key, T)> {
    seq(|items|, i requires 0 <= i < |items| => ((NewLayer(items[i].0.0, layersCum), items[i].0.1), items[i].1))
  }

  /** The highest local layer number of a chunk; 0 without any. */
  function LayersHandled<T>(chunk: seq<Entry<T>>): nat {
    if chunk == [] then 0
    else
      var handled, e := LayersHandled(chunk[..|chunk| - 1]), chunk[|chunk| - 1];
      if e.layer.Some? && e.layer.value > handled then e.layer.value else handled
  }

  function LayersBefore<T>(chunks: seq<seq<Entry<T>>>, layerStart: nat): nat {
    if chunks == [] then layerStart
    else LayersBefore(chunks[..|chunks| - 1], layerStart) + LayersHandled(chunks[|chunks| - 1]) + 1
  }

  /** The assignments to the state dict, in order. */
  function Writes<T>(chunks: seq<seq<Entry<T>>>, layerStart: nat): seq<(Key, T)> {
    if chunks == [] then []
    else
      var n := |chunks| - 1;
      Writes(chunks[..n], layerStart) + Renumbered(Items(chunks[n]), LayersBefore(chunks[..n], layerStart))
  }

  function Written<K, T>(writes: seq<(K, T)>): map<K, T> {
    if writes == [] then map[] else Written(writes[..|writes| - 1])[writes[|writes| - 1].0 := writes[|writes| - 1].1]
  }

  // ---------- the loops ----------

  lemma WrittenOneMore<K, T>(writes: seq<(K, T)>, k: K, t: T)
    ensures Written(writes + [(k, t)]) == Written(writes)[k := t]
  {
    assert (writes + [(k, t)])[..|writes|] == writes;
  }

  lemma RenumberedConcat<T>(a: seq<Item<T>>, b: seq<Item<T>>, layersCum: nat)
    ensures Renumbered(a + b, layersCum) == Renumbered(a, layersCum) + Renumbered(b, layersCum)
  {
  }

  lemma ChunkStep<T>(before: seq<(Key, T)>, chunk: seq<Entry<T>>, layersCum: nat, i: nat)
    requires i < |chunk|
    ensures before + Renumbered(Items(chunk[..i + 1]), layersCum) ==
      (before + Renumbered(Items(chunk[..i]), layersCum)) + Renumbered(EntryItems(chunk[i]), layersCum)
    ensures var handled, e := LayersHandled(chunk[..i]), chunk[i];
      LayersHandled(chunk[..i + 1]) == if e.layer.Some? && e.layer.value > handled then e.layer.value else handled
  {
    hide Renumbered, EntryItems;
    assert chunk[..i + 1][..i] == chunk[..i];
    RenumberedConcat(Items(chunk[..i]), EntryItems(chunk[i]), layersCum);
  }

  lemma NoItems<T>(before: seq<(Key, T)>, chunk: seq<Entry<T>>, layersCum: nat)
    ensures before + Renumbered(Items(chunk[..0]), layersCum) == before && LayersHandled(chunk[..0]) == 0
  {
  }

  /** The part of the loop body that enters the tensors of one key. */
  method WriteEntry<T>(stateDict: map<Key, T>, e: Entry<T>, layersCum: nat, ghost before: seq<(Key, T)>)
    returns (stateDict': map<Key, T>)
    requires stateDict == Written(before)
    ensures stateDict' == Written(before + Renumbered(EntryItems(e), layersCum))
  {
    var layer := NewLayer(e.layer, layersCum);
    hide Written, Replace;
    match e.parts {
      case Whole(t) =>
        stateDict' := stateDict[(layer, e.rest) := t];
        WrittenOneMore(before, (layer, e.rest), t);
        assert Renumbered(EntryItems(e), layersCum) == [((layer, e.rest), t)];
      case GateUp(g, u) =>
        var gate, up := (layer, Replace(e.rest, "gate_up", "gate")), (layer, Replace(e.rest, "gate_up", "up"));
        stateDict' := stateDict[gate := g];
        stateDict' := stateDict'[up := u];
        WrittenOneMore(before, gate, g);
        WrittenOneMore(before + [(gate, g)], up, u);
        assert before + Renumbered(EntryItems(e), layersCum) == before + [(gate, g)] + [(up, u)];
      case Qkv(tq, tk, tv) =>
        var q, k := (layer, Replace(e.rest, "qkv", "q")), (layer, Replace(e.rest, "qkv", "k"));
        var v := (layer, Replace(e.rest, "qkv", "v"));
        stateDict' := stateDict[q := tq];
        stateDict' := stateDict'[k := tk];
        stateDict' := stateDict'[v := tv];
        WrittenOneMore(before, q, tq);
        WrittenOneMore(before + [(q, tq)], k, tk);
        WrittenOneMore(before + [(q, tq)] + [(k, tk)], v, tv);
        assert before + Renumbered(EntryItems(e), layersCum) == before + [(q, tq)] + [(k, tk)] + [(v, tv)];
    }
  }

  /** The inner loop of `_merge_state_dicts`, over the keys of one model chunk. */
  method MergeChunk<T>(stateDict: map<Key, T>, chunk: seq<Entry<T>>, layersCum: nat, ghost before: seq<(Key, T)>)
    returns (stateDict': map<Key, T>, layersHandled: nat)
    requires stateDict == Written(before)
    ensures stateDict' == Written(before + Renumbered(Items(chunk), layersCum)) && layersHandled == LayersHandled(chunk)
  {
    stateDict', layersHandled := stateDict, 0;
    hide Written, Renumbered, Items, EntryItems, LayersHandled;
    NoItems(before, chunk, layersCum);
    for i := 0 to |chunk|
      invariant stateDict' == Written(before + Renumbered(Items(chunk[..i]), layersCum))
      invariant layersHandled == LayersHandled(chunk[..i])
    {
      ChunkStep(before, chunk, layersCum, i);
      if chunk[i].layer.Some? && chunk[i].layer.value > layersHandled {
        layersHandled := chunk[i].layer.value;
      }
      stateDict' := WriteEntry(stateDict', chunk[i], layersCum, before + Renumbered(Items(chunk[..i]), layersCum));
    }
    assert chunk[..|chunk|] == chunk;
  }

  method MergeStateDicts<T>(chunks: seq<seq<Entry<T>>>, pipelineShards: seq<nat>, rank: nat)
    returns (stateDict: map<Key, T>)
    requires rank < |pipelineShards|
    ensures stateDict == Written(Writes(chunks, Sum(pipelineShards[..rank])))
  {
    hide Written, Renumbered, Items, LayersHandled;
    stateDict := map[];
    NothingWritten<Key, T>();
    var layersCum := if rank == 0 then 0 else Sum(pipelineShards[..rank]);
    ghost var start := layersCum;
    for c := 0 to |chunks|
      invariant stateDict == Written(Writes(chunks[..c], start)) && layersCum == LayersBefore(chunks[..c], start)
    {
      assert chunks[..c + 1][..c] == chunks[..c];
      var layersHandled;
      stateDict, layersHandled := MergeChunk(stateDict, chunks[c], layersCum, Writes(chunks[..c], start));
      layersCum := layersCum + layersHandled + 1;
    }
    assert chunks[..|chunks|] == chunks;
  }

  lemma NothingWritten<K, T>()
    ensures Written<K, T>([]) == map[]
  {
  }

  // ---------- what the dictionary holds ----------

  ghost predicate DistinctWrites<K, T>(writes: seq<(K, T)>) {
    forall i, j | 0 <= i < j < |writes| :: writes[i].0 != writes[j].0
  }

  function KeySet<K, T>(writes: seq<(K, T)>): set<K> {
    set i | 0 <= i < |writes| :: writes[i].0
  }

  lemma KeySetConcat<K, T>(a: seq<(K, T)>, b: seq<(K, T)>)
    ensures KeySet(a + b) == KeySet(a) + KeySet(b)
  {
    var s := a + b;
    forall k ensures k in KeySet(s) <==> k in KeySet(a) + KeySet(b) {
      if k in KeySet(s) {
        var i :| 0 <= i < |s| && s[i].0 == k;
        assert i < |a| ==> a[i].0 == k;
        assert i >= |a| ==> b[i - |a|].0 == k;
      }
      if k in KeySet(a) {
        var i :| 0 <= i < |a| && a[i].0 == k;
        assert s[i].0 == k;
      }
      if k in KeySet(b) {
        var i :| 0 <= i < |b| && b[i].0 == k;
        assert s[|a| + i].0 == k;
      }
    }
  }

  lemma DistinctConcat<K, T>(a: seq<(K, T)>, b: seq<(K, T)>)
    ensures DistinctWrites(a + b) <==> DistinctWrites(a) && DistinctWrites(b) && KeySet(a) !! KeySet(b)
  {
    var s := a + b;
    if DistinctWrites(s) {
      forall i, j | 0 <= i < j < |a| ensures a[i].0 != a[j].0 {
        assert s[i].0 != s[j].0;
      }
      forall i, j | 0 <= i < j < |b| ensures b[i].0 != b[j].0 {
        assert s[|a| + i].0 != s[|a| + j].0;
      }
      forall i, j | 0 <= i < |a| && 0 <= j < |b| ensures a[i].0 != b[j].0 {
        assert s[i].0 != s[|a| + j].0;
      }
    }
    if DistinctWrites(a) && DistinctWrites(b) && KeySet(a) !! KeySet(b) {
      forall i, j | 0 <= i < j < |s| ensures s[i].0 != s[j].0 {
        if i < |a| <= j {
          assert a[i].0 in KeySet(a) && b[j - |a|].0 in KeySet(b);
        } else if |a| <= i {
          assert b[i - |a|].0 != b[j - |a|].0;
        }
      }
    }
  }

  lemma DistinctOne<K, T>(w: (K, T))
    ensures DistinctWrites([w]) && KeySet([w]) == {w.0}
  {
    assert [w][0].0 in KeySet([w]);
  }

  /** Without a repeated key every write is there, and nothing else is; with one, some write is lost. */
  lemma {:induction false} WrittenIs<K, T>(writes: seq<(K, T)>)
    ensures Written(writes).Keys == KeySet(writes)
    ensures |Written(writes)| <= |writes| && (|Written(writes)| == |writes| <==> DistinctWrites(writes))
    ensures DistinctWrites(writes) ==> forall i | 0 <= i < |writes| :: Written(writes)[writes[i].0] == writes[i].1
  {
    if writes != [] {
      var n := |writes| - 1;
      var init, w := writes[..n], writes[n];
      assert writes == init + [w];
      WrittenIs(init);
      DistinctConcat(init, [w]);
      KeySetConcat(init, [w]);
      DistinctOne(w);
      MapGrows(Written(init), w.0, w.1);
      if DistinctWrites(writes) {
        forall i | 0 <= i < |writes| ensures Written(writes)[writes[i].0] == writes[i].1 {
          if i < n {
            assert init[i].0 in KeySet(init);
          }
        }
      }
    }
  }

  lemma MapGrows<K, T>(m: map<K, T>, k: K, t: T)
    ensures m[k := t].Keys == m.Keys + {k}
    ensures |m[k := t]| == if k in m then |m| else |m| + 1
  {
    assert m[k := t].Keys == m.Keys + {k};
    assert |m| == |m.Keys| && |m[k := t]| == |m[k := t].Keys|;
    if k in m {
      assert m.Keys + {k} == m.Keys;
    }
  }

  lemma {:induction false} HandledIsLast<T>(chunk: seq<Entry<T>>)
    ensures forall e <- chunk :: e.layer.Some? ==> e.layer.value <= LayersHandled(chunk)
    ensures LayersHandled(chunk) == 0 || exists e <- chunk :: e.layer == Some(LayersHandled(chunk))
  {
    if chunk != [] {
      var n := |chunk| - 1;
      assert chunk == chunk[..n] + [chunk[n]];
      HandledIsLast(chunk[..n]);
      if LayersHandled(chunk) == LayersHandled(chunk[..n]) && LayersHandled(chunk) != 0 {
        var e :| e in chunk[..n] && e.layer == Some(LayersHandled(chunk[..n]));
        assert e in chunk;
      } else {
        assert chunk[n] in chunk;
      }
    }
  }

  ghost predicate LayerIn<T>(chunk: seq<Entry<T>>, layer: Option<nat>) {
    exists e <- chunk :: e.layer == layer
  }

  lemma LayerInMore<T>(chunk: seq<Entry<T>>, n: nat, layer: Option<nat>)
    requires n == |chunk| - 1
    ensures LayerIn(chunk[..n], layer) || chunk[n].layer == layer ==> LayerIn(chunk, layer)
  {
    assert chunk[n] in chunk;
    if LayerIn(chunk[..n], layer) {
      var e :| e in chunk[..n] && e.layer == layer;
      assert e in chunk;
    }
  }

  lemma EntryLayer<T>(e: Entry<T>)
    ensures forall i | 0 <= i < |EntryItems(e)| :: EntryItems(e)[i].0.0 == e.layer
  {
  }

  lemma {:induction false} ItemLayers<T>(chunk: seq<Entry<T>>)
    ensures forall i | 0 <= i < |Items(chunk)| :: LayerIn(chunk, Items(chunk)[i].0.0)
  {
    hide LayerIn, EntryItems;
    if chunk != [] {
      var n := |chunk| - 1;
      ItemLayers(chunk[..n]);
      EntryLayer(chunk[n]);
      forall i | 0 <= i < |Items(chunk)| ensures LayerIn(chunk, Items(chunk)[i].0.0) {
        LayerInMore(chunk, n, Items(chunk)[i].0.0);
      }
    }
  }

  /** The layers of a chunk end up at or after its start, and before the start of the next chunk. */
  lemma ChunkKeys<T>(chunk: seq<Entry<T>>, layersCum: nat)
    ensures forall k <- KeySet(Renumbered(Items(chunk), layersCum)) ::
      k.0.Some? ==> layersCum <= k.0.value < layersCum + LayersHandled(chunk) + 1
  {
    ItemLayers(chunk);
    HandledIsLast(chunk);
    forall i | 0 <= i < |Items(chunk)|
      ensures Items(chunk)[i].0.0.Some? ==> Items(chunk)[i].0.0.value <= LayersHandled(chunk)
    {
      assert LayerIn(chunk, Items(chunk)[i].0.0);
    }
  }

  lemma {:induction false} EarlierKeys<T>(chunks: seq<seq<Entry<T>>>, layerStart: nat)
    ensures layerStart <= LayersBefore(chunks, layerStart)
    ensures forall k <- KeySet(Writes(chunks, layerStart)) ::
      k.0.Some? ==> layerStart <= k.0.value < LayersBefore(chunks, layerStart)
  {
    if chunks == [] {
      assert Writes(chunks, layerStart) == [];
    } else {
      var n := |chunks| - 1;
      EarlierKeys(chunks[..n], layerStart);
      var a, b := Writes(chunks[..n], layerStart), Renumbered(Items(chunks[n]), LayersBefore(chunks[..n], layerStart));
      ChunkKeys(chunks[n], LayersBefore(chunks[..n], layerStart));
      KeySetConcat(a, b);
      assert Writes(chunks, layerStart) == a + b;
      forall k: Key | k in KeySet(a + b)
        ensures k.0.Some? ==> layerStart <= k.0.value < LayersBefore(chunks, layerStart)
      {
        assert k in KeySet(a) || k in KeySet(b);
      }
    }
  }

  lemma NoKeys<K, T>()
    ensures KeySet<K, T>([]) == {} && DistinctWrites<K, T>([])
  {
  }

  /** The names of the tensors that belong to no layer. */
  function Layerless<T>(items: seq<Item<T>>): set<string> {
    set i | 0 <= i < |items| && items[i].0.0.None? :: items[i].0.1
  }

  lemma LayerlessKeys<T>(items: seq<Item<T>>, layersCum: nat, name: string)
    ensures name in Layerless(items) <==> (None, name) in KeySet(Renumbered(items, layersCum))
  {
    var r := Renumbered(items, layersCum);
    if name in Layerless(items) {
      var i :| 0 <= i < |items| && items[i].0.0.None? && items[i].0.1 == name;
      assert r[i].0 == (None, name);
    }
    if (None, name) in KeySet(r) {
      var i :| 0 <= i < |r| && r[i].0 == (None, name);
      assert items[i].0 == (None, name);
    }
  }

  /** Renumbering one chunk neither joins nor parts keys. */
  lemma RenumberedDistinct<T>(items: seq<Item<T>>, layersCum: nat)
    ensures DistinctWrites(Renumbered(items, layersCum)) <==> DistinctWrites(items)
  {
    var r := Renumbered(items, layersCum);
    forall i, j | 0 <= i < j < |items| ensures r[i].0 == r[j].0 <==> items[i].0 == items[j].0 {
      assert items[i].0 == (items[i].0.0, items[i].0.1) && items[j].0 == (items[j].0.0, items[j].0.1);
    }
  }

  ghost predicate LayerlessApart<T>(chunks: seq<seq<Entry<T>>>) {
    forall c, c' | 0 <= c < c' < |chunks| :: Layerless(Items(chunks[c])) !! Layerless(Items(chunks[c']))
  }

  ghost predicate ChunksDistinct<T>(chunks: seq<seq<Entry<T>>>) {
    forall c | 0 <= c < |chunks| :: DistinctWrites(Items(chunks[c]))
  }

  lemma {:induction false} LayerlessBefore<T>(chunks: seq<seq<Entry<T>>>, layerStart: nat, name: string)
    ensures (None, name) in KeySet(Writes(chunks, layerStart)) <==>
      exists c | 0 <= c < |chunks| :: name in Layerless(Items(chunks[c]))
  {
    hide KeySet, Renumbered, Items, LayersHandled, Layerless;
    if chunks == [] {
      NoKeys<Key, T>();
    } else {
      var n := |chunks| - 1;
      LayerlessBefore(chunks[..n], layerStart, name);
      LayerlessKeys(Items(chunks[n]), LayersBefore(chunks[..n], layerStart), name);
      KeySetConcat(Writes(chunks[..n], layerStart),
                   Renumbered(Items(chunks[n]), LayersBefore(chunks[..n], layerStart)));
      if c :| 0 <= c < |chunks| && name in Layerless(Items(chunks[c])) {
        assert c < n ==> chunks[..n][c] == chunks[c];
      }
      if c :| 0 <= c < n && name in Layerless(Items(chunks[..n][c])) {
        assert chunks[..n][c] == chunks[c];
      }
    }
  }

  lemma CrossKeys<T>(chunks: seq<seq<Entry<T>>>, n: nat, layerStart: nat)
    requires n == |chunks| - 1
    ensures
      KeySet(Writes(chunks[..n], layerStart))
        !! KeySet(Renumbered(Items(chunks[n]), LayersBefore(chunks[..n], layerStart)))
      <==> forall c | 0 <= c < n :: Layerless(Items(chunks[c])) !! Layerless(Items(chunks[n]))
  {
    var a, cum := KeySet(Writes(chunks[..n], layerStart)), LayersBefore(chunks[..n], layerStart);
    var b := KeySet(Renumbered(Items(chunks[n]), cum));
    hide KeySet, Renumbered, Items, LayersHandled, Layerless, Writes, LayersBefore;
    EarlierKeys(chunks[..n], layerStart);
    ChunkKeys(chunks[n], cum);
    forall name: string
      ensures (None, name) in a <==> exists c | 0 <= c < n :: name in Layerless(Items(chunks[c]))
      ensures (None, name) in b <==> name in Layerless(Items(chunks[n]))
    {
      LayerlessBefore(chunks[..n], layerStart, name);
      LayerlessKeys(Items(chunks[n]), cum, name);
      assert forall c | 0 <= c < n :: chunks[..n][c] == chunks[c];
    }
    if a !! b {
      forall c, name | 0 <= c < n && name in Layerless(Items(chunks[c])) ensures name !in Layerless(Items(chunks[n])) {
        assert (None, name) in a;
      }
    }
    if forall c | 0 <= c < n :: Layerless(Items(chunks[c])) !! Layerless(Items(chunks[n])) {
      forall k | k in a ensures k !in b {
        if k.0.None? {
          assert k == (None, k.1);
        }
      }
    }
  }

  /**
   No write overwrites another exactly when no chunk has a key twice and no layerless name occurs in two
   chunks; layers of different chunks never meet.
  */
  lemma {:induction false} WritesDistinctIff<T>(chunks: seq<seq<Entry<T>>>, layerStart: nat)
    ensures DistinctWrites(Writes(chunks, layerStart)) <==> ChunksDistinct(chunks) && LayerlessApart(chunks)
  {
    hide KeySet, Renumbered, Items, LayersHandled, Layerless, DistinctWrites;
    if chunks == [] {
      NoKeys<Key, T>();
    } else {
      var n := |chunks| - 1;
      var cum := LayersBefore(chunks[..n], layerStart);
      WritesDistinctIff(chunks[..n], layerStart);
      DistinctConcat(Writes(chunks[..n], layerStart), Renumbered(Items(chunks[n]), cum));
      RenumberedDistinct(Items(chunks[n]), cum);
      CrossKeys(chunks, n, layerStart);
      LastChunk(chunks, n);
    }
  }

  lemma LastChunk<T>(chunks: seq<seq<Entry<T>>>, n: nat)
    requires n == |chunks| - 1
    ensures ChunksDistinct(chunks) <==> ChunksDistinct(chunks[..n]) && DistinctWrites(Items(chunks[n]))
    ensures LayerlessApart(chunks) <==>
      LayerlessApart(chunks[..n]) && forall c | 0 <= c < n :: Layerless(Items(chunks[c])) !! Layerless(Items(chunks[n]))
  {
    hide Items, Layerless, DistinctWrites;
    assert forall c | 0 <= c < n :: chunks[..n][c] == chunks[c];
  }

  /** Where item i of chunk c is in the state dict. */
  ghost predicate Entered<T>(dict: map<Key, T>, chunks: seq<seq<Entry<T>>>, layerStart: nat, c: nat, i: nat)
    requires c < |chunks| && i < |Items(chunks[c])|
  {
    var w := Renumbered(Items(chunks[c]), LayersBefore(chunks[..c], layerStart))[i];
    w.0 in dict && dict[w.0] == w.1
  }

  /**
   The dictionary of a rank: when no key is written twice, every tensor of every chunk is at its renumbered key,
   and there is nothing else; the number of entries tells whether it is so.
  */
  lemma MergedExactly<T>(chunks: seq<seq<Entry<T>>>, layerStart: nat)
    ensures var dict, writes := Written(Writes(chunks, layerStart)), Writes(chunks, layerStart);
      && (|dict| == |writes| <==> ChunksDistinct(chunks) && LayerlessApart(chunks))
      && dict.Keys == KeySet(writes)
    ensures ChunksDistinct(chunks) && LayerlessApart(chunks) ==>
      forall c, i | 0 <= c < |chunks| && 0 <= i < |Items(chunks[c])| ::
        Entered(Written(Writes(chunks, layerStart)), chunks, layerStart, c, i)
  {
    hide KeySet, Renumbered, Items, LayersHandled, Layerless, DistinctWrites;
    var writes := Writes(chunks, layerStart);
    WritesDistinctIff(chunks, layerStart);
    WrittenIs(writes);
    if DistinctWrites(writes) {
      forall c, i | 0 <= c < |chunks| && 0 <= i < |Items(chunks[c])|
        ensures Entered(Written(writes), chunks, layerStart, c, i)
      {
        assert chunks[..|chunks|] == chunks;
        ItemEntered(chunks, layerStart, |chunks|, c, i);
      }
    }
  }

  /** Every item of an earlier chunk is among the writes. */
  lemma {:induction false} WriteOf<T>(chunks: seq<seq<Entry<T>>>, layerStart: nat, n: nat, c: nat, i: nat)
    returns (j: nat)
    requires c < n <= |chunks| && i < |Items(chunks[c])|
    ensures j < |Writes(chunks[..n], layerStart)|
    ensures Writes(chunks[..n], layerStart)[j] == Renumbered(Items(chunks[c]), LayersBefore(chunks[..c], layerStart))[i]
  {
    hide Items, LayersHandled;
    assert chunks[..n][..n - 1] == chunks[..n - 1] && chunks[..n][n - 1] == chunks[n - 1];
    if c == n - 1 {
      j := |Writes(chunks[..n - 1], layerStart)| + i;
    } else {
      j := WriteOf(chunks, layerStart, n - 1, c, i);
    }
  }

  lemma ItemEntered<T>(chunks: seq<seq<Entry<T>>>, layerStart: nat, n: nat, c: nat, i: nat)
    requires c < n == |chunks| && i < |Items(chunks[c])| && DistinctWrites(Writes(chunks[..n], layerStart))
    ensures Entered(Written(Writes(chunks[..n], layerStart)), chunks, layerStart, c, i)
  {
    hide KeySet, Renumbered, Items, LayersHandled, Writes;
    var writes := Writes(chunks[..n], layerStart);
    var j := WriteOf(chunks, layerStart, n, c, i);
    WrittenIs(writes);
    assert writes[j].0 in KeySet(writes) by { InKeySet(writes, j); }
  }

  lemma InKeySet<K, T>(writes: seq<(K, T)>, j: nat)
    requires j < |writes|
    ensures writes[j].0 in KeySet(writes)
  {
  }

  // ---------- every tensor under its own name ----------

  ghost predicate OccursAt(s: string, old_: string, i: nat) {
    i + |old_| <= |s| && s[i..i + |old_|] == old_
  }

  /** Text without an occurrence stays as it is. */
  lemma {:induction false} ReplaceNothing(s: string, old_: string, new_: string)
    requires old_ != "" && forall i: nat :: !OccursAt(s, old_, i)
    ensures Replace(s, old_, new_) == s
  {
    if |s| >= |old_| {
      assert !OccursAt(s, old_, 0);
      forall i: nat ensures !OccursAt(s[1..], old_, i) {
        assert !OccursAt(s, old_, i + 1);
        if i + |old_| < |s| {
          assert s[1..][i..i + |old_|] == s[i + 1..i + 1 + |old_|];
        }
      }
      ReplaceNothing(s[1..], old_, new_);
    }
  }

  lemma FirstLetterOff(p: string, old_: string, s: string)
    requires p != "" && forall i: nat | i < |p| :: !OccursAt(p + old_ + s, old_, i)
    ensures (p + old_ + s)[1..] == p[1..] + old_ + s
    ensures forall i: nat | i < |p| - 1 :: !OccursAt(p[1..] + old_ + s, old_, i)
  {
    var whole, rest := p + old_ + s, p[1..] + old_ + s;
    assert whole[1..] == rest;
    forall i: nat | i < |p| - 1 ensures !OccursAt(rest, old_, i) {
      assert !OccursAt(whole, old_, i + 1);
      assert rest[i..i + |old_|] == whole[i + 1..i + 1 + |old_|];
    }
  }

  /** The leftmost occurrence is replaced, and the text behind it is treated likewise. */
  lemma {:induction false} ReplaceLeftmost(p: string, old_: string, s: string, new_: string)
    requires old_ != "" && forall i: nat | i < |p| :: !OccursAt(p + old_ + s, old_, i)
    ensures Replace(p + old_ + s, old_, new_) == p + new_ + Replace(s, old_, new_)
  {
    var whole := p + old_ + s;
    if p == "" {
      assert whole[..|old_|] == old_ && whole[|old_|..] == s;
      assert p + new_ + Replace(s, old_, new_) == new_ + Replace(s, old_, new_);
    } else {
      assert !OccursAt(whole, old_, 0);
      FirstLetterOff(p, old_, s);
      ReplaceLeftmost(p[1..], old_, s, new_);
      assert [p[0]] + (p[1..] + new_ + Replace(s, old_, new_)) == p + new_ + Replace(s, old_, new_);
    }
  }

  /** The only occurrence of `old_` in p + old_ + s is the one that is written there. */
  ghost predicate OnlyOccurrence(p: string, old_: string, s: string) {
    forall i: nat | OccursAt(p + old_ + s, old_, i) :: i == |p|
  }

  lemma ReplaceOnce(p: string, old_: string, s: string, new_: string)
    requires old_ != "" && OnlyOccurrence(p, old_, s)
    ensures Replace(p + old_ + s, old_, new_) == p + new_ + s
  {
    var whole, n := p + old_ + s, |p| + |old_|;
    forall i: nat ensures !OccursAt(s, old_, i) {
      assert !OccursAt(whole, old_, n + i);
      if i + |old_| <= |s| {
        assert s[i..i + |old_|] == whole[n + i..n + i + |old_|];
      }
    }
    ReplaceNothing(s, old_, new_);
    ReplaceLeftmost(p, old_, s, new_);
  }

  /** The names an entry puts its tensors under. */
  ghost function Names<T>(e: Entry<T>): set<string> {
    match e.parts
    case Whole(_) => {e.rest}
    case GateUp(_, _) => {Replace(e.rest, "gate_up", "gate"), Replace(e.rest, "gate_up", "up")}
    case Qkv(_, _, _) => {Replace(e.rest, "qkv", "q"), Replace(e.rest, "qkv", "k"), Replace(e.rest, "qkv", "v")}
  }

  ghost function PartCount<T>(e: Entry<T>): nat {
    match e.parts
    case Whole(_) => 1
    case GateUp(_, _) => 2
    case Qkv(_, _, _) => 3
  }

  /** Within a layer of one chunk all names are different. */
  ghost predicate ChunkNamesApart<T>(chunk: seq<Entry<T>>) {
    && (forall i | 0 <= i < |chunk| :: |Names(chunk[i])| == PartCount(chunk[i]))
    && forall i, j | 0 <= i < j < |chunk| && chunk[i].layer == chunk[j].layer :: Names(chunk[i]) !! Names(chunk[j])
  }

  ghost predicate LayerlessName<T>(chunk: seq<Entry<T>>, name: string) {
    exists i | 0 <= i < |chunk| :: chunk[i].layer == None && name in Names(chunk[i])
  }

  /** So are the names of tensors without a layer, over all chunks. */
  ghost predicate NamesApart<T>(chunks: seq<seq<Entry<T>>>) {
    && (forall c | 0 <= c < |chunks| :: ChunkNamesApart(chunks[c]))
    && forall c, c', name | 0 <= c < c' < |chunks| && LayerlessName(chunks[c], name) :: !LayerlessName(chunks[c'], name)
  }

  lemma EntryNames<T>(e: Entry<T>, k: Key)
    ensures k in KeySet(EntryItems(e)) <==> k.0 == e.layer && k.1 in Names(e)
    ensures DistinctWrites(EntryItems(e)) <==> |Names(e)| == PartCount(e)
  {
    var items := EntryItems(e);
    hide Replace;
    match e.parts {
      case Whole(t) =>
        assert items == [((e.layer, e.rest), t)];
        DistinctOne(items[0]);
      case GateUp(g, u) =>
        var gate, up := Replace(e.rest, "gate_up", "gate"), Replace(e.rest, "gate_up", "up");
        assert items == [((e.layer, gate), g), ((e.layer, up), u)];
        assert items[0].0 in KeySet(items) && items[1].0 in KeySet(items);
        CardTwo(gate, up);
      case Qkv(tq, tk, tv) =>
        var q, k', v := Replace(e.rest, "qkv", "q"), Replace(e.rest, "qkv", "k"), Replace(e.rest, "qkv", "v");
        assert items == [((e.layer, q), tq), ((e.layer, k'), tk), ((e.layer, v), tv)];
        assert items[0].0 in KeySet(items) && items[1].0 in KeySet(items) && items[2].0 in KeySet(items);
        CardThree(q, k', v);
    }
  }

  lemma CardTwo(a: string, b: string)
    ensures |{a, b}| == 2 <==> a != b
  {
  }

  lemma CardThree(a: string, b: string, c: string)
    ensures |{a, b, c}| == 3 <==> a != b && a != c && b != c
  {
    assert a == b ==> {a, b, c} == {a, c};
    assert a == c ==> {a, b, c} == {a, b};
    assert b == c ==> {a, b, c} == {a, b};
  }

  ghost predicate NamedIn<T>(chunk: seq<Entry<T>>, k: Key) {
    exists i | 0 <= i < |chunk| :: chunk[i].layer == k.0 && k.1 in Names(chunk[i])
  }

  lemma NamedInMore<T>(chunk: seq<Entry<T>>, n: nat, k: Key)
    requires n == |chunk| - 1
    ensures NamedIn(chunk, k) <==> NamedIn(chunk[..n], k) || (chunk[n].layer == k.0 && k.1 in Names(chunk[n]))
  {
    hide Names;
    assert forall i | 0 <= i < n :: chunk[..n][i] == chunk[i];
  }

  lemma {:induction false} ItemKeys<T>(chunk: seq<Entry<T>>, k: Key)
    ensures k in KeySet(Items(chunk)) <==> NamedIn(chunk, k)
  {
    hide KeySet, EntryItems, Names;
    if chunk == [] {
      NoKeys<Key, T>();
    } else {
      var n := |chunk| - 1;
      ItemKeys(chunk[..n], k);
      EntryNames(chunk[n], k);
      KeySetConcat(Items(chunk[..n]), EntryItems(chunk[n]));
      NamedInMore(chunk, n, k);
    }
  }

  lemma {:induction false} ItemsDistinctIff<T>(chunk: seq<Entry<T>>)
    ensures DistinctWrites(Items(chunk)) <==> ChunkNamesApart(chunk)
  {
    hide KeySet, EntryItems, Names, PartCount, DistinctWrites, NamedIn;
    if chunk == [] {
      NoKeys<Key, T>();
    } else {
      var n := |chunk| - 1;
      ItemsDistinctIff(chunk[..n]);
      EntryNames(chunk[n], (None, ""));
      DistinctConcat(Items(chunk[..n]), EntryItems(chunk[n]));
      LastNamesApart(chunk, n);
      forall k: Key
        ensures k in KeySet(Items(chunk[..n])) <==> NamedIn(chunk[..n], k)
        ensures k in KeySet(EntryItems(chunk[n])) <==> k.0 == chunk[n].layer && k.1 in Names(chunk[n])
      {
        ItemKeys(chunk[..n], k);
        EntryNames(chunk[n], k);
      }
    }
  }

  lemma LastNamesApart<T>(chunk: seq<Entry<T>>, n: nat)
    requires n == |chunk| - 1
    ensures ChunkNamesApart(chunk) <==>
      && ChunkNamesApart(chunk[..n]) && |Names(chunk[n])| == PartCount(chunk[n])
      && forall name <- Names(chunk[n]) :: !NamedIn(chunk[..n], (chunk[n].layer, name))
  {
    hide Names, PartCount;
    var init := chunk[..n];
    assert forall i | 0 <= i < n :: init[i] == chunk[i];
  }

  lemma LayerlessNames<T>(chunk: seq<Entry<T>>, name: string)
    ensures name in Layerless(Items(chunk)) <==> LayerlessName(chunk, name)
  {
    hide Items, Names;
    ItemKeys(chunk, (None, name));
    var items := Items(chunk);
    if (None, name) in KeySet(items) {
      var i :| 0 <= i < |items| && items[i].0 == (None, name);
      assert items[i].0.0.None?;
    }
    if name in Layerless(items) {
      var i :| 0 <= i < |items| && items[i].0.0.None? && items[i].0.1 == name;
      assert items[i].0 == (None, name);
    }
  }

  /** No key is written twice exactly when the names are apart. */
  lemma NamesApartIff<T>(chunks: seq<seq<Entry<T>>>)
    ensures ChunksDistinct(chunks) && LayerlessApart(chunks) <==> NamesApart(chunks)
  {
    hide Items, Layerless, LayerlessName, ChunkNamesApart, DistinctWrites;
    forall c | 0 <= c < |chunks| ensures DistinctWrites(Items(chunks[c])) <==> ChunkNamesApart(chunks[c]) {
      ItemsDistinctIff(chunks[c]);
    }
    forall c, name: string | 0 <= c < |chunks|
      ensures name in Layerless(Items(chunks[c])) <==> LayerlessName(chunks[c], name)
    {
      LayerlessNames(chunks[c], name);
    }
  }

  /** Part j of entry a is among the items. */
  lemma {:induction false} ItemOf<T>(chunk: seq<Entry<T>>, n: nat, a: nat, j: nat) returns (i: nat)
    requires a < n <= |chunk| && j < |EntryItems(chunk[a])|
    ensures i < |Items(chunk[..n])| && Items(chunk[..n])[i] == EntryItems(chunk[a])[j]
  {
    hide EntryItems;
    assert chunk[..n][..n - 1] == chunk[..n - 1] && chunk[..n][n - 1] == chunk[n - 1];
    if a == n - 1 {
      i := |Items(chunk[..n - 1])| + j;
    } else {
      i := ItemOf(chunk, n - 1, a, j);
    }
  }

  ghost predicate Holds<K, T>(dict: map<K, T>, key: K, t: T) {
    key in dict && dict[key] == t
  }

  lemma PartInPlace<T>(chunks: seq<seq<Entry<T>>>, layerStart: nat, c: nat, a: nat, j: nat)
    requires NamesApart(chunks) && c < |chunks| && a < |chunks[c]| && j < |EntryItems(chunks[c][a])|
    ensures var item := EntryItems(chunks[c][a])[j];
      var number := NewLayer(item.0.0, LayersBefore(chunks[..c], layerStart));
      Holds(Written(Writes(chunks, layerStart)), (number, item.0.1), item.1)
  {
    hide Written, Writes, Items, EntryItems, NamesApart, ChunksDistinct, LayerlessApart;
    NamesApartIff(chunks);
    MergedExactly(chunks, layerStart);
    var chunk := chunks[c];
    assert chunk[..|chunk|] == chunk;
    var i := ItemOf(chunk, |chunk|, a, j);
    assert Entered(Written(Writes(chunks, layerStart)), chunks, layerStart, c, i);
  }

  /**
   When the names are apart, the dictionary holds every whole tensor under its own name, and of a fused one every
   part under the name in which the part's own word stands for the fused one.
  */
  lemma TensorsInPlace<T>(chunks: seq<seq<Entry<T>>>, layerStart: nat, c: nat, a: nat)
    requires NamesApart(chunks) && c < |chunks| && a < |chunks[c]|
    ensures
      var dict, e := Written(Writes(chunks, layerStart)), chunks[c][a];
      var layer := if e.layer.Some? then Some(e.layer.value + LayersBefore(chunks[..c], layerStart)) else None;
      match e.parts
      case Whole(t) => Holds(dict, (layer, e.rest), t)
      case GateUp(g, u) =>
        && Holds(dict, (layer, Replace(e.rest, "gate_up", "gate")), g)
        && Holds(dict, (layer, Replace(e.rest, "gate_up", "up")), u)
      case Qkv(q, k, v) =>
        && Holds(dict, (layer, Replace(e.rest, "qkv", "q")), q)
        && Holds(dict, (layer, Replace(e.rest, "qkv", "k")), k)
        && Holds(dict, (layer, Replace(e.rest, "qkv", "v")), v)
  {
    hide Written, Writes, Replace, NamesApart;
    PartInPlace(chunks, layerStart, c, a, 0);
    if |EntryItems(chunks[c][a])| > 1 {
      PartInPlace(chunks, layerStart, c, a, 1);
    }
    if |EntryItems(chunks[c][a])| > 2 {
      PartInPlace(chunks, layerStart, c, a, 2);
    }
  }

  /** The same with the names written out, when the fused word occurs once. */
  lemma FusedTensorsInPlace<T>(chunks: seq<seq<Entry<T>>>, layerStart: nat, c: nat, a: nat, p: string, s: string)
    requires NamesApart(chunks) && c < |chunks| && a < |chunks[c]|
    ensures
      var dict, e := Written(Writes(chunks, layerStart)), chunks[c][a];
      var layer := if e.layer.Some? then Some(e.layer.value + LayersBefore(chunks[..c], layerStart)) else None;
      && (e.parts.GateUp? && e.rest == p + "gate_up" + s && OnlyOccurrence(p, "gate_up", s) ==>
            Holds(dict, (layer, p + "gate" + s), e.parts.gate) && Holds(dict, (layer, p + "up" + s), e.parts.up))
      && (e.parts.Qkv? && e.rest == p + "qkv" + s && OnlyOccurrence(p, "qkv", s) ==>
            && Holds(dict, (layer, p + "q" + s), e.parts.q)
            && Holds(dict, (layer, p + "k" + s), e.parts.k)
            && Holds(dict, (layer, p + "v" + s), e.parts.v))
  {
    hide Written, Writes, Replace, NamesApart, OnlyOccurrence, Holds;
    TensorsInPlace(chunks, layerStart, c, a);
    if OnlyOccurrence(p, "gate_up", s) {
      ReplaceOnce(p, "gate_up", s, "gate");
      ReplaceOnce(p, "gate_up", s, "up");
    }
    if OnlyOccurrence(p, "qkv", s) {
      ReplaceOnce(p, "qkv", s, "q");
      ReplaceOnce(p, "qkv", s, "k");
      ReplaceOnce(p, "qkv", s, "v");
    }
  }

  lemma RenumberedKeys<T>(items: seq<Item<T>>, layersCum: nat, k: Key)
    ensures k in KeySet(Renumbered(items, layersCum)) <==>
      exists layer: Option<nat> :: NewLayer(layer, layersCum) == k.0 && (layer, k.1) in KeySet(items)
  {
    var r := Renumbered(items, layersCum);
    if k in KeySet(r) {
      var i :| 0 <= i < |r| && r[i].0 == k;
      assert items[i].0 == (items[i].0.0, k.1) && NewLayer(items[i].0.0, layersCum) == k.0;
      assert (items[i].0.0, k.1) in KeySet(items);
    }
    if layer: Option<nat> :| NewLayer(layer, layersCum) == k.0 && (layer, k.1) in KeySet(items) {
      var i :| 0 <= i < |items| && items[i].0 == (layer, k.1);
      assert r[i].0 == k;
    }
  }

  ghost predicate KeyOf<T>(chunks: seq<seq<Entry<T>>>, layerStart: nat, k: Key, c: nat, a: nat)
    requires c < |chunks| && a < |chunks[c]|
  {
    && k.0 == NewLayer(chunks[c][a].layer, LayersBefore(chunks[..c], layerStart))
    && k.1 in Names(chunks[c][a])
  }

  ghost predicate KeyOfChunk<T>(chunks: seq<seq<Entry<T>>>, layerStart: nat, k: Key, c: nat)
    requires c < |chunks|
  {
    exists a | 0 <= a < |chunks[c]| :: KeyOf(chunks, layerStart, k, c, a)
  }

  lemma ChunkKeyIff<T>(chunks: seq<seq<Entry<T>>>, layerStart: nat, k: Key, c: nat)
    requires c < |chunks|
    ensures k in KeySet(Renumbered(Items(chunks[c]), LayersBefore(chunks[..c], layerStart))) <==>
      KeyOfChunk(chunks, layerStart, k, c)
  {
    hide Items, Renumbered, KeySet, LayersBefore, Names;
    var cum := LayersBefore(chunks[..c], layerStart);
    RenumberedKeys(Items(chunks[c]), cum, k);
    forall layer: Option<nat> ensures (layer, k.1) in KeySet(Items(chunks[c])) <==> NamedIn(chunks[c], (layer, k.1)) {
      ItemKeys(chunks[c], (layer, k.1));
    }
    if layer: Option<nat> :| NewLayer(layer, cum) == k.0 && NamedIn(chunks[c], (layer, k.1)) {
      var a :| 0 <= a < |chunks[c]| && chunks[c][a].layer == layer && k.1 in Names(chunks[c][a]);
      assert KeyOf(chunks, layerStart, k, c, a);
    }
    if a :| 0 <= a < |chunks[c]| && KeyOf(chunks, layerStart, k, c, a) {
      assert NamedIn(chunks[c], (chunks[c][a].layer, k.1));
    }
  }

  /** The dictionary has the names of all entries as its keys, with or without repetitions. */
  lemma {:induction false} KeysAreNames<T>(chunks: seq<seq<Entry<T>>>, layerStart: nat, k: Key)
    ensures k in Written(Writes(chunks, layerStart)) <==>
      exists c | 0 <= c < |chunks| :: KeyOfChunk(chunks, layerStart, k, c)
  {
    hide Items, Renumbered, KeySet, KeyOf, LayersBefore, Written;
    WrittenIs(Writes(chunks, layerStart));
    if chunks == [] {
      NoKeys<Key, T>();
    } else {
      var n := |chunks| - 1;
      KeysAreNames(chunks[..n], layerStart, k);
      WrittenIs(Writes(chunks[..n], layerStart));
      ChunkKeyIff(chunks, layerStart, k, n);
      KeySetConcat(Writes(chunks[..n], layerStart),
                   Renumbered(Items(chunks[n]), LayersBefore(chunks[..n], layerStart)));
      forall c | 0 <= c < n
        ensures KeyOfChunk(chunks[..n], layerStart, k, c) <==> KeyOfChunk(chunks, layerStart, k, c)
      {
        SameKeys(chunks, layerStart, k, n, c);
      }
    }
  }

  lemma SameKeys<T>(chunks: seq<seq<Entry<T>>>, layerStart: nat, k: Key, n: nat, c: nat)
    requires c < n <= |chunks|
    ensures KeyOfChunk(chunks[..n], layerStart, k, c) <==> KeyOfChunk(chunks, layerStart, k, c)
  {
    hide Names, LayersBefore;
    assert chunks[..n][c] == chunks[c] && chunks[..n][..c] == chunks[..c];
    assert forall a | 0 <= a < |chunks[c]| ::
      KeyOf(chunks[..n], layerStart, k, c, a) <==> KeyOf(chunks, layerStart, k, c, a);
  }

  /** When a key is written more than once, the last tensor stays. */
  lemma {:induction false} LastWriteStays<K, T>(writes: seq<(K, T)>, j: nat)
    requires j < |writes| && forall i | j < i < |writes| :: writes[i].0 != writes[j].0
    ensures Holds(Written(writes), writes[j].0, writes[j].1)
  {
    var n := |writes| - 1;
    if j < n {
      LastWriteStays(writes[..n], j);
    }
  }

  lemma OneEntryWrites<T>(e: Entry<T>, layerStart: nat)
    ensures Writes([[e]], layerStart) == Renumbered(EntryItems(e), layerStart)
  {
    hide EntryItems, Renumbered;
    assert [[e]][..0] == [] && [e][..0] == [];
    assert Writes<T>([], layerStart) == [] && Items([e]) == EntryItems(e);
  }

  lemma NoSuchLetter(p: string, old_: string, s: string)
    requires old_ != "" && old_[0] !in p && old_[0] !in old_[1..]
    requires |s| >= |old_| ==> old_[0] !in s[..|s| - |old_| + 1]
    ensures OnlyOccurrence(p, old_, s)
  {
    var whole := p + old_ + s;
    forall i: nat ensures OccursAt(whole, old_, i) ==> i == |p| {
      assert OccursAt(whole, old_, i) ==> whole[i] == whole[i..i + |old_|][0];
      if i < |p| {
        assert whole[i] == p[i];
      } else if |p| < i < |p| + |old_| {
        assert whole[i] == old_[1..][i - |p| - 1];
      } else if |p| + |old_| <= i && i + |old_| <= |whole| {
        assert whole[i] == s[..|s| - |old_| + 1][i - |p| - |old_|];
      }
    }
  }

  lemma WrittenPairs<K, T>(k: K, t: T, k': K, t': T, k'': K, t'': T)
    ensures Written([(k, t), (k', t')]) == map[k := t][k' := t']
    ensures Written([(k, t), (k', t'), (k'', t'')]) == map[k := t][k' := t'][k'' := t'']
  {
    hide Written;
    NothingWritten<K, T>();
    WrittenOneMore<K, T>([], k, t);
    WrittenOneMore([(k, t)], k', t');
    WrittenOneMore([(k, t), (k', t')], k'', t'');
    assert [] + [(k, t)] == [(k, t)] && [(k, t)] + [(k', t')] == [(k, t), (k', t')];
    assert [(k, t), (k', t')] + [(k'', t'')] == [(k, t), (k', t'), (k'', t'')];
  }

  /** All that one layer's fused feed-forward weight, or its fused attention weight, puts into the dictionary. */
  lemma FusedAlone<T>(layer: nat, p: string, s: string, layerStart: nat, a: T, b: T, c: T)
    ensures OnlyOccurrence(p, "gate_up", s) ==>
      Written(Writes([[Entry(Some(layer), p + "gate_up" + s, GateUp(a, b))]], layerStart))
      == map[(Some(layer + layerStart), p + "gate" + s) := a][(Some(layer + layerStart), p + "up" + s) := b]
    ensures OnlyOccurrence(p, "qkv", s) ==>
      Written(Writes([[Entry(Some(layer), p + "qkv" + s, Qkv(a, b, c))]], layerStart))
      == map[(Some(layer + layerStart), p + "q" + s) := a][(Some(layer + layerStart), p + "k" + s) := b]
            [(Some(layer + layerStart), p + "v" + s) := c]
  {
    hide Replace, Written, Writes, OnlyOccurrence;
    var number: Option<nat> := Some(layer + layerStart);
    if OnlyOccurrence(p, "gate_up", s) {
      var e := Entry(Some(layer), p + "gate_up" + s, GateUp(a, b));
      ReplaceOnce(p, "gate_up", s, "gate");
      ReplaceOnce(p, "gate_up", s, "up");
      OneEntryWrites(e, layerStart);
      assert Renumbered(EntryItems(e), layerStart) == [((number, p + "gate" + s), a), ((number, p + "up" + s), b)];
      WrittenPairs((number, p + "gate" + s), a, (number, p + "up" + s), b, (number, p), a);
    }
    if OnlyOccurrence(p, "qkv", s) {
      var e := Entry(Some(layer), p + "qkv" + s, Qkv(a, b, c));
      ReplaceOnce(p, "qkv", s, "q");
      ReplaceOnce(p, "qkv", s, "k");
      ReplaceOnce(p, "qkv", s, "v");
      OneEntryWrites(e, layerStart);
      assert Renumbered(EntryItems(e), layerStart) ==
        [((number, p + "q" + s), a), ((number, p + "k" + s), b), ((number, p + "v" + s), c)];
      WrittenPairs((number, p + "q" + s), a, (number, p + "k" + s), b, (number, p + "v" + s), c);
    }
  }

  /** With the names of a dense layer. */
  lemma DenseLayerNames<T>(gate: T, up: T, q: T, k: T, v: T)
    ensures Written(Writes([[Entry(Some(0), "mlp.gate_up_proj.weight", GateUp(gate, up))]], 7))
      == map[(Some(7), "mlp.gate_proj.weight") := gate][(Some(7), "mlp.up_proj.weight") := up]
    ensures Written(Writes([[Entry(Some(0), "self_attn.qkv_proj.weight", Qkv(q, k, v))]], 7))
      == map[(Some(7), "self_attn.q_proj.weight") := q][(Some(7), "self_attn.k_proj.weight") := k]
            [(Some(7), "self_attn.v_proj.weight") := v]
  {
    hide Written, Writes, OnlyOccurrence;
    var s := "_proj.weight";
    GateUpOnce(s);
    GateUpNames(s);
    GatePartNames(s);
    QkvOnce(s);
    QkvNames(s);
    QkvPartNames(s);
    FusedAlone(0, "mlp.", s, 7, gate, up, up);
    FusedAlone(0, "self_attn.", s, 7, q, k, v);
  }

  lemma GateUpNames(s: string)
    requires s == "_proj.weight"
    ensures "mlp.gate_up_proj.weight" == "mlp." + "gate_up" + s
  {
  }

  lemma GatePartNames(s: string)
    requires s == "_proj.weight"
    ensures "mlp.gate_proj.weight" == "mlp." + "gate" + s && "mlp.up_proj.weight" == "mlp." + "up" + s
  {
  }

  lemma GateUpOnce(s: string)
    requires s == "_proj.weight"
    ensures OnlyOccurrence("mlp.", "gate_up", s)
  {
    hide OnlyOccurrence;
    assert s[..6] == "_proj.";
    NoSuchLetter("mlp.", "gate_up", s);
  }

  lemma QkvNames(s: string)
    requires s == "_proj.weight"
    ensures "self_attn.qkv_proj.weight" == "self_attn." + "qkv" + s
    ensures "self_attn.q_proj.weight" == "self_attn." + "q" + s
  {
  }

  lemma QkvPartNames(s: string)
    requires s == "_proj.weight"
    ensures "self_attn.k_proj.weight" == "self_attn." + "k" + s && "self_attn.v_proj.weight" == "self_attn." + "v" + s
  {
  }

  lemma QkvOnce(s: string)
    requires s == "_proj.weight"
    ensures OnlyOccurrence("self_attn.", "qkv", s)
  {
    hide OnlyOccurrence;
    NoSuchLetter("self_attn.", "qkv", s);
  }

  // ---------- the numbering over all ranks ----------

  /** A model chunk of n layers has them numbered from 0, with some tensor of the last one; n may be 0. */
  ghost predicate LayersAre<T>(chunk: seq<Entry<T>>, n: nat) {
    && (forall e <- chunk :: e.layer.Some? ==> e.layer.value < n)
    && (n > 0 ==> exists e <- chunk :: e.layer == Some(n - 1))
  }

  ghost predicate ChunksAre<T>(chunks: seq<seq<Entry<T>>>, sizes: seq<nat>) {
    |sizes| == |chunks| && forall i | 0 <= i < |chunks| :: LayersAre(chunks[i], sizes[i])
  }

  lemma HandledOf<T>(chunk: seq<Entry<T>>, n: nat)
    requires LayersAre(chunk, n)
    ensures LayersHandled(chunk) + 1 == if n == 0 then 1 else n
  {
    HandledIsLast(chunk);
    hide LayersHandled;
  }

  lemma NothingSummed(sizes: seq<nat>)
    ensures Sum(sizes[..0]) == 0
  {
  }

  /** The running layer count of the loop is right exactly as long as every chunk had layers. */
  lemma {:induction false} CountIff<T>(chunks: seq<seq<Entry<T>>>, sizes: seq<nat>, layerStart: nat, c: nat)
    requires ChunksAre(chunks, sizes) && c <= |chunks|
    ensures LayersBefore(chunks[..c], layerStart) >= layerStart + Sum(sizes[..c])
    ensures LayersBefore(chunks[..c], layerStart) == layerStart + Sum(sizes[..c])
      <==> forall i | 0 <= i < c :: sizes[i] > 0
  {
    hide LayersAre, LayersHandled, Sum;
    if c == 0 {
      NothingSummed(sizes);
    } else {
      CountIff(chunks, sizes, layerStart, c - 1);
      SumStep(sizes, c - 1);
      assert chunks[..c][..c - 1] == chunks[..c - 1];
      assert LayersAre(chunks[c - 1], sizes[c - 1]);
      HandledOf(chunks[c - 1], sizes[c - 1]);
    }
  }

  /** The global number of a local layer, in closed form. */
  function GlobalLayer(stages: seq<seq<nat>>, r: nat, c: nat, layer: nat): nat
    requires r < |stages| && c < |stages[r]| && layer < stages[r][c]
  {
    Sum(StageSizes(stages)[..r]) + Place(stages[r], c, layer)
  }

  function StageSizes(stages: seq<seq<nat>>): seq<nat> {
    seq(|stages|, r requires 0 <= r < |stages| => Sum(stages[r]))
  }

  /**
   * A layer gets its global number, when the stage sizes are the pipeline plan, exactly if every chunk before
   * it has layers.
   */
  lemma NumberingIff<T>(stages: seq<seq<nat>>, r: nat, chunks: seq<seq<Entry<T>>>, c: nat, e: Entry<T>)
    requires r < |stages| && ChunksAre(chunks, stages[r]) && c < |chunks| && e in chunks[c] && e.layer.Some?
    ensures e.layer.value < stages[r][c]
    ensures var number := NewLayer(e.layer, LayersBefore(chunks[..c], Sum(StageSizes(stages)[..r])));
      number == Some(GlobalLayer(stages, r, c, e.layer.value)) <==> forall i | 0 <= i < c :: stages[r][i] > 0
  {
    assert LayersAre(chunks[c], stages[r][c]);
    CountIff(chunks, stages[r], Sum(StageSizes(stages)[..r]), c);
  }

  /**
   A first chunk with an embedding only, and a second one with the rank's only layer: that layer gets number 1
   instead of 0, which is the key of the next rank's first layer.
  */
  lemma EmptyChunkCollides<T>(embedding: T, layer0: T, layer1: T)
    ensures var chunks0 := [[Entry(None, "embed", Whole(embedding))], [Entry(Some(0), "norm", Whole(layer0))]];
      var chunks1 := [[Entry(Some(0), "norm", Whole(layer1))]];
      && ChunksAre(chunks0, [0, 1]) && ChunksAre(chunks1, [1])
      && Writes(chunks0, 0) == [((None, "embed"), embedding), ((Some(1), "norm"), layer0)]
      && Writes(chunks1, Sum([1])) == [((Some(1), "norm"), layer1)]
  {
    var embed, norm := Entry(None, "embed", Whole(embedding)), Entry(Some(0), "norm", Whole(layer0));
    var next := Entry(Some(0), "norm", Whole(layer1));
    assert embed in [embed] && norm in [norm] && next in [next];
    assert [1][..0] == [] && Sum([1]) == Sum([]) + 1;
    OneEntry(embed, 0);
    OneEntry(norm, 1);
    OneEntry(next, 1);
    hide Items, Renumbered, LayersHandled, EntryItems, Sum;
    assert [[embed]][..0] == [] && [[next]][..0] == [] && [[embed], [norm]][..1] == [[embed]];
    assert Writes([[embed]], 0) == Writes<T>([], 0) + [((None, "embed"), embedding)];
    assert LayersBefore([[embed]], 0) == 1;
    assert Writes([[embed], [norm]], 0) == Writes([[embed]], 0) + [((Some(1), "norm"), layer0)];
    assert Writes([[next]], 1) == Writes<T>([], 1) + [((Some(1), "norm"), layer1)];
  }

  lemma OneEntry<T>(e: Entry<T>, layersCum: nat)
    requires e.parts.Whole?
    ensures Renumbered(Items([e]), layersCum) == [((NewLayer(e.layer, layersCum), e.rest), e.parts.tensor)]
    ensures LayersHandled([e]) == if e.layer.Some? then e.layer.value else 0
  {
    assert [e][..0] == [];
    assert Items([e]) == [] + EntryItems(e);
  }

  /** Over all ranks and chunks, no two layers get the same number, and every number below the total is used. */
  lemma LayerNumbersDistinct(stages: seq<seq<nat>>, r: nat, c: nat, layer: nat, r': nat, c': nat, layer': nat)
    requires r < |stages| && c < |stages[r]| && layer < stages[r][c]
    requires r' < |stages| && c' < |stages[r']| && layer' < stages[r'][c']
    requires GlobalLayer(stages, r, c, layer) == GlobalLayer(stages, r', c', layer')
    ensures r == r' && c == c' && layer == layer'
  {
    PlaceInRange(stages[r], c, layer);
    PlaceInRange(stages[r'], c', layer');
    PlaceInjective(StageSizes(stages), r, Place(stages[r], c, layer), r', Place(stages[r'], c', layer'));
    PlaceInjective(stages[r], c, layer, c', layer');
  }

  lemma LayerNumbersCover(stages: seq<seq<nat>>, g: nat) returns (r: nat, c: nat, layer: nat)
    requires g < Sum(StageSizes(stages))
    ensures r < |stages| && c < |stages[r]| && layer < stages[r][c] && GlobalLayer(stages, r, c, layer) == g
  {
    var at;
    r, at := PlaceSurjective(StageSizes(stages), g);
    c, layer := PlaceSurjective(stages[r], at);
  }

  /** When every chunk has layers, the layers of a rank fill its own range of numbers. */
  lemma RankKeys<T>(stages: seq<seq<nat>>, r: nat, chunks: seq<seq<Entry<T>>>, k: Key)
    requires r < |stages| && ChunksAre(chunks, stages[r]) && (forall c | 0 <= c < |chunks| :: stages[r][c] > 0)
    requires k in Written(Writes(chunks, Sum(StageSizes(stages)[..r]))) && k.0.Some?
    ensures Sum(StageSizes(stages)[..r]) <= k.0.value < Sum(StageSizes(stages)[..r + 1])
  {
    hide Writes, LayersBefore, Written, DistinctWrites, LayersAre, Sum;
    StageOf(stages, r);
    var start := Sum(StageSizes(stages)[..r]);
    WrittenIs(Writes(chunks, start));
    EarlierKeys(chunks, start);
    CountIff(chunks, stages[r], start, |chunks|);
    assert chunks[..|chunks|] == chunks && stages[r][..|chunks|] == stages[r] by { SameLength(chunks, stages[r]); }
    SumStep(StageSizes(stages), r);
  }

  lemma StageOf(stages: seq<seq<nat>>, r: nat)
    requires r < |stages|
    ensures |StageSizes(stages)| == |stages| && StageSizes(stages)[r] == Sum(stages[r])
  {
  }

  lemma SameLength<T>(chunks: seq<seq<Entry<T>>>, sizes: seq<nat>)
    requires ChunksAre(chunks, sizes)
    ensures |chunks| == |sizes|
  {
  }

  /** Two ranks share no key of a layer. */
  lemma RanksApart<T>(stages: seq<seq<nat>>, r: nat, chunks: seq<seq<Entry<T>>>, r': nat, chunks': seq<seq<Entry<T>>>,
                      k: Key)
    requires r < r' < |stages| && ChunksAre(chunks, stages[r]) && ChunksAre(chunks', stages[r'])
    requires (forall c | 0 <= c < |stages[r]| :: stages[r][c] > 0)
    requires forall c | 0 <= c < |stages[r']| :: stages[r'][c] > 0
    requires k in Written(Writes(chunks, Sum(StageSizes(stages)[..r])))
    requires k in Written(Writes(chunks', Sum(StageSizes(stages)[..r'])))
    ensures k.0.None?
  {
    hide Written, Writes, LayersAre;
    if k.0.Some? {
      RankKeys(stages, r, chunks, k);
      RankKeys(stages, r', chunks', k);
      SumMono(StageSizes(stages), r + 1, r');
    }
  }
}
