/**
 Freezing an untrusted object graph into an immutable JSON tree, with a set of
 active container identities that detects recursion.

 A graph is a heap of lists and dictionaries that refer to each other by
 identity; sharing is allowed. Two references pin the walk down. `Freezable`
 speaks of chains in the graph: no container in reach is invalid or lies on a
 chain back to itself. `Represents` speaks of values: a finite JSON tree that
 unfolds the graph. The walk accepts exactly the first, and what it returns
 thaws to the one tree of the second.
 */
module JsonFreezing {
  import opened Wrappers

  type Identity = nat

  datatype Leaf =
    | Null
    | Boolean(b: bool)
    | Integer(n: int)
    | Float(value: real)
    | NonFinite
    | Text(codePoints: seq<nat>)
    | Foreign

  datatype Value = Atom(leaf: Leaf) | Ref(id: Identity)

  datatype Key = TextKey(key: string) | OtherKey(tag: int)

  datatype Entry = Entry(key: Key, value: Value)

  datatype Container = List(items: seq<Value>) | Dict(entries: seq<Entry>)

  type Heap = map<Identity, Container>

  datatype Frozen =
    | FrozenLeaf(leaf: Leaf)
    | Tuple(items: seq<Frozen>)
    | Proxy(entries: seq<FrozenEntry>)

  datatype FrozenEntry = FrozenEntry(key: string, value: Frozen)

  datatype Json =
    | JsonLeaf(leaf: Leaf)
    | JsonArray(items: seq<Json>)
    | JsonObject(members: seq<Member>)

  datatype Member = Member(key: string, value: Json)

  // The interpreter's limit on printing integers.
  const MAX_INTEGER_DIGITS := 4300

  function DigitCount(n: nat): nat {
    if n < 10 then 1 else 1 + DigitCount(n / 10)
  }

  /** Serialisable integers, finite floats, text without surrogates; nothing foreign. */
  predicate ValidLeaf(leaf: Leaf) {
    match leaf
    case Integer(n) => DigitCount(if n < 0 then -n else n) <= MAX_INTEGER_DIGITS
    case Text(codePoints) => forall i :: 0 <= i < |codePoints| ==> !(0xD800 <= codePoints[i] < 0xE000)
    case NonFinite => false
    case Foreign => false
    case _ => true
  }

  function Thaw(f: Frozen): Json {
    match f
    case FrozenLeaf(leaf) => JsonLeaf(leaf)
    case Tuple(items) => JsonArray(seq(|items|, i requires 0 <= i < |items| => Thaw(items[i])))
    case Proxy(entries) => JsonObject(seq(|entries|, i requires 0 <= i < |entries| => ThawEntry(entries[i])))
  }

  function ThawEntry(e: FrozenEntry): Member {
    Member(e.key, Thaw(e.value))
  }

  // -------------------------------------------------------------- the graph

  function Children(c: Container): seq<Value> {
    match c
    case List(items) => items
    case Dict(entries) => seq(|entries|, i requires 0 <= i < |entries| => entries[i].value)
  }

  predicate KeysAreText(c: Container) {
    c.Dict? ==> forall i :: 0 <= i < |c.entries| ==> c.entries[i].key.TextKey?
  }

  predicate Resolved(heap: Heap, v: Value) {
    v.Ref? ==> v.id in heap
  }

  predicate Closed(heap: Heap) {
    forall id :: id in heap ==> forall i :: 0 <= i < |Children(heap[id])| ==> Resolved(heap, Children(heap[id])[i])
  }

  /** A chain of containers, each referring to the next. */
  ghost predicate Chain(heap: Heap, chain: seq<Identity>) {
    && (forall i :: 0 <= i < |chain| ==> chain[i] in heap)
    && (forall i :: 0 <= i < |chain| - 1 ==> Ref(chain[i + 1]) in Children(heap[chain[i]]))
  }

  /** Container `id` can be reached from `v`, or is `v` itself. */
  ghost predicate Within(heap: Heap, v: Value, id: Identity) {
    exists chain :: Chain(heap, chain) && |chain| > 0 && v == Ref(chain[0]) && chain[|chain| - 1] == id
  }

  /** Container `id` reaches itself. */
  ghost predicate OnCycle(heap: Heap, id: Identity) {
    exists chain :: Chain(heap, chain) && |chain| > 1 && chain[0] == id && chain[|chain| - 1] == id
  }

  ghost predicate Sound(heap: Heap, id: Identity)
    requires id in heap
  {
    KeysAreText(heap[id]) && !OnCycle(heap, id)
    && forall i :: 0 <= i < |Children(heap[id])| && Children(heap[id])[i].Atom? ==> ValidLeaf(Children(heap[id])[i].leaf)
  }

  /** No container in reach of `v` is active, invalid or on a cycle. */
  ghost predicate Freezable(heap: Heap, v: Value, active: set<Identity>) {
    && (v.Atom? ==> ValidLeaf(v.leaf))
    && forall id :: Within(heap, v, id) ==> id in heap && id !in active && Sound(heap, id)
  }

  ghost predicate AllFreezable(heap: Heap, values: seq<Value>, active: set<Identity>) {
    forall i :: 0 <= i < |values| ==> Freezable(heap, values[i], active)
  }

  lemma AllFreezableExtends(heap: Heap, values: seq<Value>, k: nat, active: set<Identity>)
    requires k < |values|
    ensures AllFreezable(heap, values[..k + 1], active)
       <==> AllFreezable(heap, values[..k], active) && Freezable(heap, values[k], active)
    ensures !AllFreezable(heap, values[..k + 1], active) ==> !AllFreezable(heap, values, active)
  {
    assert values[..k + 1] == values[..k] + [values[k]];
    if AllFreezable(heap, values[..k + 1], active) {
      forall i | 0 <= i < k ensures Freezable(heap, values[..k][i], active) {
        assert values[..k][i] == values[..k + 1][i];
      }
      assert values[..k + 1][k] == values[k];
    }
  }

  lemma WithinChild(heap: Heap, parent: Identity, child: Value, id: Identity)
    requires parent in heap && child in Children(heap[parent]) && Within(heap, child, id)
    ensures Within(heap, Ref(parent), id)
    ensures id == parent ==> OnCycle(heap, parent)
  {
    var chain :| Chain(heap, chain) && |chain| > 0 && child == Ref(chain[0]) && chain[|chain| - 1] == id;
    var longer := [parent] + chain;
    forall i | 0 <= i < |longer| - 1 ensures Ref(longer[i + 1]) in Children(heap[longer[i]]) {
      if i > 0 {
        assert Ref(chain[i]) in Children(heap[chain[i - 1]]);
      }
    }
    assert Chain(heap, longer);
  }

  lemma WithinSelf(heap: Heap, id: Identity)
    requires id in heap
    ensures Within(heap, Ref(id), id)
  {
    assert Chain(heap, [id]);
  }

  /** A chain of more than one container goes through a child of its first. */
  lemma ThroughChild(heap: Heap, chain: seq<Identity>) returns (child: Value)
    requires Chain(heap, chain) && |chain| > 1
    ensures child in Children(heap[chain[0]]) && Within(heap, child, chain[|chain| - 1])
  {
    child := Ref(chain[1]);
    assert Ref(chain[0 + 1]) in Children(heap[chain[0]]);
    var rest := chain[1..];
    forall i | 0 <= i < |rest| - 1 ensures Ref(rest[i + 1]) in Children(heap[rest[i]]) {
      assert Ref(chain[i + 1 + 1]) in Children(heap[chain[i + 1]]);
    }
    assert Chain(heap, rest);
  }

  /** What one level of the walk decides. */
  lemma FreezableUnfolds(heap: Heap, id: Identity, active: set<Identity>)
    requires id in heap
    ensures Freezable(heap, Ref(id), active) <==>
            && id !in active && KeysAreText(heap[id])
            && AllFreezable(heap, Children(heap[id]), active + {id})
  {
    var children := Children(heap[id]);
    WithinSelf(heap, id);
    if Freezable(heap, Ref(id), active) {
      forall i | 0 <= i < |children| ensures Freezable(heap, children[i], active + {id}) {
        forall inner | Within(heap, children[i], inner)
          ensures inner in heap && inner !in active + {id} && Sound(heap, inner)
        {
          WithinChild(heap, id, children[i], inner);
        }
      }
    }
    if id !in active && KeysAreText(heap[id]) && AllFreezable(heap, children, active + {id}) {
      forall inner | Within(heap, Ref(id), inner)
        ensures inner in heap && inner !in active && Sound(heap, inner)
      {
        var chain :| Chain(heap, chain) && |chain| > 0 && Ref(id) == Ref(chain[0]) && chain[|chain| - 1] == inner;
        if |chain| > 1 {
          var child := ThroughChild(heap, chain);
        }
        if OnCycle(heap, id) {
          var cycle :| Chain(heap, cycle) && |cycle| > 1 && cycle[0] == id && cycle[|cycle| - 1] == id;
          var child := ThroughChild(heap, cycle);
          assert false;
        }
      }
    }
  }

  // ------------------------------------------------------------- the values

  /** The finite tree `j` is what the graph at `v` unfolds to. */
  ghost predicate Represents(heap: Heap, v: Value, j: Json)
    decreases j
  {
    match j
    case JsonLeaf(leaf) => v == Atom(leaf) && ValidLeaf(leaf)
    case JsonArray(items) =>
      && v.Ref? && v.id in heap && heap[v.id].List? && |heap[v.id].items| == |items|
      && forall i :: 0 <= i < |items| ==> Represents(heap, heap[v.id].items[i], items[i])
    case JsonObject(members) =>
      && v.Ref? && v.id in heap && heap[v.id].Dict? && |heap[v.id].entries| == |members|
      && forall i :: 0 <= i < |members| ==> RepresentsMember(heap, heap[v.id].entries[i], members[i])
  }

  ghost predicate RepresentsMember(heap: Heap, e: Entry, m: Member)
    decreases m
  {
    e.key == TextKey(m.key) && Represents(heap, e.value, m.value)
  }

  /** A graph that unfolds to a finite tree has no recursion and only valid parts. */
  lemma {:induction false} RepresentedIsFreezable(heap: Heap, v: Value, j: Json)
    requires Represents(heap, v, j)
    ensures Freezable(heap, v, {})
    decreases j
  {
    match j
    case JsonLeaf(_) =>
    case JsonArray(items) =>
      forall i | 0 <= i < |items| ensures Freezable(heap, heap[v.id].items[i], {}) {
        RepresentedIsFreezable(heap, heap[v.id].items[i], items[i]);
      }
      ChildrenFreezable(heap, v.id);
    case JsonObject(members) =>
      forall i | 0 <= i < |members| ensures Freezable(heap, heap[v.id].entries[i].value, {}) && heap[v.id].entries[i].key.TextKey? {
        assert RepresentsMember(heap, heap[v.id].entries[i], members[i]);
        assert members[i].value < members[i];
        RepresentedIsFreezable(heap, heap[v.id].entries[i].value, members[i].value);
      }
      ChildrenFreezable(heap, v.id);
  }

  /** Sound children make a sound parent: a cycle through it would be one of theirs. */
  lemma ChildrenFreezable(heap: Heap, id: Identity)
    requires id in heap && KeysAreText(heap[id])
    requires forall i :: 0 <= i < |Children(heap[id])| ==> Freezable(heap, Children(heap[id])[i], {})
    ensures Freezable(heap, Ref(id), {})
  {
    var children := Children(heap[id]);
    forall i | 0 <= i < |children| ensures Freezable(heap, children[i], {} + {id}) {
      if Within(heap, children[i], id) {
        WithinChild(heap, id, children[i], id);
      }
    }
    FreezableUnfolds(heap, id, {});
  }

  lemma {:induction false} RepresentationIsUnique(heap: Heap, v: Value, j: Json, k: Json)
    requires Represents(heap, v, j) && Represents(heap, v, k)
    ensures j == k
    decreases j
  {
    match j
    case JsonLeaf(_) =>
    case JsonArray(items) =>
      forall i | 0 <= i < |items| ensures items[i] == k.items[i] {
        RepresentationIsUnique(heap, heap[v.id].items[i], items[i], k.items[i]);
      }
    case JsonObject(members) =>
      forall i | 0 <= i < |members| ensures members[i] == k.members[i] {
        assert RepresentsMember(heap, heap[v.id].entries[i], members[i]);
        assert RepresentsMember(heap, heap[v.id].entries[i], k.members[i]);
        assert members[i].value < members[i];
        RepresentationIsUnique(heap, heap[v.id].entries[i].value, members[i].value, k.members[i].value);
      }
  }

  lemma TupleRepresents(heap: Heap, id: Identity, frozen: seq<Frozen>)
    requires id in heap && heap[id].List? && |heap[id].items| == |frozen|
    requires forall i :: 0 <= i < |frozen| ==> Represents(heap, heap[id].items[i], Thaw(frozen[i]))
    ensures Represents(heap, Ref(id), Thaw(Tuple(frozen)))
  {
  }

  ghost predicate EntriesFrozen(heap: Heap, entries: seq<Entry>, frozen: seq<FrozenEntry>) {
    && |frozen| <= |entries|
    && forall i :: 0 <= i < |frozen| ==> RepresentsMember(heap, entries[i], ThawEntry(frozen[i]))
  }

  lemma EntriesFrozenExtends(heap: Heap, entries: seq<Entry>, frozen: seq<FrozenEntry>, value: Frozen)
    requires EntriesFrozen(heap, entries, frozen) && |frozen| < |entries| && entries[|frozen|].key.TextKey?
    requires Represents(heap, entries[|frozen|].value, Thaw(value))
    ensures EntriesFrozen(heap, entries, frozen + [FrozenEntry(entries[|frozen|].key.key, value)])
  {
  }

  lemma ProxyRepresents(heap: Heap, id: Identity, frozen: seq<FrozenEntry>)
    requires id in heap && heap[id].Dict? && |heap[id].entries| == |frozen|
    requires EntriesFrozen(heap, heap[id].entries, frozen)
    ensures Represents(heap, Ref(id), Thaw(Proxy(frozen)))
  {
  }

  // ---------------------------------------------------------------- the walk

  class Freezer {
    var active: set<Identity>

    constructor ()
      ensures active == {}
    {
      active := {};
    }

    /**
     The recursive walk. It terminates on every finite graph, restores the
     active set on every exit, and accepts exactly the freezable values.
     */
    method Freeze(heap: Heap, v: Value) returns (r: Option<Frozen>)
      requires Closed(heap) && Resolved(heap, v)
      modifies this
      ensures active == old(active)
      ensures r.Some? <==> Freezable(heap, v, active)
      ensures r.Some? ==> Represents(heap, v, Thaw(r.value))
      decreases heap.Keys - active, 1
    {
      match v
      case Atom(leaf) =>
        r := if ValidLeaf(leaf) then Some(FrozenLeaf(leaf)) else None;
      case Ref(id) =>
        FreezableUnfolds(heap, id, active);
        if id in active {
          return None;
        }
        active := active + {id};
        match heap[id] {
          case List(items) => r := FreezeItems(heap, id, items);
          case Dict(entries) => r := FreezeEntries(heap, id, entries);
        }
        active := active - {id};
    }

    method FreezeItems(heap: Heap, ghost id: Identity, items: seq<Value>) returns (r: Option<Frozen>)
      requires Closed(heap) && id in heap && heap[id] == List(items) && id in active
      modifies this
      ensures active == old(active)
      ensures r.Some? <==> AllFreezable(heap, Children(heap[id]), active)
      ensures r.Some? ==> Represents(heap, Ref(id), Thaw(r.value))
      decreases heap.Keys - active, 2
    {
      var frozen: seq<Frozen> := [];
      for k := 0 to |items|
        invariant active == old(active) && |frozen| == k
        invariant AllFreezable(heap, Children(heap[id])[..k], active)
        invariant forall i :: 0 <= i < k ==> Represents(heap, items[i], Thaw(frozen[i]))
      {
        assert Children(heap[id])[k] == items[k];
        AllFreezableExtends(heap, Children(heap[id]), k, active);
        var item := Freeze(heap, items[k]);
        if item.None? {
          return None;
        }
        frozen := frozen + [item.value];
      }
      assert Children(heap[id])[..|items|] == Children(heap[id]);
      TupleRepresents(heap, id, frozen);
      return Some(Tuple(frozen));
    }

    method FreezeEntries(heap: Heap, ghost id: Identity, entries: seq<Entry>) returns (r: Option<Frozen>)
      requires Closed(heap) && id in heap && heap[id] == Dict(entries) && id in active
      modifies this
      ensures active == old(active)
      ensures r.Some? <==> KeysAreText(heap[id]) && AllFreezable(heap, Children(heap[id]), active)
      ensures r.Some? ==> Represents(heap, Ref(id), Thaw(r.value))
      decreases heap.Keys - active, 2
    {
      var frozen: seq<FrozenEntry> := [];
      for k := 0 to |entries|
        invariant active == old(active) && |frozen| == k
        invariant forall i :: 0 <= i < k ==> entries[i].key.TextKey?
        invariant AllFreezable(heap, Children(heap[id])[..k], active)
        invariant EntriesFrozen(heap, entries, frozen)
      {
        if !entries[k].key.TextKey? {
          return None;
        }
        assert Children(heap[id])[k] == entries[k].value;
        AllFreezableExtends(heap, Children(heap[id]), k, active);
        var item := Freeze(heap, entries[k].value);
        if item.None? {
          return None;
        }
        EntriesFrozenExtends(heap, entries, frozen, item.value);
        frozen := frozen + [FrozenEntry(entries[k].key.key, item.value)];
      }
      assert Children(heap[id])[..|entries|] == Children(heap[id]);
      ProxyRepresents(heap, id, frozen);
      return Some(Proxy(frozen));
    }
  }

  /**
   A fresh walk accepts a value exactly when it unfolds to a finite JSON tree,
   and thawing what it returns gives that tree back.
   */
  method FreezeValue(heap: Heap, v: Value) returns (r: Option<Frozen>)
    requires Closed(heap) && Resolved(heap, v)
    ensures r.Some? <==> exists j :: Represents(heap, v, j)
    ensures r.Some? ==> forall j :: Represents(heap, v, j) ==> Thaw(r.value) == j
  {
    var freezer := new Freezer();
    r := freezer.Freeze(heap, v);
    if r.Some? {
      assert Represents(heap, v, Thaw(r.value));
    }
    forall j | Represents(heap, v, j) ensures r.Some? && Thaw(r.value) == j {
      RepresentedIsFreezable(heap, v, j);
      RepresentationIsUnique(heap, v, Thaw(r.value), j);
    }
  }
}
