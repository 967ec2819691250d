// tfunc/maps.go: explode, explodeHelper and explodeMap, over nested maps that are updated in place.

module Nesting {
  import opened Storing
  import opened Strings
  import opened Exploding
  import opened Flattening

  datatype Entry = Plain(value: Value) | Inner(nest: Nest)

  class Nest {
    var entries: map<string, Entry>
    ghost var repr: set<object>

    /** A tree of maps: no map is reachable in two ways. */
    ghost predicate Valid()
      reads this, repr
      decreases repr
    {
      && this in repr
      && (forall k :: k in entries && entries[k].Inner? ==>
            var d := entries[k].nest;
            d in repr && d.repr <= repr && this !in d.repr && d.Valid())
      && (forall k, l :: k in entries && l in entries && k != l && entries[k].Inner? && entries[l].Inner? ==>
            entries[k].nest.repr !! entries[l].nest.repr)
    }

    /** The nested map as a value. */
    ghost function Value(): Tree
      requires Valid()
      reads this, repr
      decreases repr
    {
      map k | k in entries ::
        if entries[k].Plain? then Leaf(entries[k].value) else Dir(entries[k].nest.Value())
    }

    constructor ()
      ensures Valid() && fresh(this) && repr == {this} && entries == map[] && Value() == map[]
    {
      entries := map[];
      repr := {this};
    }
  }

  /** A change below one entry of a map is, for the map as a whole, a change of that entry. */
  twostate lemma Descended(new m: Nest, top: string)
    requires allocated(m) && old(allocated(m))
    requires old(m.Valid()) && top in m.entries && m.entries == old(m.entries) && m.entries[top].Inner?
    requires m.entries[top].nest.Valid() && m.repr == old(m.repr) + m.entries[top].nest.repr
    requires fresh(m.entries[top].nest.repr - old(m.entries[top].nest.repr))
    requires forall o :: o in old(m.repr) && o !in old(m.entries[top].nest.repr) && o != m ==> unchanged(o)
    ensures m.Valid()
    ensures m.Value() == old(m.Value())[top := Dir(m.entries[top].nest.Value())]
  {
    var d := m.entries[top].nest;
    forall k | k in m.entries && k != top && m.entries[k].Inner?
      ensures unchanged(m.entries[k].nest) && old(m.entries[k].nest.repr) !! d.repr
      ensures m.entries[k].nest.Valid() && m.entries[k].nest.Value() == old(m.entries[k].nest.Value())
    {
      var e := m.entries[k].nest;
      assert k in old(m.entries) && top in old(m.entries);
      assert old(m.entries[k].nest) == e && old(m.entries[top].nest) == d;
      assert old(e.repr) !! old(d.repr) && m !in old(e.repr);
      forall o | o in old(e.repr) ensures unchanged(o) {
        assert o in old(m.repr) - old(d.repr);
      }
    }
  }

  /** m[top] = make(map), when nothing is there. */
  method Provide(m: Nest, top: string)
    requires m.Valid()
    modifies m
    ensures m.Valid() && fresh(m.repr - old(m.repr))
    ensures top in m.entries
    ensures m.Value() == if top in old(m.Value()) then old(m.Value()) else old(m.Value())[top := Dir(map[])]
  {
    if top !in m.entries {
      ghost var before := m.Value();
      var d := new Nest();
      m.entries := m.entries[top := Inner(d)];
      m.repr := m.repr + d.repr;
      assert m.Valid();
      forall k | k in before ensures m.Value()[k] == before[k] {
        assert m.entries[k] == old(m.entries)[k];
      }
      assert m.Value()[top] == Dir(map[]);
    }
  }

  lemma ProvidedInsert(t: Tree, path: Path, v: Value)
    requires |path| > 1 && path[0] !in t
    ensures Insert(t[path[0] := Dir(map[])], path, v) == Insert(t, path, v)
    ensures Insert(t, path, v).Some?
  {
    InsertFailsIff(map[], path[1..], v);
    var u := t[path[0] := Dir(map[])];
    var nest := Insert(map[], path[1..], v);
    assert nest.Some?;
    assert u[path[0] := Dir(nest.value)] == t[path[0] := Dir(nest.value)];
  }

  /** The recursive call on m[top], seen from m. */
  method Descend(m: Nest, top: string, key: string, v: Value) returns (ok: bool)
    requires m.Valid() && top in m.entries && m.entries[top].Inner?
    modifies m.repr
    ensures m.Valid() && fresh(m.repr - old(m.repr))
    ensures var inserted := Insert(old(m.Value())[top].entries, Parts(key), v);
            && (ok <==> inserted.Some?)
            && m.Value() == if ok then old(m.Value())[top := Dir(inserted.value)] else old(m.Value())
    decreases |key|, 1
  {
    var nest := m.entries[top].nest;
    ok := ExplodeHelper(nest, key, v);
    m.repr := m.repr + nest.repr;
    Descended(m, top);
  }

  /** explodeHelper: a failure leaves the map as it was. */
  method ExplodeHelper(m: Nest, k: string, v: Value) returns (ok: bool)
    requires m.Valid()
    modifies m.repr
    ensures m.Valid() && fresh(m.repr - old(m.repr))
    ensures ok <==> Insert(old(m.Value()), Parts(k), v).Some?
    ensures m.Value() == if ok then Insert(old(m.Value()), Parts(k), v).value else old(m.Value())
    decreases |k|, 0
  {
    SplitParts(k, '/');
    if '/' in k {
      var parts := Parts(k);
      var top := parts[0];
      var key := Key(parts[1..]);
      SplitJoin(parts[1..], '/');
      JoinSplit(k, '/');
      if top !in m.Value() {
        ProvidedInsert(m.Value(), parts, v);
      }
      Provide(m, top);
      if m.entries[top].Plain? {
        return false;
      }
      ok := Descend(m, top, key, v);
    } else {
      Put(m, k, v);
      ok := true;
    }
  }

  /** m[k] = v, except under the empty key. */
  method Put(m: Nest, k: string, v: Value)
    requires m.Valid()
    modifies m
    ensures m.Valid() && m.repr == old(m.repr)
    ensures m.Value() == if k == "" then old(m.Value()) else old(m.Value())[k := Leaf(v)]
  {
    if k != "" {
      m.entries := m.entries[k := Plain(v)];
    }
  }

  /** explode; null stands for the error. */
  method Explode(pairs: seq<KeyPair>) returns (m: Nest?)
    ensures m == null <==> Exploded(pairs).None?
    ensures m != null ==> m.Valid() && fresh(m.repr) && m.Value() == Exploded(pairs).value
  {
    var out := new Nest();
    for i := 0 to |pairs|
      invariant out.Valid() && fresh(out.repr)
      invariant Exploded(pairs[..i]) == Some(out.Value())
    {
      assert pairs[..i + 1][..i] == pairs[..i];
      var ok := ExplodeHelper(out, pairs[i].key, pairs[i].value);
      if !ok {
        StaysFailed(pairs, i + 1);
        return null;
      }
    }
    assert pairs[..|pairs|] == pairs;
    m := out;
  }

  lemma {:induction false} StaysFailed(pairs: seq<KeyPair>, i: nat)
    requires i <= |pairs| && Exploded(pairs[..i]).None?
    ensures Exploded(pairs).None?
    decreases |pairs|
  {
    if i < |pairs| {
      assert pairs[..|pairs| - 1][..i] == pairs[..i];
      StaysFailed(pairs[..|pairs| - 1], i);
    } else {
      assert pairs[..i] == pairs;
    }
  }

  /** explodeMap, on values that are not maps themselves; null stands for the error. The
      order in which the range loop meets the keys does not matter. */
  method ExplodeMap(mapIn: map<string, Value>) returns (m: Nest?)
    ensures m == null <==> !Separate(mapIn)
    ensures m != null ==> m.Valid() && fresh(m.repr) && Unfolds(m.Value(), mapIn)
  {
    var keys: seq<string> := [];
    var rest := mapIn.Keys;
    while rest != {}
      invariant rest <= mapIn.Keys
      invariant forall k :: k in keys <==> k in mapIn && k !in rest
      decreases rest
    {
      var k :| k in rest;
      keys := keys + [k];
      rest := rest - {k};
    }
    var sorted := Sort(keys);
    SortSorts(keys);
    SameElements(keys, sorted);
    SortedExplodeFailsIff(mapIn, sorted);
    m := Explode(Listed(mapIn, sorted));
    if m != null {
      MapUnfolds(mapIn, sorted);
    }
  }

  lemma SameElements(s: seq<string>, t: seq<string>)
    requires multiset(s) == multiset(t)
    ensures forall k :: k in s <==> k in t
  {
    assert forall k :: k in s <==> k in multiset(s);
    assert forall k :: k in t <==> k in multiset(t);
  }
}
