// tfunc/maps.go: when explode and explodeMap give back, under every key, the value they were given.

module Flattening {
  import opened Storing
  import opened Strings
  import opened Exploding

  /** Equal keys carry equal values. */
  ghost predicate Consistent(pairs: seq<KeyPair>) {
    forall p, r :: p in pairs && r in pairs && p.key == r.key ==> p == r
  }

  /** No key that stores a value is continued by another key. */
  ghost predicate PrefixFree(pairs: seq<KeyPair>) {
    forall p, r :: p in pairs && r in pairs && SetsValue(p) ==> !(p.key + "/" <= r.key)
  }

  /** The same, asked only of keys that store values. */
  ghost predicate ValuesPrefixFree(pairs: seq<KeyPair>) {
    forall p, r :: p in pairs && r in pairs && SetsValue(p) && SetsValue(r) ==> !(p.key + "/" <= r.key)
  }

  /** The flat map from paths to values that the pairs spell out, and the directories they name. */
  ghost predicate Names(pairs: seq<KeyPair>, q: Path, v: Value) {
    exists p :: p in pairs && SetsValue(p) && Parts(p.key) == q && p.value == v
  }

  ghost predicate Reaches(pairs: seq<KeyPair>, q: Path) {
    exists p :: p in pairs && q < Parts(p.key)
  }

  lemma PrefixFreeUndisturbed(pairs: seq<KeyPair>, i: nat, q: Path)
    requires PrefixFree(pairs) && i < |pairs| && q < Parts(pairs[i].key)
    ensures Undisturbed(pairs, i, q)
  {
    forall j | i < j < |pairs| && SetsValue(pairs[j]) ensures !(Parts(pairs[j].key) <= q) {
      PrefixSplit(pairs[j].key, pairs[i].key, '/');
    }
  }

  /** A value stands if no value is stored above it. */
  lemma {:induction false} LastStands(pairs: seq<KeyPair>, p: KeyPair)
    requires p in pairs && SetsValue(p) && Consistent(pairs)
    requires forall r :: r in pairs && SetsValue(r) ==> !(r.key + "/" <= p.key)
    ensures Holds(pairs, Parts(p.key), p.value)
    decreases |pairs|
  {
    var n := |pairs| - 1;
    var q := Parts(p.key);
    if pairs[n] == p {
      assert Undisturbed(pairs, n, q);
    } else {
      var init := pairs[..n];
      LastStands(init, p);
      var i :| 0 <= i < |init| && SetsValue(init[i]) && Parts(init[i].key) == q &&
        init[i].value == p.value && Undisturbed(init, i, q);
      if SetsValue(pairs[n]) && Parts(pairs[n].key) <= q {
        PrefixSplit(pairs[n].key, p.key, '/');
        if Parts(pairs[n].key) == q {
          SplitInjective(pairs[n].key, p.key, '/');
        }
        assert false;
      }
      UndisturbedLast(pairs, i, q);
      assert pairs[i] == init[i];
    }
  }

  lemma PrefixFreeSucceeds(pairs: seq<KeyPair>)
    requires PrefixFree(pairs)
    ensures Exploded(pairs).Some?
  {
    ExplodeFailsIff(pairs);
    assert forall j: nat, i: nat :: !Clash(pairs, j, i);
  }

  /** Prefix-free pairs round-trip: the nested map holds their values and nothing else. */
  lemma ExplodeValues(pairs: seq<KeyPair>, q: Path, v: Value)
    requires Consistent(pairs) && PrefixFree(pairs) && q != []
    ensures Exploded(pairs).Some?
    ensures Find(Exploded(pairs).value, q) == Some(v) <==> Names(pairs, q, v)
  {
    PrefixFreeSucceeds(pairs);
    ExplodedFind(pairs, q, v);
    if Names(pairs, q, v) {
      var p :| p in pairs && SetsValue(p) && Parts(p.key) == q && p.value == v;
      LastStands(pairs, p);
    }
  }

  /** And its directories are the proper prefixes of their keys. */
  lemma ExplodeDirectories(pairs: seq<KeyPair>, q: Path)
    requires Consistent(pairs) && PrefixFree(pairs) && q != []
    ensures Exploded(pairs).Some?
    ensures HasDir(Exploded(pairs).value, q) <==> Reaches(pairs, q)
  {
    PrefixFreeSucceeds(pairs);
    ExplodedDirs(pairs, q);
    if Reaches(pairs, q) {
      var p :| p in pairs && q < Parts(p.key);
      var i :| 0 <= i < |pairs| && pairs[i] == p;
      PrefixFreeUndisturbed(pairs, i, q);
    }
  }

  lemma SamePairs(pairs: seq<KeyPair>, others: seq<KeyPair>)
    requires forall p :: p in pairs <==> p in others
    ensures Consistent(pairs) ==> Consistent(others)
    ensures PrefixFree(pairs) ==> PrefixFree(others)
    ensures forall q, v :: Names(pairs, q, v) <==> Names(others, q, v)
    ensures forall q :: Reaches(pairs, q) <==> Reaches(others, q)
  {
  }

  /** The same prefix-free pairs give the same nested map in every order. */
  lemma {:induction false} OrderIrrelevant(pairs: seq<KeyPair>, others: seq<KeyPair>)
    requires Consistent(pairs) && PrefixFree(pairs)
    requires forall p :: p in pairs <==> p in others
    ensures Exploded(pairs).Some? && Exploded(pairs) == Exploded(others)
  {
    SamePairs(pairs, others);
    PrefixFreeSucceeds(pairs);
    PrefixFreeSucceeds(others);
    var t, u := Exploded(pairs).value, Exploded(others).value;
    forall q: Path | q != []
      ensures Find(t, q) == Find(u, q) && (HasDir(t, q) <==> HasDir(u, q))
    {
      ExplodeDirectories(pairs, q);
      ExplodeDirectories(others, q);
      if Find(t, q).Some? {
        ExplodeValues(pairs, q, Find(t, q).value);
        ExplodeValues(others, q, Find(t, q).value);
      } else if Find(u, q).Some? {
        ExplodeValues(pairs, q, Find(u, q).value);
        ExplodeValues(others, q, Find(u, q).value);
      }
    }
    SameTree(Dir(t), Dir(u));
  }

  lemma Overwritten(pairs: seq<KeyPair>, p: KeyPair, r: KeyPair)
    requires Exploded(pairs).Some? && p in pairs && SetsValue(p) && p.key + "/" <= r.key
    ensures !Holds(pairs, Parts(r.key), r.value)
  {
    ExplodeFailsIff(pairs);
    var q := Parts(r.key);
    var j :| 0 <= j < |pairs| && pairs[j] == p;
    PrefixSplit(p.key, r.key, '/');
    if Holds(pairs, q, r.value) {
      var i :| 0 <= i < |pairs| && SetsValue(pairs[i]) && Parts(pairs[i].key) == q &&
        pairs[i].value == r.value && Undisturbed(pairs, i, q);
      SplitInjective(pairs[i].key, r.key, '/');
      assert j < i ==> Clash(pairs, j, i);
    }
  }

  /** A successful explode can lose values silently, a leaf replacing a subtree. It keeps
      them all exactly when no storing key continues another. */
  lemma {:induction false} ValuesSurviveIff(pairs: seq<KeyPair>)
    requires Consistent(pairs) && Exploded(pairs).Some?
    ensures (forall p :: p in pairs && SetsValue(p) ==>
               Find(Exploded(pairs).value, Parts(p.key)) == Some(p.value)) <==>
            ValuesPrefixFree(pairs)
  {
    if ValuesPrefixFree(pairs) {
      forall p | p in pairs && SetsValue(p)
        ensures Find(Exploded(pairs).value, Parts(p.key)) == Some(p.value)
      {
        LastStands(pairs, p);
        ExplodedFind(pairs, Parts(p.key), p.value);
      }
    } else {
      var p, r :| p in pairs && r in pairs && SetsValue(p) && SetsValue(r) && p.key + "/" <= r.key;
      Overwritten(pairs, p, r);
      ExplodedFind(pairs, Parts(r.key), r.value);
    }
  }

  // --- explodeMap ---

  /** The entries of a map, in the order of `keys`. */
  function Listed(m: map<string, Value>, keys: seq<string>): (pairs: seq<KeyPair>)
    requires forall k :: k in keys ==> k in m
    ensures |pairs| == |keys|
    ensures forall i :: 0 <= i < |keys| ==> pairs[i] == KeyPair(keys[i], m[keys[i]])
    decreases |keys|
  {
    if keys == [] then [] else [KeyPair(keys[0], m[keys[0]])] + Listed(m, keys[1..])
  }

  /** No key that stores a value is continued by another key of the map. */
  ghost predicate Separate(m: map<string, Value>) {
    forall k, l :: k in m && l in m && Stores(Parts(k)) ==> !(k + "/" <= l)
  }

  lemma ListedPrefixFree(m: map<string, Value>, keys: seq<string>)
    requires forall k :: k in keys <==> k in m
    ensures Consistent(Listed(m, keys))
    ensures PrefixFree(Listed(m, keys)) <==> Separate(m)
    ensures forall k :: k in m ==> KeyPair(k, m[k]) in Listed(m, keys)
  {
    var pairs := Listed(m, keys);
    forall k | k in m ensures KeyPair(k, m[k]) in pairs {
      var i :| 0 <= i < |keys| && keys[i] == k;
      assert pairs[i] == KeyPair(k, m[k]);
    }
    if Separate(m) {
      forall p, r | p in pairs && r in pairs && SetsValue(p) ensures !(p.key + "/" <= r.key) {
        assert p.key in m && r.key in m;
      }
    }
    if PrefixFree(pairs) {
      forall k, l | k in m && l in m && Stores(Parts(k)) ensures !(k + "/" <= l) {
        assert SetsValue(KeyPair(k, m[k]));
        assert KeyPair(k, m[k]) in pairs && KeyPair(l, m[l]) in pairs;
      }
    }
  }

  /** Sorting puts a key before the keys that continue it, so no value is lost silently. */
  lemma {:induction false} SortedExplodeFailsIff(m: map<string, Value>, keys: seq<string>)
    requires forall k :: k in keys <==> k in m
    requires Sorted(keys)
    ensures Exploded(Listed(m, keys)).Some? <==> Separate(m)
  {
    var pairs := Listed(m, keys);
    ListedPrefixFree(m, keys);
    if Separate(m) {
      PrefixFreeSucceeds(pairs);
    } else {
      var k, l :| k in m && l in m && Stores(Parts(k)) && k + "/" <= l;
      var j :| 0 <= j < |keys| && keys[j] == k;
      var i :| 0 <= i < |keys| && keys[i] == l;
      PrefixLess(k, l);
      LessTotal(k, l);
      assert Clash(pairs, j, i);
      ExplodeFailsIff(pairs);
    }
  }

  /** What explodeMap's result holds: under every path the value of that key, and the
      directories on the way. */
  ghost predicate Unfolds(t: Tree, m: map<string, Value>) {
    && (forall k :: k in m && Stores(Parts(k)) ==> Find(t, Parts(k)) == Some(m[k]))
    && (forall q: Path :: q != [] && Find(t, q).Some? ==> Key(q) in m && Parts(Key(q)) == q && Stores(q))
    && (forall q: Path :: q != [] ==> (HasDir(t, q) <==> Heads(m, q)))
  }

  /** The path is a proper prefix of some key's. */
  ghost predicate Heads(m: map<string, Value>, q: Path) {
    exists k :: k in m && q < Parts(k)
  }

  lemma ListedReaches(m: map<string, Value>, keys: seq<string>, q: Path)
    requires forall k :: k in keys <==> k in m
    ensures Reaches(Listed(m, keys), q) <==> Heads(m, q)
  {
    var pairs := Listed(m, keys);
    ListedPrefixFree(m, keys);
    if Heads(m, q) {
      var k :| k in m && q < Parts(k);
      assert KeyPair(k, m[k]) in pairs && KeyPair(k, m[k]).key == k;
    }
  }

  lemma ListedNames(m: map<string, Value>, keys: seq<string>, q: Path, v: Value)
    requires forall k :: k in keys <==> k in m
    ensures Names(Listed(m, keys), q, v) <==> (Key(q) in m && Parts(Key(q)) == q && Stores(q) && m[Key(q)] == v)
  {
    var pairs, k := Listed(m, keys), Key(q);
    ListedPrefixFree(m, keys);
    if Names(pairs, q, v) {
      var p :| p in pairs && SetsValue(p) && Parts(p.key) == q && p.value == v;
      JoinSplit(p.key, '/');
    }
    if k in m && Parts(k) == q && Stores(q) && m[k] == v {
      assert KeyPair(k, m[k]) in pairs && SetsValue(KeyPair(k, m[k]));
    }
  }

  lemma {:induction false} MapUnfolds(m: map<string, Value>, keys: seq<string>)
    requires forall k :: k in keys <==> k in m
    requires Separate(m)
    ensures Exploded(Listed(m, keys)).Some? && Unfolds(Exploded(Listed(m, keys)).value, m)
  {
    var pairs := Listed(m, keys);
    ListedPrefixFree(m, keys);
    PrefixFreeSucceeds(pairs);
    var t := Exploded(pairs).value;
    forall k | k in m && Stores(Parts(k)) ensures Find(t, Parts(k)) == Some(m[k]) {
      JoinSplit(k, '/');
      ListedNames(m, keys, Parts(k), m[k]);
      ExplodeValues(pairs, Parts(k), m[k]);
    }
    forall q: Path | q != [] && Find(t, q).Some? ensures Key(q) in m && Parts(Key(q)) == q && Stores(q) {
      ExplodeValues(pairs, q, Find(t, q).value);
      ListedNames(m, keys, q, Find(t, q).value);
    }
    forall q: Path | q != [] ensures HasDir(t, q) <==> Heads(m, q) {
      ExplodeDirectories(pairs, q);
      ListedReaches(m, keys, q);
    }
  }

  /** A map that can be exploded is determined by the result, up to the keys that store nothing. */
  lemma UnfoldsInjective(t: Tree, m: map<string, Value>, n: map<string, Value>, k: string)
    requires Unfolds(t, m) && Unfolds(t, n) && Stores(Parts(k))
    ensures Lookup(m, k) == Lookup(n, k)
  {
    JoinSplit(k, '/');
  }

  /** In terms of the characters: the empty key and keys with a trailing "/" store nothing. */
  lemma {:induction false} StoresIff(k: string)
    ensures Stores(Parts(k)) <==> k != "" && k[|k| - 1] != '/'
  {
    if k != "" {
      var rest := Split(k[1..], '/');
      if |k| == 1 {
        assert k[1..] == "" && rest == [""];
      } else {
        StoresIff(k[1..]);
      }
      if k[0] == '/' {
        assert Parts(k)[|rest|] == rest[|rest| - 1];
      } else if |rest| > 1 {
        assert Parts(k)[|rest| - 1] == rest[|rest| - 1];
      }
    }
  }
}
