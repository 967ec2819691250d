// tfunc/maps.go: explode. First what one insertion does to a nested map, as a value.

module Exploding {
  import opened Storing
  import opened Strings

  type Path = seq<string>

  /** The parts of a key, and the key with given parts. */
  function Parts(k: string): (parts: Path)
    ensures parts != []
  {
    Split(k, '/')
  }

  function Key(parts: Path): string {
    Join(parts, '/')
  }

  /** A nested map: every key holds a value or a map. */
  datatype Node = Leaf(value: Value) | Dir(entries: map<string, Node>)

  type Tree = map<string, Node>

  /** explodeHelper on the parts of the key; None when it reports "not a map". */
  function Insert(t: Tree, path: Path, v: Value): Option<Tree>
    requires path != []
    decreases |path|
  {
    var top := path[0];
    if |path| == 1 then
      Some(if top == "" then t else t[top := Leaf(v)])
    else if top in t && t[top].Leaf? then None
    else
      match Insert(if top in t then t[top].entries else map[], path[1..], v)
      case None => None
      case Some(nest) => Some(t[top := Dir(nest)])
  }

  // --- the tree as a flat map from paths ---

  /** The value at a path, if one is there. */
  function Find(t: Tree, path: Path): Option<Value>
    decreases |path|
  {
    if path == [] || path[0] !in t then None
    else match t[path[0]]
      case Leaf(v) => if |path| == 1 then Some(v) else None
      case Dir(entries) => if |path| == 1 then None else Find(entries, path[1..])
  }

  /** Whether a map is there, possibly an empty one. */
  predicate HasDir(t: Tree, path: Path)
    decreases |path|
  {
    path != [] && path[0] in t && t[path[0]].Dir? &&
    (|path| == 1 || HasDir(t[path[0]].entries, path[1..]))
  }

  /** A key whose last part is empty names a directory and stores nothing. */
  predicate Stores(path: Path)
    requires path != []
  {
    path[|path| - 1] != ""
  }

  /** Some value sits on the way to `path`. */
  ghost predicate Blocked(t: Tree, path: Path) {
    exists j :: 0 < j < |path| && Find(t, path[..j]).Some?
  }

  lemma {:induction false} InsertFailsIff(t: Tree, path: Path, v: Value)
    requires path != []
    ensures Insert(t, path, v).None? <==> Blocked(t, path)
    decreases |path|
  {
    var top := path[0];
    if |path| > 1 {
      assert path[..1] == [top];
      if top in t && t[top].Leaf? {
        assert Find(t, path[..1]).Some?;
      } else {
        var nest := if top in t then t[top].entries else map[];
        InsertFailsIff(nest, path[1..], v);
        assert Find(t, path[..1]).None?;
        forall j | 0 < j < |path| - 1
          ensures Find(t, path[..j + 1]) == Find(nest, path[1..][..j])
        {
          assert path[..j + 1][1..] == path[1..][..j];
        }
        if Blocked(t, path) {
          var j :| 0 < j < |path| && Find(t, path[..j]).Some?;
          assert j > 1 && Find(nest, path[1..][..j - 1]).Some?;
        }
        if Blocked(nest, path[1..]) {
          var j :| 0 < j < |path[1..]| && Find(nest, path[1..][..j]).Some?;
          assert Find(t, path[..j + 1]).Some?;
        }
      }
    }
  }

  /** Otherwise the flat map is the old one, without what was below the key, and with the
      key set, unless its last part is empty: then nothing about the values changes. */
  lemma {:induction false} InsertFind(t: Tree, path: Path, v: Value, q: Path)
    requires path != [] && q != [] && Insert(t, path, v).Some?
    ensures Find(Insert(t, path, v).value, q) ==
            if !Stores(path) then Find(t, q)
            else if q == path then Some(v)
            else if path < q then None
            else Find(t, q)
    decreases |path|
  {
    var top := path[0];
    if |path| == 1 {
      assert path == [top];
      assert |q| == 1 && q[0] == top ==> q == path;
    } else {
      var nest := if top in t then t[top].entries else map[];
      if q[0] == top && |q| > 1 {
        InsertFind(nest, path[1..], v, q[1..]);
        assert q == [top] + q[1..] && path == [top] + path[1..];
        assert path[1..] < q[1..] <==> path < q;
        assert q[1..] == path[1..] <==> q == path;
      } else {
        assert !(path < q) && q != path;
      }
    }
  }

  /** The directories are the old ones, without the key and what was below it, and with
      every proper prefix of the key. */
  lemma {:induction false} InsertDirs(t: Tree, path: Path, v: Value, q: Path)
    requires path != [] && q != [] && Insert(t, path, v).Some?
    ensures HasDir(Insert(t, path, v).value, q) <==>
            q < path || (HasDir(t, q) && !(Stores(path) && path <= q))
    decreases |path|
  {
    var top := path[0];
    if |path| == 1 {
      assert path == [top];
      assert path <= q <==> q[0] == top;
      assert !(q < path);
    } else {
      var nest := if top in t then t[top].entries else map[];
      assert path == [top] + path[1..];
      if q[0] == top && |q| > 1 {
        InsertDirs(nest, path[1..], v, q[1..]);
        assert q == [top] + q[1..];
        assert path[1..] <= q[1..] <==> path <= q;
        assert q[1..] < path[1..] <==> q < path;
      } else if q[0] == top {
        assert q == [top] && q < path;
      } else {
        assert !(q < path) && !(path <= q);
      }
    }
  }

  /** Nothing tells the two trees apart. */
  ghost predicate Alike(t: Tree, u: Tree) {
    forall q: Path :: q != [] ==> Find(t, q) == Find(u, q) && (HasDir(t, q) <==> HasDir(u, q))
  }

  lemma AlikeBelow(t: Tree, u: Tree, k: string)
    requires Alike(t, u) && k in t && k in u && t[k].Dir? && u[k].Dir?
    ensures Alike(t[k].entries, u[k].entries)
  {
    forall q: Path | q != []
      ensures Find(t[k].entries, q) == Find(u[k].entries, q)
      ensures HasDir(t[k].entries, q) <==> HasDir(u[k].entries, q)
    {
      assert ([k] + q)[1..] == q;
      assert Find(t, [k] + q) == Find(u, [k] + q);
      assert HasDir(t, [k] + q) <==> HasDir(u, [k] + q);
    }
  }

  /** The two together determine the tree. */
  lemma {:induction false} SameTree(x: Node, y: Node)
    requires x.Dir? && y.Dir? && Alike(x.entries, y.entries)
    ensures x == y
    decreases x
  {
    var t, u := x.entries, y.entries;
    forall k: string
      ensures k in t <==> k in u
      ensures k in t ==> t[k] == u[k]
    {
      assert Find(t, [k]) == Find(u, [k]) && (HasDir(t, [k]) <==> HasDir(u, [k]));
      if k in t && t[k].Dir? {
        AlikeBelow(t, u, k);
        SameTree(t[k], u[k]);
      }
    }
  }

  // --- a list of pairs, inserted one after the other into an empty map ---

  datatype KeyPair = KeyPair(key: string, value: Value)

  function Exploded(pairs: seq<KeyPair>): Option<Tree>
    decreases |pairs|
  {
    if pairs == [] then Some(map[])
    else
      var last := pairs[|pairs| - 1];
      match Exploded(pairs[..|pairs| - 1])
      case None => None
      case Some(t) => Insert(t, Parts(last.key), last.value)
  }

  predicate SetsValue(p: KeyPair) {
    Stores(Parts(p.key))
  }

  /** No pair after position i stores a value at q or above it. */
  ghost predicate Undisturbed(pairs: seq<KeyPair>, i: nat, q: Path) {
    forall j :: i < j < |pairs| && SetsValue(pairs[j]) ==> !(Parts(pairs[j].key) <= q)
  }

  /** The flat map that a list of pairs describes. */
  ghost predicate Holds(pairs: seq<KeyPair>, q: Path, v: Value) {
    exists i :: 0 <= i < |pairs| && SetsValue(pairs[i]) && Parts(pairs[i].key) == q &&
      pairs[i].value == v && Undisturbed(pairs, i, q)
  }

  ghost predicate Spans(pairs: seq<KeyPair>, q: Path) {
    exists i :: 0 <= i < |pairs| && q < Parts(pairs[i].key) && Undisturbed(pairs, i, q)
  }

  lemma UndisturbedLast(pairs: seq<KeyPair>, i: nat, q: Path)
    requires i < |pairs| - 1
    ensures var last := pairs[|pairs| - 1];
            Undisturbed(pairs, i, q) <==>
            Undisturbed(pairs[..|pairs| - 1], i, q) && (SetsValue(last) ==> !(Parts(last.key) <= q))
  {
    var init := pairs[..|pairs| - 1];
    assert forall j :: 0 <= j < |init| ==> init[j] == pairs[j];
  }

  lemma HoldsNext(pairs: seq<KeyPair>, q: Path, v: Value)
    requires pairs != []
    ensures var n := |pairs| - 1; var last := pairs[n];
            Holds(pairs, q, v) <==>
            if SetsValue(last) && Parts(last.key) == q then last.value == v
            else Holds(pairs[..n], q, v) && (SetsValue(last) ==> !(Parts(last.key) <= q))
  {
    var n := |pairs| - 1;
    var last := pairs[n];
    if Holds(pairs, q, v) {
      var i :| 0 <= i < |pairs| && SetsValue(pairs[i]) && Parts(pairs[i].key) == q &&
        pairs[i].value == v && Undisturbed(pairs, i, q);
      if i < n {
        UndisturbedLast(pairs, i, q);
        assert pairs[..n][i] == pairs[i];
      }
    }
    if Holds(pairs[..n], q, v) {
      var i :| 0 <= i < n && SetsValue(pairs[..n][i]) && Parts(pairs[..n][i].key) == q &&
        pairs[..n][i].value == v && Undisturbed(pairs[..n], i, q);
      UndisturbedLast(pairs, i, q);
      assert pairs[..n][i] == pairs[i];
    }
    if SetsValue(last) && Parts(last.key) == q && last.value == v {
      assert Undisturbed(pairs, n, q);
    }
  }

  lemma {:induction false} ExplodedFind(pairs: seq<KeyPair>, q: Path, v: Value)
    requires q != [] && Exploded(pairs).Some?
    ensures Find(Exploded(pairs).value, q) == Some(v) <==> Holds(pairs, q, v)
    decreases |pairs|
  {
    if pairs != [] {
      var n := |pairs| - 1;
      var last := pairs[n];
      ExplodedFind(pairs[..n], q, v);
      InsertFind(Exploded(pairs[..n]).value, Parts(last.key), last.value, q);
      HoldsNext(pairs, q, v);
    }
  }

  lemma {:induction false} ExplodedDirs(pairs: seq<KeyPair>, q: Path)
    requires q != [] && Exploded(pairs).Some?
    ensures HasDir(Exploded(pairs).value, q) <==> Spans(pairs, q)
    decreases |pairs|
  {
    if pairs != [] {
      var n := |pairs| - 1;
      var last := pairs[n];
      ExplodedDirs(pairs[..n], q);
      InsertDirs(Exploded(pairs[..n]).value, Parts(last.key), last.value, q);
      if Spans(pairs, q) {
        var i :| 0 <= i < |pairs| && q < Parts(pairs[i].key) && Undisturbed(pairs, i, q);
        if i < n {
          UndisturbedLast(pairs, i, q);
          assert pairs[..n][i] == pairs[i];
        }
      }
      if Spans(pairs[..n], q) {
        var i :| 0 <= i < n && q < Parts(pairs[..n][i].key) && Undisturbed(pairs[..n], i, q);
        UndisturbedLast(pairs, i, q);
        assert pairs[..n][i] == pairs[i];
      }
      if q < Parts(last.key) {
        assert Undisturbed(pairs, n, q);
      }
    }
  }

  /** A storing pair goes before one whose key continues its own. */
  ghost predicate Clash(pairs: seq<KeyPair>, j: nat, i: nat) {
    j < i < |pairs| && SetsValue(pairs[j]) && pairs[j].key + "/" <= pairs[i].key
  }

  lemma {:induction false} StoredBlocks(pairs: seq<KeyPair>, path: Path, i: nat)
    requires Exploded(pairs).Some? && i < |pairs| && SetsValue(pairs[i]) && Parts(pairs[i].key) < path
    ensures Blocked(Exploded(pairs).value, path)
    decreases |pairs|
  {
    var n := |pairs| - 1;
    var last := pairs[n];
    var lastPath := Parts(last.key);
    var before := Exploded(pairs[..n]).value;
    if SetsValue(last) && lastPath < path {
      InsertFind(before, lastPath, last.value, lastPath);
      assert path[..|lastPath|] == lastPath;
    } else {
      assert pairs[..n][i] == pairs[i];
      StoredBlocks(pairs[..n], path, i);
      var j :| 0 < j < |path| && Find(before, path[..j]).Some?;
      InsertFind(before, lastPath, last.value, path[..j]);
      assert lastPath < path[..j] ==> lastPath < path;
    }
  }

  lemma {:induction false} BlockedMeansStored(pairs: seq<KeyPair>, path: Path) returns (i: nat)
    requires Exploded(pairs).Some? && Blocked(Exploded(pairs).value, path)
    ensures i < |pairs| && SetsValue(pairs[i]) && Parts(pairs[i].key) < path
  {
    var j :| 0 < j < |path| && Find(Exploded(pairs).value, path[..j]).Some?;
    var v := Find(Exploded(pairs).value, path[..j]).value;
    ExplodedFind(pairs, path[..j], v);
    i :| 0 <= i < |pairs| && SetsValue(pairs[i]) && Parts(pairs[i].key) == path[..j] &&
      pairs[i].value == v && Undisturbed(pairs, i, path[..j]);
  }

  /** explode fails exactly when a key is continued by a later one. */
  lemma {:induction false} ExplodeFailsIff(pairs: seq<KeyPair>)
    ensures Exploded(pairs).None? <==> exists j: nat, i: nat :: Clash(pairs, j, i)
    decreases |pairs|
  {
    if pairs != [] {
      var n := |pairs| - 1;
      var init, path := pairs[..n], Parts(pairs[n].key);
      ExplodeFailsIff(init);
      if Exploded(init).None? {
        var j: nat, i: nat :| Clash(init, j, i);
        assert Clash(pairs, j, i);
      } else {
        InsertFailsIff(Exploded(init).value, path, pairs[n].value);
        if Exploded(pairs).None? {
          var j := BlockedMeansStored(init, path);
          PrefixSplit(pairs[j].key, pairs[n].key, '/');
          assert Clash(pairs, j, n);
        }
        if j: nat, i: nat :| Clash(pairs, j, i) {
          if i < n {
            assert Clash(init, j, i);
          }
          PrefixSplit(pairs[j].key, pairs[n].key, '/');
          assert init[j] == pairs[j];
          StoredBlocks(init, path, j);
        }
      }
    }
  }
}
