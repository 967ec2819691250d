// watcher.go, lines 508-763: the tracker of (view, notifier) pairs.
// The functions on `State` say what each operation does to the tracker's whole state.

module Tracking {
  import opened Storing
  import opened Templates

  /** A view's identity: the dependency it serves, and which of its views it is. */
  datatype View = View(id: Id, serial: nat)

  datatype Pair = Pair(view: Id, notify: Id, mark: bool, accessed: bool)

  datatype State = State(tracked: seq<Pair>, views: map<Id, View>, notifiers: set<Id>)

  // --- what the operations compute ---

  predicate Paired(t: seq<Pair>, n: Id, d: Id) {
    exists p :: p in t && p.view == d && p.notify == n
  }

  function MarkInUse(t: seq<Pair>, n: Id, d: Id): seq<Pair> {
    seq(|t|, i requires 0 <= i < |t| =>
      if t[i].view == d && t[i].notify == n then t[i].(mark := true) else t[i])
  }

  function CacheAccessed(t: seq<Pair>, n: Id, d: Id): seq<Pair> {
    seq(|t|, i requires 0 <= i < |t| =>
      if t[i].view == d && t[i].notify == n then t[i].(accessed := true) else t[i])
  }

  function MarkForSweep(t: seq<Pair>, n: Id): seq<Pair> {
    seq(|t|, i requires 0 <= i < |t| =>
      if t[i].notify == n then t[i].(mark := false) else t[i])
  }

  /** The pairs a sweep for `n` keeps, in order. */
  function Keep(t: seq<Pair>, n: Id): seq<Pair> {
    if t == [] then []
    else
      var p := t[|t| - 1];
      Keep(t[..|t| - 1], n) + if p.mark || p.notify != n then [p] else []
  }

  /** The IDs a sweep takes to be in use: it files views and notifiers in one set. */
  function Used(t: seq<Pair>): set<Id> {
    (set p | p in t :: p.view) + (set p | p in t :: p.notify)
  }

  lemma StopAlso(before: multiset<View>, views: map<Id, View>, gone: set<Id>, id: Id)
    requires forall i :: i in views ==> views[i].id == i
    requires id in views && id !in gone
    ensures before + multiset(ViewsAt(views, gone)) + multiset{views[id]} ==
            before + multiset(ViewsAt(views, gone + {id}))
  {
    ViewsAtAdd(views, gone, id);
  }

  lemma MinusTwice<V>(m: map<Id, V>, gone: set<Id>, id: Id)
    ensures (m - gone) - {id} == m - (gone + {id})
  {
  }

  lemma KeepNext(t: seq<Pair>, i: nat, n: Id)
    requires i < |t|
    ensures Keep(t[..i + 1], n) == Keep(t[..i], n) + if t[i].mark || t[i].notify != n then [t[i]] else []
  {
    assert t[..i + 1][..i] == t[..i];
  }

  lemma Overwritten(t: seq<Pair>, k: nat, p: Pair)
    requires k < |t|
    ensures t[k := p][..k + 1] == t[..k] + [p]
  {
  }

  lemma UsedAppend(t: seq<Pair>, p: Pair)
    ensures Used(t + [p]) == Used(t) + {p.view} + {p.notify}
  {
    var u := t + [p];
    assert u[|t|] == p;
    assert forall i :: 0 <= i < |t| ==> u[i] == t[i];
  }

  /** The view IDs that a sweep for `n` stops. */
  function Swept(s: State, n: Id): set<Id> {
    s.views.Keys - Used(Keep(s.tracked, n))
  }

  function Sweep(s: State, n: Id): State {
    s.(tracked := Keep(s.tracked, n), views := s.views - Swept(s, n))
  }

  function ViewsAt(views: map<Id, View>, ids: set<Id>): set<View> {
    set id | id in ids && id in views :: views[id]
  }

  /** Stopping one more view adds that view once. */
  lemma ViewsAtAdd(views: map<Id, View>, ids: set<Id>, id: Id)
    requires forall i :: i in views ==> views[i].id == i
    requires id in views && id !in ids
    ensures multiset(ViewsAt(views, ids + {id})) == multiset(ViewsAt(views, ids)) + multiset{views[id]}
  {
    assert ViewsAt(views, ids + {id}) == ViewsAt(views, ids) + {views[id]};
    assert views[id] !in ViewsAt(views, ids);
  }

  predicate Complete(t: seq<Pair>, n: Id) {
    forall p :: p in t && p.notify == n ==> p.accessed
  }

  /** The notifiers of a view, one entry per pair and in tracking order. */
  function NotifiersFor(t: seq<Pair>, d: Id): seq<Id> {
    if t == [] then []
    else
      var p := t[|t| - 1];
      NotifiersFor(t[..|t| - 1], d) + if p.view == d then [p.notify] else []
  }

  // --- the tracker itself ---

  /** Some notifier of the view is not registered: among those found for it is a nil. */
  ghost predicate MeetsNil(s: State, d: Id) {
    exists n :: n in NotifiersFor(s.tracked, d) && n !in s.notifiers
  }

  class Tracker {
    var tracked: seq<Pair>
    var views: map<Id, View>
    var notifiers: map<Id, Template>
    // the stop() calls this tracker has made on views
    var stopped: multiset<View>

    ghost function Now(): State
      reads this
    {
      State(tracked, views, notifiers.Keys)
    }

    /** Maps are keyed by the ID of what they hold. */
    ghost predicate Valid()
      reads this
    {
      && (forall id :: id in views ==> views[id].id == id)
      && (forall id :: id in notifiers ==> notifiers[id].id == id)
    }

    /** What Go's lookup in the notifiers map yields. */
    function Registered(n: Id): Template?
      reads this
    {
      if n in notifiers then notifiers[n] else null
    }

    constructor ()
      ensures Valid()
      ensures Now() == State([], map[], {}) && stopped == multiset{} && notifiers == map[]
    {
      tracked, views, notifiers, stopped := [], map[], map[], multiset{};
    }

    /** All or nothing: one ID already present and none of them is added. */
    method RegisterNotifiers(ns: seq<Template>) returns (ok: bool)
      requires Valid()
      modifies this`notifiers
      ensures Valid()
      ensures ok <==> forall n :: n in ns ==> n.id !in old(notifiers)
      ensures !ok ==> notifiers == old(notifiers)
      ensures ok ==> notifiers.Keys == old(notifiers).Keys + set n | n in ns :: n.id
      ensures forall id :: id in old(notifiers) ==> id in notifiers && notifiers[id] == old(notifiers)[id]
    {
      for i := 0 to |ns|
        invariant forall j :: 0 <= j < i ==> ns[j].id !in notifiers
      {
        if ns[i].id in notifiers {
          return false;
        }
      }
      for i := 0 to |ns|
        invariant Valid()
        invariant notifiers.Keys == old(notifiers).Keys + set n | n in ns[..i] :: n.id
        invariant forall id :: id in old(notifiers) ==> id in notifiers && notifiers[id] == old(notifiers)[id]
      {
        notifiers := notifiers[ns[i].id := ns[i]];
        assert ns[..i + 1] == ns[..i] + [ns[i]];
      }
      assert ns[..|ns|] == ns;
      ok := true;
    }

    method DeregisterNotifiers(ns: seq<Template>)
      requires Valid()
      modifies this`notifiers
      ensures Valid()
      ensures notifiers == old(notifiers) - set n | n in ns :: n.id
    {
      for i := 0 to |ns|
        invariant notifiers == old(notifiers) - set n | n in ns[..i] :: n.id
      {
        notifiers := notifiers - {ns[i].id};
        assert ns[..i + 1] == ns[..i] + [ns[i]];
      }
      assert ns[..|ns|] == ns;
    }

    method LookupPair(n: Id, d: Id) returns (found: bool)
      ensures found <==> Paired(tracked, n, d)
    {
      for i := 0 to |tracked|
        invariant forall j :: 0 <= j < i ==> !(tracked[j].view == d && tracked[j].notify == n)
      {
        if tracked[i].view == d && tracked[i].notify == n {
          return true;
        }
      }
      found := false;
    }

    /** Adds the pair, and the view if its ID is new. A notifier that was never
        registered panics, after the view has been put in the map. */
    method Add(v: View, n: Id) returns (panicked: bool)
      requires Valid()
      modifies this`views, this`tracked
      ensures Valid()
      ensures views == if v.id in old(views) then old(views) else old(views)[v.id := v]
      ensures panicked <==> n !in notifiers
      ensures tracked == if panicked then old(tracked) else old(tracked) + [Pair(v.id, n, true, false)]
    {
      if v.id !in views {
        views := views[v.id := v];
      }
      if n !in notifiers {
        return true;
      }
      tracked := tracked + [Pair(v.id, n, true, false)];
      panicked := false;
    }

    method DoMarkInUse(n: Id, d: Id)
      modifies this`tracked
      ensures tracked == MarkInUse(old(tracked), n, d)
    {
      for i := 0 to |tracked|
        invariant |tracked| == |old(tracked)|
        invariant forall j :: 0 <= j < i ==> tracked[j] == MarkInUse(old(tracked), n, d)[j]
        invariant forall j :: i <= j < |tracked| ==> tracked[j] == old(tracked)[j]
      {
        var tp := tracked[i];
        if tp.view == d && tp.notify == n {
          tracked := tracked[i := tp.(mark := true)];
        }
      }
    }

    method DoCacheAccessed(n: Id, d: Id)
      modifies this`tracked
      ensures tracked == CacheAccessed(old(tracked), n, d)
    {
      for i := 0 to |tracked|
        invariant |tracked| == |old(tracked)|
        invariant forall j :: 0 <= j < i ==> tracked[j] == CacheAccessed(old(tracked), n, d)[j]
        invariant forall j :: i <= j < |tracked| ==> tracked[j] == old(tracked)[j]
      {
        var tp := tracked[i];
        if !tp.accessed && tp.view == d && tp.notify == n {
          tracked := tracked[i := tp.(accessed := true)];
        }
      }
    }

    method DoMarkForSweep(n: Id)
      modifies this`tracked
      ensures tracked == MarkForSweep(old(tracked), n)
    {
      for i := 0 to |tracked|
        invariant |tracked| == |old(tracked)|
        invariant forall j :: 0 <= j < i ==> tracked[j] == MarkForSweep(old(tracked), n)[j]
        invariant forall j :: i <= j < |tracked| ==> tracked[j] == old(tracked)[j]
      {
        var tp := tracked[i];
        if tp.notify == n && tp.mark {
          tracked := tracked[i := tp.(mark := false)];
        }
      }
    }

    /** Compacts `tracked` in place, then stops and forgets the views nobody uses. */
    method DoSweep(n: Id, cache: Store)
      requires Valid()
      modifies this`tracked, this`views, this`stopped, cache
      ensures Valid()
      ensures Now() == Sweep(old(Now()), n)
      ensures stopped == old(stopped) + multiset(ViewsAt(old(views), Swept(old(Now()), n)))
      ensures cache.data == old(cache.data) - Swept(old(Now()), n)
    {
      var used := Compact(n);
      DropUnused(used, cache);
    }

    /** The second loop of sweep. */
    method DropUnused(used: set<Id>, cache: Store)
      requires Valid()
      modifies this`views, this`stopped, cache
      ensures Valid()
      ensures views == old(views) - (old(views).Keys - used)
      ensures stopped == old(stopped) + multiset(ViewsAt(old(views), old(views).Keys - used))
      ensures cache.data == old(cache.data) - (old(views).Keys - used)
    {
      ghost var views0, stopped0, data0 := views, stopped, cache.data;
      ghost var gone: set<Id> := {};
      var todo := views.Keys;
      while todo != {}
        invariant Valid() && todo <= views0.Keys
        invariant forall id :: id in gone <==> id in views0 && id !in used && id !in todo
        invariant views == views0 - gone
        invariant stopped == stopped0 + multiset(ViewsAt(views0, gone))
        invariant cache.data == data0 - gone
        decreases todo
      {
        var id :| id in todo;
        todo := todo - {id};
        if id !in used {
          StopAlso(stopped0, views0, gone, id);
          MinusTwice(views0, gone, id);
          MinusTwice(data0, gone, id);
          Drop(id, cache);
          gone := gone + {id};
        }
      }
      assert gone == views0.Keys - used;
    }

    /** One view goes: out of the map, stopped, and out of the cache. */
    method Drop(id: Id, cache: Store)
      requires Valid() && id in views
      modifies this`views, this`stopped, cache
      ensures Valid()
      ensures views == old(views) - {id} && stopped == old(stopped) + multiset{old(views)[id]}
      ensures cache.data == old(cache.data) - {id}
    {
      var v := views[id];
      views := views - {id};
      stopped := stopped + multiset{v};
      cache.Delete(id);
    }

    /** The first loop of sweep: the kept pairs overwrite the front of the slice
        while the same slice is still being read. */
    method Compact(n: Id) returns (used: set<Id>)
      modifies this`tracked
      ensures tracked == Keep(old(tracked), n)
      ensures used == Used(tracked)
    {
      used := {};
      var k := 0;
      for i := 0 to |tracked|
        invariant |tracked| == |old(tracked)| && 0 <= k <= i
        invariant tracked[..k] == Keep(old(tracked)[..i], n)
        invariant forall j :: i <= j < |tracked| ==> tracked[j] == old(tracked)[j]
        invariant used == Used(tracked[..k])
      {
        var tp := tracked[i];
        KeepNext(old(tracked), i, n);
        if tp.mark || tp.notify != n {
          Overwritten(tracked, k, tp);
          UsedAppend(tracked[..k], tp);
          tracked := tracked[k := tp];
          k := k + 1;
          used := used + {tp.view} + {tp.notify};
        }
      }
      assert old(tracked)[..|old(tracked)|] == old(tracked);
      tracked := tracked[..k];
    }

    method DoStopViews()
      requires Valid()
      modifies this`views, this`stopped
      ensures Valid()
      ensures views == map[]
      ensures stopped == old(stopped) + multiset(ViewsAt(old(views), old(views).Keys))
    {
      var todo := views.Keys;
      while todo != {}
        invariant todo <= old(views).Keys && Valid()
        invariant views == old(views) - (old(views).Keys - todo)
        invariant stopped == old(stopped) + multiset(ViewsAt(old(views), old(views).Keys - todo))
        decreases todo
      {
        var id :| id in todo;
        ghost var was := old(views).Keys - todo;
        todo := todo - {id};
        assert old(views).Keys - todo == was + {id};
        ViewsAtAdd(old(views), was, id);
        var v := views[id];
        views := views - {id};
        stopped := stopped + multiset{v};
      }
      assert old(views).Keys - todo == old(views).Keys;
    }

    method IsComplete(n: Id) returns (ok: bool)
      ensures ok <==> Complete(tracked, n)
    {
      for i := 0 to |tracked|
        invariant forall j :: 0 <= j < i ==> tracked[j].notify == n ==> tracked[j].accessed
      {
        if tracked[i].notify == n && !tracked[i].accessed {
          return false;
        }
      }
      ok := true;
    }

    /** The templates behind `NotifiersFor`, null for a pair whose notifier is not registered. */
    method NotifiersOf(d: Id) returns (results: seq<Template?>)
      ensures |results| == |NotifiersFor(tracked, d)|
      ensures forall i :: 0 <= i < |results| ==> results[i] == Registered(NotifiersFor(tracked, d)[i])
    {
      results := [];
      for i := 0 to |tracked|
        invariant |results| == |NotifiersFor(tracked[..i], d)|
        invariant forall j :: 0 <= j < |results| ==> results[j] == Registered(NotifiersFor(tracked[..i], d)[j])
      {
        assert tracked[..i + 1][..i] == tracked[..i];
        if tracked[i].view == d {
          results := results + [Registered(tracked[i].notify)];
        }
      }
      assert tracked[..|tracked|] == tracked;
    }
  }
}
