// What every run of watcher operations keeps, from a new watcher on.

module Integrity {
  import opened Storing
  import opened Tracking
  import opened TrackerFacts
  import opened Watching

  /** The atomic operations, templates being known by their IDs. */
  datatype Op =
    | Register(ns: set<Id>)
    | Deregister(gone: seq<Id>)
    | Track(n: Id, d: Id)
    | Recall(n: Id, d: Id)
    | Poll(ds: set<Id>)
    | Mark(n: Id)
    | Collect(n: Id)
    | Save(d: Id, data: Value)
    | Stop

  ghost function Apply(w: World, op: Op): World {
    match op
    case Register(ns) => AfterRegister(w, ns)
    case Deregister(gone) => AfterDeregister(w, gone)
    case Track(n, d) => AfterTrack(AfterRegister(w, {n}), n, d)
    case Recall(n, d) => if TrackPanics(w, n, d) then AfterTrack(w, n, d) else AfterRecall(w, n, d)
    case Poll(ds) => AfterPoll(w, ds)
    case Mark(n) => AfterMark(w, n)
    case Collect(n) => AfterSweep(w, n)
    case Save(d, data) => AfterSave(w, d, data)
    case Stop => AfterStop(w)
  }

  ghost function Perform(w: World, ops: seq<Op>): World {
    if ops == [] then w else Apply(Perform(w, ops[..|ops| - 1]), ops[|ops| - 1])
  }

  // --- no view leaks and none is stopped twice ---

  ghost function Live(w: World): set<View> {
    ViewsAt(w.trk.views, w.trk.views.Keys)
  }

  /** Every view that ever entered the map is in it now or was stopped, once. */
  ghost predicate Conserved(w: World) {
    && (forall id :: id in w.trk.views ==> w.trk.views[id].id == id)
    && (forall v :: v in w.entered ==> v.serial < w.serial)
    && multiset(Live(w)) + w.stopped == multiset(w.entered)
    && w.polled <= w.entered
  }

  lemma LiveEntered(w: World, v: View)
    requires Conserved(w) && v in Live(w)
    ensures v in w.entered && v !in w.stopped
  {
    assert multiset(Live(w))[v] == 1;
    assert (multiset(Live(w)) + w.stopped)[v] == multiset(w.entered)[v];
  }

  lemma LivePut(views: map<Id, View>, d: Id, v: View)
    requires d !in views
    ensures ViewsAt(views[d := v], views[d := v].Keys) == ViewsAt(views, views.Keys) + {v}
  {
    var after := views[d := v];
    forall x | x in ViewsAt(views, views.Keys) + {v} ensures x in ViewsAt(after, after.Keys) {
      if x in ViewsAt(views, views.Keys) {
        var id :| id in views && views[id] == x;
        assert after[id] == x;
      } else {
        assert after[d] == x;
      }
    }
  }

  lemma LiveDrop(views: map<Id, View>, gone: set<Id>)
    requires forall id :: id in views ==> views[id].id == id
    requires gone <= views.Keys
    ensures ViewsAt(views - gone, (views - gone).Keys) == ViewsAt(views, views.Keys) - ViewsAt(views, gone)
    ensures (set v | v in ViewsAt(views, gone) :: v.id) == gone
  {
    var after := views - gone;
    forall x | x in ViewsAt(views, views.Keys) - ViewsAt(views, gone) ensures x in ViewsAt(after, after.Keys) {
      var id :| id in views && views[id] == x;
      assert id !in gone;
      assert after[id] == x;
    }
    forall id | id in gone ensures id in set v | v in ViewsAt(views, gone) :: v.id {
      assert views[id] in ViewsAt(views, gone);
    }
  }

  lemma ConservedTrack(w: World, n: Id, d: Id)
    requires Conserved(w)
    ensures Conserved(AfterTrack(w, n, d))
  {
    var u := AfterTrack(w, n, d);
    var v := View(d, w.serial);
    if u.trk.views != w.trk.views {
      LivePut(w.trk.views, d, v);
      if v in Live(w) {
        LiveEntered(w, v);
      }
      assert multiset(Live(u)) == multiset(Live(w)) + multiset{v};
      assert multiset(u.entered) == multiset(w.entered) + multiset{v};
    } else {
      assert Live(u) == Live(w);
    }
  }

  lemma ConservedPoll(w: World, ds: set<Id>)
    requires Conserved(w)
    ensures Conserved(AfterPoll(w, ds))
  {
    var u := AfterPoll(w, ds);
    assert Live(u) == Live(w);
    forall v | v in u.polled ensures v in w.entered {
      if v !in w.polled {
        LiveEntered(w, v);
      }
    }
  }

  /** A sweep stops exactly the views it takes out of the map, and deletes exactly
      their entries from the cache. */
  lemma ConservedSweep(w: World, n: Id)
    requires Conserved(w)
    ensures var u := AfterSweep(w, n);
      && Conserved(u)
      && u.stopped == w.stopped + multiset(Live(w) - Live(u))
      && w.cache.Keys - u.cache.Keys == w.cache.Keys * (set v | v in Live(w) - Live(u) :: v.id)
  {
    var u := AfterSweep(w, n);
    var gone := Swept(w.trk, n);
    LiveDrop(w.trk.views, gone);
    assert ViewsAt(w.trk.views, gone) <= Live(w);
    assert Live(w) - Live(u) == ViewsAt(w.trk.views, gone);
    assert multiset(Live(w)) == multiset(Live(u)) + multiset(ViewsAt(w.trk.views, gone));
  }

  lemma ConservedSame(w: World, u: World)
    requires Conserved(w)
    requires u.trk.views == w.trk.views && u.serial == w.serial && u.entered == w.entered
    requires u.stopped == w.stopped && u.polled == w.polled
    ensures Conserved(u)
  {
    assert Live(u) == Live(w);
  }

  lemma {:induction false} ConservedSweepAll(w: World, ns: seq<Id>)
    requires Conserved(w)
    ensures Conserved(SweepAll(w, ns))
  {
    if ns != [] {
      var n, before := ns[|ns| - 1], SweepAll(w, ns[..|ns| - 1]);
      ConservedSweepAll(w, ns[..|ns| - 1]);
      ConservedSame(before, AfterMark(before, n));
      ConservedSweep(AfterMark(before, n), n);
    }
  }

  lemma ConservedStep(w: World, op: Op)
    requires Conserved(w)
    ensures Conserved(Apply(w, op))
  {
    match op
    case Register(ns) => ConservedSame(w, Apply(w, op));
    case Deregister(gone) =>
      var u := w.(trk := w.trk.(notifiers := w.trk.notifiers - set n | n in gone));
      ConservedSame(w, u);
      ConservedSweepAll(u, gone);
    case Track(n, d) =>
      ConservedSame(w, AfterRegister(w, {n}));
      ConservedTrack(AfterRegister(w, {n}), n, d);
    case Recall(n, d) =>
      ConservedTrack(w, n, d);
      var u := AfterTrack(w, n, d);
      if !TrackPanics(w, n, d) {
        if d in u.cache {
          ConservedSame(u, Apply(w, op));
        } else {
          ConservedPoll(u, {d});
        }
      }
    case Poll(ds) => ConservedPoll(w, ds);
    case Mark(n) => ConservedSame(w, Apply(w, op));
    case Collect(n) => ConservedSweep(w, n);
    case Save(d, data) => ConservedSame(w, Apply(w, op));
    case Stop =>
      assert Live(Apply(w, op)) == {};
  }

  /** Over any run at all, panics and Stop included. */
  lemma {:induction false} NoLeakNoDoubleStop(ops: seq<Op>)
    ensures var w := Perform(NEW_WORLD, ops);
      && Conserved(w)
      && (forall v :: w.stopped[v] <= 1)
      && w.entered == Live(w) + (set v | v in w.stopped)
      && Live(w) !! (set v | v in w.stopped)
      && w.polled <= w.entered
  {
    if ops == [] {
      assert Live(NEW_WORLD) == {};
    } else {
      NoLeakNoDoubleStop(ops[..|ops| - 1]);
      ConservedStep(Perform(NEW_WORLD, ops[..|ops| - 1]), ops[|ops| - 1]);
    }
    var w := Perform(NEW_WORLD, ops);
    assert Conserved(w);
    forall v ensures w.stopped[v] + multiset(Live(w))[v] == multiset(w.entered)[v] <= 1 {
      assert (multiset(Live(w)) + w.stopped)[v] == multiset(w.entered)[v];
    }
  }

  /** Stop forgets all data and stops every view of the map, but not the pairs: a recall then misses,
      and for a pair already there, its view being gone, it starts no poll either. */
  lemma RecallAfterStop(w: World, n: Id, d: Id)
    ensures var s := AfterStop(w); var u := AfterRecall(s, n, d);
      && Lookup(s.cache, d) == None && s.trk.tracked == w.trk.tracked
      && (forall v :: v in Live(w) ==> s.stopped[v] == w.stopped[v] + 1)
      && (Paired(w.trk.tracked, n, d) ==> u.trk.views == map[] && u.polled == w.polled)
      && (!Paired(w.trk.tracked, n, d) ==> d in u.trk.views && u.polled == w.polled + {u.trk.views[d]})
  {
    PairedDeps(w.trk.tracked, n, d);
    RecallPolls(AfterStop(w), n, d);
  }

  // --- the tracker's relation stays sound ---

  /** Until Stop. `leaving` are notifiers already unregistered but not yet collected. */
  ghost predicate SoundBut(w: World, leaving: set<Id>) {
    && NoDuplicates(w.trk.tracked)
    && Notifying(w.trk.tracked) <= w.trk.notifiers + leaving
    && Named(w.trk.tracked) <= w.trk.views.Keys
    && (forall p :: p in w.trk.tracked && p.accessed ==> p.view in w.cache)
  }

  ghost predicate Sound(w: World) {
    SoundBut(w, {})
  }

  /** Garbage: views in the map that no pair names. */
  ghost function Stranded(w: World): set<Id> {
    w.trk.views.Keys - Named(w.trk.tracked)
  }

  lemma ReadStays(t: seq<Pair>, u: seq<Pair>, n: Id)
    requires Reflagged(t, u, n) && forall i :: 0 <= i < |t| ==> u[i].accessed ==> t[i].accessed
    ensures forall q :: q in u && q.accessed ==> exists p :: p in t && p.accessed && p.view == q.view
  {
    forall q | q in u && q.accessed
      ensures exists p :: p in t && p.accessed && p.view == q.view
    {
      var i :| 0 <= i < |u| && u[i] == q;
      assert t[i] in t;
    }
  }

  /** If a track does not panic, its pair is there afterwards, marked; nothing else
      about the relation changes. */
  lemma TrackEffect(w: World, n: Id, d: Id)
    requires Sound(w) && !TrackPanics(w, n, d)
    ensures var u := AfterTrack(w, n, d);
      && Sound(u) && u.cache == w.cache && u.trk.notifiers == w.trk.notifiers
      && Deps(u.trk.tracked, n) == Deps(w.trk.tracked, n) + {d}
      && Marked(u.trk.tracked, n) == Marked(w.trk.tracked, n) + {d}
      && Unread(u.trk.tracked, n) == Unread(w.trk.tracked, n) + ({d} - Deps(w.trk.tracked, n))
      && Others(u.trk.tracked, n) == Others(w.trk.tracked, n)
      && Notifying(u.trk.tracked) == Notifying(w.trk.tracked) + {n}
      && Named(u.trk.tracked) == Named(w.trk.tracked) + {d}
      && u.trk.views.Keys == w.trk.views.Keys + {d}
      && (forall id :: id in w.trk.views ==> u.trk.views[id] == w.trk.views[id])
  {
    TrackShape(w, n, d);
    PairUpFacts(w.trk.tracked, n, d);
    TrackSound(w, n, d);
  }

  lemma TrackSound(w: World, n: Id, d: Id)
    requires Sound(w) && !TrackPanics(w, n, d)
    ensures Sound(AfterTrack(w, n, d))
    ensures AfterTrack(w, n, d).trk.views.Keys == w.trk.views.Keys + {d}
  {
    var t := w.trk.tracked;
    var u := AfterTrack(w, n, d);
    TrackShape(w, n, d);
    assert Paired(t, n, d) ==> d in Named(t) && n in Notifying(t) by {
      if Paired(t, n, d) {
        PairedNames(t, n, d);
      }
    }
    assert u.trk.views.Keys == w.trk.views.Keys + {d};
    assert forall q :: q in u.trk.tracked && q.accessed ==> q.view in w.cache by {
      PairUpReads(t, n, d);
    }
    PairUpFacts(t, n, d);
  }

  lemma PairUpReads(t: seq<Pair>, n: Id, d: Id)
    ensures forall q :: q in PairUp(t, n, d) && q.accessed ==> exists p :: p in t && p.accessed && p.view == q.view
  {
    MarkInUseFacts(t, n, d);
    ReadStays(t, MarkInUse(t, n, d), n);
  }

  lemma TrackShape(w: World, n: Id, d: Id)
    requires !TrackPanics(w, n, d)
    ensures var u := AfterTrack(w, n, d);
      && u.trk.tracked == PairUp(w.trk.tracked, n, d)
      && u.cache == w.cache && u.trk.notifiers == w.trk.notifiers
      && u.trk.views == (if Paired(w.trk.tracked, n, d) || d in w.trk.views then w.trk.views
                         else w.trk.views[d := View(d, w.serial)])
  {
    PairedDeps(w.trk.tracked, n, d);
  }

  lemma AccessEffect(t: seq<Pair>, cache: map<Id, Value>, n: Id, d: Id)
    requires d in cache && forall p :: p in t && p.accessed ==> p.view in cache
    ensures var u := CacheAccessed(t, n, d);
      && (forall p :: p in u && p.accessed ==> p.view in cache)
      && Deps(u, n) == Deps(t, n) && Marked(u, n) == Marked(t, n) && Unread(u, n) == Unread(t, n) - {d}
      && Others(u, n) == Others(t, n) && Named(u) == Named(t) && Notifying(u) == Notifying(t)
      && (NoDuplicates(t) ==> NoDuplicates(u))
  {
    var u := CacheAccessed(t, n, d);
    CacheAccessedFacts(t, n, d);
    ReflaggedFacts(t, u, n);
    forall p | p in u && p.accessed ensures p.view in cache {
      var i :| 0 <= i < |u| && u[i] == p;
      assert t[i] in t;
    }
  }

  lemma RecallEffect(w: World, n: Id, d: Id)
    requires Sound(w) && !TrackPanics(w, n, d)
    ensures var u := AfterRecall(w, n, d);
      && Sound(u) && u.cache == w.cache && u.trk.notifiers == w.trk.notifiers
      && Deps(u.trk.tracked, n) == Deps(w.trk.tracked, n) + {d}
      && Marked(u.trk.tracked, n) == Marked(w.trk.tracked, n) + {d}
      && Unread(u.trk.tracked, n) ==
         (if d in w.cache then Unread(w.trk.tracked, n) - {d} else Unread(w.trk.tracked, n) + {d})
      && Others(u.trk.tracked, n) == Others(w.trk.tracked, n)
      && Notifying(u.trk.tracked) == Notifying(w.trk.tracked) + {n}
      && Named(u.trk.tracked) == Named(w.trk.tracked) + {d}
      && u.trk.views.Keys == w.trk.views.Keys + {d}
      && (forall id :: id in w.trk.views ==> id in u.trk.views && u.trk.views[id] == w.trk.views[id])
      && w.polled <= u.polled
      && d in u.trk.views
      && (d !in w.cache ==> u.trk.views[d] in u.polled)
  {
    TrackEffect(w, n, d);
    var u := AfterTrack(w, n, d);
    var t := u.trk.tracked;
    if d in w.cache {
      AccessEffect(t, w.cache, n, d);
    }
  }

  lemma MarkEffect(w: World, n: Id, leaving: set<Id>)
    requires SoundBut(w, leaving)
    ensures var u := AfterMark(w, n);
      && SoundBut(u, leaving)
      && Deps(u.trk.tracked, n) == Deps(w.trk.tracked, n)
      && Unread(u.trk.tracked, n) == Unread(w.trk.tracked, n)
      && Marked(u.trk.tracked, n) == {}
      && Others(u.trk.tracked, n) == Others(w.trk.tracked, n)
      && Notifying(u.trk.tracked) == Notifying(w.trk.tracked)
      && Stranded(u) == Stranded(w)
  {
    MarkForSweepFacts(w.trk.tracked, n);
    ReflaggedFacts(w.trk.tracked, MarkForSweep(w.trk.tracked, n), n);
    ReadStays(w.trk.tracked, MarkForSweep(w.trk.tracked, n), n);
  }

  /** Collecting from `w` to `u` only removes, and nothing that `u` still names. */
  ghost predicate Untouched(w: World, u: World) {
    && u.polled == w.polled
    && u.trk.views.Keys <= w.trk.views.Keys
    && (forall d :: d in u.cache ==> d in w.cache && u.cache[d] == w.cache[d])
    && (forall d :: d in Named(u.trk.tracked) ==> d in u.trk.views && u.trk.views[d] == w.trk.views[d])
    && (forall d :: d in Named(u.trk.tracked) && d in w.cache ==> d in u.cache)
  }

  /** What a sweep strands: views that only a like-named notifier keeps. */
  lemma SweepEffect(w: World, n: Id, leaving: set<Id>)
    requires SoundBut(w, leaving)
    ensures var u := AfterSweep(w, n); var kept := Keep(w.trk.tracked, n);
      && SoundBut(u, leaving)
      && Deps(u.trk.tracked, n) == Marked(u.trk.tracked, n) == Marked(w.trk.tracked, n)
      && Unread(u.trk.tracked, n) == Unread(w.trk.tracked, n) * Marked(w.trk.tracked, n)
      && Others(u.trk.tracked, n) == Others(w.trk.tracked, n)
      && Notifying(u.trk.tracked) <= Notifying(w.trk.tracked)
      && Stranded(u) == (w.trk.views.Keys * Notifying(kept)) - Named(kept)
      && Untouched(w, u)
  {
    KeepNoDuplicates(w.trk.tracked, n);
    KeepDeps(w.trk.tracked, n);
    KeepMembers(w.trk.tracked, n);
    OthersKeep(w.trk.tracked, n);
    forall p | p in Keep(w.trk.tracked, n)
      ensures p.view in Named(Keep(w.trk.tracked, n)) && p.view in w.trk.views.Keys
    {
      assert p.view in Named(w.trk.tracked);
    }
  }

  // --- Deregister ---

  /** The pairs of notifiers outside `gone`, in order. */
  ghost function Without(t: seq<Pair>, gone: set<Id>): seq<Pair> {
    if t == [] then []
    else
      var p := t[|t| - 1];
      Without(t[..|t| - 1], gone) + if p.notify in gone then [] else [p]
  }

  lemma {:induction false} WithoutMember(t: seq<Pair>, gone: set<Id>, p: Pair)
    ensures p in Without(t, gone) <==> p in t && p.notify !in gone
  {
    if t != [] {
      assert t == t[..|t| - 1] + [t[|t| - 1]];
      WithoutMember(t[..|t| - 1], gone, p);
    }
  }

  lemma {:induction false} WithoutNone(t: seq<Pair>)
    ensures Without(t, {}) == t
  {
    if t != [] {
      WithoutNone(t[..|t| - 1]);
    }
  }

  /** Clearing all marks of `n` and sweeping drops every pair of `n` and no other. */
  lemma {:induction false} CollectOne(t: seq<Pair>, gone: set<Id>, n: Id)
    ensures Keep(MarkForSweep(Without(t, gone), n), n) == Without(t, gone + {n})
  {
    if t != [] {
      var s, p := t[..|t| - 1], t[|t| - 1];
      var front := Without(s, gone);
      CollectOne(s, gone, n);
      if p.notify !in gone {
        var last := if p.notify == n then p.(mark := false) else p;
        assert MarkForSweep(front + [p], n) == MarkForSweep(front, n) + [last];
        assert (MarkForSweep(front, n) + [last])[..|front|] == MarkForSweep(front, n);
      } else {
        assert Without(t, gone) == front && Without(t, gone + {n}) == Without(s, gone + {n});
      }
    }
  }

  lemma CollectStep(w: World, n: Id, leaving: set<Id>)
    requires SoundBut(w, leaving)
    ensures var u := AfterSweep(AfterMark(w, n), n);
      && SoundBut(u, leaving) && Untouched(w, u) && u.trk.notifiers == w.trk.notifiers
      && Named(u.trk.tracked) <= Named(w.trk.tracked)
  {
    var m := AfterMark(w, n);
    MarkEffect(w, n, leaving);
    SweepEffect(m, n, leaving);
    assert Named(m.trk.tracked) == Named(w.trk.tracked) by {
      MarkForSweepFacts(w.trk.tracked, n);
      ReflaggedFacts(w.trk.tracked, m.trk.tracked, n);
    }
    assert Named(AfterSweep(m, n).trk.tracked) <= Named(m.trk.tracked) by {
      KeepMembers(m.trk.tracked, n);
    }
  }

  lemma UntouchedTrans(w: World, m: World, u: World)
    requires Untouched(w, m) && Untouched(m, u) && Named(u.trk.tracked) <= Named(m.trk.tracked)
    ensures Untouched(w, u)
  {
  }

  lemma {:induction false} SweepAllEffect(w: World, ns: seq<Id>, leaving: set<Id>)
    requires SoundBut(w, leaving)
    ensures var u := SweepAll(w, ns);
      && SoundBut(u, leaving)
      && u.trk.tracked == Without(w.trk.tracked, set n | n in ns)
      && u.trk.notifiers == w.trk.notifiers
      && Untouched(w, u)
  {
    if ns == [] {
      WithoutNone(w.trk.tracked);
      assert (set n | n in ns) == {};
    } else {
      var n, before := ns[|ns| - 1], ns[..|ns| - 1];
      SweepAllEffect(w, before, leaving);
      CollectStep(SweepAll(w, before), n, leaving);
      UntouchedTrans(w, SweepAll(w, before), SweepAll(w, ns));
      CollectOne(w.trk.tracked, (set m | m in before), n);
      assert ns == before + [n];
      assert (set m | m in ns) == (set m | m in before) + {n};
    }
  }

  /** However many are named, and in whatever order, Deregister removes exactly their
      pairs; no pair is left whose notifier is unknown. */
  lemma DeregisterEffect(w: World, ns: seq<Id>)
    requires Sound(w)
    ensures var u := AfterDeregister(w, ns); var gone := set n | n in ns;
      && Sound(u)
      && u.trk.tracked == Without(w.trk.tracked, gone)
      && u.trk.notifiers == w.trk.notifiers - gone
      && Untouched(w, u)
  {
    var gone := set n | n in ns;
    var start := w.(trk := w.trk.(notifiers := w.trk.notifiers - gone));
    SweepAllEffect(start, ns, gone);
    var u := AfterDeregister(w, ns);
    forall p | p in u.trk.tracked ensures p.notify in u.trk.notifiers {
      WithoutMember(w.trk.tracked, gone, p);
      assert p.notify in Notifying(u.trk.tracked);
    }
  }

  // --- while notifiers leave ---

  lemma NilExactly(w: World, leaving: set<Id>, d: Id)
    requires SoundBut(w, leaving)
    ensures MeetsNil(w.trk, d) <==> exists n :: n in leaving && n !in w.trk.notifiers && d in Deps(w.trk.tracked, n)
  {
    var t := w.trk.tracked;
    if n :| n in NotifiersFor(t, d) && n !in w.trk.notifiers {
      NotifiersForMember(t, d, n);
      var p :| p in t && p.notify == n && p.view == d;
      assert n in Notifying(t);
    }
    if n :| n in leaving && n !in w.trk.notifiers && d in Deps(t, n) {
      NotifiersForMember(t, d, n);
    }
  }

  /** No update meets a nil notifier in a sound state: all it concerns are registered. */
  lemma SoundNeverFatal(w: World, ds: seq<Delivery>)
    requires Sound(w)
    ensures !Fatal(w.trk, ds) && Hearers(w.trk.tracked, ds) <= w.trk.notifiers
  {
    forall d | d in ds ensures !MeetsNil(w.trk, d.view.id) {
      NilExactly(w, {}, d.view.id);
    }
    forall n | n in Hearers(w.trk.tracked, ds) ensures n in w.trk.notifiers {
      var d :| d in ds && n in NotifiersFor(w.trk.tracked, d.view.id);
      assert !MeetsNil(w.trk, d.view.id);
    }
  }

  /** The state in the middle of Deregister: all are unregistered, the first `i` are swept. The
      locks are free in between, so an update can find it. */
  ghost function MidDeregister(w: World, ns: seq<Id>, i: nat): World
    requires i <= |ns|
  {
    SweepAll(w.(trk := w.trk.(notifiers := w.trk.notifiers - set n | n in ns)), ns[..i])
  }

  lemma MidEffect(w: World, ns: seq<Id>, i: nat)
    requires Sound(w) && i <= |ns|
    ensures var u := MidDeregister(w, ns, i);
      && SoundBut(u, set n | n in ns)
      && u.trk.notifiers == w.trk.notifiers - (set n | n in ns)
      && u.trk.tracked == Without(w.trk.tracked, set n | n in ns[..i])
  {
    var gone := set n | n in ns;
    SweepAllEffect(w.(trk := w.trk.(notifiers := w.trk.notifiers - gone)), ns[..i], gone);
  }

  /** There an update of `d` panics exactly if `d` is paired with one that is still to be swept. */
  lemma DeregisterWindow(w: World, ns: seq<Id>, i: nat, d: Id)
    requires Sound(w) && i <= |ns|
    ensures MeetsNil(MidDeregister(w, ns, i).trk, d) <==>
            exists n :: n in ns && n !in ns[..i] && d in Deps(w.trk.tracked, n)
  {
    var gone, swept, trk := (set n | n in ns), (set n | n in ns[..i]), MidDeregister(w, ns, i).trk;
    MidEffect(w, ns, i);
    NilExactly(MidDeregister(w, ns, i), gone, d);
    if MeetsNil(trk, d) {
      var n :| n in gone && n !in trk.notifiers && d in Deps(trk.tracked, n);
      WithoutDeps(w.trk.tracked, swept, n, d);
    }
    if n :| n in ns && n !in ns[..i] && d in Deps(w.trk.tracked, n) {
      WithoutDeps(w.trk.tracked, swept, n, d);
      assert n in gone && n !in trk.notifiers && d in Deps(trk.tracked, n);
    }
  }

  lemma WithoutDeps(t: seq<Pair>, gone: set<Id>, n: Id, d: Id)
    ensures d in Deps(Without(t, gone), n) <==> n !in gone && d in Deps(t, n)
  {
    if d in Deps(Without(t, gone), n) {
      var p :| p in Without(t, gone) && p.notify == n && p.view == d;
      WithoutMember(t, gone, p);
    }
    if n !in gone && d in Deps(t, n) {
      var p :| p in t && p.notify == n && p.view == d;
      WithoutMember(t, gone, p);
    }
  }

  // --- over whole runs ---

  /** Even a recall that panics leaves the relation sound. */
  lemma PanicSound(w: World, n: Id, d: Id)
    requires Sound(w) && TrackPanics(w, n, d)
    ensures Sound(AfterTrack(w, n, d))
    ensures AfterTrack(w, n, d).trk.tracked == w.trk.tracked
  {
    PairedDeps(w.trk.tracked, n, d);
    var m := MarkInUse(w.trk.tracked, n, d);
    assert forall i :: 0 <= i < |m| ==> w.trk.tracked[i] in w.trk.tracked;
    assert m == w.trk.tracked;
  }

  lemma {:induction false} SoundStep(w: World, op: Op)
    requires Sound(w) && !op.Stop?
    ensures Sound(Apply(w, op))
  {
    match op
    case Register(ns) =>
    case Deregister(gone) => DeregisterEffect(w, gone);
    case Track(n, d) => TrackEffect(AfterRegister(w, {n}), n, d);
    case Recall(n, d) =>
      if TrackPanics(w, n, d) {
        PanicSound(w, n, d);
      } else {
        RecallEffect(w, n, d);
      }
    case Poll(ds) =>
    case Mark(n) => MarkEffect(w, n, {});
    case Collect(n) => SweepEffect(w, n, {});
    case Save(d, data) =>
  }

  /** In every state a run reaches before Stop: no pair is tracked twice, every pair's
      notifier is registered, its view is in the map, and what was read is cached. */
  lemma {:induction false} SoundRun(ops: seq<Op>)
    requires forall op :: op in ops ==> !op.Stop?
    ensures Sound(Perform(NEW_WORLD, ops))
  {
    if ops != [] {
      SoundRun(ops[..|ops| - 1]);
      SoundStep(Perform(NEW_WORLD, ops[..|ops| - 1]), ops[|ops| - 1]);
    }
  }

  /** What soundness is for: a data update reaches each paired notifier once, and
      each one it reaches is registered. */
  lemma {:induction false} NotifiersForDistinct(t: seq<Pair>, d: Id)
    requires NoDuplicates(t)
    ensures forall i, j :: 0 <= i < j < |NotifiersFor(t, d)| ==> NotifiersFor(t, d)[i] != NotifiersFor(t, d)[j]
    ensures forall n :: n in NotifiersFor(t, d) ==> n in Notifying(t)
  {
    if t != [] {
      var s, p := t[..|t| - 1], t[|t| - 1];
      NotifiersForDistinct(s, d);
      assert p.notify in Notifying(t);
      assert Notifying(s) <= Notifying(t);
      if p.view == d {
        NotifiersForMember(s, d, p.notify);
      }
    }
  }

  // --- garbage is collected exactly, as far as the two kinds of ID stay apart ---

  /** `deps` tells dependency IDs from notifier IDs. */
  ghost predicate Apart(w: World, deps: iset<Id>) {
    && (forall n :: n in w.trk.notifiers ==> n !in deps)
    && (forall n :: n in Notifying(w.trk.tracked) ==> n !in deps)
    && (forall d :: d in w.trk.views ==> d in deps)
  }

  ghost predicate OpApart(op: Op, deps: iset<Id>) {
    match op
    case Register(ns) => forall n :: n in ns ==> n !in deps
    case Track(n, d) => n !in deps && d in deps
    case Recall(n, d) => d in deps
    case _ => true
  }

  lemma {:induction false} ExactSweepAll(w: World, ns: seq<Id>, leaving: set<Id>, deps: iset<Id>)
    requires SoundBut(w, leaving) && Apart(w, deps) && Stranded(w) == {}
    ensures Apart(SweepAll(w, ns), deps) && Stranded(SweepAll(w, ns)) == {}
  {
    if ns != [] {
      var n, before := ns[|ns| - 1], SweepAll(w, ns[..|ns| - 1]);
      ExactSweepAll(w, ns[..|ns| - 1], leaving, deps);
      SweepAllEffect(w, ns[..|ns| - 1], leaving);
      MarkEffect(before, n, leaving);
      SweepEffect(AfterMark(before, n), n, leaving);
      KeepMembers(AfterMark(before, n).trk.tracked, n);
    }
  }

  /** The operation is not Stop, and the notifier it recalls for is known. */
  ghost predicate Orderly(w: World, op: Op) {
    match op
    case Stop => false
    case Recall(n, d) => !TrackPanics(w, n, d)
    case _ => true
  }

  ghost predicate OrderlyRun(w: World, ops: seq<Op>) {
    forall i :: 0 <= i < |ops| ==> Orderly(Perform(w, ops[..i]), ops[i])
  }

  lemma {:induction false} RunPrefix(w: World, ops: seq<Op>)
    requires OrderlyRun(w, ops) && ops != []
    ensures OrderlyRun(w, ops[..|ops| - 1])
    ensures Orderly(Perform(w, ops[..|ops| - 1]), ops[|ops| - 1])
  {
    var before := ops[..|ops| - 1];
    forall i | 0 <= i < |before| ensures Orderly(Perform(w, before[..i]), before[i]) {
      assert before[..i] == ops[..i];
    }
  }

  lemma ExactStep(w: World, op: Op, deps: iset<Id>)
    requires Sound(w) && Orderly(w, op) && Apart(w, deps) && OpApart(op, deps) && Stranded(w) == {}
    ensures Apart(Apply(w, op), deps) && Stranded(Apply(w, op)) == {}
  {
    match op
    case Register(ns) =>
    case Deregister(gone) =>
      var leaving := set n | n in gone;
      ExactSweepAll(w.(trk := w.trk.(notifiers := w.trk.notifiers - leaving)), gone, leaving, deps);
    case Track(n, d) => TrackEffect(AfterRegister(w, {n}), n, d);
    case Recall(n, d) =>
      RecallEffect(w, n, d);
      if Paired(w.trk.tracked, n, d) {
        PairedNames(w.trk.tracked, n, d);
      }
    case Poll(ds) =>
    case Mark(n) => MarkEffect(w, n, {});
    case Collect(n) =>
      SweepEffect(w, n, {});
      KeepMembers(w.trk.tracked, n);
    case Save(d, data) =>
  }

  /** The views in the map are then always exactly those some notifier is paired with. */
  lemma {:induction false} ExactRun(ops: seq<Op>, deps: iset<Id>)
    requires OrderlyRun(NEW_WORLD, ops)
    requires forall i :: 0 <= i < |ops| ==> OpApart(ops[i], deps)
    ensures var w := Perform(NEW_WORLD, ops);
      Sound(w) && Apart(w, deps) && w.trk.views.Keys == Named(w.trk.tracked)
  {
    SoundRun(ops);
    if ops != [] {
      RunPrefix(NEW_WORLD, ops);
      ExactRun(ops[..|ops| - 1], deps);
      ExactStep(Perform(NEW_WORLD, ops[..|ops| - 1]), ops[|ops| - 1], deps);
    }
  }

  /** Without that, a sweep is exact just when no view it ought to drop bears the ID of
      a notifier that still has a pair. */
  lemma SweepExactIff(w: World, n: Id)
    requires Sound(w)
    ensures Stranded(AfterSweep(w, n)) == {} <==>
      forall p :: p in w.trk.tracked && (p.mark || p.notify != n) && p.notify in w.trk.views ==>
        exists q :: q in w.trk.tracked && (q.mark || q.notify != n) && q.view == p.notify
  {
    var kept := Keep(w.trk.tracked, n);
    var u := AfterSweep(w, n);
    assert Stranded(u) == (w.trk.views.Keys * Notifying(kept)) - Named(kept) by {
      SweepEffect(w, n, {});
    }
    KeepMembers(w.trk.tracked, n);
    if Stranded(u) == {} {
      assert forall d :: d in w.trk.views.Keys && d in Notifying(kept) && d !in Named(kept) ==> d in Stranded(u);
      forall p | p in w.trk.tracked && (p.mark || p.notify != n) && p.notify in w.trk.views
        ensures exists q :: q in w.trk.tracked && (q.mark || q.notify != n) && q.view == p.notify
      {
        assert p in kept;
        assert p.notify in Notifying(kept);
        assert p.notify in Named(kept);
        var q :| q in kept && q.view == p.notify;
      }
    } else {
      var d :| d in Stranded(u);
      var p :| p in kept && p.notify == d;
      assert p.notify in w.trk.views;
      assert forall q :: q in w.trk.tracked && (q.mark || q.notify != n) ==> q in kept && q.view in Named(kept);
    }
  }

  /** A stranded view outlives a sweep exactly if a pair that the sweep keeps has a notifier of
      that name. */
  lemma StrandedStaysIff(w: World, n: Id, d: Id)
    requires d in Stranded(w)
    ensures d in AfterSweep(w, n).trk.views <==>
            exists p :: p in w.trk.tracked && (p.mark || p.notify != n) && p.notify == d
  {
    var kept := Keep(w.trk.tracked, n);
    KeepMembers(w.trk.tracked, n);
    assert d !in Named(kept);
    if d in AfterSweep(w, n).trk.views {
      assert d in Used(kept);
    }
    if p :| p in w.trk.tracked && (p.mark || p.notify != n) && p.notify == d {
      assert p in kept && d in Used(kept);
    }
  }

  /** A dependency named like a template is such a view: it survives its own template's sweep, and
      goes only when the template of its name loses its pairs. */
  lemma LikeNamedViewSurvives(a: Id, t: Id, x: Id)
    requires a != t && a != x && t != x
    ensures var tracked := Apply(Apply(Apply(NEW_WORLD, Register({a, t})), Track(a, x)), Track(t, a));
      var w := Apply(Apply(tracked, Mark(t)), Collect(t));
      a in w.trk.views && a !in Named(w.trk.tracked) && a !in Apply(w, Deregister([a])).trk.views
  {
    var tracked := Apply(Apply(Apply(NEW_WORLD, Register({a, t})), Track(a, x)), Track(t, a));
    var w := Apply(Apply(tracked, Mark(t)), Collect(t));
    LikeNamedPairs(a, t, x);
    var p := Pair(x, a, true, false);
    CollectSecond(tracked, p, Pair(a, t, true, false));
    assert a in Used([p]);
    LastPairGoes(w, p);
  }

  lemma LikeNamedPairs(a: Id, t: Id, x: Id)
    requires a != t && a != x && t != x
    ensures var w := Apply(Apply(Apply(NEW_WORLD, Register({a, t})), Track(a, x)), Track(t, a));
      w.trk.tracked == [Pair(x, a, true, false), Pair(a, t, true, false)] && a in w.trk.views
  {
    var w1 := Apply(NEW_WORLD, Register({a, t}));
    FirstPair(w1, a, x);
    FirstPair(Apply(w1, Track(a, x)), t, a);
  }

  lemma CollectSecond(w: World, p: Pair, q: Pair)
    requires w.trk.tracked == [p, q] && p.mark && p.notify != q.notify
    ensures var u := Apply(Apply(w, Mark(q.notify)), Collect(q.notify));
      u.trk.tracked == [p] && u.trk.views == w.trk.views - (w.trk.views.Keys - Used([p]))
  {
    assert Apply(w, Mark(q.notify)).trk.tracked == [p, q.(mark := false)];
    KeepTwo(p, q.(mark := false), q.notify);
  }

  /** When the only pair's notifier is deregistered, no view is left. */
  lemma LastPairGoes(w: World, p: Pair)
    requires w.trk.tracked == [p]
    ensures Apply(w, Deregister([p.notify])).trk.views == map[]
  {
    var n := p.notify;
    var start := w.(trk := w.trk.(notifiers := w.trk.notifiers - set m | m in [n]));
    assert [n][..0] == [];
    assert SweepAll(start, []) == start;
    var marked := AfterMark(start, n);
    assert marked.trk.tracked == [p.(mark := false)];
    assert [p.(mark := false)][..0] == [];
    assert Keep(marked.trk.tracked, n) == [];
    assert Used([]) == {};
    assert Apply(w, Deregister([n])) == AfterSweep(marked, n);
  }

  lemma FirstPair(w: World, n: Id, d: Id)
    requires n in w.trk.notifiers && d !in w.trk.views && forall p :: p in w.trk.tracked ==> p.notify != n
    ensures var u := Apply(w, Track(n, d));
      && u.trk.tracked == w.trk.tracked + [Pair(d, n, true, false)]
      && u.trk.views == w.trk.views[d := View(d, w.serial)] && u.trk.notifiers == w.trk.notifiers
  {
    assert AfterRegister(w, {n}) == w;
    var m := MarkInUse(w.trk.tracked, n, d);
    assert forall i :: 0 <= i < |m| ==> w.trk.tracked[i] in w.trk.tracked && m[i] == w.trk.tracked[i];
    assert m == w.trk.tracked;
  }

  lemma KeepTwo(p: Pair, q: Pair, n: Id)
    requires p.mark && !q.mark && q.notify == n
    ensures Keep([p, q], n) == [p]
  {
    assert [p, q][..1] == [p] && [p][..0] == [];
    assert Keep([p], n) == [p];
  }

  /** Recalling for an unknown notifier panics halfway: it leaves its view behind
      unless another notifier already uses the same dependency. */
  lemma PanicStrands(w: World, n: Id, d: Id)
    requires Sound(w) && Stranded(w) == {} && TrackPanics(w, n, d)
    ensures Stranded(AfterTrack(w, n, d)) == {d} - Named(w.trk.tracked)
  {
    PairedDeps(w.trk.tracked, n, d);
    MarkInUseFacts(w.trk.tracked, n, d);
    ReflaggedFacts(w.trk.tracked, MarkInUse(w.trk.tracked, n, d), n);
  }
}
