// The cache against the views that feed it: view.go 197-206 and 380-397,
// watcher.go 271-295, 656-668 and 741-763.

module Coherence {
  import opened Storing
  import opened Tracking
  import opened TrackerFacts
  import opened Watching
  import Integrity

  /** Where a view's poll is. */
  datatype Poll =
    | Unpolled
    | Fetching
    | Stored   // new data in the view, not yet pushed to dataCh

  datatype Waiter =
    | Waiting
    | Holding(v: View)                  // received from dataCh
    | Loaded(v: View, value: Value)     // after v.Data(), before cache.Save

  datatype Sys = Sys(
    views: map<Id, View>,
    serial: nat,
    // the data each view has received
    data: map<View, Value>,
    polls: map<View, Poll>,
    queue: seq<View>,
    waiter: Waiter,
    cache: map<Id, Value>)

  datatype Act =
    | Enter(d: Id)                // a new dependency is tracked
    | Start(v: View)              // a poll passes the polling flag
    | Receive(v: View, value: Value)
    | Push(v: View)
    | Quit(v: View)               // the poll returns
    | Drop(gone: set<Id>)         // a sweep stops these views
    | Take | Load | Save

  function PollOf(s: Sys, v: View): Poll {
    if v in s.polls then s.polls[v] else Unpolled
  }

  function DataOf(s: Sys, v: View): Option<Value> {
    if v in s.data then Some(s.data[v]) else None
  }

  ghost predicate LiveView(s: Sys, v: View) {
    v.id in s.views && s.views[v.id] == v
  }

  ghost predicate Enabled(s: Sys, a: Act) {
    match a
    case Enter(d) => d !in s.views
    case Start(v) => PollOf(s, v).Unpolled? && v.serial < s.serial
    case Receive(v, _) => PollOf(s, v).Fetching?
    case Push(v) => PollOf(s, v).Stored?
    // with new data in hand only a stopped view gives up
    case Quit(v) => PollOf(s, v).Fetching? || (PollOf(s, v).Stored? && !LiveView(s, v))
    case Drop(_) => true
    case Take => s.waiter.Waiting? && s.queue != []
    case Load => s.waiter.Holding? && s.waiter.v in s.data
    case Save => s.waiter.Loaded?
  }

  ghost function Do(s: Sys, a: Act): Sys
    requires Enabled(s, a)
  {
    match a
    case Enter(d) => s.(views := s.views[d := View(d, s.serial)], serial := s.serial + 1)
    case Start(v) => s.(polls := s.polls[v := Fetching])
    case Receive(v, value) => s.(data := s.data[v := value], polls := s.polls[v := Stored])
    case Push(v) => s.(queue := s.queue + [v], polls := s.polls[v := Fetching])
    case Quit(v) => s.(polls := s.polls[v := Unpolled])
    case Drop(gone) => s.(views := s.views - gone, cache := s.cache - gone)
    case Take => s.(waiter := Holding(s.queue[0]), queue := s.queue[1..])
    case Load => s.(waiter := Loaded(s.waiter.v, s.data[s.waiter.v]))
    case Save => s.(cache := s.cache[s.waiter.v.id := s.waiter.value], waiter := Waiting)
  }

  /** A delivery of `v` is on its way: between store and push, in dataCh, or in hand. */
  ghost predicate Pending(s: Sys, v: View) {
    || PollOf(s, v).Stored?
    || v in s.queue
    || s.waiter == Holding(v)
    || (s.waiter.Loaded? && s.waiter.v == v && DataOf(s, v) == Some(s.waiter.value))
  }

  /** The cache holds nothing but what live views received; where it lags behind a
      live view, that view's delivery is on its way. */
  ghost predicate Coherent(s: Sys) {
    && s.cache.Keys <= s.views.Keys
    && forall d :: d in s.views ==> Agrees(s, d)
  }

  /** What else the machine keeps. */
  ghost predicate Orderly(s: Sys) {
    && (forall d :: d in s.views ==> s.views[d].id == d && s.views[d].serial < s.serial)
    && (forall v :: v in s.data || v in s.polls || v in s.queue ==> v.serial < s.serial)
    && (!s.waiter.Waiting? ==> s.waiter.v.serial < s.serial)
    && (forall v :: v in s.queue || s.waiter == Holding(v) || PollOf(s, v).Stored? ==> v in s.data)
    && (s.waiter.Loaded? && LiveView(s, s.waiter.v) && DataOf(s, s.waiter.v) != Some(s.waiter.value) ==>
          PollOf(s, s.waiter.v).Stored? || s.waiter.v in s.queue)
  }

  /** The guard that dataUpdate does not have: the view is still the one in the map. */
  ghost predicate Guarded(s: Sys, a: Act) {
    a.Save? && s.waiter.Loaded? ==> LiveView(s, s.waiter.v)
  }

  lemma OrderlyStep(s: Sys, a: Act)
    requires Orderly(s) && Enabled(s, a)
    ensures Orderly(Do(s, a))
  {
    if a.Take? {
      assert s.queue == [s.queue[0]] + s.queue[1..];
    }
  }

  /** One live view and its cache entry. */
  ghost predicate Agrees(s: Sys, d: Id)
    requires d in s.views
  {
    Lookup(s.cache, d) == DataOf(s, s.views[d]) || Pending(s, s.views[d])
  }

  /** The waiter's steps, seen from one live view, and then everybody else's. */
  lemma AgreesWaiter(s: Sys, a: Act, d: Id)
    requires Orderly(s) && Coherent(s) && Enabled(s, a) && Guarded(s, a) && d in s.views
    requires a.Take? || a.Load? || a.Save?
    ensures Agrees(Do(s, a), d)
  {
    assert Agrees(s, d);
    if a.Take? {
      assert s.queue == [s.queue[0]] + s.queue[1..];
    }
  }

  lemma AgreesOthers(s: Sys, a: Act, d: Id)
    requires Orderly(s) && Coherent(s) && Enabled(s, a) && d in Do(s, a).views
    requires !a.Take? && !a.Load? && !a.Save?
    ensures Agrees(Do(s, a), d)
  {
    if d in s.views {
      assert Agrees(s, d);
    }
  }

  lemma CoherentStep(s: Sys, a: Act)
    requires Orderly(s) && Coherent(s) && Enabled(s, a) && Guarded(s, a)
    ensures Coherent(Do(s, a))
  {
    forall d | d in Do(s, a).views ensures Agrees(Do(s, a), d) {
      if a.Take? || a.Load? || a.Save? {
        AgreesWaiter(s, a, d);
      } else {
        AgreesOthers(s, a, d);
      }
    }
  }

  ghost predicate Initial(s: Sys) {
    && s.views == map[] && s.data == map[] && s.polls == map[] && s.queue == []
    && s.waiter.Waiting? && s.cache == map[]
  }

  ghost predicate Behavior(run: seq<Sys>, acts: seq<Act>) {
    && |run| == |acts| + 1
    && Initial(run[0])
    && forall i :: 0 <= i < |acts| ==> Enabled(run[i], acts[i]) && run[i + 1] == Do(run[i], acts[i])
  }

  lemma {:induction false} CoherentRun(run: seq<Sys>, acts: seq<Act>)
    requires Behavior(run, acts)
    requires forall i :: 0 <= i < |acts| ==> Guarded(run[i], acts[i])
    ensures Orderly(run[|acts|]) && Coherent(run[|acts|])
    decreases |acts|
  {
    if acts != [] {
      var k := |acts| - 1;
      CoherentRun(run[..k + 1], acts[..k]);
      OrderlyStep(run[k], acts[k]);
      CoherentStep(run[k], acts[k]);
    }
  }

  /** At rest the cache is exactly the data of the live views. */
  lemma QuiescentCache(run: seq<Sys>, acts: seq<Act>)
    requires Behavior(run, acts)
    requires forall i :: 0 <= i < |acts| ==> Guarded(run[i], acts[i])
    requires var s := run[|acts|];
      s.waiter.Waiting? && s.queue == [] && forall d :: d in s.views ==> !PollOf(s, s.views[d]).Stored?
    ensures var s := run[|acts|];
      s.cache == map d | d in s.views && s.views[d] in s.data :: s.data[s.views[d]]
  {
    CoherentRun(run, acts);
    var s := run[|acts|];
    forall d | d in s.views ensures Lookup(s.cache, d) == DataOf(s, s.views[d]) {
      assert !Pending(s, s.views[d]);
    }
  }

  /** Exactly when one unguarded save is harmless. */
  lemma SaveCoherentIff(s: Sys)
    requires Orderly(s) && Coherent(s) && s.waiter.Loaded?
    ensures var v, x := s.waiter.v, s.waiter.value;
      Coherent(Do(s, Save)) <==>
        || LiveView(s, v)
        || (v.id in s.views &&
            (DataOf(s, s.views[v.id]) == Some(x) || PollOf(s, s.views[v.id]).Stored? || s.views[v.id] in s.queue))
  {
    var v, u := s.waiter.v, Do(s, Save);
    if LiveView(s, v) {
      CoherentStep(s, Save);
    } else if v.id in s.views {
      assert Lookup(u.cache, v.id) == Some(s.waiter.value);
      forall d | d in u.views && d != v.id
        ensures Agrees(u, d)
      {
        assert Agrees(s, d);
      }
    } else {
      assert v.id in u.cache.Keys && v.id !in u.views.Keys;
    }
  }

  /** A sweep between push and save makes the save leave an entry nobody owns. */
  lemma SweptViewResurrects(s: Sys, v: View, x: Value)
    requires Orderly(s) && Coherent(s) && LiveView(s, v)
    requires s.waiter == Loaded(v, x)
    ensures var swept := Do(s, Drop({v.id}));
      && Enabled(swept, Save) && !LiveView(swept, v)
      && var saved := Do(swept, Save);
         && v.id !in saved.views && Lookup(saved.cache, v.id) == Some(x)
         && var again := Do(saved, Enter(v.id));
            && Lookup(again.cache, v.id) == Some(x) && DataOf(again, again.views[v.id]) == None
            && !Pending(again, again.views[v.id])
  {
    var again := Do(Do(Do(s, Drop({v.id})), Save), Enter(v.id));
    assert again.views[v.id] == View(v.id, s.serial);
  }

  /** And since a hit starts no poll, the view that a recall then creates is never
      polled by it, while the pair counts as read and the template as complete. */
  lemma OrphanIsNeverPolled(w: World, n: Id, d: Id)
    requires Integrity.Sound(w) && Integrity.Conserved(w) && n in w.trk.notifiers
    requires d in w.cache && d !in w.trk.views
    ensures var u := AfterRecall(w, n, d);
      && d in u.trk.views && u.trk.views[d] !in u.polled
      && d in Deps(u.trk.tracked, n) && d !in Unread(u.trk.tracked, n)
      && AfterRecall(u, n, d).polled == u.polled
  {
    Integrity.RecallEffect(w, n, d);
    Integrity.TrackShape(w, n, d);
    if Paired(w.trk.tracked, n, d) {
      PairedNames(w.trk.tracked, n, d);
    }
    assert AfterRecall(w, n, d).trk.views[d] == View(d, w.serial);
  }
}
