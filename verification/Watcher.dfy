// watcher.go, lines 259-500: the watcher's operations over its tracker and its cache.
// The After* functions say what each one does to the watcher's whole state.

module Watching {
  import opened Storing
  import opened Templates
  import opened Tracking

  datatype World = World(
    trk: State,
    cache: map<Id, Value>,
    // the number of views created so far
    serial: nat,
    // every view that was ever put in the views map
    entered: set<View>,
    // the stop() calls made, once per call
    stopped: multiset<View>,
    // the views a poll was started on
    polled: set<View>)

  const NEW_WORLD := World(State([], map[], {}), map[], 0, {}, multiset{}, {})

  // --- what the operations compute ---

  ghost function AfterRegister(w: World, ns: set<Id>): World {
    if w.trk.notifiers !! ns then w.(trk := w.trk.(notifiers := w.trk.notifiers + ns)) else w
  }

  /** The private track of the source panics on a notifier that was never registered. */
  predicate TrackPanics(w: World, n: Id, d: Id) {
    n !in w.trk.notifiers && !Paired(w.trk.tracked, n, d)
  }

  function AfterTrack(w: World, n: Id, d: Id): World {
    var t := MarkInUse(w.trk.tracked, n, d);
    if Paired(t, n, d) then
      w.(trk := w.trk.(tracked := t))
    else
      var v := View(d, w.serial);
      var isNew := d !in w.trk.views;
      w.(trk := w.trk.(
           tracked := if n in w.trk.notifiers then t + [Pair(d, n, true, false)] else t,
           views := if isNew then w.trk.views[d := v] else w.trk.views),
         serial := w.serial + 1,
         entered := if isNew then w.entered + {v} else w.entered)
  }

  function AfterPoll(w: World, ds: set<Id>): World {
    w.(polled := w.polled + ViewsAt(w.trk.views, ds))
  }

  /** Tracks first, then reads the cache; a miss starts the view's poll. */
  function AfterRecall(w: World, n: Id, d: Id): World {
    var u := AfterTrack(w, n, d);
    if d in u.cache then
      u.(trk := u.trk.(tracked := CacheAccessed(u.trk.tracked, n, d)))
    else
      AfterPoll(u, {d})
  }

  function AfterMark(w: World, n: Id): World {
    w.(trk := w.trk.(tracked := MarkForSweep(w.trk.tracked, n)))
  }

  function AfterSweep(w: World, n: Id): World {
    w.(trk := Sweep(w.trk, n),
       cache := w.cache - Swept(w.trk, n),
       stopped := w.stopped + multiset(ViewsAt(w.trk.views, Swept(w.trk, n))))
  }

  function SweepAll(w: World, ns: seq<Id>): World {
    if ns == [] then w
    else
      var n := ns[|ns| - 1];
      AfterSweep(AfterMark(SweepAll(w, ns[..|ns| - 1]), n), n)
  }

  /** A refused call changes nothing, even if some of its IDs are new. */
  lemma RefusedRegister(w: World, ns: set<Id>, known: Id)
    requires known in ns && known in w.trk.notifiers
    ensures AfterRegister(w, ns) == w
  {
  }

  /** Only IDs known from earlier calls make Register refuse: a notifier named twice in one call
      is accepted, and refused in the next. */
  lemma RegisterTwice(w: World, t: Id)
    requires t !in w.trk.notifiers
    ensures var twice := set n | n in [t, t];
      && w.trk.notifiers !! twice
      && AfterRegister(w, twice).trk.notifiers == w.trk.notifiers + {t}
      && !(AfterRegister(w, twice).trk.notifiers !! twice)
  {
  }

  /** Poll starts exactly the named views of the map. */
  lemma PollsExactly(w: World, ds: set<Id>, v: View)
    ensures v in AfterPoll(w, ds).polled <==>
            v in w.polled || exists d :: d in ds && d in w.trk.views && w.trk.views[d] == v
  {
  }

  /** So a recall starts no poll if it hits, and if it misses only that of the view in the map. */
  lemma RecallPolls(w: World, n: Id, d: Id)
    ensures var u := AfterRecall(w, n, d);
      u.polled == w.polled + if d in w.cache || d !in u.trk.views then {} else {u.trk.views[d]}
  {
  }

  lemma SweepAllNext(w: World, ns: seq<Id>, i: nat)
    requires i < |ns|
    ensures SweepAll(w, ns[..i + 1]) == AfterSweep(AfterMark(SweepAll(w, ns[..i]), ns[i]), ns[i])
  {
    assert ns[..i + 1][..i] == ns[..i];
  }

  /** Unregisters all of them first, then collects for each in turn. */
  function AfterDeregister(w: World, ns: seq<Id>): World {
    SweepAll(w.(trk := w.trk.(notifiers := w.trk.notifiers - set n | n in ns)), ns)
  }

  function AfterSave(w: World, d: Id, data: Value): World {
    w.(cache := w.cache[d := data])
  }

  function AfterStop(w: World): World {
    w.(trk := w.trk.(views := map[]), cache := map[],
       stopped := w.stopped + multiset(ViewsAt(w.trk.views, w.trk.views.Keys)))
  }

  // --- deliveries ---

  /** A view read from the data channel, with the data it holds at that moment. */
  datatype Delivery = Delivery(view: View, data: Value)

  function AfterDeliveries(w: World, ds: seq<Delivery>): World
    decreases |ds|
  {
    if ds == [] then w
    else
      var last := ds[|ds| - 1];
      AfterSave(AfterDeliveries(w, ds[..|ds| - 1]), last.view.id, last.data)
  }

  /** What a list of deliveries makes of a cache: every ID delivered holds the data of its last
      delivery, every other ID what it held. */
  ghost predicate Delivers(before: map<Id, Value>, ds: seq<Delivery>, after: map<Id, Value>) {
    && (forall i :: 0 <= i < |ds| && LastOfItsId(ds, i) ==> Lookup(after, ds[i].view.id) == Some(ds[i].data))
    && (forall id :: id !in Brought(ds) ==> Lookup(after, id) == Lookup(before, id))
  }

  ghost predicate LastOfItsId(ds: seq<Delivery>, i: nat)
    requires i < |ds|
  {
    forall j :: i < j < |ds| ==> ds[j].view.id != ds[i].view.id
  }

  ghost function Brought(ds: seq<Delivery>): set<Id> {
    set d | d in ds :: d.view.id
  }

  lemma BroughtNext(ds: seq<Delivery>, d: Delivery)
    ensures Brought(ds + [d]) == Brought(ds) + {d.view.id}
  {
  }

  /** The last of the deliveries for an ID. */
  lemma {:induction false} LastDelivery(ds: seq<Delivery>, id: Id) returns (i: nat)
    requires id in Brought(ds)
    ensures i < |ds| && ds[i].view.id == id && LastOfItsId(ds, i)
    decreases |ds|
  {
    i := |ds| - 1;
    if ds[i].view.id != id {
      var init := ds[..i];
      assert ds == init + [ds[i]];
      BroughtNext(init, ds[i]);
      i := LastDelivery(init, id);
      assert init[i] == ds[i];
      assert forall j :: i < j < |init| ==> init[j] == ds[j];
    }
  }

  lemma DeliversMore(before: map<Id, Value>, ds: seq<Delivery>, mid: map<Id, Value>, d: Delivery)
    requires Delivers(before, ds, mid)
    ensures Delivers(before, ds + [d], mid[d.view.id := d.data])
  {
    var more, after := ds + [d], mid[d.view.id := d.data];
    BroughtNext(ds, d);
    forall i | 0 <= i < |more| && LastOfItsId(more, i)
      ensures Lookup(after, more[i].view.id) == Some(more[i].data)
    {
      if i < |ds| {
        assert more[|ds|].view.id != ds[i].view.id;
        assert forall j :: i < j < |ds| ==> more[j] == ds[j];
        assert LastOfItsId(ds, i);
      }
    }
  }

  lemma DeliversNext(before: map<Id, Value>, ds: seq<Delivery>, mid: map<Id, Value>)
    requires ds != [] && Delivers(before, ds[..|ds| - 1], mid)
    ensures var d := ds[|ds| - 1]; Delivers(before, ds, mid[d.view.id := d.data])
  {
    var init, d := ds[..|ds| - 1], ds[|ds| - 1];
    assert init + [d] == ds;
    DeliversMore(before, init, mid, d);
  }

  lemma DeliversNothing(before: map<Id, Value>)
    ensures Delivers(before, [], before)
  {
  }

  lemma {:induction false} DeliveriesDeliver(w: World, ds: seq<Delivery>)
    ensures Delivers(w.cache, ds, AfterDeliveries(w, ds).cache)
    decreases |ds|
  {
    if ds == [] {
      DeliversNothing(w.cache);
    } else {
      var last, mid := ds[|ds| - 1], AfterDeliveries(w, ds[..|ds| - 1]).cache;
      DeliveriesDeliver(w, ds[..|ds| - 1]);
      assert AfterDeliveries(w, ds).cache == mid[last.view.id := last.data];
      DeliversNext(w.cache, ds, mid);
    }
  }

  /** The notifiers that some of the deliveries concern. */
  function Hearers(tracked: seq<Pair>, ds: seq<Delivery>): set<Id> {
    set d, n | d in ds && n in NotifiersFor(tracked, d.view.id) :: n
  }

  /** What the select of wait picks, drained as far as its channel goes. */
  datatype Arrival =
    | Data(batch: seq<Delivery>)
    | Triggered(ids: seq<Id>)
    | StopSignal
    | ViewError
    | Deadline
    | Cancelled

  /** An arrival after which Wait goes on waiting: every notifier it concerns is buffering. */
  predicate Quiet(tracked: seq<Pair>, a: Arrival, buffering: set<Id>) {
    match a
    case Data(batch) => Hearers(tracked, batch) <= buffering
    case Triggered(ids) => ids == []
    case _ => false
  }

  ghost predicate AllQuiet(tracked: seq<Pair>, arrivals: seq<Arrival>, buffering: set<Id>) {
    forall a :: a in arrivals ==> Quiet(tracked, a, buffering)
  }

  lemma AllQuietNext(tracked: seq<Pair>, arrivals: seq<Arrival>, i: nat, buffering: set<Id>)
    requires i < |arrivals| && AllQuiet(tracked, arrivals[..i], buffering) && Quiet(tracked, arrivals[i], buffering)
    ensures AllQuiet(tracked, arrivals[..i + 1], buffering)
  {
    assert arrivals[..i + 1] == arrivals[..i] + [arrivals[i]];
  }

  function Payload(a: Arrival): seq<Delivery> {
    if a.Data? then a.batch else []
  }

  function Delivered(arrivals: seq<Arrival>): seq<Delivery>
    decreases |arrivals|
  {
    if arrivals == [] then []
    else Delivered(arrivals[..|arrivals| - 1]) + Payload(arrivals[|arrivals| - 1])
  }

  /** Up to and with the arrival that ended the wait, if one did. */
  function Seen(arrivals: seq<Arrival>, ended: nat): seq<Arrival> {
    if ended < |arrivals| then arrivals[..ended + 1] else arrivals
  }

  lemma {:induction false} DeliveriesAppend(w: World, ds: seq<Delivery>, es: seq<Delivery>)
    ensures AfterDeliveries(w, ds + es) == AfterDeliveries(AfterDeliveries(w, ds), es)
    decreases |es|
  {
    if es == [] {
      assert ds + es == ds;
    } else {
      var n := |es| - 1;
      DeliveriesAppend(w, ds, es[..n]);
      assert (ds + es)[..|ds| + n] == ds + es[..n];
    }
  }

  lemma HearersAppend(tracked: seq<Pair>, ds: seq<Delivery>, es: seq<Delivery>)
    ensures Hearers(tracked, ds + es) == Hearers(tracked, ds) + Hearers(tracked, es)
  {
  }

  /** One of the deliveries concerns a notifier that is not registered. */
  ghost predicate Fatal(trk: State, ds: seq<Delivery>) {
    exists d :: d in ds && MeetsNil(trk, d.view.id)
  }

  function Elements(ids: seq<Id>): set<Id> {
    set id | id in ids
  }

  lemma ElementsNext(ids: seq<Id>, i: nat)
    requires i < |ids|
    ensures Elements(ids[..i + 1]) == Elements(ids[..i]) + {ids[i]}
  {
    assert ids[..i + 1] == ids[..i] + [ids[i]];
  }

  lemma AddTold(told: set<Id>, done: set<Id>, id: Id, buffering: set<Id>)
    ensures told + (done + {id} - buffering) ==
            if id in buffering then told + (done - buffering) else told + (done - buffering) + {id}
  {
  }

  /** The notifiers before the first that is not registered. */
  function Reached(ids: seq<Id>, known: set<Id>): set<Id> {
    if ids == [] || ids[0] !in known then {} else {ids[0]} + Reached(ids[1..], known)
  }

  lemma {:induction false} ReachedPrefix(ids: seq<Id>, known: set<Id>, i: nat)
    requires i <= |ids| && (forall j :: 0 <= j < i ==> ids[j] in known) && (i < |ids| ==> ids[i] !in known)
    ensures Reached(ids, known) == Elements(ids[..i])
  {
    if i > 0 {
      ReachedPrefix(ids[1..], known, i - 1);
      assert ids[..i] == [ids[0]] + ids[1..][..i - 1];
    }
  }

  /** From `w` with `dirty` to `u` with `marked` exactly these deliveries happened. */
  ghost predicate Carried(w: World, dirty: set<Id>, ds: seq<Delivery>, tracked: seq<Pair>, u: World, marked: set<Id>) {
    u == AfterDeliveries(w, ds) && marked == dirty + Hearers(tracked, ds)
  }

  lemma TookNext(w: World, dirty: set<Id>, mid: World, marked: set<Id>, trk: State,
                 arrivals: seq<Arrival>, i: nat, u: World, after: set<Id>)
    requires i < |arrivals|
    requires Carried(w, dirty, Delivered(arrivals[..i]), trk.tracked, mid, marked)
    requires Carried(mid, marked, Payload(arrivals[i]), trk.tracked, u, after)
    requires !Fatal(trk, Delivered(arrivals[..i])) && !Fatal(trk, Payload(arrivals[i]))
    ensures Carried(w, dirty, Delivered(arrivals[..i + 1]), trk.tracked, u, after)
    ensures !Fatal(trk, Delivered(arrivals[..i + 1]))
  {
    var before, now := Delivered(arrivals[..i]), Payload(arrivals[i]);
    assert arrivals[..i + 1][..i] == arrivals[..i];
    DeliveriesAppend(w, before, now);
    HearersAppend(trk.tracked, before, now);
  }

  lemma HearersOne(tracked: seq<Pair>, d: Delivery)
    ensures Hearers(tracked, [d]) == Elements(NotifiersFor(tracked, d.view.id))
  {
  }

  // --- the watcher itself ---

  function Ids(ns: seq<Template>): seq<Id> {
    seq(|ns|, i requires 0 <= i < |ns| => ns[i].id)
  }

  class Watcher {
    const tracker: Tracker
    const cache: Store
    var serial: nat
    var polled: set<View>
    ghost var entered: set<View>

    ghost function Now(): World
      reads this, tracker, cache
    {
      World(tracker.Now(), cache.data, serial, entered, tracker.stopped, polled)
    }

    /** The registered templates whose dirty flag is set. */
    ghost function Dirty(): set<Id>
      reads tracker, tracker.notifiers.Values
    {
      set id | id in tracker.notifiers && tracker.notifiers[id].dirty
    }

    /** Since `w` with `dirty`, exactly these deliveries happened. */
    ghost predicate Took(w: World, dirty: set<Id>, ds: seq<Delivery>)
      reads this, tracker, cache, tracker.notifiers.Values
    {
      Carried(w, dirty, ds, tracker.tracked, Now(), Dirty())
    }

    ghost predicate Valid()
      reads tracker
    {
      tracker.Valid()
    }

    constructor ()
      ensures Valid() && fresh(tracker) && fresh(cache)
      ensures Now() == NEW_WORLD
    {
      tracker := new Tracker();
      cache := new Store();
      serial, polled, entered := 0, {}, {};
    }

    method Register(ns: seq<Template>) returns (ok: bool)
      requires Valid()
      modifies tracker
      ensures Valid()
      ensures Now() == AfterRegister(old(Now()), set n | n in Ids(ns))
      ensures ok <==> old(Now()).trk.notifiers !! set n | n in Ids(ns)
    {
      assert (set n | n in Ids(ns)) == (set n | n in ns :: n.id) by {
        forall n | n in ns ensures n.id in Ids(ns) {
          var i :| 0 <= i < |ns| && ns[i] == n;
          assert Ids(ns)[i] == n.id;
        }
      }
      ok := tracker.RegisterNotifiers(ns);
    }

    method Deregister(ns: seq<Template>)
      requires Valid()
      modifies tracker, cache
      ensures Valid()
      ensures Now() == AfterDeregister(old(Now()), Ids(ns))
    {
      assert (set n | n in Ids(ns)) == (set n | n in ns :: n.id) by {
        forall n | n in ns ensures n.id in Ids(ns) {
          var i :| 0 <= i < |ns| && ns[i] == n;
          assert Ids(ns)[i] == n.id;
        }
      }
      tracker.DeregisterNotifiers(ns);
      ghost var start := Now();
      for i := 0 to |ns|
        invariant Valid()
        invariant Now() == SweepAll(start, Ids(ns)[..i])
      {
        tracker.DoMarkForSweep(ns[i].id);
        tracker.DoSweep(ns[i].id, cache);
        SweepAllNext(start, Ids(ns), i);
      }
      assert Ids(ns)[..|ns|] == Ids(ns);
    }

    /** track in the source: marks first, then adds the pair unless it is there. */
    method TrackPair(n: Template, d: Id) returns (panicked: bool)
      requires Valid()
      modifies this`serial, this`entered, tracker
      ensures Valid()
      ensures panicked <==> TrackPanics(old(Now()), n.id, d)
      ensures Now() == AfterTrack(old(Now()), n.id, d)
      ensures tracker.notifiers == old(tracker.notifiers)
    {
      ghost var w := Now();
      tracker.DoMarkInUse(n.id, d);
      assert forall i :: 0 <= i < |w.trk.tracked| ==>
        tracker.tracked[i].view == w.trk.tracked[i].view && tracker.tracked[i].notify == w.trk.tracked[i].notify;
      assert Paired(tracker.tracked, n.id, d) == Paired(w.trk.tracked, n.id, d) by {
        if Paired(w.trk.tracked, n.id, d) {
          var i :| 0 <= i < |w.trk.tracked| && w.trk.tracked[i].view == d && w.trk.tracked[i].notify == n.id;
          assert tracker.tracked[i] in tracker.tracked;
        }
      }
      var found := tracker.LookupPair(n.id, d);
      if found {
        return false;
      }
      var v := View(d, serial);
      serial := serial + 1;
      entered := if d in tracker.views then entered else entered + {v};
      panicked := tracker.Add(v, n.id);
    }

    /** The public Track registers as a convenience and ignores what that returns,
        so it never panics. */
    method Track(n: Template, d: Id)
      requires Valid()
      modifies this`serial, this`entered, tracker
      ensures Valid()
      ensures Now() == AfterTrack(AfterRegister(old(Now()), {n.id}), n.id, d)
    {
      assert Ids([n]) == [n.id];
      assert (set m | m in [n.id]) == {n.id};
      var _ := Register([n]);
      var panicked := TrackPair(n, d);
      assert !panicked;
    }

    /** Starts the poll of every view in the map with one of these IDs; naming none means all. */
    method Poll(deps: seq<Id>)
      modifies this`polled
      ensures Now() == AfterPoll(old(Now()), if deps == [] then tracker.views.Keys else set d | d in deps)
    {
      var ds := deps;
      if |ds| == 0 {
        var rest := tracker.views.Keys;
        while rest != {}
          invariant rest <= tracker.views.Keys
          invariant forall d :: d in ds <==> d in tracker.views && d !in rest
          decreases rest
        {
          var d :| d in rest;
          ds := ds + [d];
          rest := rest - {d};
        }
        assert (set d | d in ds) == tracker.views.Keys;
      }
      for i := 0 to |ds|
        invariant Now() == AfterPoll(old(Now()), set d | d in ds[..i])
      {
        assert ds[..i + 1] == ds[..i] + [ds[i]];
        if ds[i] in tracker.views {
          polled := polled + {tracker.views[ds[i]]};
        }
      }
      assert ds[..|ds|] == ds;
    }

    /** The body of the function Recaller returns. */
    method Recall(n: Template, d: Id) returns (panicked: bool, found: Option<Value>)
      requires Valid()
      modifies this`serial, this`entered, this`polled, tracker
      ensures Valid()
      ensures panicked <==> TrackPanics(old(Now()), n.id, d)
      ensures !panicked ==> found == Lookup(old(Now()).cache, d)
      ensures !panicked ==> Now() == AfterRecall(old(Now()), n.id, d)
      ensures panicked ==> Now() == AfterTrack(old(Now()), n.id, d)
      ensures tracker.notifiers == old(tracker.notifiers)
    {
      panicked := TrackPair(n, d);
      found := None;
      if panicked {
        return;
      }
      found := cache.Recall(d);
      match found {
        case Some(_) =>
          tracker.DoCacheAccessed(n.id, d);
        case None =>
          Poll([d]);
          assert (set e | e in [d]) == {d};
      }
    }

    /** Notify, on a registered template. */
    method Tell(n: Template) returns (accepted: bool)
      requires Valid() && n.id in tracker.notifiers && tracker.notifiers[n.id] == n
      modifies n`dirty
      ensures accepted && Dirty() == old(Dirty()) + {n.id}
    {
      accepted := n.Notify();
      forall id | id in tracker.notifiers ensures id in Dirty() <==> id in old(Dirty()) || id == n.id {
        assert id != n.id ==> tracker.notifiers[id] != n;
      }
    }

    /** dataUpdate of wait: saves the data, then notifies the paired templates in order. Those
        without a running buffer are the ones the caller has to be told about. Calling Notify on
        a notifier that is not registered any more panics. */
    method DataUpdate(v: View, data: Value, buffering: set<Id>, told: set<Id>) returns (panicked: bool, out: set<Id>)
      requires Valid()
      modifies cache, set n | n in tracker.notifiers.Values :: n`dirty
      ensures Now() == AfterSave(old(Now()), v.id, data) && cache.data == old(cache.data)[v.id := data]
      ensures panicked <==> MeetsNil(tracker.Now(), v.id)
      ensures Dirty() == old(Dirty()) + Reached(NotifiersFor(tracker.tracked, v.id), tracker.notifiers.Keys)
      ensures !panicked ==> Dirty() == old(Dirty()) + Hearers(tracker.tracked, [Delivery(v, data)])
      ensures !panicked ==> out == told + (Hearers(tracker.tracked, [Delivery(v, data)]) - buffering)
    {
      cache.Save(v.id, data);
      var ns := tracker.NotifiersOf(v.id);
      ghost var ids := NotifiersFor(tracker.tracked, v.id);
      panicked, out := TellAll(ns, ids, buffering, told);
      HearersOne(tracker.tracked, Delivery(v, data));
    }

    /** The loop of dataUpdate. */
    method TellAll(ns: seq<Template?>, ghost ids: seq<Id>, buffering: set<Id>, told: set<Id>)
      returns (panicked: bool, out: set<Id>)
      requires Valid() && |ns| == |ids| && forall i :: 0 <= i < |ns| ==> ns[i] == tracker.Registered(ids[i])
      modifies set n | n in tracker.notifiers.Values :: n`dirty
      ensures panicked <==> exists n :: n in ids && n !in tracker.notifiers
      ensures Dirty() == old(Dirty()) + Reached(ids, tracker.notifiers.Keys)
      ensures !panicked ==> Reached(ids, tracker.notifiers.Keys) == Elements(ids)
      ensures !panicked ==> out == told + (Elements(ids) - buffering)
    {
      out := told;
      ghost var was, known := Dirty(), tracker.notifiers.Keys;
      for i := 0 to |ns|
        invariant forall j :: 0 <= j < i ==> ids[j] in known
        invariant Dirty() == was + Elements(ids[..i])
        invariant out == told + (Elements(ids[..i]) - buffering)
      {
        var n := ns[i];
        if n == null {
          ReachedPrefix(ids, known, i);
          return true, out;
        }
        ElementsNext(ids, i);
        AddTold(told, Elements(ids[..i]), ids[i], buffering);
        assert n.id == ids[i] && n in tracker.notifiers.Values;
        var accepted := Tell(n);
        if accepted && n.id !in buffering {
          out := out + {n.id};
        }
      }
      assert ids[..|ids|] == ids;
      ReachedPrefix(ids, known, |ids|);
      panicked := false;
    }

    /** The data branch of wait. A panic ends the process. */
    method Drain(batch: seq<Delivery>, buffering: set<Id>) returns (panicked: bool, told: set<Id>)
      requires Valid()
      modifies cache, set n | n in tracker.notifiers.Values :: n`dirty
      ensures panicked <==> Fatal(tracker.Now(), batch)
      ensures !panicked ==> Took(old(Now()), old(Dirty()), batch) && Delivers(old(cache.data), batch, cache.data)
      ensures !panicked ==> told == Hearers(tracker.tracked, batch) - buffering
    {
      told := {};
      for i := 0 to |batch|
        invariant !Fatal(tracker.Now(), batch[..i])
        invariant Took(old(Now()), old(Dirty()), batch[..i])
        invariant told == Hearers(tracker.tracked, batch[..i]) - buffering
      {
        assert batch[..i + 1] == batch[..i] + [batch[i]];
        assert batch[..i + 1][..i] == batch[..i];
        HearersAppend(tracker.tracked, batch[..i], [batch[i]]);
        panicked, told := DataUpdate(batch[i].view, batch[i].data, buffering, told);
        if panicked {
          assert batch[i] in batch;
          return true, told;
        }
      }
      assert batch[..|batch|] == batch;
      DeliveriesDeliver(old(Now()), batch);
      panicked := false;
    }

    /** wait: one arrival. The stop signal and the deadline are errors too, which Wait swallows. */
    method WaitOnce(a: Arrival, buffering: set<Id>) returns (panicked: bool, told: set<Id>, ok: bool)
      requires Valid()
      modifies cache, set n | n in tracker.notifiers.Values :: n`dirty
      ensures panicked <==> Fatal(tracker.Now(), Payload(a))
      ensures !panicked ==> Took(old(Now()), old(Dirty()), Payload(a))
      ensures ok <==> a.Data? || a.Triggered?
      ensures !panicked ==> (Quiet(tracker.tracked, a, buffering) <==> ok && told == {})
      ensures !panicked ==> told == match a
        case Data(batch) => Hearers(tracker.tracked, batch) - buffering
        case Triggered(ids) => Elements(ids)
        case _ => {}
    {
      panicked, told, ok := false, {}, true;
      match a {
        case Data(batch) =>
          panicked, told := Drain(batch, buffering);
          assert !panicked ==> Hearers(tracker.tracked, batch) <= buffering + told;
        case Triggered(ids) =>
          told := Elements(ids);
          assert ids != [] ==> ids[0] in told;
        case _ =>
          ok := false;
      }
    }

    /** Wait, on a run of arrivals: it returns after the first that is not quiet, with nil unless
        that is an error of a view or a cancelled context, and panics in the first that makes it. */
    method Wait(arrivals: seq<Arrival>, buffering: set<Id>) returns (ended: nat, panicked: bool, ok: bool)
      requires Valid()
      modifies cache, set n | n in tracker.notifiers.Values :: n`dirty
      ensures ended <= |arrivals|
      ensures AllQuiet(tracker.tracked, arrivals[..ended], buffering)
      ensures !Fatal(tracker.Now(), Delivered(arrivals[..ended]))
      ensures panicked <==> ended < |arrivals| && Fatal(tracker.Now(), Payload(arrivals[ended]))
      ensures ended < |arrivals| && !panicked ==> !Quiet(tracker.tracked, arrivals[ended], buffering)
      ensures !panicked ==>
        (!ok <==> ended < |arrivals| && (arrivals[ended].ViewError? || arrivals[ended].Cancelled?))
      ensures !panicked ==> Took(old(Now()), old(Dirty()), Delivered(Seen(arrivals, ended)))
      ensures !panicked ==> Delivers(old(cache.data), Delivered(Seen(arrivals, ended)), cache.data)
    {
      ended, panicked, ok := 0, false, true;
      ghost var w, dirty, trk := Now(), Dirty(), tracker.Now();
      while ended < |arrivals|
        invariant ended <= |arrivals| && tracker.Now() == trk && !panicked && ok
        invariant AllQuiet(trk.tracked, arrivals[..ended], buffering)
        invariant !Fatal(trk, Delivered(arrivals[..ended]))
        invariant Took(w, dirty, Delivered(arrivals[..ended]))
      {
        ghost var mid, marked := Now(), Dirty();
        var told, took;
        panicked, told, took := WaitOnce(arrivals[ended], buffering);
        if panicked {
          return;
        }
        TookNext(w, dirty, mid, marked, trk, arrivals, ended, Now(), Dirty());
        DeliveriesDeliver(w, Delivered(arrivals[..ended + 1]));
        if !took {
          ok := arrivals[ended].StopSignal? || arrivals[ended].Deadline?;
          return;
        }
        if told != {} {
          return;
        }
        AllQuietNext(trk.tracked, arrivals, ended, buffering);
        ended := ended + 1;
      }
      assert arrivals[..|arrivals|] == arrivals;
      DeliveriesDeliver(w, Delivered(arrivals));
    }

    method Stop()
      requires Valid()
      modifies tracker, cache
      ensures Valid()
      ensures Now() == AfterStop(old(Now()))
    {
      tracker.DoStopViews();
      cache.Reset();
    }
  }
}
