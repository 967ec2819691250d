// What a template shows while the source changes under it.

module Following {
  import opened Storing
  import opened Templates
  import opened Tracking
  import opened TrackerFacts
  import opened Watching
  import opened Integrity
  import opened Resolving
  import opened Convergence

  /** The template's state once the watcher has taken in some deliveries. */
  ghost function AfterNews(s: Session, n: Id, ds: seq<Delivery>): Session {
    Session(AfterDeliveries(s.world, ds), s.dirty || n in Hearers(s.world.trk.tracked, ds), s.content)
  }

  /** The deliveries bring what the new source holds, and leave out no cached dependency on which
      the two sources differ. */
  ghost predicate BringsNews(w: World, was: Source, now: Source, ds: seq<Delivery>) {
    && (forall d :: d in ds ==> d.data == now(d.view.id))
    && (forall id :: id in w.cache && was(id) != now(id) ==> id in Brought(ds))
  }

  lemma {:induction false} DeliveriesKeep(w: World, ds: seq<Delivery>)
    requires Sound(w)
    ensures var u := AfterDeliveries(w, ds); Sound(u) && u.trk == w.trk && u.polled == w.polled
    decreases |ds|
  {
    if ds != [] {
      var n := |ds| - 1;
      DeliveriesKeep(w, ds[..n]);
      SoundStep(AfterDeliveries(w, ds[..n]), Save(ds[n].view.id, ds[n].data));
    }
  }

  /** Then the cache is the new source's. */
  lemma NewsReplaces(w: World, was: Source, now: Source, ds: seq<Delivery>)
    requires FromSource(w, was) && BringsNews(w, was, now, ds)
    ensures FromSource(AfterDeliveries(w, ds), now)
  {
    var u := AfterDeliveries(w, ds);
    DeliveriesDeliver(w, ds);
    forall id | id in u.cache ensures u.cache[id] == now(id) {
      if id in Brought(ds) {
        var i := LastDelivery(ds, id);
        assert ds[i] in ds && Lookup(u.cache, id) == Some(ds[i].data);
      } else {
        assert Lookup(u.cache, id) == Lookup(w.cache, id);
      }
    }
  }

  /** And a template paired with a dependency that changed is dirty. */
  lemma NewsDirties(s: Session, n: Id, was: Source, now: Source, ds: seq<Delivery>, id: Id)
    requires Sound(s.world) && BringsNews(s.world, was, now, ds)
    requires id in Deps(s.world.trk.tracked, n) && id in s.world.cache && was(id) != now(id)
    ensures AfterNews(s, n, ds).dirty
  {
    var d :| d in ds && d.view.id == id;
    NotifiersForMember(s.world.trk.tracked, id, n);
    assert n in NotifiersFor(s.world.trk.tracked, d.view.id);
  }

  /** A template whose path does not change is not affected. */
  lemma {:induction false} SamePath(p: Program, was: Source, now: Source, h: seq<Option<Value>>)
    requires p.Finite() && forall d :: d in Path(p, was, h) ==> was(d) == now(d)
    ensures Path(p, now, h) == Path(p, was, h) && Eval(p, now, h) == Eval(p, was, h)
    decreases p.bound - |h|
  {
    match p.step(h) {
      case Ask(d) =>
        var rest := Path(p, was, h + [Some(was(d))]);
        assert Path(p, was, h) == [d] + rest;
        assert forall e :: e in rest ==> e in Path(p, was, h);
        assert d in Path(p, was, h);
        SamePath(p, was, now, h + [Some(was(d))]);
      case _ =>
    }
  }

  /** Whatever a template had on its screen: from any state that caches one source, once a Wait has
      delivered the cached dependencies on which another differs, among them one the template is paired
      with, it is dirty, and the loop yields its evaluation on the other. */
  lemma SourceChanges(s: Session, n: Id, p: Program, was: Source, now: Source, ds: seq<Delivery>,
                      intervals: seq<seq<Op>>, id: Id)
    requires Ready(s, n, was) && BringsNews(s.world, was, now, ds) && p.Finite() && NeverFails(p)
    requires id in Deps(s.world.trk.tracked, n) && id in s.world.cache && was(id) != now(id)
    requires forall ops, op :: ops in intervals && op in ops ==> Foreign(op, n, now)
    requires |intervals| >= |Path(p, now, [])|
    ensures var u := AfterNews(s, n, ds); var (last, event, runs) := Loop(u, n, p, now, intervals);
      && u.dirty && FromSource(u.world, now)
      && event.complete && Yields(event, Eval(p, now, [])) && Current(last, n, p, now)
      && runs <= |Path(p, now, [])| + 1
  {
    DeliveriesKeep(s.world, ds);
    NewsReplaces(s.world, was, now, ds);
    NewsDirties(s, n, was, now, ds, id);
    RunWaitLoopConverges(AfterNews(s, n, ds), n, p, now, intervals);
  }

  lemma CurrentDepsCached(s: Session, n: Id, p: Program, source: Source, d: Id)
    requires p.Finite() && Current(s, n, p, source) && d in Path(p, source, [])
    ensures d in Deps(s.world.trk.tracked, n) && d in s.world.cache
  {
    assert d in Elements(Path(p, source, []));
    var q :| q in s.world.trk.tracked && q.notify == n && q.view == d;
    assert q.accessed;
  }

  /** A run without news leaves a current template current, and repeats its content. */
  lemma RestingRun(s: Session, n: Id, p: Program, source: Source)
    requires p.Finite() && Current(s, n, p, source)
    ensures var (after, event) := AfterRun(s, n, p);
      && Current(after, n, p, source) && event == Event(true, Some(s.content), true)
  {
    OtherRunsRemoveNothing(s, n, p);
    MarkEffect(s.world, n, {});
    PairedDeps(s.world.trk.tracked, n, "");
    PairedDeps(AfterMark(s.world, n).trk.tracked, n, "");
  }

  /** A template that shows one source comes to show the next one, whether or not it is concerned. */
  lemma FollowsOnce(s: Session, n: Id, p: Program, was: Source, now: Source, ds: seq<Delivery>,
                    intervals: seq<seq<Op>>)
    requires p.Finite() && NeverFails(p) && Current(s, n, p, was) && BringsNews(s.world, was, now, ds)
    requires forall ops, op :: ops in intervals && op in ops ==> Foreign(op, n, now)
    requires |intervals| >= |Path(p, now, [])|
    ensures var (last, event, runs) := Loop(AfterNews(s, n, ds), n, p, now, intervals);
      && event.complete && Yields(event, Eval(p, now, [])) && Current(last, n, p, now)
      && runs <= |Path(p, now, [])| + 1
  {
    var u := AfterNews(s, n, ds);
    DeliveriesKeep(s.world, ds);
    NewsReplaces(s.world, was, now, ds);
    if u.dirty {
      RunWaitLoopConverges(u, n, p, now, intervals);
    } else {
      forall d | d in Path(p, was, []) ensures was(d) == now(d) {
        CurrentDepsCached(s, n, p, was, d);
        if was(d) != now(d) {
          NewsDirties(s, n, was, now, ds, d);
        }
      }
      SamePath(p, was, now, []);
      assert Current(u, n, p, now);
      RestingRun(u, n, p, now);
    }
  }

  // --- over any number of changes ---

  /** The source changes, a Wait delivers it, and the loop runs with others busy in the intervals. */
  datatype Change = Change(source: Source, news: seq<Delivery>, intervals: seq<seq<Op>>)

  ghost function Follow(s: Session, n: Id, p: Program, changes: seq<Change>): Session
    requires p.Finite()
    decreases |changes|
  {
    if changes == [] then s
    else
      var c := changes[|changes| - 1];
      Loop(AfterNews(Follow(s, n, p, changes[..|changes| - 1]), n, c.news), n, p, c.source, c.intervals).0
  }

  function Latest(source: Source, changes: seq<Change>): Source {
    if changes == [] then source else changes[|changes| - 1].source
  }

  /** Change `i` is delivered, and has enough intervals. */
  ghost predicate DeliveredAt(s: Session, n: Id, p: Program, source: Source, changes: seq<Change>, i: nat)
    requires p.Finite() && i < |changes|
  {
    var c := changes[i];
    && BringsNews(Follow(s, n, p, changes[..i]).world, Latest(source, changes[..i]), c.source, c.news)
    && (forall ops, op :: ops in c.intervals && op in ops ==> Foreign(op, n, c.source))
    && |c.intervals| >= |Path(p, c.source, [])|
  }

  ghost predicate Delivered(s: Session, n: Id, p: Program, source: Source, changes: seq<Change>)
    requires p.Finite()
  {
    forall i :: 0 <= i < |changes| ==> DeliveredAt(s, n, p, source, changes, i)
  }

  lemma DeliveredInit(s: Session, n: Id, p: Program, source: Source, changes: seq<Change>)
    requires p.Finite() && Delivered(s, n, p, source, changes) && changes != []
    ensures Delivered(s, n, p, source, changes[..|changes| - 1])
  {
    var init := changes[..|changes| - 1];
    forall i | 0 <= i < |init| ensures DeliveredAt(s, n, p, source, init, i) {
      assert changes[..i] == init[..i] && changes[i] == init[i];
      assert DeliveredAt(s, n, p, source, changes, i);
    }
  }

  /** Once current, a template stays current through all of them: its content is the evaluation on
      the latest source. */
  lemma {:induction false} FollowsTheSource(s: Session, n: Id, p: Program, source: Source, changes: seq<Change>)
    requires p.Finite() && NeverFails(p) && Current(s, n, p, source)
    requires Delivered(s, n, p, source, changes)
    ensures var last, now := Follow(s, n, p, changes), Latest(source, changes);
      Current(last, n, p, now) && Eval(p, now, []) == Rendered(last.content)
    decreases |changes|
  {
    if changes != [] {
      var k := |changes| - 1;
      var init, c := changes[..k], changes[k];
      DeliveredInit(s, n, p, source, changes);
      FollowsTheSource(s, n, p, source, init);
      assert DeliveredAt(s, n, p, source, changes, k);
      FollowsOnce(Follow(s, n, p, init), n, p, Latest(source, init), c.source, c.news, c.intervals);
    }
  }
}
