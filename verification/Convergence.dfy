// Repeating Run and Wait until Complete, while other templates use the same watcher.

module Convergence {
  import opened Storing
  import opened Templates
  import opened Tracking
  import opened TrackerFacts
  import opened Watching
  import opened Integrity
  import opened Resolving

  type Source = Id -> Value

  /** Everything cached is what the source holds. */
  ghost predicate FromSource(w: World, source: Source) {
    forall d :: d in w.cache ==> w.cache[d] == source(d)
  }

  /** An operation that neither stops the watcher nor acts for template `n`, and that
      delivers only what the source holds. */
  ghost predicate Foreign(op: Op, n: Id, source: Source) {
    match op
    case Deregister(gone) => n !in gone
    case Track(m, _) => m != n
    case Recall(m, _) => m != n
    case Mark(m) => m != n
    case Collect(m) => m != n
    case Save(d, data) => data == source(d)
    case Stop => false
    case _ => true
  }

  /** What `n` has, it keeps. */
  ghost predicate Keeps(w: World, u: World, n: Id) {
    && n in u.trk.notifiers
    && Deps(u.trk.tracked, n) == Deps(w.trk.tracked, n)
    && w.polled <= u.polled
    && (forall d :: d in Deps(w.trk.tracked, n) ==>
          && d in u.trk.views && d in w.trk.views && u.trk.views[d] == w.trk.views[d]
          && (d in w.cache ==> d in u.cache))
  }

  lemma KeepsFromOthers(w: World, u: World, m: Id, n: Id)
    requires m != n && n in w.trk.notifiers && u.trk.notifiers == w.trk.notifiers
    requires Others(u.trk.tracked, m) == Others(w.trk.tracked, m)
    requires w.polled <= u.polled
    requires forall d :: d in Deps(u.trk.tracked, n) ==>
      && d in u.trk.views && d in w.trk.views && u.trk.views[d] == w.trk.views[d]
      && (d in w.cache ==> d in u.cache)
    ensures Keeps(w, u, n)
    ensures Complete(u.trk.tracked, n) <==> Complete(w.trk.tracked, n)
  {
    OthersDecide(u.trk.tracked, w.trk.tracked, m, n);
  }

  lemma DepsNamed(t: seq<Pair>, n: Id)
    ensures Deps(t, n) <= Named(t)
  {
  }

  lemma ForeignCollect(w: World, m: Id, n: Id)
    requires Sound(w) && n in w.trk.notifiers && m != n
    ensures Keeps(w, AfterSweep(w, m), n)
    ensures Complete(AfterSweep(w, m).trk.tracked, n) <==> Complete(w.trk.tracked, n)
  {
    SweepEffect(w, m, {});
    DepsNamed(AfterSweep(w, m).trk.tracked, n);
    KeepsFromOthers(w, AfterSweep(w, m), m, n);
  }

  lemma ForeignDeregister(w: World, gone: seq<Id>, n: Id)
    requires Sound(w) && n in w.trk.notifiers && n !in gone
    ensures Keeps(w, AfterDeregister(w, gone), n)
    ensures Complete(AfterDeregister(w, gone).trk.tracked, n) <==> Complete(w.trk.tracked, n)
  {
    var u := AfterDeregister(w, gone);
    DeregisterEffect(w, gone);
    DepsNamed(u.trk.tracked, n);
    forall p: Pair ensures p in u.trk.tracked <==> p in w.trk.tracked && p.notify !in gone {
      WithoutMember(w.trk.tracked, (set m | m in gone), p);
    }
    assert Deps(u.trk.tracked, n) == Deps(w.trk.tracked, n);
  }

  lemma ForeignTrack(w: World, m: Id, d: Id, n: Id)
    requires Sound(w) && n in w.trk.notifiers && m != n && !TrackPanics(w, m, d)
    ensures Keeps(w, AfterTrack(w, m, d), n)
    ensures Complete(AfterTrack(w, m, d).trk.tracked, n) <==> Complete(w.trk.tracked, n)
  {
    var u := AfterTrack(w, m, d);
    TrackEffect(w, m, d);
    OthersDecide(u.trk.tracked, w.trk.tracked, m, n);
    DepsNamed(w.trk.tracked, n);
    KeepsFromOthers(w, u, m, n);
  }

  lemma ForeignRecall(w: World, m: Id, d: Id, n: Id)
    requires Sound(w) && n in w.trk.notifiers && m != n && !TrackPanics(w, m, d)
    ensures Keeps(w, AfterRecall(w, m, d), n)
    ensures Complete(AfterRecall(w, m, d).trk.tracked, n) <==> Complete(w.trk.tracked, n)
  {
    var u := AfterRecall(w, m, d);
    RecallEffect(w, m, d);
    OthersDecide(u.trk.tracked, w.trk.tracked, m, n);
    DepsNamed(w.trk.tracked, n);
    KeepsFromOthers(w, u, m, n);
  }

  /** Data arrivals and whatever other templates do, their collections included, leave
      a template its pairs, their views and their cached values, and its Complete answer. */
  lemma ForeignStep(w: World, op: Op, n: Id, source: Source)
    requires Sound(w) && n in w.trk.notifiers && Foreign(op, n, source)
    ensures Sound(Apply(w, op)) && Keeps(w, Apply(w, op), n)
    ensures Complete(Apply(w, op).trk.tracked, n) <==> Complete(w.trk.tracked, n)
    ensures FromSource(w, source) ==> FromSource(Apply(w, op), source)
  {
    SoundStep(w, op);
    ForeignKeeps(w, op, n, source);
    ForeignCache(w, op, n, source);
  }

  lemma ForeignCache(w: World, op: Op, n: Id, source: Source)
    requires Sound(w) && n in w.trk.notifiers && Foreign(op, n, source)
    ensures FromSource(w, source) ==> FromSource(Apply(w, op), source)
  {
    if op.Deregister? {
      DeregisterEffect(w, op.gone);
    } else if op.Collect? {
      SweepEffect(w, op.n, {});
    }
  }

  lemma ForeignKeeps(w: World, op: Op, n: Id, source: Source)
    requires Sound(w) && n in w.trk.notifiers && Foreign(op, n, source)
    ensures Keeps(w, Apply(w, op), n)
    ensures Complete(Apply(w, op).trk.tracked, n) <==> Complete(w.trk.tracked, n)
  {
    DepsNamed(w.trk.tracked, n);
    match op
    case Deregister(gone) => ForeignDeregister(w, gone, n);
    case Track(m, d) => ForeignTrack(AfterRegister(w, {m}), m, d, n);
    case Recall(m, d) =>
      if TrackPanics(w, m, d) {
        PanicSound(w, m, d);
      } else {
        ForeignRecall(w, m, d, n);
      }
    case Mark(m) =>
      MarkEffect(w, m, {});
      OthersDecide(Apply(w, op).trk.tracked, w.trk.tracked, m, n);
      KeepsFromOthers(w, Apply(w, op), m, n);
    case Collect(m) => ForeignCollect(w, m, n);
    case _ =>
  }

  // --- the source's answer, without any watcher ---

  /** The dependencies `p` asks for when every answer comes from the source. */
  ghost function Path(p: Program, source: Source, h: seq<Option<Value>>): seq<Id>
    requires p.Finite()
    decreases p.bound - |h|
  {
    match p.step(h)
    case Ask(d) => [d] + Path(p, source, h + [Some(source(d))])
    case _ => []
  }

  ghost function Eval(p: Program, source: Source, h: seq<Option<Value>>): Outcome
    requires p.Finite()
    decreases p.bound - |h|
  {
    match p.step(h)
    case Ask(d) => Eval(p, source, h + [Some(source(d))])
    case Done(c) => Rendered(c)
    case Fail => Failed
  }

  ghost predicate NeverFails(p: Program) {
    forall h :: !p.step(h).Fail?
  }

  lemma ConsPrefix(path: seq<Id>, asked: seq<Id>, k: nat)
    requires k < |path| && path[1..][..k] <= asked
    ensures path[..k + 1] <= [path[0]] + asked
  {
    assert path[..k + 1] == [path[0]] + path[1..][..k];
  }

  /** While the cache can answer, an execution follows the source's path. */
  lemma {:induction false} FollowsPath(w: World, n: Id, p: Program, source: Source, h: seq<Option<Value>>, j: nat)
    requires n in w.trk.notifiers && p.Finite() && FromSource(w, source)
    requires j <= |Path(p, source, h)| && forall i :: 0 <= i < j ==> Path(p, source, h)[i] in w.cache
    ensures var e := Execute(w, n, p, h); var path := Path(p, source, h);
      && path[..j] <= e.asked
      && (j < |path| ==> path[..j + 1] <= e.asked)
      && (j == |path| ==> e.asked == path && e.outcome == Eval(p, source, h))
    decreases p.bound - |h|
  {
    var path := Path(p, source, h);
    match p.step(h) {
      case Ask(d) =>
        var v := AfterRecall(w, n, d);
        if j > 0 {
          var h' := h + [Some(source(d))];
          assert path[0] == d && path[1..] == Path(p, source, h');
          FollowsPath(v, n, p, source, h', j - 1);
          var e, rest := Execute(w, n, p, h), Execute(v, n, p, h');
          assert e == Extend([d], [Some(source(d))], rest);
          ConsPrefix(path, rest.asked, j - 1);
          if j < |path| {
            ConsPrefix(path, rest.asked, j);
          }
        }
      case _ =>
    }
  }

  /** A render whose every recall hit is the pure evaluation of the template. */
  lemma {:induction false} AllHitsEval(w: World, n: Id, p: Program, source: Source, h: seq<Option<Value>>)
    requires n in w.trk.notifiers && p.Finite() && FromSource(w, source)
    requires forall i :: 0 <= i < |Execute(w, n, p, h).answers| ==> Execute(w, n, p, h).answers[i].Some?
    ensures Execute(w, n, p, h).outcome == Eval(p, source, h)
    decreases p.bound - |h|
  {
    var e := Execute(w, n, p, h);
    match p.step(h) {
      case Ask(d) =>
        var a := Lookup(w.cache, d);
        var rest := Execute(AfterRecall(w, n, d), n, p, h + [a]);
        assert e.answers[0] == a;
        assert forall i :: 0 <= i < |rest.answers| ==> e.answers[i + 1] == rest.answers[i];
        AllHitsEval(AfterRecall(w, n, d), n, p, source, h + [a]);
      case _ =>
    }
  }

  lemma {:induction false} NeverFailsRenders(w: World, n: Id, p: Program, h: seq<Option<Value>>)
    requires n in w.trk.notifiers && p.Finite() && NeverFails(p)
    ensures Execute(w, n, p, h).outcome.Rendered?
    decreases p.bound - |h|
  {
    match p.step(h) {
      case Ask(d) => NeverFailsRenders(AfterRecall(w, n, d), n, p, h + [Lookup(w.cache, d)]);
      case _ =>
    }
  }

  // --- the loop ---

  /** Between two of its runs other operations happen; a save may make the template dirty. */
  ghost function Meanwhile(s: Session, n: Id, ops: seq<Op>): Session
    decreases |ops|
  {
    if ops == [] then s
    else
      var op := ops[0];
      var told := op.Save? && n in NotifiersFor(s.world.trk.tracked, op.d);
      Meanwhile(Session(Apply(s.world, op), s.dirty || told, s.content), n, ops[1..])
  }

  /** The live views being polled whose first value has not arrived. */
  ghost function Outstanding(w: World): set<Id> {
    set d | d in w.trk.views && w.trk.views[d] in w.polled && d !in w.cache
  }

  /** Wait, once every outstanding poll has delivered. */
  ghost function AfterWait(s: Session, n: Id, source: Source): Session {
    var w, due := s.world, Outstanding(s.world);
    Session(w.(cache := map d | d in w.cache.Keys + due :: if d in w.cache then w.cache[d] else source(d)),
            s.dirty || exists d :: d in due && n in NotifiersFor(w.trk.tracked, d),
            s.content)
  }

  lemma {:induction false} DeliveriesFromSource(w: World, ds: seq<Delivery>, source: Source)
    requires FromSource(w, source) && forall d :: d in ds ==> d.data == source(d.view.id)
    ensures AfterDeliveries(w, ds) ==
            w.(cache := map d | d in w.cache.Keys + Brought(ds) :: if d in w.cache then w.cache[d] else source(d))
    decreases |ds|
  {
    if ds != [] {
      var n := |ds| - 1;
      DeliveriesFromSource(w, ds[..n], source);
      assert ds == ds[..n] + [ds[n]];
      BroughtNext(ds[..n], ds[n]);
    }
  }

  /** AfterWait is what the watcher's own Wait does when the outstanding views, in any order and
      any number of times, are what it reads from the data channel. */
  lemma WaitDelivers(s: Session, n: Id, source: Source, ds: seq<Delivery>)
    requires FromSource(s.world, source) && forall d :: d in ds ==> d.data == source(d.view.id)
    requires Brought(ds) == Outstanding(s.world)
    ensures AfterDeliveries(s.world, ds) == AfterWait(s, n, source).world
    ensures AfterWait(s, n, source).dirty <==> s.dirty || n in Hearers(s.world.trk.tracked, ds)
  {
    DeliveriesFromSource(s.world, ds, source);
    var tracked := s.world.trk.tracked;
    forall id | id in Brought(ds) && n in NotifiersFor(tracked, id) ensures n in Hearers(tracked, ds) {
      var d :| d in ds && d.view.id == id;
    }
  }

  /** Run until Complete, at most once more than there are intervals; also counts the runs. */
  ghost function Loop(s: Session, n: Id, p: Program, source: Source, intervals: seq<seq<Op>>): (Session, Event, nat)
    requires p.Finite()
    decreases |intervals|
  {
    var (after, event) := AfterRun(s, n, p);
    if event.complete || intervals == [] then (after, event, 1)
    else
      var next := AfterWait(Meanwhile(after, n, intervals[0]), n, source);
      var (last, final, runs) := Loop(next, n, p, source, intervals[1..]);
      (last, final, runs + 1)
  }

  /** `n` is owed `d`: it came and `n` knows, or it is still being polled. */
  ghost predicate Owed(s: Session, n: Id, d: Id) {
    && d in Deps(s.world.trk.tracked, n)
    && (d in s.world.cache ==> s.dirty)
    && (d !in s.world.cache ==> d in s.world.trk.views && s.world.trk.views[d] in s.world.polled)
  }

  ghost predicate Holds(s: Session, n: Id, ds: set<Id>) {
    ds <= Deps(s.world.trk.tracked, n) && ds <= s.world.cache.Keys
  }

  ghost predicate Ready(s: Session, n: Id, source: Source) {
    Sound(s.world) && n in s.world.trk.notifiers && FromSource(s.world, source)
  }

  lemma {:induction false} MeanwhileKeeps(s: Session, n: Id, source: Source, ops: seq<Op>, held: set<Id>, owed: set<Id>)
    decreases |ops|
    requires Ready(s, n, source) && forall op :: op in ops ==> Foreign(op, n, source)
    requires Holds(s, n, held) && forall d :: d in owed ==> Owed(s, n, d)
    ensures var u := Meanwhile(s, n, ops);
      Ready(u, n, source) && Holds(u, n, held) && forall d :: d in owed ==> Owed(u, n, d)
  {
    if ops != [] {
      var op := ops[0];
      var told := op.Save? && n in NotifiersFor(s.world.trk.tracked, op.d);
      var u := Session(Apply(s.world, op), s.dirty || told, s.content);
      ForeignStep(s.world, op, n, source);
      if op.Save? {
        NotifiersForMember(s.world.trk.tracked, op.d, n);
      }
      forall d | d in owed ensures Owed(u, n, d) {
        assert Owed(s, n, d);
        if d !in s.world.cache && d in u.world.cache {
          DeliveredOnlyBySave(s.world, op, d);
        }
      }
      MeanwhileKeeps(u, n, source, ops[1..], held, owed);
    }
  }

  lemma DeliveredOnlyBySave(w: World, op: Op, d: Id)
    requires Sound(w) && d !in w.cache && d in Apply(w, op).cache
    ensures op.Save? && op.d == d
  {
    if op.Deregister? {
      DeregisterEffect(w, op.gone);
    }
  }

  lemma AfterWaitKeeps(s: Session, n: Id, source: Source, held: set<Id>, owed: set<Id>)
    requires Ready(s, n, source) && Holds(s, n, held) && owed != {} && forall d :: d in owed ==> Owed(s, n, d)
    ensures var u := AfterWait(s, n, source);
      Ready(u, n, source) && Holds(u, n, held + owed) && u.dirty
  {
    var d :| d in owed;
    assert Owed(s, n, d);
    NotifiersForMember(s.world.trk.tracked, d, n);
    assert d !in s.world.cache ==> d in Outstanding(s.world);
  }

  /** A rendering run keeps what it asked for: cached values stay, misses are polled. */
  lemma RunKeepsAsked(s: Session, n: Id, p: Program)
    requires Sound(s.world) && n in s.world.trk.notifiers && p.Finite() && s.dirty
    requires RunExecution(s, n, p).outcome.Rendered?
    ensures var e := RunExecution(s, n, p); var u := AfterRun(s, n, p).0.world;
      && u.trk.notifiers == s.world.trk.notifiers
      && (forall d :: d in u.cache ==> d in s.world.cache && u.cache[d] == s.world.cache[d])
      && (forall d :: d in Asked(e) ==>
            && (d in s.world.cache ==> d in u.cache)
            && d in u.trk.views && (d !in s.world.cache ==> u.trk.views[d] in u.polled))
  {
    var w := s.world;
    var e := RunExecution(s, n, p);
    MarkEffect(w, n, {});
    ExecuteEffect(AfterMark(w, n), n, p, []);
    FreshExecution(s, n, p);
    SweepEffect(e.world, n, {});
    DepsNamed(AfterSweep(e.world, n).trk.tracked, n);
  }

  ghost predicate Yields(event: Event, outcome: Outcome) {
    outcome.Rendered? && event.contents == Some(outcome.content)
  }

  /** Complete never lies: the contents are then the pure evaluation on the source. */
  lemma CompleteRunYields(s: Session, n: Id, p: Program, source: Source)
    requires Ready(s, n, source) && s.dirty && p.Finite() && NeverFails(p)
    ensures RunExecution(s, n, p).outcome.Rendered? && Ready(AfterRun(s, n, p).0, n, source)
    ensures AfterRun(s, n, p).1.complete ==> Yields(AfterRun(s, n, p).1, Eval(p, source, []))
  {
    NeverFailsRenders(AfterMark(s.world, n), n, p, []);
    FreshRunExact(s, n, p);
    RunKeepsAsked(s, n, p);
    if AfterRun(s, n, p).1.complete {
      AllHitsEval(AfterMark(s.world, n), n, p, source, []);
    }
  }

  /** The first `j` recalls of the path are held, and the next one is held or owed. */
  ghost predicate Underway(s: Session, n: Id, path: seq<Id>, j: nat) {
    && j < |path|
    && Holds(s, n, Elements(path[..j]))
    && (Holds(s, n, {path[j]}) || Owed(s, n, path[j]))
    && exists d :: Owed(s, n, d) && d !in s.world.cache
  }

  lemma {:induction false} IncompleteRun(s: Session, n: Id, p: Program, source: Source, j: nat)
    requires Ready(s, n, source) && s.dirty && p.Finite() && NeverFails(p)
    requires j <= |Path(p, source, [])| && Holds(s, n, Elements(Path(p, source, [])[..j]))
    requires !AfterRun(s, n, p).1.complete
    ensures Underway(AfterRun(s, n, p).0, n, Path(p, source, []), j)
  {
    var after := AfterRun(s, n, p).0;
    MissOwed(s, n, p, source);
    FollowedSoFar(s, n, p, source, j);
    var miss :| miss in Asked(RunExecution(s, n, p)) && miss !in s.world.cache && Owed(after, n, miss)
      && miss !in after.world.cache;
    assert j < |Path(p, source, [])|;
    PathKept(s, n, p, source, j);
  }

  lemma PrefixElements(path: seq<Id>, j: nat)
    requires j < |path|
    ensures forall d :: d in path[..j + 1] <==> d in Elements(path[..j]) || d == path[j]
  {
    assert path[..j + 1] == path[..j] + [path[j]];
  }

  lemma HoldsAll(s: Session, n: Id, ds: set<Id>)
    requires forall d :: d in ds ==> Holds(s, n, {d})
    ensures Holds(s, n, ds)
  {
    forall d | d in ds ensures d in Deps(s.world.trk.tracked, n) && d in s.world.cache.Keys {
      assert Holds(s, n, {d}) && d in {d};
    }
  }

  /** The part of the path that was followed is held, and its next recall held or owed. */
  lemma {:induction false} PathKept(s: Session, n: Id, p: Program, source: Source, j: nat)
    requires Ready(s, n, source) && s.dirty && p.Finite() && NeverFails(p)
    requires j < |Path(p, source, [])| && Holds(s, n, Elements(Path(p, source, [])[..j]))
    ensures var path, after := Path(p, source, []), AfterRun(s, n, p).0;
      Holds(after, n, Elements(path[..j])) && (Holds(after, n, {path[j]}) || Owed(after, n, path[j]))
  {
    var path, after := Path(p, source, []), AfterRun(s, n, p).0;
    FollowedSoFar(s, n, p, source, j);
    AskedKept(s, n, p, source);
    PrefixElements(path, j);
    forall d | d in Elements(path[..j]) ensures Holds(after, n, {d}) {
      assert d in s.world.cache && d in Asked(RunExecution(s, n, p));
    }
    assert path[j] in Asked(RunExecution(s, n, p));
    HoldsAll(after, n, Elements(path[..j]));
  }

  /** Everything a rendering run asked for is then held or owed. */
  lemma AskedKept(s: Session, n: Id, p: Program, source: Source)
    requires Ready(s, n, source) && s.dirty && p.Finite() && NeverFails(p)
    ensures var after := AfterRun(s, n, p).0;
      forall d :: d in Asked(RunExecution(s, n, p)) ==>
        if d in s.world.cache then Holds(after, n, {d}) else Owed(after, n, d) && d !in after.world.cache
  {
    CompleteRunYields(s, n, p, source);
    FreshRunExact(s, n, p);
    RunKeepsAsked(s, n, p);
  }

  lemma MissOwed(s: Session, n: Id, p: Program, source: Source)
    requires Ready(s, n, source) && s.dirty && p.Finite() && NeverFails(p)
    requires !AfterRun(s, n, p).1.complete
    ensures var after := AfterRun(s, n, p).0;
      exists d :: d in Asked(RunExecution(s, n, p)) && d !in s.world.cache &&
        Owed(after, n, d) && d !in after.world.cache
  {
    var e := RunExecution(s, n, p);
    AskedKept(s, n, p, source);
    assert exists i :: 0 <= i < |e.answers| && e.answers[i].None? by {
      CompleteRunYields(s, n, p, source);
      FreshRunExact(s, n, p);
    }
    ExecuteAnswers(AfterMark(s.world, n), n, p, []);
    var i :| 0 <= i < |e.answers| && e.answers[i].None?;
    assert e.asked[i] in Asked(e);
  }

  lemma FollowedSoFar(s: Session, n: Id, p: Program, source: Source, j: nat)
    requires Ready(s, n, source) && p.Finite()
    requires j <= |Path(p, source, [])| && Holds(s, n, Elements(Path(p, source, [])[..j]))
    ensures var path, e := Path(p, source, []), RunExecution(s, n, p);
      && (j < |path| ==> forall d :: d in path[..j + 1] ==> d in Asked(e))
      && (j == |path| ==> Asked(e) <= s.world.cache.Keys)
  {
    var path, e := Path(p, source, []), RunExecution(s, n, p);
    forall i | 0 <= i < j ensures path[i] in s.world.cache {
      assert path[i] == path[..j][i];
    }
    FollowsPath(AfterMark(s.world, n), n, p, source, [], j);
  }

  /** One interval later the next recall of the path is answered too. */
  lemma {:induction false} Advances(s: Session, n: Id, source: Source, ops: seq<Op>, path: seq<Id>, j: nat)
    requires Ready(s, n, source) && Underway(s, n, path, j) && forall op :: op in ops ==> Foreign(op, n, source)
    ensures var u := AfterWait(Meanwhile(s, n, ops), n, source);
      Ready(u, n, source) && u.dirty && Holds(u, n, Elements(path[..j + 1]))
  {
    var miss :| Owed(s, n, miss) && miss !in s.world.cache;
    var have := Holds(s, n, {path[j]});
    var held := (Elements(path[..j])) + if have then {path[j]} else {};
    var owed := {miss} + if have then {} else {path[j]};
    MeanwhileKeeps(s, n, source, ops, held, owed);
    AfterWaitKeeps(Meanwhile(s, n, ops), n, source, held, owed);
    var u := AfterWait(Meanwhile(s, n, ops), n, source);
    PrefixElements(path, j);
    forall d | d in Elements(path[..j + 1]) ensures Holds(u, n, {d}) {
      assert d in held + owed;
    }
    HoldsAll(u, n, Elements(path[..j + 1]));
  }

  /** The template shows what the source holds, rests, and is paired with all its content depends on. */
  ghost predicate Current(s: Session, n: Id, p: Program, source: Source)
    requires p.Finite()
  {
    && Ready(s, n, source) && !s.dirty && Complete(s.world.trk.tracked, n)
    && Eval(p, source, []) == Rendered(s.content)
    && Elements(Path(p, source, [])) <= Deps(s.world.trk.tracked, n)
  }

  /** A render whose every recall hit has recalled the whole path. */
  lemma {:induction false} AllHitsPath(w: World, n: Id, p: Program, source: Source, h: seq<Option<Value>>)
    requires n in w.trk.notifiers && p.Finite() && FromSource(w, source)
    requires forall i :: 0 <= i < |Execute(w, n, p, h).answers| ==> Execute(w, n, p, h).answers[i].Some?
    ensures Execute(w, n, p, h).asked == Path(p, source, h)
    decreases p.bound - |h|
  {
    var e := Execute(w, n, p, h);
    match p.step(h) {
      case Ask(d) =>
        var a := Lookup(w.cache, d);
        var rest := Execute(AfterRecall(w, n, d), n, p, h + [a]);
        assert e.answers[0] == a;
        assert forall i :: 0 <= i < |rest.answers| ==> e.answers[i + 1] == rest.answers[i];
        AllHitsPath(AfterRecall(w, n, d), n, p, source, h + [a]);
      case _ =>
    }
  }

  lemma CompleteRunCurrent(s: Session, n: Id, p: Program, source: Source)
    requires Ready(s, n, source) && s.dirty && p.Finite() && NeverFails(p) && AfterRun(s, n, p).1.complete
    ensures Current(AfterRun(s, n, p).0, n, p, source)
  {
    CompleteRunYields(s, n, p, source);
    FreshRunExact(s, n, p);
    AllHitsPath(AfterMark(s.world, n), n, p, source, []);
  }

  /** With the first `j` recalls of the path already answered, the loop completes after
      at most `|path| - j + 1` runs, whatever others do in between. */
  lemma {:induction false} Converges(s: Session, n: Id, p: Program, source: Source, intervals: seq<seq<Op>>, j: nat)
    requires Ready(s, n, source) && s.dirty && p.Finite() && NeverFails(p)
    requires forall ops, op :: ops in intervals && op in ops ==> Foreign(op, n, source)
    requires j <= |Path(p, source, [])| && Holds(s, n, Elements(Path(p, source, [])[..j]))
    requires |intervals| >= |Path(p, source, [])| - j
    ensures var (last, event, runs) := Loop(s, n, p, source, intervals);
      && event.complete && Yields(event, Eval(p, source, [])) && Current(last, n, p, source)
      && runs <= |Path(p, source, [])| - j + 1
    decreases |intervals|
  {
    var path := Path(p, source, []);
    var (after, event) := AfterRun(s, n, p);
    CompleteRunYields(s, n, p, source);
    if event.complete {
      CompleteRunCurrent(s, n, p, source);
    } else {
      IncompleteRun(s, n, p, source, j);
      Advances(after, n, source, intervals[0], path, j);
      Converges(AfterWait(Meanwhile(after, n, intervals[0]), n, source), n, p, source, intervals[1..], j + 1);
    }
  }

  /** A newly registered template over a watcher in any sound state: k recalls on the
      source's path need at most k + 1 runs, and the result is the pure evaluation. */
  lemma {:induction false} RunWaitLoopConverges(s: Session, n: Id, p: Program, source: Source, intervals: seq<seq<Op>>)
    requires Sound(s.world) && n in s.world.trk.notifiers && FromSource(s.world, source)
    requires s.dirty && p.Finite() && NeverFails(p)
    requires forall ops, op :: ops in intervals && op in ops ==> Foreign(op, n, source)
    requires |intervals| >= |Path(p, source, [])|
    ensures var (last, event, runs) := Loop(s, n, p, source, intervals);
      && event.complete && Yields(event, Eval(p, source, [])) && Current(last, n, p, source)
      && runs <= |Path(p, source, [])| + 1
  {
    Converges(s, n, p, source, intervals, 0);
  }
}
