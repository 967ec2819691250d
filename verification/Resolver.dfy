// resolver.go and template.go (Execute): one Run of a template against the watcher.

module Resolving {
  import opened Storing
  import opened Templates
  import opened Tracking
  import opened TrackerFacts
  import opened Watching
  import opened Integrity

  datatype Outcome = Rendered(content: Content) | Failed | Panicked

  /** One execution of a template: what it asked for, what it got, how it ended. */
  datatype Execution = Execution(world: World, asked: seq<Id>, answers: seq<Option<Value>>, outcome: Outcome)

  function Extend(asked: seq<Id>, answers: seq<Option<Value>>, e: Execution): Execution {
    e.(asked := asked + e.asked, answers := answers + e.answers)
  }

  /** Executes the rest of `p` for notifier `n`, the answers so far being `h`. */
  ghost function Execute(w: World, n: Id, p: Program, h: seq<Option<Value>>): Execution
    requires p.Finite()
    decreases p.bound - |h|
  {
    match p.step(h)
    case Done(c) => Execution(w, [], [], Rendered(c))
    case Fail => Execution(w, [], [], Failed)
    case Ask(d) =>
      if TrackPanics(w, n, d) then
        Execution(AfterTrack(w, n, d), [], [], Panicked)
      else
        var a := Lookup(w.cache, d);
        Extend([d], [a], Execute(AfterRecall(w, n, d), n, p, h + [a]))
  }

  /** `contents` is None exactly when Run returns an error (or panics). */
  datatype Event = Event(complete: bool, contents: Option<Content>, noChange: bool)

  const ERROR_EVENT := Event(false, None, false)

  /** The template's own state goes with the watcher's. */
  datatype Session = Session(world: World, dirty: bool, content: Content)

  ghost function AfterRun(s: Session, n: Id, p: Program): (Session, Event)
    requires p.Finite()
  {
    var marked := AfterMark(s.world, n);
    if !s.dirty then
      (Session(marked, false, s.content), Event(Complete(marked.trk.tracked, n), Some(s.content), true))
    else
      var e := Execute(marked, n, p, []);
      match e.outcome
      case Rendered(c) =>
        var swept := AfterSweep(e.world, n);
        (Session(swept, false, c), Event(Complete(swept.trk.tracked, n), Some(c), false))
      case _ => (Session(e.world, false, s.content), ERROR_EVENT)
  }

  /** The template's text is executed, every recall going through the watcher. */
  method ExecuteTemplate(tmpl: Template, w: Watcher)
    returns (outcome: Outcome, ghost asked: seq<Id>, ghost answers: seq<Option<Value>>)
    requires w.Valid() && tmpl.program.Finite()
    modifies w`serial, w`entered, w`polled, w.tracker
    ensures w.Valid()
    ensures Execute(old(w.Now()), tmpl.id, tmpl.program, []) == Execution(w.Now(), asked, answers, outcome)
  {
    var h: seq<Option<Value>> := [];
    asked, answers := [], [];
    while tmpl.program.step(h).Ask?
      invariant w.Valid() && answers == h
      invariant Execute(old(w.Now()), tmpl.id, tmpl.program, []) ==
                Extend(asked, answers, Execute(w.Now(), tmpl.id, tmpl.program, h))
      decreases tmpl.program.bound - |h|
    {
      var d := tmpl.program.step(h).dep;
      ghost var rest := Execute(w.Now(), tmpl.id, tmpl.program, h);
      var panicked, found := w.Recall(tmpl, d);
      if panicked {
        outcome := Panicked;
        return;
      }
      h := h + [found];
      ghost var next := Execute(w.Now(), tmpl.id, tmpl.program, h);
      assert rest == Extend([d], [found], next);
      ExtendTwice(asked, [d], answers, [found], next);
      asked, answers := asked + [d], answers + [found];
    }
    outcome := match tmpl.program.step(h) case Done(c) => Rendered(c) case _ => Failed;
  }

  lemma ExtendTwice(as1: seq<Id>, as2: seq<Id>, an1: seq<Option<Value>>, an2: seq<Option<Value>>, e: Execution)
    ensures Extend(as1, an1, Extend(as2, an2, e)) == Extend(as1 + as2, an1 + an2, e)
  {
    assert as1 + (as2 + e.asked) == as1 + as2 + e.asked;
    assert an1 + (an2 + e.answers) == an1 + an2 + e.answers;
  }

  /** Run in the source: mark, execute, sweep unless there was an error, report. A
      template that is not dirty is not executed and reports its cached content,
      which the source treats as an error when deciding whether to sweep. */
  method Run(tmpl: Template, w: Watcher) returns (event: Event)
    requires w.Valid() && tmpl.program.Finite()
    modifies w, w.tracker, w.cache, tmpl
    ensures w.Valid()
    ensures (Session(w.Now(), tmpl.dirty, tmpl.content), event) ==
            AfterRun(old(Session(w.Now(), tmpl.dirty, tmpl.content)), tmpl.id, tmpl.program)
  {
    w.tracker.DoMarkForSweep(tmpl.id);
    var dirty := tmpl.IsDirty();
    if !dirty {
      var ok := w.tracker.IsComplete(tmpl.id);
      return Event(ok, Some(tmpl.content), true);
    }
    ghost var marked := w.Now();
    assert marked == AfterMark(old(w.Now()), tmpl.id);
    var outcome, asked, answers := ExecuteTemplate(tmpl, w);
    match outcome {
      case Rendered(c) =>
        tmpl.content := c;
        w.tracker.DoSweep(tmpl.id, w.cache);
        var ok := w.tracker.IsComplete(tmpl.id);
        return Event(ok, Some(c), false);
      case _ =>
        return ERROR_EVENT;
    }
  }

  // --- what an execution does to the relation ---

  ghost function Asked(e: Execution): set<Id> {
    set d | d in e.asked
  }

  /** From `w` to `u`, exactly the dependencies `ds` were recalled for `n`. */
  ghost predicate Advanced(w: World, u: World, n: Id, ds: set<Id>) {
    && u.cache == w.cache && u.trk.notifiers == w.trk.notifiers
    && Deps(u.trk.tracked, n) == Deps(w.trk.tracked, n) + ds
    && Marked(u.trk.tracked, n) == Marked(w.trk.tracked, n) + ds
    && Unread(u.trk.tracked, n) == Unread(w.trk.tracked, n) - ds * w.cache.Keys + (ds - w.cache.Keys)
    && Others(u.trk.tracked, n) == Others(w.trk.tracked, n)
    && w.polled <= u.polled
    && (forall d :: d in w.trk.views ==> d in u.trk.views && u.trk.views[d] == w.trk.views[d])
    && (forall d :: d in ds ==> d in u.trk.views && (d !in w.cache ==> u.trk.views[d] in u.polled))
  }

  lemma RecallAdvances(w: World, n: Id, d: Id)
    requires Sound(w) && n in w.trk.notifiers
    ensures Sound(AfterRecall(w, n, d)) && Advanced(w, AfterRecall(w, n, d), n, {d})
  {
    RecallEffect(w, n, d);
    UnreadByHit(Unread(w.trk.tracked, n), w.cache.Keys, d);
  }

  lemma UnreadByHit(unread: set<Id>, cached: set<Id>, d: Id)
    ensures unread - {d} * cached + ({d} - cached) == if d in cached then unread - {d} else unread + {d}
  {
  }

  lemma AdvancedTrans(w: World, v: World, u: World, n: Id, ds: set<Id>, es: set<Id>)
    requires Advanced(w, v, n, ds) && Advanced(v, u, n, es)
    ensures Advanced(w, u, n, ds + es)
  {
    assert (ds + es) * w.cache.Keys == ds * w.cache.Keys + es * w.cache.Keys;
    assert (ds + es) - w.cache.Keys == (ds - w.cache.Keys) + (es - w.cache.Keys);
    forall d | d in ds + es
      ensures d in u.trk.views && (d !in w.cache ==> u.trk.views[d] in u.polled)
    {
      if d in ds {
        assert d in v.trk.views;
      }
    }
  }

  lemma AskedExtend(d: Id, a: Option<Value>, e: Execution)
    ensures Asked(Extend([d], [a], e)) == {d} + Asked(e)
  {
  }

  lemma {:induction false} ExecuteEffect(w: World, n: Id, p: Program, h: seq<Option<Value>>)
    requires Sound(w) && n in w.trk.notifiers && p.Finite()
    ensures var e := Execute(w, n, p, h);
      Sound(e.world) && !e.outcome.Panicked? && Advanced(w, e.world, n, Asked(e))
    decreases p.bound - |h|
  {
    var e := Execute(w, n, p, h);
    match p.step(h) {
      case Ask(d) =>
        var v, h' := AfterRecall(w, n, d), h + [Lookup(w.cache, d)];
        RecallAdvances(w, n, d);
        ExecuteEffect(v, n, p, h');
        var rest := Execute(v, n, p, h');
        assert e == Extend([d], [Lookup(w.cache, d)], rest);
        AskedExtend(d, Lookup(w.cache, d), rest);
        AdvancedTrans(w, v, rest.world, n, {d}, Asked(rest));
      case _ =>
        assert Asked(e) == {};
    }
  }

  /** Every answer is what the cache of `w` holds. */
  ghost predicate AnsweredFrom(w: World, e: Execution) {
    |e.asked| == |e.answers| && forall i :: 0 <= i < |e.asked| ==> e.answers[i] == Lookup(w.cache, e.asked[i])
  }

  lemma AnswersExtend(w: World, d: Id, e: Execution)
    requires AnsweredFrom(w, e)
    ensures AnsweredFrom(w, Extend([d], [Lookup(w.cache, d)], e))
  {
  }

  /** Nothing an execution does changes the cache, so its answers are one snapshot. */
  lemma {:induction false} ExecuteAnswers(w: World, n: Id, p: Program, h: seq<Option<Value>>)
    requires p.Finite()
    ensures AnsweredFrom(w, Execute(w, n, p, h))
    decreases p.bound - |h|
  {
    match p.step(h) {
      case Ask(d) =>
        if !TrackPanics(w, n, d) {
          var v, h' := AfterRecall(w, n, d), h + [Lookup(w.cache, d)];
          assert v.cache == w.cache;
          ExecuteAnswers(v, n, p, h');
          AnswersExtend(w, d, Execute(v, n, p, h'));
        }
      case _ =>
    }
  }

  // --- a Run collects exactly, and reports exactly ---

  /** The execution that a Run of a dirty template makes. */
  ghost function RunExecution(s: Session, n: Id, p: Program): Execution
    requires p.Finite()
  {
    Execute(AfterMark(s.world, n), n, p, [])
  }

  lemma FreshExecution(s: Session, n: Id, p: Program)
    requires Sound(s.world) && n in s.world.trk.notifiers && p.Finite()
    ensures var w := s.world; var e := RunExecution(s, n, p); var t := e.world.trk.tracked;
      && Sound(e.world) && !e.outcome.Panicked? && e.world.cache == w.cache
      && Deps(t, n) == Deps(w.trk.tracked, n) + Asked(e)
      && Marked(t, n) == Asked(e)
      && Unread(t, n) * Asked(e) == Asked(e) - w.cache.Keys
      && Others(t, n) == Others(w.trk.tracked, n)
  {
    var w := s.world;
    var e := RunExecution(s, n, p);
    MarkEffect(w, n, {});
    ExecuteEffect(AfterMark(w, n), n, p, []);
  }

  lemma AllHits(w: World, e: Execution)
    requires AnsweredFrom(w, e)
    ensures Asked(e) <= w.cache.Keys <==> forall i :: 0 <= i < |e.answers| ==> e.answers[i].Some?
  {
    if forall i :: 0 <= i < |e.answers| ==> e.answers[i].Some? {
      forall d | d in Asked(e) ensures d in w.cache {
        var i :| 0 <= i < |e.asked| && e.asked[i] == d;
        assert e.answers[i].Some?;
      }
    } else {
      var i :| 0 <= i < |e.answers| && !e.answers[i].Some?;
      assert e.asked[i] in Asked(e);
    }
  }

  /** After a render, the template's pairs are exactly what that render recalled, the
      other notifiers' pairs are as they were, and Complete says that all recalls hit. */
  lemma FreshRunExact(s: Session, n: Id, p: Program)
    requires Sound(s.world) && n in s.world.trk.notifiers && p.Finite() && s.dirty
    requires RunExecution(s, n, p).outcome.Rendered?
    ensures var e := RunExecution(s, n, p); var (after, event) := AfterRun(s, n, p);
      && Sound(after.world)
      && Deps(after.world.trk.tracked, n) == Asked(e)
      && Others(after.world.trk.tracked, n) == Others(s.world.trk.tracked, n)
      && event.contents == Some(e.outcome.content) && !event.noChange
      && after.content == e.outcome.content && !after.dirty
      && (event.complete <==> forall i :: 0 <= i < |e.answers| ==> e.answers[i].Some?)
  {
    var e := RunExecution(s, n, p);
    var t := AfterRun(s, n, p).0.world.trk.tracked;
    FreshExecution(s, n, p);
    SweepEffect(e.world, n, {});
    ExecuteAnswers(AfterMark(s.world, n), n, p, []);
    AllHits(s.world, e);
    PairedDeps(t, n, "");
    assert Unread(t, n) == Asked(e) - s.world.cache.Keys;
  }

  /** A Run that finds no news, or whose render fails, removes no pair and stops no
      view. The failed one has nevertheless used up the dirty flag. */
  lemma OtherRunsRemoveNothing(s: Session, n: Id, p: Program)
    requires Sound(s.world) && n in s.world.trk.notifiers && p.Finite()
    requires s.dirty ==> RunExecution(s, n, p).outcome.Failed?
    ensures var (after, event) := AfterRun(s, n, p);
      && Sound(after.world) && !after.dirty && after.content == s.content
      && Deps(s.world.trk.tracked, n) <= Deps(after.world.trk.tracked, n)
      && Others(after.world.trk.tracked, n) == Others(s.world.trk.tracked, n)
      && after.world.stopped == s.world.stopped && after.world.cache == s.world.cache
      && (forall d :: d in s.world.trk.views ==> d in after.world.trk.views)
      && (s.dirty ==> event == ERROR_EVENT)
      && (!s.dirty ==> event == Event(Complete(s.world.trk.tracked, n), Some(s.content), true))
  {
    var w := s.world;
    MarkEffect(w, n, {});
    PairedDeps(w.trk.tracked, n, "");
    PairedDeps(AfterMark(w, n).trk.tracked, n, "");
    if s.dirty {
      FreshExecution(s, n, p);
      ExecuteEffect(AfterMark(w, n), n, p, []);
      ExecuteStopsNothing(AfterMark(w, n), n, p, []);
    }
  }

  lemma {:induction false} ExecuteStopsNothing(w: World, n: Id, p: Program, h: seq<Option<Value>>)
    requires p.Finite()
    ensures Execute(w, n, p, h).world.stopped == w.stopped
    decreases p.bound - |h|
  {
    match p.step(h) {
      case Ask(d) =>
        if !TrackPanics(w, n, d) {
          ExecuteStopsNothing(AfterRecall(w, n, d), n, p, h + [Lookup(w.cache, d)]);
        }
      case _ =>
    }
  }

  // --- many runs of one template ---

  /** What happens to a template: it is run, or others change the watcher and may notify it. */
  datatype Beat = Running | Elsewhere(world: World, notified: bool)

  ghost function Play(s: Session, n: Id, p: Program, beats: seq<Beat>): (Session, seq<Event>)
    requires p.Finite()
    decreases |beats|
  {
    if beats == [] then (s, [])
    else
      var (t, events) := Play(s, n, p, beats[..|beats| - 1]);
      match beats[|beats| - 1]
      case Running => var (u, event) := AfterRun(t, n, p); (u, events + [event])
      case Elsewhere(world, notified) => (Session(world, t.dirty || notified, t.content), events)
  }

  /** The contents of the last run that rendered; `before` if none did. */
  function LastRendered(events: seq<Event>, before: Content): Content
    decreases |events|
  {
    if events == [] then before
    else
      var e := events[|events| - 1];
      if e.contents.Some? && !e.noChange then e.contents.value
      else LastRendered(events[..|events| - 1], before)
  }

  /** Whether a notification came since the last run. */
  predicate NotifiedSince(beats: seq<Beat>, before: bool)
    decreases |beats|
  {
    if beats == [] then before
    else match beats[|beats| - 1]
      case Running => false
      case Elsewhere(_, notified) => notified || NotifiedSince(beats[..|beats| - 1], before)
  }

  /** A run takes the flag, whatever becomes of it, and only a notification sets it again. */
  lemma {:induction false} FlagIs(s: Session, n: Id, p: Program, beats: seq<Beat>)
    requires p.Finite()
    ensures Play(s, n, p, beats).0.dirty <==> NotifiedSince(beats, s.dirty)
    decreases |beats|
  {
    if beats != [] {
      FlagIs(s, n, p, beats[..|beats| - 1]);
    }
  }

  /** However many runs found no news or failed since, the template keeps what it last rendered. */
  lemma {:induction false} KeepsLastRendered(s: Session, n: Id, p: Program, beats: seq<Beat>)
    requires p.Finite()
    ensures var (t, events) := Play(s, n, p, beats); t.content == LastRendered(events, s.content)
    decreases |beats|
  {
    if beats != [] {
      var init := beats[..|beats| - 1];
      KeepsLastRendered(s, n, p, init);
      var (t, events) := Play(s, n, p, init);
      if beats[|beats| - 1].Running? {
        var event := AfterRun(t, n, p).1;
        assert (events + [event])[..|events|] == events;
      }
    }
  }

  /** Any run of a template, after any history: it reports no change exactly if it was not notified
      since the run before, and then repeats the contents of the last run that rendered. */
  lemma NoChangeRepeats(s: Session, n: Id, p: Program, beats: seq<Beat>)
    requires p.Finite()
    ensures var (t, events) := Play(s, n, p, beats); var (after, event) := AfterRun(t, n, p);
      && (event.noChange <==> !NotifiedSince(beats, s.dirty))
      && (event.noChange ==> event.contents == Some(LastRendered(events, s.content)))
      && after.content == LastRendered(events + [event], s.content)
      && !after.dirty
  {
    FlagIs(s, n, p, beats);
    KeepsLastRendered(s, n, p, beats);
    var more := beats + [Running];
    assert more[..|beats|] == beats;
    FlagIs(s, n, p, more);
    KeepsLastRendered(s, n, p, more);
  }
}
