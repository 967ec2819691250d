// No update is lost when renders and data arrivals interleave: one resolver thread per
// template and one waiter, each step being what the source does under one lock
// (watcher.go 271-280, 374-435 and 571-763, template.go 148-205, resolver.go 60-92).

module Updates {
  import opened Storing
  import opened Tracking
  import opened TrackerFacts

  /** The version of a cached value; 0 stands for not cached. */
  type Version = nat

  /** Where a resolver thread is. `got` are the dependencies recalled so far in the
      current execution, each with the oldest version it was answered with. */
  datatype Thread =
    | Idle
    | Begun                                   // after MarkForSweep
    | Executing(got: map<Id, Version>)        // the dirty flag has been taken
    | Marking(got: map<Id, Version>, d: Id)   // after markInUse
    | Creating(got: map<Id, Version>, d: Id)  // after a lookup that found no pair
    | Tracked(got: map<Id, Version>, d: Id)   // the pair exists
    | Read(got: map<Id, Version>, d: Id, hit: bool)  // after the cache was read
    | Rendered(got: map<Id, Version>)         // the content is stored
    | Finishing                               // all that is left is to report

  datatype Waiter =
    | Waiting
    | Took(d: Id)               // holds a delivered view
    | Saved(d: Id)              // between cache.Save and notifiersFor
    | Telling(rest: seq<Id>)    // calling Notify on each

  datatype Sys = Sys(
    trk: State,
    cached: map<Id, Version>,
    clock: nat,
    dirty: set<Id>,
    threads: map<Id, Thread>,
    waiter: Waiter,
    // what the last successful render of each template was made from
    shown: map<Id, map<Id, Version>>,
    // templates whose last execution failed
    spoiled: set<Id>)

  /** The steps of a resolver thread. */
  datatype Move =
    | Begin | Check | Ask(d: Id) | Look | Add | Recall | Account | Succeed | Fail | Collect | Finish

  datatype Act =
    | Resolve(n: Id, move: Move)
    | Take(d: Id) | Save | Lookup | Tell | Rest

  ghost function Ver(s: Sys, d: Id): Version {
    if d in s.cached then s.cached[d] else 0
  }

  ghost function At(s: Sys, n: Id): Thread {
    if n in s.threads then s.threads[n] else Idle
  }

  ghost predicate CanMove(t: Thread, move: Move) {
    match move
    case Begin => t.Idle?
    case Check => t.Begun?
    case Ask(_) => t.Executing?
    case Look => t.Marking?
    case Add => t.Creating?
    case Recall => t.Tracked?
    case Account => t.Read?
    case Succeed => t.Executing?
    case Fail => t.Executing?
    case Collect => t.Rendered?
    case Finish => t.Finishing?
  }

  ghost predicate Enabled(s: Sys, a: Act) {
    match a
    case Take(_) => s.waiter.Waiting?
    case Save => s.waiter.Took?
    case Lookup => s.waiter.Saved?
    case Tell => s.waiter.Telling? && s.waiter.rest != []
    case Rest => s.waiter == Telling([])
    case Resolve(n, move) => n in s.threads && CanMove(s.threads[n], move)
  }

  ghost function MoveOn(s: Sys, n: Id, move: Move): Sys
    requires CanMove(At(s, n), move)
  {
    var t := At(s, n);
    match move
    case Begin =>
      s.(trk := s.trk.(tracked := MarkForSweep(s.trk.tracked, n)), threads := s.threads[n := Begun])
    case Check =>
      if n in s.dirty then s.(dirty := s.dirty - {n}, threads := s.threads[n := Executing(map[])])
      else s.(threads := s.threads[n := Finishing])
    case Ask(d) =>
      s.(trk := s.trk.(tracked := MarkInUse(s.trk.tracked, n, d)), threads := s.threads[n := Marking(t.got, d)])
    case Look =>
      s.(threads := s.threads[n := if Paired(s.trk.tracked, n, t.d) then Tracked(t.got, t.d) else Creating(t.got, t.d)])
    case Add =>
      s.(trk := s.trk.(tracked := s.trk.tracked + [Pair(t.d, n, true, false)],
                       views := if t.d in s.trk.views then s.trk.views else s.trk.views[t.d := View(t.d, s.clock)]),
         clock := s.clock + 1,
         threads := s.threads[n := Tracked(t.got, t.d)])
    case Recall =>
      var got := if t.d in t.got then t.got else t.got[t.d := Ver(s, t.d)];
      s.(threads := s.threads[n := Read(got, t.d, Ver(s, t.d) != 0)])
    case Account =>
      s.(trk := s.trk.(tracked := if t.hit then CacheAccessed(s.trk.tracked, n, t.d) else s.trk.tracked),
         threads := s.threads[n := Executing(t.got)])
    case Succeed =>
      s.(shown := s.shown[n := t.got], spoiled := s.spoiled - {n}, threads := s.threads[n := Rendered(t.got)])
    case Fail =>
      s.(spoiled := s.spoiled + {n}, threads := s.threads[n := Finishing])
    case Collect =>
      s.(trk := Sweep(s.trk, n), cached := s.cached - Swept(s.trk, n), threads := s.threads[n := Finishing])
    case Finish =>
      s.(threads := s.threads[n := Idle])
  }

  ghost function Do(s: Sys, a: Act): Sys
    requires Enabled(s, a)
  {
    match a
    case Resolve(n, move) => MoveOn(s, n, move)
    case Take(d) =>
      s.(waiter := Took(d))
    case Save =>
      s.(cached := s.cached[s.waiter.d := s.clock + 1], clock := s.clock + 1, waiter := Saved(s.waiter.d))
    case Lookup =>
      s.(waiter := Telling(NotifiersFor(s.trk.tracked, s.waiter.d)))
    case Tell =>
      s.(dirty := s.dirty + {s.waiter.rest[0]}, waiter := Telling(s.waiter.rest[1..]))
    case Rest =>
      s.(waiter := Waiting)
  }

  /** Registered templates, primed to run, and nothing else. */
  ghost predicate Initial(s: Sys) {
    && s.trk.tracked == [] && s.cached == map[] && s.shown == map[] && s.spoiled == {} && s.waiter.Waiting?
    && forall n :: n in s.threads ==> s.threads[n].Idle?
  }

  ghost predicate Behavior(run: seq<Sys>, acts: seq<Act>) {
    && |run| == |acts| + 1
    && Initial(run[0])
    && forall i :: 0 <= i < |acts| ==> Enabled(run[i], acts[i]) && run[i + 1] == Do(run[i], acts[i])
  }

  // --- what is claimed ---

  /** News about `d` is on its way to `n`, or has reached it. */
  ghost predicate Signalled(s: Sys, n: Id, d: Id) {
    || n in s.dirty
    || s.waiter == Saved(d)
    || (s.waiter.Telling? && n in s.waiter.rest)
  }

  ghost predicate UpToDate(s: Sys, n: Id, d: Id, v: Version) {
    Ver(s, d) == v || Signalled(s, n, d)
  }

  /** The thread has taken the dirty flag and has neither rendered nor failed yet. */
  ghost predicate InProgress(t: Thread) {
    t.Executing? || t.Marking? || t.Creating? || t.Tracked? || t.Read?
  }

  /** Whatever the last successful render of `n` was made from is still tracked, and is
      still what the cache holds, unless `n` is about to learn better. */
  ghost predicate NothingLost(s: Sys, n: Id) {
    n in s.shown ==>
      && s.shown[n].Keys <= Deps(s.trk.tracked, n)
      && forall d :: d in s.shown[n] ==>
        UpToDate(s, n, d, s.shown[n][d]) || InProgress(At(s, n)) || n in s.spoiled
  }

  // --- why it holds ---

  /** The same for the execution under way, where it rests on two orders: the pair is
      there before the cache is read, and the flag is taken before either. */
  ghost predicate Keeping(s: Sys, n: Id, got: map<Id, Version>) {
    && got.Keys <= Marked(s.trk.tracked, n)
    && forall d :: d in got ==> UpToDate(s, n, d, got[d])
  }

  ghost predicate InStep(s: Sys, n: Id) {
    match At(s, n)
    case Executing(got) => Keeping(s, n, got)
    case Marking(got, d) => Keeping(s, n, got) && (d in Deps(s.trk.tracked, n) ==> d in Marked(s.trk.tracked, n))
    case Creating(got, d) => Keeping(s, n, got) && d !in Deps(s.trk.tracked, n)
    case Tracked(got, d) => Keeping(s, n, got) && d in Marked(s.trk.tracked, n)
    case Read(got, d, _) => Keeping(s, n, got) && d in Marked(s.trk.tracked, n)
    case Rendered(got) => n in s.shown && s.shown[n] == got && got.Keys <= Marked(s.trk.tracked, n)
    case _ => true
  }

  ghost predicate Inv(s: Sys) {
    s.shown.Keys <= s.threads.Keys && forall n :: n in s.threads ==> NothingLost(s, n) && InStep(s, n)
  }

  lemma MarkedDeps(t: seq<Pair>, n: Id)
    ensures Marked(t, n) <= Deps(t, n) <= Named(t)
  {
  }

  /** A step that leaves `n`'s thread, render and pairs as they were, and forgets no
      version and no signal of a dependency of `n`, keeps what was claimed of `n`. */
  lemma Unconcerned(s: Sys, u: Sys, n: Id)
    requires n in s.threads && NothingLost(s, n) && InStep(s, n)
    requires n in u.threads && u.threads[n] == s.threads[n]
    requires (n in u.shown <==> n in s.shown) && (n in s.shown ==> u.shown[n] == s.shown[n])
    requires n in s.spoiled <==> n in u.spoiled
    requires Deps(u.trk.tracked, n) == Deps(s.trk.tracked, n) && Marked(u.trk.tracked, n) == Marked(s.trk.tracked, n)
    requires forall d, v :: d in Deps(s.trk.tracked, n) && UpToDate(s, n, d, v) ==> UpToDate(u, n, d, v)
    ensures NothingLost(u, n) && InStep(u, n)
  {
    MarkedDeps(s.trk.tracked, n);
  }

  lemma SaveStep(s: Sys, n: Id)
    requires Inv(s) && Enabled(s, Save) && n in s.threads
    ensures NothingLost(Do(s, Save), n) && InStep(Do(s, Save), n)
  {
    var u := Do(s, Save);
    forall d, v | d in Deps(s.trk.tracked, n) && UpToDate(s, n, d, v)
      ensures UpToDate(u, n, d, v)
    {
      assert d != s.waiter.d ==> Ver(u, d) == Ver(s, d);
    }
    Unconcerned(s, u, n);
  }

  /** notifiersFor finds every template paired with the saved dependency. */
  lemma LookupStep(s: Sys, n: Id)
    requires Inv(s) && Enabled(s, Lookup) && n in s.threads
    ensures NothingLost(Do(s, Lookup), n) && InStep(Do(s, Lookup), n)
  {
    var u := Do(s, Lookup);
    NotifiersForMember(s.trk.tracked, s.waiter.d, n);
    assert forall d :: Ver(u, d) == Ver(s, d);
    Unconcerned(s, u, n);
  }

  lemma WaiterStep(s: Sys, a: Act, n: Id)
    requires Inv(s) && Enabled(s, a) && (a.Take? || a.Tell? || a.Rest?) && n in s.threads
    ensures NothingLost(Do(s, a), n) && InStep(Do(s, a), n)
  {
    var u := Do(s, a);
    assert forall d :: Ver(u, d) == Ver(s, d);
    if a.Tell? {
      assert s.waiter.rest == [s.waiter.rest[0]] + s.waiter.rest[1..];
    }
    Unconcerned(s, u, n);
  }

  /** A move for one template seen by another. */
  lemma OtherMove(s: Sys, n: Id, move: Move, m: Id)
    requires Inv(s) && n in s.threads && CanMove(At(s, n), move) && m in s.threads && n != m
    ensures NothingLost(MoveOn(s, n, move), m) && InStep(MoveOn(s, n, move), m)
  {
    var u := MoveOn(s, n, move);
    MovePairs(s, n, move);
    OthersDecide(u.trk.tracked, s.trk.tracked, n, m);
    forall d, v | d in Deps(s.trk.tracked, m) && UpToDate(s, m, d, v)
      ensures UpToDate(u, m, d, v)
    {
      MoveSpares(s, n, move, m, d);
    }
    OtherFrame(s, n, move, m);
    Unconcerned(s, u, m);
  }

  lemma OtherFrame(s: Sys, n: Id, move: Move, m: Id)
    requires CanMove(At(s, n), move) && m in s.threads && n != m
    ensures var u := MoveOn(s, n, move);
      && m in u.threads && u.threads[m] == s.threads[m]
      && (m in u.shown <==> m in s.shown) && (m in s.shown ==> u.shown[m] == s.shown[m])
      && (m in s.spoiled <==> m in u.spoiled)
  {
  }

  lemma MovePairs(s: Sys, n: Id, move: Move)
    requires CanMove(At(s, n), move)
    ensures Others(MoveOn(s, n, move).trk.tracked, n) == Others(s.trk.tracked, n)
  {
    var t := s.trk.tracked;
    match move
    case Begin => MarkForSweepFacts(t, n); ReflaggedFacts(t, MarkForSweep(t, n), n);
    case Ask(d) => MarkInUseFacts(t, n, d); ReflaggedFacts(t, MarkInUse(t, n, d), n);
    case Add => OthersAppend(t, Pair(At(s, n).d, n, true, false), n);
    case Account =>
      CacheAccessedFacts(t, n, At(s, n).d);
      ReflaggedFacts(t, CacheAccessed(t, n, At(s, n).d), n);
    case Collect => OthersKeep(t, n);
    case _ =>
  }

  /** A sweep evicts nothing that any template is left paired with. */
  lemma MoveSpares(s: Sys, n: Id, move: Move, m: Id, d: Id)
    requires CanMove(At(s, n), move) && d in Deps(MoveOn(s, n, move).trk.tracked, m)
    ensures Ver(MoveOn(s, n, move), d) == Ver(s, d)
  {
    if move.Collect? {
      MarkedDeps(Keep(s.trk.tracked, n), m);
      assert d in Used(Keep(s.trk.tracked, n));
    }
  }

  /** While the execution goes on: recalls are tracked before they are read. */
  lemma OwnRecall(s: Sys, n: Id, move: Move)
    requires Inv(s) && n in s.threads && CanMove(At(s, n), move)
    requires move.Ask? || move.Look? || move.Add? || move.Recall? || move.Account?
    ensures NothingLost(MoveOn(s, n, move), n) && InStep(MoveOn(s, n, move), n)
  {
    var t, u := s.trk.tracked, MoveOn(s, n, move);
    assert InStep(s, n) && NothingLost(s, n);
    assert forall e :: Ver(u, e) == Ver(s, e);
    assert forall e, v :: UpToDate(s, n, e, v) ==> UpToDate(u, n, e, v);
    match move
    case Ask(d) =>
      MarkInUseFacts(t, n, d);
      ReflaggedFacts(t, MarkInUse(t, n, d), n);
    case Look => PairedDeps(t, n, At(s, n).d);
      MarkedDeps(t, n);
    case Add => AppendFacts(t, n, At(s, n).d);
    case Account =>
      CacheAccessedFacts(t, n, At(s, n).d);
      ReflaggedFacts(t, CacheAccessed(t, n, At(s, n).d), n);
    case _ =>
  }

  lemma OwnCollect(s: Sys, n: Id)
    requires Inv(s) && n in s.threads && CanMove(At(s, n), Collect)
    ensures NothingLost(MoveOn(s, n, Collect), n) && InStep(MoveOn(s, n, Collect), n)
  {
    var u := MoveOn(s, n, Collect);
    assert InStep(s, n) && NothingLost(s, n);
    KeepMembers(s.trk.tracked, n);
    assert Marked(s.trk.tracked, n) <= Deps(u.trk.tracked, n);
    forall d | d in s.shown[n] ensures Ver(u, d) == Ver(s, d) {
      MoveSpares(s, n, Collect, n, d);
    }
  }

  lemma OwnBegin(s: Sys, n: Id)
    requires Inv(s) && n in s.threads && CanMove(At(s, n), Begin)
    ensures NothingLost(MoveOn(s, n, Begin), n) && InStep(MoveOn(s, n, Begin), n)
  {
    var t, u := s.trk.tracked, MoveOn(s, n, Begin);
    assert NothingLost(s, n);
    assert Deps(u.trk.tracked, n) == Deps(t, n) by {
      MarkForSweepFacts(t, n);
      ReflaggedFacts(t, MarkForSweep(t, n), n);
    }
    assert forall d, v :: UpToDate(s, n, d, v) ==> UpToDate(u, n, d, v);
  }

  lemma OwnEnd(s: Sys, n: Id, move: Move)
    requires Inv(s) && n in s.threads && CanMove(At(s, n), move)
    requires move.Check? || move.Succeed? || move.Fail? || move.Finish?
    ensures NothingLost(MoveOn(s, n, move), n) && InStep(MoveOn(s, n, move), n)
  {
    var t, u := s.trk.tracked, MoveOn(s, n, move);
    assert InStep(s, n) && NothingLost(s, n);
    assert u.trk == s.trk;
    assert forall d :: Ver(u, d) == Ver(s, d);
    if move.Succeed? {
      MarkedDeps(t, n);
    }
  }

  lemma OwnMove(s: Sys, n: Id, move: Move)
    requires Inv(s) && n in s.threads && CanMove(At(s, n), move)
    ensures NothingLost(MoveOn(s, n, move), n) && InStep(MoveOn(s, n, move), n)
  {
    if move.Collect? {
      OwnCollect(s, n);
    } else if move.Begin? {
      OwnBegin(s, n);
    } else if move.Check? || move.Succeed? || move.Fail? || move.Finish? {
      OwnEnd(s, n, move);
    } else {
      OwnRecall(s, n, move);
    }
  }

  lemma ActStep(s: Sys, a: Act, n: Id)
    requires Inv(s) && Enabled(s, a) && n in s.threads
    ensures NothingLost(Do(s, a), n) && InStep(Do(s, a), n)
  {
    if a.Save? {
      SaveStep(s, n);
    } else if a.Lookup? {
      LookupStep(s, n);
    } else if !a.Resolve? {
      WaiterStep(s, a, n);
    } else if a.n == n {
      OwnMove(s, n, a.move);
    } else {
      OtherMove(s, a.n, a.move, n);
    }
  }

  lemma ActKeepsThreads(s: Sys, a: Act)
    requires Inv(s) && Enabled(s, a)
    ensures Do(s, a).threads.Keys == s.threads.Keys && Do(s, a).shown.Keys <= s.threads.Keys
  {
  }

  lemma {:induction false} InvStep(s: Sys, a: Act)
    requires Inv(s) && Enabled(s, a)
    ensures Inv(Do(s, a))
  {
    ActKeepsThreads(s, a);
    forall n | n in s.threads
      ensures NothingLost(Do(s, a), n) && InStep(Do(s, a), n)
    {
      ActStep(s, a, n);
    }
  }

  lemma {:induction false} InvHolds(run: seq<Sys>, acts: seq<Act>)
    requires Behavior(run, acts)
    ensures Inv(run[|acts|])
    decreases |acts|
  {
    if acts != [] {
      var k := |acts| - 1;
      InvHolds(run[..k + 1], acts[..k]);
      InvStep(run[k], acts[k]);
    }
  }

  /** The last execution of `n` to end was one that failed. */
  ghost predicate FailedLast(acts: seq<Act>, n: Id) {
    exists i :: 0 <= i < |acts| && acts[i] == Resolve(n, Fail) &&
      forall j :: i < j < |acts| ==> acts[j] != Resolve(n, Succeed)
  }

  lemma FailedLastStep(acts: seq<Act>, a: Act, n: Id)
    ensures FailedLast(acts + [a], n) <==>
            a == Resolve(n, Fail) || (a != Resolve(n, Succeed) && FailedLast(acts, n))
  {
    var more := acts + [a];
    if a == Resolve(n, Fail) {
      assert more[|acts|] == a;
    } else if a != Resolve(n, Succeed) && FailedLast(acts, n) {
      var i :| 0 <= i < |acts| && acts[i] == Resolve(n, Fail) &&
        forall j :: i < j < |acts| ==> acts[j] != Resolve(n, Succeed);
      assert more[i] == Resolve(n, Fail);
    } else if FailedLast(more, n) {
      var i :| 0 <= i < |more| && more[i] == Resolve(n, Fail) &&
        forall j :: i < j < |more| ==> more[j] != Resolve(n, Succeed);
      assert more[|acts|] == a;
      assert i < |acts| && acts[i] == Resolve(n, Fail);
      forall j | i < j < |acts| ensures acts[j] != Resolve(n, Succeed) {
        assert more[j] == acts[j];
      }
    }
  }

  lemma SpoiledStep(s: Sys, a: Act, n: Id)
    requires Enabled(s, a)
    ensures n in Do(s, a).spoiled <==> a == Resolve(n, Fail) || (a != Resolve(n, Succeed) && n in s.spoiled)
  {
  }

  /** Which templates are spoiled can be told from the steps taken. */
  lemma {:induction false} SpoiledIff(run: seq<Sys>, acts: seq<Act>, n: Id)
    requires Behavior(run, acts)
    ensures n in run[|acts|].spoiled <==> FailedLast(acts, n)
    decreases |acts|
  {
    if acts != [] {
      var k := |acts| - 1;
      SpoiledIff(run[..k + 1], acts[..k], n);
      assert run[..k + 1][k] == run[k];
      SpoiledStep(run[k], acts[k], n);
      FailedLastStep(acts[..k], acts[k], n);
      assert acts == acts[..k] + [acts[k]];
    }
  }

  /** In every state of every interleaving, unless the last execution of `n` to end failed: a value
      other than the one `n` last rendered is being signalled or being rendered. */
  lemma NoLostUpdate(run: seq<Sys>, acts: seq<Act>, n: Id)
    requires Behavior(run, acts) && n in run[|acts|].shown && !FailedLast(acts, n)
    ensures var s := run[|acts|];
      && s.shown[n].Keys <= Deps(s.trk.tracked, n)
      && forall d :: d in s.shown[n] && Ver(s, d) != s.shown[n][d] ==> Signalled(s, n, d) || InProgress(At(s, n))
  {
    InvHolds(run, acts);
    SpoiledIff(run, acts, n);
  }

  /** In particular in every run in which no execution of `n` fails. */
  lemma NoLostUpdateWithoutFailure(run: seq<Sys>, acts: seq<Act>, n: Id)
    requires Behavior(run, acts) && n in run[|acts|].shown && Resolve(n, Fail) !in acts
    ensures var s := run[|acts|];
      && s.shown[n].Keys <= Deps(s.trk.tracked, n)
      && forall d :: d in s.shown[n] && Ver(s, d) != s.shown[n][d] ==> Signalled(s, n, d) || InProgress(At(s, n))
  {
    assert !FailedLast(acts, n);
    NoLostUpdate(run, acts, n);
  }

  /** Once a template and the waiter are at rest, the flag is down and the last execution
      did not fail, the last render shows exactly what the cache holds. */
  lemma QuietMeansCurrent(run: seq<Sys>, acts: seq<Act>, n: Id)
    requires Behavior(run, acts)
    requires var s := run[|acts|];
      && n in s.shown && s.waiter.Waiting? && At(s, n).Idle?
      && n !in s.dirty && !FailedLast(acts, n)
    ensures var s := run[|acts|]; forall d :: d in s.shown[n] ==> Ver(s, d) == s.shown[n][d]
  {
    InvHolds(run, acts);
    SpoiledIff(run, acts, n);
  }

  /** Failing is what loses an update: the flag is gone and the old content stays. */
  lemma FailLosesTheFlag(s: Sys, n: Id, d: Id)
    requires n in s.threads && s.threads[n].Begun? && n in s.dirty && s.waiter.Waiting?
    requires n in s.shown && d in s.shown[n] && Ver(s, d) != s.shown[n][d]
    ensures Enabled(s, Resolve(n, Check)) && Enabled(Do(s, Resolve(n, Check)), Resolve(n, Fail))
    ensures var u := Do(Do(s, Resolve(n, Check)), Resolve(n, Fail));
      !Signalled(u, n, d) && !InProgress(At(u, n)) && Ver(u, d) != u.shown[n][d] && n in u.spoiled
  {
  }
}
