// buffer_period.go, lines 126-135 and 176-250: one timer's ticks, resets and waiting
// goroutines interleaved. Ticks and resets exclude each other (timers.mux); each step is
// what happens under one hold of timer.mux, or between two.

module Triggers {

  datatype Stage =
    | Selecting   // waits for its context or the timer
    | Got         // has taken the timer's value, not yet the lock
    | Fired       // has sent the id
    | Returned    // saw its context cancelled

  datatype Goroutine = Goroutine(stage: Stage, cancelled: bool)

  datatype Ticker =
    | Quiet
    | Entered       // before active()
    | SawActive     // before activeTick takes the lock
    | SawInactive   // before inactiveTick takes the lock
    | Activated     // before inactiveTick starts its goroutine

  datatype Sys = Sys(
    isActive: bool,
    waiting: seq<Goroutine>,   // every goroutine ever started, in order
    ticker: Ticker,
    sent: nat,                 // ids sent
    activations: nat,          // inactive-to-active transitions
    sentBefore: nat)           // ids sent when the latest tick began

  const START := Sys(false, [], Quiet, 0, 0, 0)

  datatype Act =
    | Tick | ReadFlag | Snooze | Activate | Spawn
    | Expire(i: nat) | Fire(i: nat) | SeeCancelled(i: nat)
    | Reset

  ghost predicate Enabled(s: Sys, a: Act) {
    match a
    case Tick => s.ticker.Quiet?
    case ReadFlag => s.ticker.Entered?
    case Snooze => s.ticker.SawActive?
    case Activate => s.ticker.SawInactive?
    case Spawn => s.ticker.Activated?
    // the timer may go off at any time; the value of an earlier arming may still be there
    case Expire(i) => i < |s.waiting| && s.waiting[i].stage.Selecting?
    case Fire(i) => i < |s.waiting| && s.waiting[i].stage.Got?
    case SeeCancelled(i) => i < |s.waiting| && s.waiting[i] == Goroutine(Selecting, true)
    case Reset => s.ticker.Quiet?
  }

  function Put(w: seq<Goroutine>, i: nat, stage: Stage): seq<Goroutine>
    requires i < |w|
  {
    w[i := w[i].(stage := stage)]
  }

  ghost function Do(s: Sys, a: Act): Sys
    requires Enabled(s, a)
  {
    match a
    case Tick => s.(ticker := Entered, sentBefore := s.sent)
    case ReadFlag => s.(ticker := if s.isActive then SawActive else SawInactive)
    // re-arms the timer or does nothing; either way the flag stays as it is
    case Snooze => s.(ticker := Quiet)
    case Activate => s.(ticker := Activated, isActive := true, activations := s.activations + 1)
    case Spawn => s.(ticker := Quiet, waiting := s.waiting + [Goroutine(Selecting, false)])
    case Expire(i) => s.(waiting := Put(s.waiting, i, Got))
    case Fire(i) => s.(waiting := Put(s.waiting, i, Fired), sent := s.sent + 1, isActive := false)
    case SeeCancelled(i) => s.(waiting := Put(s.waiting, i, Returned))
    case Reset =>
      if !s.isActive || s.waiting == [] then s
      else
        var last := |s.waiting| - 1;
        s.(isActive := false, waiting := s.waiting[last := s.waiting[last].(cancelled := true)])
  }

  ghost predicate Behavior(run: seq<Sys>, acts: seq<Act>) {
    && |run| == |acts| + 1 && run[0] == START
    && forall i :: 0 <= i < |acts| ==> Enabled(run[i], acts[i]) && run[i + 1] == Do(run[i], acts[i])
  }

  // --- no trigger without an activation ---

  function Firings(w: seq<Goroutine>): nat {
    if w == [] then 0
    else Firings(w[..|w| - 1]) + if w[|w| - 1].stage.Fired? then 1 else 0
  }

  lemma {:induction false} FiringsBounded(w: seq<Goroutine>)
    ensures Firings(w) <= |w|
  {
    if w != [] {
      FiringsBounded(w[..|w| - 1]);
    }
  }

  lemma {:induction false} FiringsPut(w: seq<Goroutine>, i: nat, g: Goroutine)
    requires i < |w| && !w[i].stage.Fired?
    ensures Firings(w[i := g]) == Firings(w) + if g.stage.Fired? then 1 else 0
  {
    var last := |w| - 1;
    if i < last {
      FiringsPut(w[..last], i, g);
      assert w[i := g][..last] == w[..last][i := g];
    } else {
      assert w[i := g][..last] == w[..last];
    }
  }

  /** The flag is only ever up for the latest goroutine, or one about to be started. */
  ghost predicate Counted(s: Sys) {
    && s.sent == Firings(s.waiting)
    && s.activations == |s.waiting| + (if s.ticker.Activated? then 1 else 0)
    && (s.isActive && !s.ticker.Activated? ==>
          s.waiting != [] && !s.waiting[|s.waiting| - 1].stage.Fired?)
  }

  lemma CountedStep(s: Sys, a: Act)
    requires Counted(s) && Enabled(s, a)
    ensures Counted(Do(s, a))
  {
    match a
    case Spawn =>
      assert (s.waiting + [Goroutine(Selecting, false)])[..|s.waiting|] == s.waiting;
    case Expire(i) => FiringsPut(s.waiting, i, s.waiting[i].(stage := Got));
    case Fire(i) => FiringsPut(s.waiting, i, s.waiting[i].(stage := Fired));
    case SeeCancelled(i) => FiringsPut(s.waiting, i, s.waiting[i].(stage := Returned));
    case Reset =>
      if s.isActive && s.waiting != [] {
        var last := |s.waiting| - 1;
        FiringsPut(s.waiting, last, s.waiting[last].(cancelled := true));
      }
    case _ =>
  }

  /** In every interleaving, resets included. */
  lemma {:induction false} TriggersNeverExceedActivations(run: seq<Sys>, acts: seq<Act>)
    requires Behavior(run, acts)
    ensures Counted(run[|acts|]) && run[|acts|].sent <= run[|acts|].activations
    decreases |acts|
  {
    if acts != [] {
      var k := |acts| - 1;
      TriggersNeverExceedActivations(run[..k + 1], acts[..k]);
      CountedStep(run[k], acts[k]);
    }
    FiringsBounded(run[|acts|].waiting);
  }

  // --- no tick without a trigger to come ---

  ghost predicate Pending(g: Goroutine) {
    g.stage.Selecting? || g.stage.Got?
  }

  /** All goroutines but possibly the latest have fired; the flag tells about that one. */
  ghost predicate OneWaits(s: Sys) {
    && (forall i :: 0 <= i < |s.waiting| ==> !s.waiting[i].cancelled)
    && (forall i :: 0 <= i < |s.waiting| - 1 ==> s.waiting[i].stage.Fired?)
    && (s.ticker.Activated? ==> s.isActive && (s.waiting != [] ==> s.waiting[|s.waiting| - 1].stage.Fired?))
    && (!s.ticker.Activated? ==>
          (s.isActive <==> s.waiting != [] && Pending(s.waiting[|s.waiting| - 1])))
    && (!s.ticker.Activated? && s.waiting != [] && !s.isActive ==> s.waiting[|s.waiting| - 1].stage.Fired?)
    && (s.ticker.SawInactive? ==> !s.isActive)
    && s.sentBefore <= s.sent
    && (s.ticker.SawActive? ==> s.isActive || s.sent > s.sentBefore)
    && (s.ticker.Quiet? && s.activations > 0 ==> s.isActive || s.sent > s.sentBefore)
    && s.activations == |s.waiting| + (if s.ticker.Activated? then 1 else 0)
  }

  /** Exactly one goroutine has yet to send the id. */
  ghost predicate OneSender(s: Sys) {
    exists i :: 0 <= i < |s.waiting| && Pending(s.waiting[i]) &&
      forall j :: 0 <= j < |s.waiting| && j != i ==> s.waiting[j].stage.Fired?
  }

  lemma OneWaitsStep(s: Sys, a: Act)
    requires OneWaits(s) && Enabled(s, a) && !a.Reset?
    ensures OneWaits(Do(s, a))
  {
  }

  /** Without resets, once a tick has returned either its period is still active with
      exactly one goroutine waiting to send the id, or the id was sent after the tick
      began, even if the timer went off between the tick's look at the flag and its lock. */
  lemma {:induction false} TickIsCovered(run: seq<Sys>, acts: seq<Act>)
    requires Behavior(run, acts) && Reset !in acts
    ensures var s := run[|acts|];
      && OneWaits(s)
      && (s.ticker.Quiet? && s.activations > 0 ==> s.sent > s.sentBefore || (s.isActive && OneSender(s)))
    decreases |acts|
  {
    if acts != [] {
      var k := |acts| - 1;
      assert acts[k] in acts;
      assert forall a :: a in acts[..k] ==> a in acts;
      TickIsCovered(run[..k + 1], acts[..k]);
      OneWaitsStep(run[k], acts[k]);
    }
    var s := run[|acts|];
    if s.ticker.Quiet? && s.isActive {
      assert Pending(s.waiting[|s.waiting| - 1]);
    }
  }

  /** A reset does not recall a trigger whose goroutine has already left its select. */
  lemma ResetCanComeTooLate(s: Sys)
    requires OneWaits(s) && s.ticker.Quiet? && s.isActive && s.waiting[|s.waiting| - 1].stage.Got?
    ensures var last := |s.waiting| - 1; var u := Do(s, Reset);
      !u.isActive && Enabled(u, Fire(last)) && Do(u, Fire(last)).sent == s.sent + 1
  {
  }
}
