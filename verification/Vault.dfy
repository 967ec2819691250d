// internal/dependency/vault_read.go: VaultReadQuery.Fetch and its one-slot sleep channel.

module Secrets {
  import opened Storing
  import opened Leasing

  // --- the secret kept between fetches ---

  /** updateSecret, on the fields that matter here: nothing is overwritten by a missing field. */
  function Updated(ours: Secret, theirs: Secret): Secret {
    Secret(
      if theirs.leaseId != "" then theirs.leaseId else ours.leaseId,
      if theirs.leaseDuration != 0 then theirs.leaseDuration else ours.leaseDuration,
      theirs.renewable || ours.renewable,
      if theirs.auth.None? then ours.auth
      else
        var was := if ours.auth.Some? then ours.auth.value else Auth(0, false);
        var them := theirs.auth.value;
        Some(Auth(if them.leaseDuration != 0 then them.leaseDuration else was.leaseDuration,
                  them.renewable || was.renewable)),
      if theirs.data != map[] then theirs.data else ours.data)
  }

  /** transformSecret. */
  function Transformed(theirs: Secret, defaultLease: Word): Secret {
    Updated(Secret("", defaultLease, false, None, map[]), theirs)
  }

  /** A renewal loses nothing and says nothing twice: what it leaves out stays, what it brings
      stands, and applying it again changes nothing. */
  lemma RenewalLosesNothing(ours: Secret, theirs: Secret)
    ensures Updated(ours, Secret("", 0, false, None, map[])) == ours
    ensures var s := Updated(ours, theirs);
      && Updated(s, theirs) == s
      && (theirs.leaseId != "" ==> s.leaseId == theirs.leaseId)
      && (theirs.leaseDuration != 0 ==> s.leaseDuration == theirs.leaseDuration)
      && (theirs.data != map[] ==> s.data == theirs.data)
      && (ours.renewable || theirs.renewable ==> s.renewable)
      && (theirs.auth.Some? ==> s.auth.Some?)
      && (theirs.auth.Some? && theirs.auth.value.leaseDuration != 0 ==>
            s.auth.value.leaseDuration == theirs.auth.value.leaseDuration)
  {
  }

  // --- what the outside decides during one call ---

  datatype Renewal =
    | Renewed(updates: seq<Secret>)       // the renewer is done
    | CannotRenew                         // no renewer could be made
    | StoppedRenewing(updates: seq<Secret>)

  datatype Turn = Turn(
    preferStop: bool,         // which branch of the select runs if both are ready
    stopDuringSleep: bool,    // Stop is called before the sleep is over
    renewal: Renewal,
    answer: Option<Secret>,   // what reading the secret returns, if it succeeds
    defaultLease: Word,
    now: Word,
    random: Random)

  datatype Outcome = Returned(secret: Secret) | Stopped | Failed | Panicked | Blocked

  /** What a call does that is visible outside: sleep, be interrupted in a sleep, renew the lease
      until the renewer is done, read a secret. */
  datatype Event =
    | Slept(duration: int)
    | Interrupted(duration: int)
    | RenewalDone(updates: seq<Secret>)
    | Read(secret: Secret, now: Word, random: Random)

  datatype State = State(secret: Option<Secret>, slot: Option<int>, stopped: bool)

  function AfterUpdates(ours: Secret, updates: seq<Secret>): Secret
    decreases |updates|
  {
    if updates == [] then ours else AfterUpdates(Updated(ours, updates[0]), updates[1..])
  }

  /** Reading the secret and, if it cannot be renewed, leaving the next sleep in the channel. */
  function ReadWith(st: State, t: Turn): (State, Outcome, seq<Event>) {
    match t.answer
    case None => (st, Failed, [])
    case Some(theirs) =>
      var s := Transformed(theirs, t.defaultLease);
      var st1 := st.(secret := Some(s));
      if Renewable(s) then (st1, Returned(s), [Read(s, t.now, t.random)])
      else if Malformed(s) then (st1, Panicked, [])
      else if st1.slot.Some? then (st1, Blocked, [])
      else (st1.(slot := Some(Wait(s, t.now, true, t.random))), Returned(s), [Read(s, t.now, t.random)])
  }

  function RenewAndReadWith(st: State, t: Turn): (State, Outcome, seq<Event>) {
    if st.secret.Some? && Renewable(st.secret.value) then
      match t.renewal
      case CannotRenew => (st, Failed, [])
      case StoppedRenewing(updates) =>
        (st.(secret := Some(AfterUpdates(st.secret.value, updates)), stopped := true), Failed, [])
      case Renewed(updates) =>
        Prefixed([RenewalDone(updates)], ReadWith(st.(secret := Some(AfterUpdates(st.secret.value, updates))), t))
    else ReadWith(st, t)
  }

  function Prefixed(log: seq<Event>, rest: (State, Outcome, seq<Event>)): (State, Outcome, seq<Event>) {
    (rest.0, rest.1, log + rest.2)
  }

  lemma PrefixedTwice(xs: seq<Event>, ys: seq<Event>, rest: (State, Outcome, seq<Event>))
    ensures Prefixed(xs, Prefixed(ys, rest)) == Prefixed(xs + ys, rest)
  {
    assert xs + (ys + rest.2) == xs + ys + rest.2;
  }

  /** A sleep of no time can win against a query already stopped. */
  predicate Interrupts(stopped: bool, duration: int, t: Turn) {
    t.stopDuringSleep || (stopped && duration > 0)
  }

  function FetchWith(st: State, t: Turn): (State, Outcome, seq<Event>) {
    if st.stopped && (st.slot.None? || t.preferStop) then (st, Stopped, [])
    else if st.slot.Some? then
      var d := st.slot.value;
      if Interrupts(st.stopped, d, t) then (st.(slot := None, stopped := true), Stopped, [Interrupted(d)])
      else Prefixed([Slept(d)], RenewAndReadWith(st.(slot := None), t))
    else RenewAndReadWith(st, t)
  }

  class VaultReadQuery {
    var secret: Option<Secret>
    var sleepCh: Option<int>
    var stopped: bool

    ghost function Now(): State
      reads this
    {
      State(secret, sleepCh, stopped)
    }

    constructor ()
      ensures Now() == State(None, None, false)
    {
      secret, sleepCh, stopped := None, None, false;
    }

    method Stop()
      modifies this
      ensures Now() == old(Now()).(stopped := true)
    {
      stopped := true;
    }

    /** renewSecret; the error it returns, if any, is false. */
    method RenewSecret(t: Turn) returns (ok: bool)
      requires secret.Some?
      modifies this
      ensures ok == t.renewal.Renewed?
      ensures Now() == match t.renewal
        case CannotRenew => old(Now())
        case Renewed(us) => old(Now()).(secret := Some(AfterUpdates(old(secret).value, us)))
        case StoppedRenewing(us) =>
          old(Now()).(secret := Some(AfterUpdates(old(secret).value, us)), stopped := true)
    {
      if t.renewal.CannotRenew? {
        return false;
      }
      var updates := t.renewal.updates;
      while updates != []
        invariant secret.Some? && sleepCh == old(sleepCh) && stopped == old(stopped)
        invariant AfterUpdates(secret.value, updates) == AfterUpdates(old(secret).value, t.renewal.updates)
        decreases |updates|
      {
        secret := Some(Updated(secret.value, updates[0]));
        updates := updates[1..];
      }
      if t.renewal.StoppedRenewing? {
        stopped := true;
        return false;
      }
      return true;
    }

    /** Fetch. The send on the channel would block if a sleep were still waiting in it. */
    method Fetch(t: Turn) returns (out: Outcome, log: seq<Event>)
      modifies this
      ensures (Now(), out, log) == FetchWith(old(Now()), t)
    {
      log := [];
      if stopped && (sleepCh.None? || t.preferStop) {
        return Stopped, log;
      }
      if sleepCh.Some? {
        var dur := sleepCh.value;
        sleepCh := None;
        if Interrupts(stopped, dur, t) {
          stopped := true;
          return Stopped, [Interrupted(dur)];
        }
        log := [Slept(dur)];
      }
      ghost var slept, ready := log, Now();
      var firstRun := secret.None?;
      if !firstRun && Renewable(secret.value) {
        var ok := RenewSecret(t);
        if !ok {
          assert log + [] == log;
          return Failed, log;
        }
        log := log + [RenewalDone(t.renewal.updates)];
      }
      ghost var mid := Now();
      assert FetchWith(old(Now()), t) == Prefixed(log, ReadWith(mid, t)) by {
        var rest := RenewAndReadWith(ready, t);
        assert FetchWith(old(Now()), t) == Prefixed(slept, rest) by {
          assert [] + rest.2 == rest.2;
        }
        PrefixedTwice(slept, log[|slept|..], ReadWith(mid, t));
        assert log == slept + log[|slept|..];
        assert [] + ReadWith(mid, t).2 == ReadWith(mid, t).2;
      }
      assert log + [] == log;
      if t.answer.None? {
        return Failed, log;
      }
      secret := Some(Transformed(t.answer.value, t.defaultLease));
      if !Renewable(secret.value) {
        var dur := LeaseCheckWait(secret.value, t.now, true, t.random);
        if dur.None? {
          return Panicked, log;
        }
        if sleepCh.Some? {
          return Blocked, log;
        }
        sleepCh := dur;
      }
      return Returned(secret.value), log + [Read(secret.value, t.now, t.random)];
    }
  }

  // --- runs ---

  /** The query is used by one fetch at a time, until a panic ends the process; Stop can come at
      any moment. */
  datatype Call = FetchCall(turn: Turn) | StopCall

  datatype Run = Run(st: State, log: seq<Event>, crashed: bool)

  function Start(): Run {
    Run(State(None, None, false), [], false)
  }

  function Step(r: Run, c: Call): Run {
    if r.crashed then r
    else match c
      case StopCall => r.(st := r.st.(stopped := true))
      case FetchCall(t) =>
        var (st, out, log) := FetchWith(r.st, t);
        Run(st, r.log + log, out.Panicked?)
  }

  function AfterCalls(r: Run, calls: seq<Call>): Run
    decreases |calls|
  {
    if calls == [] then r else AfterCalls(Step(r, calls[0]), calls[1..])
  }

  /** The sleep that a read asks for. */
  function Owed(e: Event): Option<int> {
    if e.Read? && !Renewable(e.secret) then Some(Wait(e.secret, e.now, true, e.random)) else None
  }

  /** The sleep still to be done after some events. */
  function Pending(log: seq<Event>): Option<int> {
    if log == [] then None else Owed(log[|log| - 1])
  }

  /** A renewal is due: the last event was the read of a secret that can be renewed. */
  predicate RenewalDue(log: seq<Event>) {
    log != [] && log[|log| - 1].Read? && Renewable(log[|log| - 1].secret)
  }

  /** Every sleep is the one the event before it asks for, every sleep and every renewal asked for is
      done before the next read, renewals follow only the read of a renewable secret or each other,
      and nothing follows an interruption. */
  ghost predicate Paced(log: seq<Event>) {
    forall i :: 0 <= i < |log| ==> InPlace(log, i)
  }

  ghost predicate InPlace(log: seq<Event>, i: nat)
    requires i < |log|
  {
    match log[i]
    case Slept(d) => Pending(log[..i]) == Some(d)
    case Interrupted(d) => Pending(log[..i]) == Some(d) && i == |log| - 1
    case RenewalDone(_) => RenewalDue(log[..i]) || (i > 0 && log[i - 1].RenewalDone?)
    case Read(_, _, _) => Pending(log[..i]) == None && !RenewalDue(log[..i])
  }

  /** What the query keeps agrees with the last event. */
  ghost predicate Fits(st: State, log: seq<Event>) {
    if log == [] then st.secret.None?
    else match log[|log| - 1]
      case Slept(_) => st.secret.Some? && !Renewable(st.secret.value)
      case Interrupted(_) => st.stopped && st.slot.None?
      case RenewalDone(_) => st.secret.Some?
      case Read(s, _, _) => st.secret == Some(s) || (st.stopped && st.slot.None?)
  }

  ghost predicate Inv(r: Run) {
    && Paced(r.log)
    && (!r.crashed ==> r.st.slot == Pending(r.log) && Fits(r.st, r.log))
  }

  lemma PacedAppend(log: seq<Event>, e: Event)
    requires Paced(log) && (log != [] ==> !log[|log| - 1].Interrupted?)
    requires match e
      case Read(_, _, _) => Pending(log) == None && !RenewalDue(log)
      case RenewalDone(_) => RenewalDue(log) || (log != [] && log[|log| - 1].RenewalDone?)
      case _ => Pending(log) == Some(e.duration)
    ensures Paced(log + [e]) && Pending(log + [e]) == Owed(e)
    ensures RenewalDue(log + [e]) <==> e.Read? && Renewable(e.secret)
  {
    var more := log + [e];
    forall i | 0 <= i < |more| ensures InPlace(more, i) {
      if i < |log| {
        assert InPlace(log, i) && more[..i] == log[..i] && more[i] == log[i];
      } else {
        assert more[..i] == log;
      }
    }
  }

  /** No sleep is owed, and nothing has stopped the query on the way. */
  ghost predicate Ready(st: State, log: seq<Event>) {
    && st.slot.None? && Paced(log) && Pending(log) == None
    && (log == [] ==> st.secret.None?)
    && (log != [] ==>
          match log[|log| - 1]
          case Slept(_) => st.secret.Some? && !Renewable(st.secret.value)
          case Interrupted(_) => false
          case RenewalDone(_) => st.secret.Some?
          case Read(s, _, _) => st.secret == Some(s))
  }

  ghost predicate Kept(log: seq<Event>, result: (State, Outcome, seq<Event>)) {
    !result.1.Blocked? && Inv(Run(result.0, log + result.2, result.1.Panicked?))
  }

  lemma ReadKeeps(st: State, log: seq<Event>, t: Turn)
    requires Ready(st, log) && !RenewalDue(log)
    ensures Kept(log, ReadWith(st, t))
  {
    assert log + [] == log;
    if t.answer.Some? {
      var s := Transformed(t.answer.value, t.defaultLease);
      PacedAppend(log, Read(s, t.now, t.random));
    }
  }

  lemma KeptPrefixed(log: seq<Event>, e: Event, result: (State, Outcome, seq<Event>))
    requires Kept(log + [e], result)
    ensures Kept(log, Prefixed([e], result))
  {
    assert log + ([e] + result.2) == log + [e] + result.2;
  }

  /** With an empty slot the send does not block, and the read leaves what it asks for. */
  lemma RenewAndReadKeeps(st: State, log: seq<Event>, t: Turn)
    requires Ready(st, log)
    ensures Kept(log, RenewAndReadWith(st, t))
  {
    if st.secret.Some? && Renewable(st.secret.value) {
      if t.renewal.Renewed? {
        var renewed := st.(secret := Some(AfterUpdates(st.secret.value, t.renewal.updates)));
        var e := RenewalDone(t.renewal.updates);
        PacedAppend(log, e);
        ReadKeeps(renewed, log + [e], t);
        KeptPrefixed(log, e, ReadWith(renewed, t));
      } else {
        assert log + [] == log;
      }
    } else {
      ReadKeeps(st, log, t);
    }
  }

  lemma SleepKeeps(st: State, log: seq<Event>, t: Turn)
    requires Inv(Run(st, log, false)) && st.slot.Some?
    ensures Kept(log, Prefixed([Slept(st.slot.value)], RenewAndReadWith(st.(slot := None), t)))
  {
    var d, empty := st.slot.value, st.(slot := None);
    PacedAppend(log, Slept(d));
    RenewAndReadKeeps(empty, log + [Slept(d)], t);
    KeptPrefixed(log, Slept(d), RenewAndReadWith(empty, t));
  }

  lemma FetchKeeps(st: State, log: seq<Event>, t: Turn)
    requires Inv(Run(st, log, false))
    ensures Kept(log, FetchWith(st, t))
  {
    assert log + [] == log;
    if st.stopped && (st.slot.None? || t.preferStop) {
    } else if st.slot.Some? {
      var d := st.slot.value;
      if Interrupts(st.stopped, d, t) {
        PacedAppend(log, Interrupted(d));
      } else {
        SleepKeeps(st, log, t);
      }
    } else {
      RenewAndReadKeeps(st, log, t);
    }
  }

  lemma StepKeeps(r: Run, c: Call)
    requires Inv(r)
    ensures Inv(Step(r, c))
    ensures c.FetchCall? && !r.crashed ==> !FetchWith(r.st, c.turn).1.Blocked?
  {
    if c.FetchCall? && !r.crashed {
      FetchKeeps(r.st, r.log, c.turn);
    }
  }

  lemma {:induction false} RunKeeps(r: Run, calls: seq<Call>)
    requires Inv(r)
    ensures Inv(AfterCalls(r, calls))
    decreases |calls|
  {
    if calls != [] {
      StepKeeps(r, calls[0]);
      RunKeeps(Step(r, calls[0]), calls[1..]);
    }
  }

  /** In no run does a fetch block on the send. */
  lemma NeverBlocks(calls: seq<Call>, t: Turn)
    requires !AfterCalls(Start(), calls).crashed
    ensures !FetchWith(AfterCalls(Start(), calls).st, t).1.Blocked?
  {
    RunKeeps(Start(), calls);
    StepKeeps(AfterCalls(Start(), calls), FetchCall(t));
  }

  /** Two reads of a run with no other in between. */
  ghost predicate Successive(log: seq<Event>, i: nat, j: nat) {
    i < j < |log| && log[i].Read? && log[j].Read? && forall k :: i < k < j ==> !log[k].Read?
  }

  /** In every run, between two successive reads, the first of a secret that cannot be renewed, lies
      the sleep that leaseCheckWait gives for it, and nothing else. */
  lemma SleepsBetweenReads(calls: seq<Call>, i: nat, j: nat)
    requires var log := AfterCalls(Start(), calls).log; Successive(log, i, j) && !Renewable(log[i].secret)
    ensures var log := AfterCalls(Start(), calls).log;
            j == i + 2 && log[i + 1] == Slept(Wait(log[i].secret, log[i].now, true, log[i].random))
  {
    RunKeeps(Start(), calls);
    PacedReads(AfterCalls(Start(), calls).log, i, j);
  }

  /** If the first can be renewed, there lies at least one renewal that came to its end, and no sleep. */
  lemma RenewsBetweenReads(calls: seq<Call>, i: nat, j: nat)
    requires var log := AfterCalls(Start(), calls).log; Successive(log, i, j) && Renewable(log[i].secret)
    ensures var log := AfterCalls(Start(), calls).log;
            j > i + 1 && forall k :: i < k < j ==> log[k].RenewalDone?
  {
    RunKeeps(Start(), calls);
    PacedReads(AfterCalls(Start(), calls).log, i, j);
  }

  lemma PacedNext(log: seq<Event>, i: nat)
    requires Paced(log) && i + 1 < |log|
    ensures match log[i + 1]
      case Slept(d) => Owed(log[i]) == Some(d)
      case Interrupted(d) => Owed(log[i]) == Some(d) && i + 2 == |log|
      case RenewalDone(_) => log[i].RenewalDone? || (log[i].Read? && Renewable(log[i].secret))
      case Read(_, _, _) => Owed(log[i]) == None && !(log[i].Read? && Renewable(log[i].secret))
  {
    assert InPlace(log, i + 1);
    assert log[..i + 1][|log[..i + 1]| - 1] == log[i];
  }

  lemma {:induction false} PacedReads(log: seq<Event>, i: nat, j: nat)
    requires Paced(log) && Successive(log, i, j)
    ensures if Renewable(log[i].secret) then j > i + 1 && forall k :: i < k < j ==> log[k].RenewalDone?
            else j == i + 2 && log[i + 1] == Slept(Wait(log[i].secret, log[i].now, true, log[i].random))
  {
    PacedNext(log, i);
    if Renewable(log[i].secret) {
      OnlyRenewals(log, i, j, j);
    } else {
      PacedNext(log, i + 1);
    }
  }

  lemma {:induction false} OnlyRenewals(log: seq<Event>, i: nat, j: nat, k: nat)
    requires Paced(log) && Successive(log, i, j) && Renewable(log[i].secret) && i < k <= j
    ensures forall m :: i < m < k ==> log[m].RenewalDone?
    decreases k
  {
    if k > i + 1 {
      OnlyRenewals(log, i, j, k - 1);
      PacedNext(log, k - 2);
    }
  }

  // --- single calls ---

  /** Nothing stops the call before it comes to renewing and reading. */
  ghost predicate Proceeds(st: State, t: Turn) {
    && !(st.stopped && (st.slot.None? || t.preferStop))
    && (st.slot.Some? ==> !Interrupts(st.stopped, st.slot.value, t))
  }

  /** With a renewable secret kept, a call reads only after a renewal that came to its end: one that
      cannot be made or is stopped means no read and no secret, and one that is stopped leaves the
      query stopped. */
  lemma RenewalDecides(st: State, t: Turn)
    requires st.secret.Some? && Renewable(st.secret.value) && Proceeds(st, t)
    ensures var (after, out, log) := FetchWith(st, t);
      if t.renewal.Renewed? then
        && RenewalDone(t.renewal.updates) in log
        && (t.answer.None? ==> out == Failed && after.secret == Some(AfterUpdates(st.secret.value, t.renewal.updates)))
      else
        && out == Failed
        && (forall e :: e in log ==> !e.Read? && !e.RenewalDone?)
        && (t.renewal.StoppedRenewing? ==> after.stopped)
  {
  }

  /** Nothing else is renewed. */
  lemma RenewsOnlyRenewable(st: State, t: Turn)
    requires !(st.secret.Some? && Renewable(st.secret.value) && Proceeds(st, t))
    ensures forall e :: e in FetchWith(st, t).2 ==> !e.RenewalDone?
  {
  }

  /** The result of a call: it returns a secret exactly if it has read it, as its last deed; that is
      the secret then kept, and it comes from the answer. */
  ghost predicate Honest(t: Turn, result: (State, Outcome, seq<Event>)) {
    var (after, out, log) := result;
    && (out.Returned? <==> log != [] && log[|log| - 1].Read?)
    && (out.Returned? ==>
          && log[|log| - 1] == Read(out.secret, t.now, t.random) && after.secret == Some(out.secret)
          && t.answer.Some? && out.secret == Transformed(t.answer.value, t.defaultLease))
    && forall i :: 0 <= i < |log| - 1 ==> !log[i].Read?
  }

  lemma HonestPrefixed(t: Turn, e: Event, result: (State, Outcome, seq<Event>))
    requires Honest(t, result) && !e.Read?
    ensures Honest(t, Prefixed([e], result))
  {
  }

  lemma ReturnsWhatItRead(st: State, t: Turn)
    ensures Honest(t, FetchWith(st, t))
  {
    forall ready: State ensures Honest(t, RenewAndReadWith(ready, t)) {
      RenewedReturns(ready, t);
    }
    if st.slot.Some? {
      HonestPrefixed(t, Slept(st.slot.value), RenewAndReadWith(st.(slot := None), t));
    }
  }

  lemma RenewedReturns(st: State, t: Turn)
    ensures Honest(t, RenewAndReadWith(st, t))
  {
    forall ready: State ensures Honest(t, ReadWith(ready, t)) {
    }
    if st.secret.Some? && t.renewal.Renewed? {
      var renewed := st.(secret := Some(AfterUpdates(st.secret.value, t.renewal.updates)));
      HonestPrefixed(t, RenewalDone(t.renewal.updates), ReadWith(renewed, t));
    }
  }

  /** A stopped query that owes no sleep, or a positive one, reads nothing, nor does one whose select
      picks the stop. */
  lemma StoppedReadsNothing(st: State, t: Turn)
    requires st.stopped && (st.slot.None? || st.slot.value > 0 || t.preferStop)
    ensures var (after, out, log) := FetchWith(st, t);
      out == Stopped && after.stopped && forall e :: e in log ==> e.Interrupted?
  {
  }

  /** A read secret has a positive lease exactly if the answer's is, or is missing and the default is;
      this is what a positive sleep starts from. */
  lemma TransformedLease(theirs: Secret, defaultLease: Word)
    ensures var s := Transformed(theirs, defaultLease);
      && (s.leaseDuration > 0 <==> theirs.leaseDuration > 0 || (theirs.leaseDuration == 0 && defaultLease > 0))
      && s.leaseId == theirs.leaseId && s.data == theirs.data && (Renewable(s) <==> Renewable(theirs))
  {
  }

  /** A stopped query with an empty channel never sleeps or reads again. */
  lemma {:induction false} StoppedStaysStopped(r: Run, calls: seq<Call>)
    requires r.st.stopped && r.st.slot.None?
    ensures AfterCalls(r, calls).log == r.log && AfterCalls(r, calls).st == r.st
    decreases |calls|
  {
    if calls != [] {
      assert r.log + [] == r.log;
      StoppedStaysStopped(Step(r, calls[0]), calls[1..]);
    }
  }
}
