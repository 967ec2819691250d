// view.go, lines 154-268: polling. The poll loop with its retry count, and the flag that
// lets one poll at a time run.

module Polling {
  import opened Storing
  import opened Viewing

  /** RetryFunc's first answer, from the number of retries so far. */
  datatype Policy = NoRetry | Retry(grant: nat -> bool)

  /** Where the stop branch of a select is taken, if at all: in the one that waits for the fetch, or
      in the one after it, where the loop waits to push, to sleep or to offer the error. */
  datatype StopBranch = Never | InSelect | AfterOutcome

  /** One fetch started by the loop. `heard`: the success message was taken before the
      outcome, which is a free choice when both are ready. */
  datatype Attempt = Attempt(replies: seq<Reply>, heard: bool, stop: StopBranch)

  datatype Phase =
    | AtTop       // about to start a fetch
    | Fetching    // in its select, the fetch still waiting for a reply
    | Stuck       // in its select, but the fetch has returned without a word
    | Returned

  datatype Polled = Polled(
    state: State,
    phase: Phase,
    pushed: seq<Payload>,       // the data at each push to dataCh
    offered: Option<Failure>,   // the error pushed to errCh, which ends the poll
    fetches: nat,
    peak: nat)                  // the largest retry count

  /** The retry count once the outcome is handled: any earlier response of the same
      fetch has put a success message in the channel. */
  function Counted(f: Fetched, heard: bool, retries: nat): nat {
    if heard && |f.requests| > 1 then 0 else retries
  }

  function Granted(p: Policy, e: Failure, retries: nat): bool {
    !e.BadRequest? && p.Retry? && p.grant(retries)
  }

  function Forget(s: State, e: Failure): State {
    if e.ServerError? then s.(lastIndex := 0) else s
  }

  function Max(a: nat, b: nat): nat {
    if a < b then b else a
  }

  /** One turn of the loop: where it leaves the poll, with what retry count, what it pushed,
      and the error it ends with, if it offers one. */
  datatype Turn = Turn(state: State, phase: Phase, retries: nat, pushed: seq<Payload>, offered: Option<Failure>)

  function TurnOf(c: Config, s: State, p: Policy, retries: nat, a: Attempt): Turn {
    var f := FetchWith(c, s, c.maxStale != 0, a.replies);
    if a.stop.InSelect? || f.outcome == Silent(true) then Turn(f.state, Returned, retries, [], None)
    else match f.outcome
      case Delivered =>
        if a.stop.AfterOutcome? then Turn(f.state, Returned, 0, [], None)
        else Turn(f.state, AtTop, 0, [f.state.data], None)
      case Failed(e) =>
        var now, u := Counted(f, a.heard, retries), Forget(f.state, e);
        if a.stop.AfterOutcome? then Turn(u, Returned, now, [], None)
        else if Granted(p, e, now) then Turn(u, AtTop, now + 1, [], None)
        else Turn(u, Returned, now, [], Some(e))
      case Silent(_) => Turn(f.state, Stuck, retries, [], None)
      case Waiting => Turn(f.state, Fetching, retries, [], None)
  }

  /** The loop from its top, with this retry count. */
  function PollWith(c: Config, s: State, p: Policy, retries: nat, attempts: seq<Attempt>): Polled
    decreases |attempts|
  {
    if attempts == [] then Polled(s, AtTop, [], None, 0, retries)
    else
      var t := TurnOf(c, s, p, retries, attempts[0]);
      if t.phase.AtTop? then Extend(retries, t.pushed, PollWith(c, t.state, p, t.retries, attempts[1..]))
      else Polled(t.state, t.phase, t.pushed, t.offered, 1, retries)
  }

  function Extend(retries: nat, pushed: seq<Payload>, rest: Polled): Polled {
    rest.(pushed := pushed + rest.pushed, fetches := 1 + rest.fetches, peak := Max(retries, rest.peak))
  }

  /** The same with what came before the top of the loop. */
  function Continue(pushed: seq<Payload>, fetches: nat, peak: nat, rest: Polled): Polled {
    rest.(pushed := pushed + rest.pushed, fetches := fetches + rest.fetches, peak := Max(peak, rest.peak))
  }

  lemma ContinueExtend(pushed: seq<Payload>, fetches: nat, peak: nat, retries: nat, more: seq<Payload>, rest: Polled)
    ensures Continue(pushed, fetches, peak, Extend(retries, more, rest)) ==
            Continue(pushed + more, fetches + 1, Max(peak, retries), rest)
  {
    assert pushed + (more + rest.pushed) == pushed + more + rest.pushed;
  }

  method TakeTurn(v: View, p: Policy, retries: nat, a: Attempt)
    returns (phase: Phase, after: nat, pushed: seq<Payload>, offered: Option<Failure>)
    modifies v`data, v`receivedData, v`lastIndex
    ensures Turn(v.Now(), phase, after, pushed, offered) == TurnOf(v.config, old(v.Now()), p, retries, a)
  {
    phase, after, pushed, offered := Returned, retries, [], None;
    var outcome, requests := v.Fetch(a.replies);
    if a.stop.InSelect? || outcome == Silent(true) {
      return;
    }
    match outcome {
      case Delivered =>
        after := 0;
        if !a.stop.AfterOutcome? {
          phase, pushed := AtTop, [v.data];
        }
      case Failed(e) =>
        if a.heard && |requests| > 1 {
          after := 0;
        }
        if e.ServerError? {
          v.lastIndex := 0;
        }
        if !a.stop.AfterOutcome? {
          if !e.BadRequest? && p.Retry? && p.grant(after) {
            phase, after := AtTop, after + 1;
          } else {
            offered := Some(e);
          }
        }
      case Silent(_) =>
        phase := Stuck;
      case Waiting =>
        phase := Fetching;
    }
  }

  /** Returns at once if another poll is past the flag. Otherwise it goes as far as the attempts
      take it; the flag is down again exactly if it has returned by then. */
  method Poll(v: View, p: Policy, attempts: seq<Attempt>)
    returns (ran: bool, phase: Phase, pushed: seq<Payload>, offered: Option<Failure>, fetches: nat, ghost peak: nat)
    modifies v
    ensures ran == !old(v.isPolling)
    ensures v.isPolling <==> !ran || !phase.Returned?
    ensures ran ==> Polled(v.Now(), phase, pushed, offered, fetches, peak) ==
                    PollWith(v.config, old(v.Now()), p, 0, attempts)
    ensures !ran ==> v.Now() == old(v.Now()) && phase.Returned? && fetches == 0 && pushed == [] && offered == None
  {
    phase, pushed, offered, fetches, peak := Returned, [], None, 0, 0;
    var alreadyPolling := v.PollingFlag();
    if alreadyPolling {
      ran := false;
      return;
    }
    ran := true;
    ghost var all := PollWith(v.config, v.Now(), p, 0, attempts);
    var retries := 0;
    for i := 0 to |attempts|
      invariant v.isPolling && offered == None
      invariant all == Continue(pushed, fetches, peak, PollWith(v.config, v.Now(), p, retries, attempts[i..]))
    {
      assert attempts[i..][0] == attempts[i] && attempts[i..][1..] == attempts[i + 1..];
      ghost var was, n, top, before := pushed, fetches, peak, retries;
      var after, more, error;
      phase, after, more, error := TakeTurn(v, p, retries, attempts[i]);
      peak, fetches, pushed := Max(peak, retries), fetches + 1, pushed + more;
      if !phase.AtTop? {
        offered := error;
        v.isPolling := !phase.Returned?;
        return;
      }
      retries := after;
      ContinueExtend(was, n, top, before, more, PollWith(v.config, v.Now(), p, retries, attempts[i + 1..]));
    }
    phase, peak := AtTop, Max(peak, retries);
  }

  // --- when a poll gets stuck ---

  /** Nobody stops the view during the attempt. */
  ghost predicate Unstopped(a: Attempt) {
    a.stop.Never? && forall r :: r in a.replies ==> !r.Stopped?
  }

  lemma {:induction false} PollPrefix(c: Config, s: State, p: Policy, retries: nat, attempts: seq<Attempt>, k: nat)
    requires 0 < k <= |attempts|
    ensures var t := TurnOf(c, s, p, retries, attempts[0]);
            PollWith(c, s, p, retries, attempts[..k]) ==
            if t.phase.AtTop? then Extend(retries, t.pushed, PollWith(c, t.state, p, t.retries, attempts[1..][..k - 1]))
            else Polled(t.state, t.phase, t.pushed, t.offered, 1, retries)
  {
    assert attempts[..k][0] == attempts[0] && attempts[..k][1..] == attempts[1..][..k - 1];
  }

  ghost predicate HushAt(c: Config, s: State, p: Policy, retries: nat, attempts: seq<Attempt>, k: nat)
    requires k < |attempts|
  {
    var before := PollWith(c, s, p, retries, attempts[..k]);
    before.phase.AtTop? && Hushed(c, before.state, c.maxStale != 0, attempts[k].replies)
  }

  /** The poll gets as far as a fetch that is cancelled while it is still asking. */
  ghost predicate ReachesHush(c: Config, s: State, p: Policy, retries: nat, attempts: seq<Attempt>) {
    exists k :: 0 <= k < |attempts| && HushAt(c, s, p, retries, attempts, k)
  }

  lemma {:induction false} HushFirst(c: Config, s: State, p: Policy, retries: nat, attempts: seq<Attempt>)
    requires attempts != []
    ensures HushAt(c, s, p, retries, attempts, 0) <==> Hushed(c, s, c.maxStale != 0, attempts[0].replies)
  {
    assert attempts[..0] == [];
  }

  lemma {:induction false} HushNext(c: Config, s: State, p: Policy, retries: nat, attempts: seq<Attempt>, k: nat)
    requires 0 < k < |attempts|
    ensures var t := TurnOf(c, s, p, retries, attempts[0]);
            HushAt(c, s, p, retries, attempts, k) <==>
            t.phase.AtTop? && HushAt(c, t.state, p, t.retries, attempts[1..], k - 1)
  {
    PollPrefix(c, s, p, retries, attempts, k);
  }

  /** On a view that is not stopped a poll stays in its select, with the flag up for good, exactly
      if one of its fetches returns without a word. */
  lemma {:induction false} GetsStuckIff(c: Config, s: State, p: Policy, retries: nat, attempts: seq<Attempt>)
    requires forall a :: a in attempts ==> Unstopped(a)
    ensures PollWith(c, s, p, retries, attempts).phase.Stuck? <==> ReachesHush(c, s, p, retries, attempts)
    decreases |attempts|
  {
    if attempts != [] {
      var a, rest := attempts[0], attempts[1..];
      var t := TurnOf(c, s, p, retries, a);
      assert Unstopped(a);
      SilentIff(c, s, c.maxStale != 0, a.replies);
      SawStop(c, s, c.maxStale != 0, a.replies);
      HushFirst(c, s, p, retries, attempts);
      assert t.phase.Stuck? <==> HushAt(c, s, p, retries, attempts, 0);
      if t.phase.AtTop? {
        GetsStuckIff(c, t.state, p, t.retries, rest);
        if ReachesHush(c, t.state, p, t.retries, rest) {
          var k :| 0 <= k < |rest| && HushAt(c, t.state, p, t.retries, rest, k);
          HushNext(c, s, p, retries, attempts, k + 1);
        }
      }
      if ReachesHush(c, s, p, retries, attempts) {
        var k :| 0 <= k < |attempts| && HushAt(c, s, p, retries, attempts, k);
        if k > 0 {
          HushNext(c, s, p, retries, attempts, k);
        }
      }
    }
  }

  /** Without a cancelled reply that cannot be. */
  lemma {:induction false} NeverStuck(c: Config, s: State, p: Policy, retries: nat, attempts: seq<Attempt>)
    requires forall a :: a in attempts ==> Unstopped(a) && forall r :: r in a.replies ==> !r.Cancelled?
    ensures !PollWith(c, s, p, retries, attempts).phase.Stuck?
  {
    GetsStuckIff(c, s, p, retries, attempts);
  }

  lemma {:induction false} SawStop(c: Config, s: State, allowStale: bool, replies: seq<Reply>)
    requires forall r :: r in replies ==> !r.Stopped?
    ensures FetchWith(c, s, allowStale, replies).outcome != Silent(true)
    decreases |replies|
  {
    if replies != [] && replies[0].Response? {
      var r := replies[0];
      assert r in replies && forall q :: q in replies[1..] ==> q in replies;
      SawStop(c, Digest(c, s, allowStale, r), NextStale(c, Judge(c, s, allowStale, r)), replies[1..]);
    }
  }

  /** Then the only way out of the loop is the error it offers. */
  lemma {:induction false} LeavesIff(c: Config, s: State, p: Policy, retries: nat, attempts: seq<Attempt>)
    requires forall a :: a in attempts ==> Unstopped(a)
    ensures var r := PollWith(c, s, p, retries, attempts); r.phase.Returned? <==> r.offered.Some?
    decreases |attempts|
  {
    if attempts != [] {
      var t := TurnOf(c, s, p, retries, attempts[0]);
      assert Unstopped(attempts[0]);
      SawStop(c, s, c.maxStale != 0, attempts[0].replies);
      if t.phase.AtTop? {
        LeavesIff(c, t.state, p, t.retries, attempts[1..]);
      }
    }
  }

  /** A dependency that was stopped together with an earlier view answers its new view's first
      request with ErrStopped: that view's poll never gets anywhere. */
  lemma StoppedDependencySticks(c: Config, s: State, p: Policy, attempts: seq<Attempt>)
    requires attempts != [] && attempts[0].stop.Never?
    requires attempts[0].replies != [] && attempts[0].replies[0].Cancelled?
    ensures PollWith(c, s, p, 0, attempts) == Polled(s, Stuck, [], None, 1, 0)
  {
  }

  /** A view that a fetch finds stopped lets its poll go, without a push or an error. */
  lemma {:induction false} FoundStoppedReturns(c: Config, s: State, p: Policy, retries: nat, a: Attempt, k: nat)
    requires k < |a.replies| && a.replies[k].Stopped?
    requires FetchWith(c, s, c.maxStale != 0, a.replies[..k]).outcome.Waiting?
    ensures var t := TurnOf(c, s, p, retries, a); t.phase.Returned? && t.pushed == [] && t.offered == None
  {
    SilentBy(c, s, c.maxStale != 0, a.replies, k);
  }

  // --- what a poll pushes ---

  /** What the fetches of a poll consume. */
  function LifeOf(c: Config, s: State, p: Policy, retries: nat, attempts: seq<Attempt>): seq<Event>
    decreases |attempts|
  {
    if attempts == [] then []
    else
      var f := FetchWith(c, s, c.maxStale != 0, attempts[0].replies);
      var t := TurnOf(c, s, p, retries, attempts[0]);
      ToLife(Consumed(f, attempts[0].replies)) +
      if t.phase.AtTop? then LifeOf(c, t.state, p, t.retries, attempts[1..]) else []
  }

  lemma {:induction false} PushesDeliveries(c: Config, s: State, p: Policy, retries: nat, attempts: seq<Attempt>)
    requires forall a :: a in attempts ==> a.stop.Never?
    ensures PollWith(c, s, p, retries, attempts).pushed ==
            Deliveries(c, s, c.maxStale != 0, LifeOf(c, s, p, retries, attempts))
    decreases |attempts|
  {
    if attempts != [] {
      var a, t := attempts[0], TurnOf(c, s, p, retries, attempts[0]);
      assert a.stop.Never?;
      var mine := ToLife(Consumed(FetchWith(c, s, c.maxStale != 0, a.replies), a.replies));
      var rest := if t.phase.AtTop? then LifeOf(c, t.state, p, t.retries, attempts[1..]) else [];
      assert mine + [] == mine;
      FetchThenLife(c, s, c.maxStale != 0, a.replies, rest);
      if t.phase.AtTop? {
        PushesDeliveries(c, t.state, p, t.retries, attempts[1..]);
      }
    }
  }

  /** For any upstream, any failures and any retries: what the poll of an unstopped view pushes is
      the data its fetches received that got past the index test, nil filtered for blocking
      queries and adjacent repeats removed. */
  lemma PushesFresh(c: Config, s: State, p: Policy, attempts: seq<Attempt>)
    requires Sane(c, s) && forall a :: a in attempts ==> a.stop.Never?
    ensures var passing := Passing(c, c.maxStale != 0, LifeOf(c, s, p, 0, attempts));
            PollWith(c, s, p, 0, attempts).pushed == Destutter(Held(s), Wanted(c, Fresh(s.lastIndex, passing)))
  {
    PushesDeliveries(c, s, p, 0, attempts);
    DeliversFresh(c, s, c.maxStale != 0, LifeOf(c, s, p, 0, attempts));
  }

  /** And for a new view of a faithful upstream it is every change, once and in order. */
  lemma PushesEveryChange(c: Config, p: Policy, attempts: seq<Attempt>)
    requires forall a :: a in attempts ==> a.stop.Never?
    requires Faithful(0, None, Passing(c, c.maxStale != 0, LifeOf(c, NEW_STATE, p, 0, attempts)))
    ensures PollWith(c, NEW_STATE, p, 0, attempts).pushed ==
            Destutter(None, Wanted(c, Answers(Passing(c, c.maxStale != 0, LifeOf(c, NEW_STATE, p, 0, attempts)))))
  {
    PushesDeliveries(c, NEW_STATE, p, 0, attempts);
    DeliversEveryChange(c, LifeOf(c, NEW_STATE, p, 0, attempts));
  }

  // --- what the requests of a poll wait on ---

  function Heard(c: Config, s: State, a: Attempt): seq<Event> {
    ToLife(Consumed(FetchWith(c, s, c.maxStale != 0, a.replies), a.replies))
  }

  lemma {:induction false} TurnLived(c: Config, s: State, p: Policy, retries: nat, a: Attempt)
    requires TurnOf(c, s, p, retries, a).phase.AtTop?
    ensures Lived(c, s, c.maxStale != 0, Heard(c, s, a)) == (TurnOf(c, s, p, retries, a).state, c.maxStale != 0)
  {
    FetchLived(c, s, c.maxStale != 0, a.replies);
  }

  lemma {:induction false} PollLived(c: Config, s: State, p: Policy, retries: nat, attempts: seq<Attempt>)
    requires PollWith(c, s, p, retries, attempts).phase.AtTop?
    ensures Lived(c, s, c.maxStale != 0, LifeOf(c, s, p, retries, attempts)) ==
            (PollWith(c, s, p, retries, attempts).state, c.maxStale != 0)
    decreases |attempts|
  {
    if attempts != [] {
      var t := TurnOf(c, s, p, retries, attempts[0]);
      var rest := LifeOf(c, t.state, p, t.retries, attempts[1..]);
      PollLived(c, t.state, p, t.retries, attempts[1..]);
      TurnLived(c, s, p, retries, attempts[0]);
      LivedAppend(c, s, c.maxStale != 0, Heard(c, s, attempts[0]), rest);
      assert LifeOf(c, s, p, retries, attempts) == Heard(c, s, attempts[0]) + rest;
    }
  }

  /** Over the whole life of a view: request `k` of fetch `i` of its poll waits on the index that all
      replies before it, to that fetch and to the earlier ones, have left. */
  lemma RequestsOverLife(c: Config, s: State, p: Policy, attempts: seq<Attempt>, i: nat, k: nat)
    requires i < |attempts| && k <= |attempts[i].replies|
    requires PollWith(c, s, p, 0, attempts[..i]).phase.AtTop?
    requires var now := PollWith(c, s, p, 0, attempts[..i]).state;
      FetchWith(c, now, c.maxStale != 0, attempts[i].replies[..k]).outcome.Waiting?
    requires k < |attempts[i].replies| ==> !attempts[i].replies[k].Stopped?
    ensures var now := PollWith(c, s, p, 0, attempts[..i]).state;
      var requests := FetchWith(c, now, c.maxStale != 0, attempts[i].replies).requests;
      var life := LifeOf(c, s, p, 0, attempts[..i]) + ToLife(attempts[i].replies[..k]);
      && k < |requests|
      && (requests[k].allowStale, requests[k].waitIndex) ==
         (Lived(c, s, c.maxStale != 0, life).1, Lived(c, s, c.maxStale != 0, life).0.lastIndex)
  {
    var replies, now := attempts[i].replies, PollWith(c, s, p, 0, attempts[..i]).state;
    RequestsWaitOnIndex(c, now, c.maxStale != 0, replies, k);
    PollLived(c, s, p, 0, attempts[..i]);
    FetchLived(c, now, c.maxStale != 0, replies[..k]);
    LivedAppend(c, s, c.maxStale != 0, LifeOf(c, s, p, 0, attempts[..i]), ToLife(replies[..k]));
  }

  // --- retry accounting ---

  /** Some response came in the same fetch before the failure. */
  predicate RespondedFirst(a: Attempt) {
    |a.replies| > 0 && a.replies[0].Response?
  }

  /** On a view that is not stopped a failed fetch is followed by another exactly if the error is no
      400, there is a retry function, and it grants the count; otherwise the error is offered. The
      count starts over if the success message of a response was taken first. */
  lemma {:induction false} RetriedIff(c: Config, s: State, p: Policy, retries: nat, a: Attempt, e: Failure)
    requires a.stop.Never? && FetchWith(c, s, c.maxStale != 0, a.replies).outcome == Failed(e)
    ensures var t := TurnOf(c, s, p, retries, a); var count := if a.heard && RespondedFirst(a) then 0 else retries;
      && t.pushed == []
      && (t.phase.AtTop? <==> e != BadRequest && p != NoRetry && p.grant(count))
      && (t.phase.AtTop? ==> t.offered == None && t.retries == count + 1)
      && (!t.phase.AtTop? ==> t.phase.Returned? && t.offered == Some(e))
  {
    FailedRequests(c, s, c.maxStale != 0, a.replies, e);
  }

  lemma {:induction false} FailedRequests(c: Config, s: State, allowStale: bool, replies: seq<Reply>, e: Failure)
    requires FetchWith(c, s, allowStale, replies).outcome == Failed(e)
    ensures replies != [] && (replies[0].Response? <==> |FetchWith(c, s, allowStale, replies).requests| > 1)
  {
    if replies != [] && replies[0].Response? {
      FetchEnds(c, s, allowStale, replies);
    }
  }

  /** So in a whole poll: it offers the first failure that is not retried, and ends with it. */
  lemma {:induction false} OffersFirstUnretried(c: Config, s: State, p: Policy, retries: nat, attempts: seq<Attempt>,
                                                k: nat, e: Failure)
    requires k < |attempts| && attempts[k].stop.Never?
    requires PollWith(c, s, p, retries, attempts[..k]).phase.AtTop?
    requires var now := PollWith(c, s, p, retries, attempts[..k]).state;
      FetchWith(c, now, c.maxStale != 0, attempts[k].replies).outcome == Failed(e)
    requires e == BadRequest || p == NoRetry || forall count: nat :: !p.grant(count)
    ensures var r := PollWith(c, s, p, retries, attempts);
      r.phase.Returned? && r.offered == Some(e) && r.fetches == k + 1
    decreases |attempts|
  {
    var t := TurnOf(c, s, p, retries, attempts[0]);
    if k == 0 {
      assert attempts[..0] == [];
      RetriedIff(c, s, p, retries, attempts[0], e);
    } else {
      PollPrefix(c, s, p, retries, attempts, k);
      assert attempts[1..][k - 1] == attempts[k];
      OffersFirstUnretried(c, t.state, p, t.retries, attempts[1..], k - 1, e);
    }
  }

  ghost predicate GrantsBelow(p: Policy, n: nat) {
    p.Retry? && forall k: nat :: p.grant(k) <==> k < n
  }

  /** Successes, stops and the free choice between two ready messages included. */
  lemma {:induction false} RetriesBounded(c: Config, s: State, p: Policy, n: nat, retries: nat, attempts: seq<Attempt>)
    requires GrantsBelow(p, n) && retries <= n
    ensures PollWith(c, s, p, retries, attempts).peak <= n
    decreases |attempts|
  {
    if attempts != [] {
      var t := TurnOf(c, s, p, retries, attempts[0]);
      if t.phase.AtTop? {
        RetriesBounded(c, t.state, p, n, t.retries, attempts[1..]);
      }
    }
  }

  /** The fetch fails at once, retryably, and the view is not stopped. */
  ghost predicate JustFails(a: Attempt) {
    && a.stop.Never? && |a.replies| > 0
    && (a.replies[0].NoMetadata? || (a.replies[0].Broken? && !a.replies[0].error.BadRequest?))
  }

  function ErrorOf(a: Attempt): Failure {
    if |a.replies| > 0 && a.replies[0].Broken? then a.replies[0].error else NilMetadata
  }

  lemma {:induction false} FailTurn(c: Config, s: State, p: Policy, n: nat, retries: nat, a: Attempt)
    requires GrantsBelow(p, n) && retries <= n && JustFails(a)
    ensures var t := TurnOf(c, s, p, retries, a);
      && t.pushed == []
      && if retries < n then t.phase.AtTop? && t.retries == retries + 1 && t.offered == None
         else t.phase.Returned? && t.offered == Some(ErrorOf(a))
  {
  }

  /** A run of nothing but such failures offers the error of the fetch after the last
      retry granted: with none used yet, of fetch number n + 1. */
  lemma {:induction false} OffersAfterRetries(c: Config, s: State, p: Policy, n: nat, retries: nat,
                                              attempts: seq<Attempt>)
    requires GrantsBelow(p, n) && retries <= n && |attempts| > n - retries
    requires forall a :: a in attempts ==> JustFails(a)
    ensures var r := PollWith(c, s, p, retries, attempts);
      && r.fetches == n - retries + 1 && r.pushed == [] && r.peak == n && r.phase.Returned?
      && r.offered == Some(ErrorOf(attempts[n - retries]))
    decreases |attempts|
  {
    var a := attempts[0];
    assert JustFails(a);
    FailTurn(c, s, p, n, retries, a);
    var t := TurnOf(c, s, p, retries, a);
    if retries < n {
      OffersAfterRetries(c, t.state, p, n, retries + 1, attempts[1..]);
    }
  }

  /** Any success sets the count back, so an outage later gets its full n retries again. */
  lemma DeliveryRestoresRetries(c: Config, s: State, p: Policy, n: nat, retries: nat, a: Attempt, outage: seq<Attempt>)
    requires GrantsBelow(p, n) && retries <= n && |outage| > n
    requires FetchWith(c, s, c.maxStale != 0, a.replies).outcome.Delivered? && a.stop.Never?
    requires forall b :: b in outage ==> JustFails(b)
    ensures PollWith(c, s, p, retries, [a] + outage).fetches == n + 2
  {
    var t := TurnOf(c, s, p, retries, a);
    assert ([a] + outage)[1..] == outage;
    OffersAfterRetries(c, t.state, p, n, 0, outage);
  }

  // --- one poll past the flag, one fetch running ---

  datatype Poller =
    | Called                    // go v.poll, not yet at the flag
    | Inside(fetching: bool)    // past the flag; its fetch goroutine runs or is done
    | Gone(fetching: bool)      // returned; a fetch it left behind may still run

  datatype Pollers = Pollers(flag: bool, stopped: bool, polls: seq<Poller>)

  datatype PollStep =
    | Call
    | Pass(i: nat)      // pollingFlag
    | Launch(i: nat)    // go v.fetch
    | Report(i: nat)    // the fetch sends its outcome and returns
    | Leave(i: nat)     // the poll returns and clears the flag
    | Stop

  ghost predicate CanStep(s: Pollers, a: PollStep) {
    match a
    case Call => true
    case Stop => !s.stopped
    case Pass(i) => i < |s.polls| && s.polls[i].Called?
    case Launch(i) => i < |s.polls| && s.polls[i] == Inside(false)
    case Report(i) => i < |s.polls| && !s.polls[i].Called? && s.polls[i].fetching
    // an unstopped view's poll returns only with its fetch's error in hand
    case Leave(i) => i < |s.polls| && s.polls[i].Inside? && (s.stopped || !s.polls[i].fetching)
  }

  ghost function PollersAfter(s: Pollers, a: PollStep): Pollers
    requires CanStep(s, a)
  {
    match a
    case Call => s.(polls := s.polls + [Called])
    case Pass(i) =>
      if s.flag then s.(polls := s.polls[i := Gone(false)])
      else s.(flag := true, polls := s.polls[i := Inside(false)])
    case Launch(i) => s.(polls := s.polls[i := Inside(true)])
    case Report(i) =>
      s.(polls := s.polls[i := if s.polls[i].Inside? then Inside(false) else Gone(false)])
    case Leave(i) => s.(flag := false, polls := s.polls[i := Gone(s.polls[i].fetching)])
    case Stop => s.(stopped := true)
  }

  ghost predicate OneAtATime(s: Pollers) {
    && (forall i, j :: 0 <= i < j < |s.polls| ==> !(s.polls[i].Inside? && s.polls[j].Inside?))
    && (s.flag <==> exists i :: 0 <= i < |s.polls| && s.polls[i].Inside?)
    && (!s.stopped ==> forall i :: 0 <= i < |s.polls| && s.polls[i].Gone? ==> !s.polls[i].fetching)
  }

  lemma OneAtATimeStep(s: Pollers, a: PollStep)
    requires OneAtATime(s) && CanStep(s, a)
    ensures OneAtATime(PollersAfter(s, a))
  {
    var u := PollersAfter(s, a);
    if s.flag && !a.Leave? {
      var i :| 0 <= i < |s.polls| && s.polls[i].Inside?;
      assert u.polls[i].Inside?;
    }
    if a.Pass? && !s.flag {
      assert u.polls[a.i].Inside?;
    }
  }

  /** However often and whenever poll is called: never two polls past the flag, and on a
      view not yet stopped never two fetches running. */
  lemma {:induction false} SinglePoller(run: seq<Pollers>, steps: seq<PollStep>)
    requires |run| == |steps| + 1 && run[0] == Pollers(false, false, [])
    requires forall i :: 0 <= i < |steps| ==> CanStep(run[i], steps[i]) && run[i + 1] == PollersAfter(run[i], steps[i])
    ensures var s := run[|steps|];
      && OneAtATime(s)
      && (!s.stopped ==> forall i, j :: 0 <= i < j < |s.polls| ==>
            s.polls[i].Called? || s.polls[j].Called? || !s.polls[i].fetching || !s.polls[j].fetching)
    decreases |steps|
  {
    if steps != [] {
      var k := |steps| - 1;
      SinglePoller(run[..k + 1], steps[..k]);
      OneAtATimeStep(run[k], steps[k]);
    }
  }
}
