// view.go: fetching. A dependency's upstream is a list of replies, one per request.

module Viewing {
  import opened Storing

  /** The data of a response; None is Go's nil. */
  type Payload = Option<Value>

  datatype Failure = BadRequest | ServerError | Other | NilMetadata

  datatype Reply =
    | Response(data: Payload, index: nat, contact: nat)
    | NoMetadata             // a response without metadata
    | Broken(error: Failure) // any error but the next two
    | Cancelled              // ErrStopped, or a cancelled context
    | Stopped                // the view was found stopped before asking

  datatype Request = Request(allowStale: bool, waitIndex: nat)

  datatype Outcome =
    | Delivered        // doneCh: new data is in the view
    | Failed(error: Failure)
    | Silent(sawStop: bool) // returned without a word
    | Waiting          // still waiting for a reply

  /** `maxStale` 0 turns stale reads off; `blocking` is the BlockingQuery marker. */
  datatype Config = Config(maxStale: nat, blocking: bool)

  datatype State = State(data: Payload, received: bool, lastIndex: nat)

  const NEW_STATE := State(None, false, 0)

  datatype Verdict = Stale | SameIndex | Regressed | NoNewData | NilWait | New

  /** What fetch makes of one response. */
  function Judge(c: Config, s: State, allowStale: bool, r: Reply): Verdict
    requires r.Response?
  {
    if allowStale && r.contact > c.maxStale then Stale
    else if r.index == s.lastIndex then SameIndex
    else if r.index < s.lastIndex then Regressed
    else if s.received && r.data == s.data then NoNewData
    else if c.blocking && r.data.None? then NilWait
    else New
  }

  function Digest(c: Config, s: State, allowStale: bool, r: Reply): State
    requires r.Response?
  {
    match Judge(c, s, allowStale, r)
    case Stale => s
    case SameIndex => s
    case Regressed => s.(lastIndex := 0)
    case NoNewData => s.(lastIndex := r.index)
    case NilWait => s.(lastIndex := r.index)
    case New => State(r.data, true, r.index)
  }

  /** Whether the next request may be answered with stale data. */
  function NextStale(c: Config, v: Verdict): bool {
    !v.Stale? && c.maxStale != 0
  }

  datatype Fetched = Fetched(state: State, outcome: Outcome, requests: seq<Request>)

  /** One call of fetch against these replies. */
  function FetchWith(c: Config, s: State, allowStale: bool, replies: seq<Reply>): Fetched
    decreases |replies|
  {
    if replies == [] then
      Fetched(s, Waiting, [Request(allowStale, s.lastIndex)])
    else if replies[0].Stopped? then
      Fetched(s, Silent(true), [])
    else
      var r, req := replies[0], Request(allowStale, s.lastIndex);
      match r
      case NoMetadata => Fetched(s, Failed(NilMetadata), [req])
      case Broken(e) => Fetched(s, Failed(e), [req])
      case Cancelled => Fetched(s, Silent(false), [req])
      case Response(_, _, _) =>
        var v, u := Judge(c, s, allowStale, r), Digest(c, s, allowStale, r);
        if v.New? then Fetched(u, Delivered, [req])
        else
          After([req], FetchWith(c, u, NextStale(c, v), replies[1..]))
  }

  function After(requests: seq<Request>, f: Fetched): Fetched {
    f.(requests := requests + f.requests)
  }

  lemma AfterTwice(xs: seq<Request>, ys: seq<Request>, f: Fetched)
    ensures After(xs, After(ys, f)) == After(xs + ys, f)
  {
    assert xs + (ys + f.requests) == xs + ys + f.requests;
  }

  class View {
    const config: Config
    var data: Payload
    var receivedData: bool
    var lastIndex: nat
    var isPolling: bool

    ghost function Now(): State
      reads this
    {
      State(data, receivedData, lastIndex)
    }

    constructor (config: Config)
      ensures this.config == config && Now() == NEW_STATE && !isPolling
    {
      this.config := config;
      isPolling := false;
      data, receivedData, lastIndex := None, false, 0;
    }

    /** Checks and sets the flag in one critical section. */
    method PollingFlag() returns (alreadyPolling: bool)
      modifies this`isPolling
      ensures alreadyPolling == old(isPolling) && isPolling
    {
      if isPolling {
        return true;
      }
      isPolling := true;
      alreadyPolling := false;
    }

    method Store(value: Payload)
      modifies this`data, this`receivedData
      ensures Now() == old(Now()).(data := value, received := true)
    {
      data := value;
      if !receivedData {
        receivedData := true;
      }
    }

    /** fetch after the staleness test: index and equality shortcuts, then the store. */
    method Absorb(r: Reply) returns (isNew: bool)
      requires r.Response?
      modifies this`data, this`receivedData, this`lastIndex
      ensures Now() == Digest(config, old(Now()), false, r)
      ensures isNew <==> Judge(config, old(Now()), false, r).New?
    {
      if r.index == lastIndex {
        return false;
      }
      if r.index < lastIndex {
        lastIndex := 0;
        return false;
      }
      lastIndex := r.index;
      if receivedData && r.data == data {
        return false;
      }
      if config.blocking && r.data == None {
        return false;
      }
      Store(r.data);
      isNew := true;
    }

    /** The loop asks again until it has something to report. */
    method Fetch(replies: seq<Reply>) returns (outcome: Outcome, requests: seq<Request>)
      modifies this`data, this`receivedData, this`lastIndex
      ensures Fetched(Now(), outcome, requests) ==
              FetchWith(config, old(Now()), config.maxStale != 0, replies)
    {
      var allowStale := false;
      if config.maxStale != 0 {
        allowStale := true;
      }
      requests := [];
      ghost var all := FetchWith(config, Now(), allowStale, replies);
      for i := 0 to |replies|
        invariant config.maxStale == 0 ==> !allowStale
        invariant all == After(requests, FetchWith(config, Now(), allowStale, replies[i..]))
      {
        var r := replies[i];
        assert replies[i..][0] == r && replies[i..][1..] == replies[i + 1..];
        if r.Stopped? {
          return Silent(true), requests;
        }
        ghost var before := requests;
        var req := Request(allowStale, lastIndex);
        requests := requests + [req];
        match r {
          case NoMetadata => return Failed(NilMetadata), requests;
          case Broken(e) => return Failed(e), requests;
          case Cancelled => return Silent(false), requests;
          case Response(_, _, contact) =>
            if allowStale && contact > config.maxStale {
              allowStale := false;
            } else {
              if config.maxStale != 0 {
                allowStale := true;
              }
              var isNew := Absorb(r);
              if isNew {
                return Delivered, requests;
              }
            }
            AfterTwice(before, [req], FetchWith(config, Now(), allowStale, replies[i + 1..]));
        }
      }
      outcome := Waiting;
      requests := requests + [Request(allowStale, lastIndex)];
    }
  }

  // --- the shortcuts, one response at a time ---

  /** lastIndex only ever grows, or starts over at 0. */
  lemma IndexGrowsOrRestarts(c: Config, s: State, allowStale: bool, r: Reply)
    requires r.Response?
    ensures var u := Digest(c, s, allowStale, r);
      && (u.lastIndex == s.lastIndex || u.lastIndex > s.lastIndex || u.lastIndex == 0)
      && (u.lastIndex > s.lastIndex ==> u.lastIndex == r.index)
      && (u.lastIndex < s.lastIndex <==> Judge(c, s, allowStale, r).Regressed?)
  {
  }

  /** After a response dropped as stale the very next request insists on fresh data,
      and its response is not dropped for staleness. */
  lemma StaleThenFresh(c: Config, s: State, allowStale: bool, replies: seq<Reply>)
    requires replies != [] && replies[0].Response? && Judge(c, s, allowStale, replies[0]).Stale?
    requires |replies| >= 2 && !replies[1].Stopped?
    ensures var f := FetchWith(c, s, allowStale, replies);
      && |f.requests| >= 2 && f.requests[0].allowStale && !f.requests[1].allowStale
      && (replies[1].Response? ==> !Judge(c, s, false, replies[1]).Stale?)
  {
    assert replies[1..][0] == replies[1];
  }

  // --- what a fetch asks for, and what it ends with ---

  /** Whether the request after some replies may be answered with stale data: not right after a
      stale response, otherwise if stale reads are on at all. */
  function MayBeStale(c: Config, allowStale: bool, replies: seq<Reply>): bool
    decreases |replies|
  {
    if replies == [] then allowStale
    else
      var r := replies[0];
      MayBeStale(c, c.maxStale != 0 && !(r.Response? && allowStale && r.contact > c.maxStale), replies[1..])
  }

  lemma {:induction false} FetchMore(c: Config, s: State, allowStale: bool, replies: seq<Reply>, k: nat)
    requires 0 < k <= |replies| && replies[0].Response? && !Judge(c, s, allowStale, replies[0]).New?
    ensures var u, next := Digest(c, s, allowStale, replies[0]), NextStale(c, Judge(c, s, allowStale, replies[0]));
      && FetchWith(c, s, allowStale, replies[..k]) ==
         After([Request(allowStale, s.lastIndex)], FetchWith(c, u, next, replies[1..][..k - 1]))
      && MayBeStale(c, allowStale, replies[..k]) == MayBeStale(c, next, replies[1..][..k - 1])
  {
    assert replies[..k][0] == replies[0] && replies[..k][1..] == replies[1..][..k - 1];
  }

  /** A fetch that is still asking after `k` replies, and has not found the view stopped, has sent
      request number `k`, and that waits on the index the view holds at that point. */
  lemma {:induction false} RequestsWaitOnIndex(c: Config, s: State, allowStale: bool, replies: seq<Reply>, k: nat)
    requires k <= |replies| && FetchWith(c, s, allowStale, replies[..k]).outcome.Waiting?
    requires k < |replies| ==> !replies[k].Stopped?
    ensures var requests := FetchWith(c, s, allowStale, replies).requests;
      && k < |requests|
      && requests[k].waitIndex == FetchWith(c, s, allowStale, replies[..k]).state.lastIndex
      && requests[k].allowStale == MayBeStale(c, allowStale, replies[..k])
    decreases |replies|
  {
    if k == 0 {
      assert replies[..0] == [];
    } else {
      assert replies[..k][0] == replies[0];
      FetchMore(c, s, allowStale, replies, k);
      FetchMore(c, s, allowStale, replies, |replies|);
      assert replies[..|replies|] == replies && replies[1..][..|replies| - 1] == replies[1..];
      var u, next := Digest(c, s, allowStale, replies[0]), NextStale(c, Judge(c, s, allowStale, replies[0]));
      RequestsWaitOnIndex(c, u, next, replies[1..], k - 1);
    }
  }

  /** The reply that ended a fetch, and nothing else, decides what it reports. */
  lemma {:induction false} FetchEnds(c: Config, s: State, allowStale: bool, replies: seq<Reply>)
    ensures var f := FetchWith(c, s, allowStale, replies);
      match f.outcome
      case Delivered =>
        && 0 < |f.requests| <= |replies|
        && var r := replies[|f.requests| - 1]; r.Response? && f.state == State(r.data, true, r.index)
      case Failed(e) =>
        && 0 < |f.requests| <= |replies|
        && var r := replies[|f.requests| - 1]; r == Broken(e) || (r.NoMetadata? && e.NilMetadata?)
      case Silent(sawStop) =>
        if sawStop then |f.requests| < |replies| && replies[|f.requests|].Stopped?
        else 0 < |f.requests| <= |replies| && replies[|f.requests| - 1].Cancelled?
      case Waiting => |f.requests| == |replies| + 1
    decreases |replies|
  {
    if replies != [] && replies[0].Response? && !Judge(c, s, allowStale, replies[0]).New? {
      var u, next := Digest(c, s, allowStale, replies[0]), NextStale(c, Judge(c, s, allowStale, replies[0]));
      FetchEnds(c, u, next, replies[1..]);
    }
  }

  /** The first request after a delivery waits on the index that came with the data. */
  lemma DeliveryThenRequest(c: Config, s: State, allowStale: bool, replies: seq<Reply>, more: seq<Reply>)
    requires FetchWith(c, s, allowStale, replies).outcome.Delivered?
    requires more != [] ==> !more[0].Stopped?
    ensures var f := FetchWith(c, s, allowStale, replies);
      var requests := FetchWith(c, f.state, c.maxStale != 0, more).requests;
      && 0 < |f.requests| <= |replies| && replies[|f.requests| - 1].Response?
      && requests != [] && requests[0] == Request(c.maxStale != 0, replies[|f.requests| - 1].index)
  {
    FetchEnds(c, s, allowStale, replies);
  }

  // --- when a fetch says nothing ---

  ghost predicate Quitting(r: Reply) {
    r.Stopped? || r.Cancelled?
  }

  /** Some reply makes the fetch return without a word, and it gets that far. */
  ghost predicate Hushed(c: Config, s: State, allowStale: bool, replies: seq<Reply>) {
    exists k :: 0 <= k < |replies| && Quitting(replies[k]) &&
      FetchWith(c, s, allowStale, replies[..k]).outcome.Waiting?
  }

  /** A fetch reports neither data nor an error exactly if, while it was still asking, it found the
      view stopped or its request cancelled. */
  lemma {:induction false} SilentIff(c: Config, s: State, allowStale: bool, replies: seq<Reply>)
    ensures FetchWith(c, s, allowStale, replies).outcome.Silent? <==> Hushed(c, s, allowStale, replies)
    decreases |replies|
  {
    if replies != [] && !Quitting(replies[0]) {
      var r := replies[0];
      if r.Response? && !Judge(c, s, allowStale, r).New? {
        var u, next := Digest(c, s, allowStale, r), NextStale(c, Judge(c, s, allowStale, r));
        SilentIff(c, u, next, replies[1..]);
        forall k | 0 < k < |replies|
          ensures FetchWith(c, s, allowStale, replies[..k]).outcome ==
                  FetchWith(c, u, next, replies[1..][..k - 1]).outcome
        {
          assert replies[..k][0] == r && replies[..k][1..] == replies[1..][..k - 1];
        }
        if Hushed(c, u, next, replies[1..]) {
          var k :| 0 <= k < |replies[1..]| && Quitting(replies[1..][k]) &&
            FetchWith(c, u, next, replies[1..][..k]).outcome.Waiting?;
          assert Quitting(replies[k + 1]);
        }
      } else {
        forall k | 0 < k < |replies|
          ensures !FetchWith(c, s, allowStale, replies[..k]).outcome.Waiting?
        {
          assert replies[..k][0] == r;
        }
      }
    } else if replies != [] {
      assert replies[..0] == [];
    }
  }

  /** It then knows which of the two it was. */
  lemma {:induction false} SilentBy(c: Config, s: State, allowStale: bool, replies: seq<Reply>, k: nat)
    requires k < |replies| && Quitting(replies[k]) && FetchWith(c, s, allowStale, replies[..k]).outcome.Waiting?
    ensures FetchWith(c, s, allowStale, replies).outcome == Silent(replies[k].Stopped?)
    decreases |replies|
  {
    if k > 0 {
      assert replies[..k][0] == replies[0];
      FetchMore(c, s, allowStale, replies, k);
      FetchMore(c, s, allowStale, replies, |replies|);
      assert replies[..|replies|] == replies && replies[1..][..|replies| - 1] == replies[1..];
      assert replies[1..][k - 1] == replies[k];
      var u, next := Digest(c, s, allowStale, replies[0]), NextStale(c, Judge(c, s, allowStale, replies[0]));
      SilentBy(c, u, next, replies[1..], k - 1);
    }
  }

  /** So a caller whose upstream is neither stopped nor cancelled gets data or an error, or waits. */
  lemma NeverSilent(c: Config, s: State, allowStale: bool, replies: seq<Reply>)
    requires forall r :: r in replies ==> !Quitting(r)
    ensures !FetchWith(c, s, allowStale, replies).outcome.Silent?
  {
    SilentIff(c, s, allowStale, replies);
  }

  // --- a view's whole life ---

  /** What happens to a view: an answer to a request, or a fresh fetch after a failed
      one, before which the poll forgets the index if the failure was a 500. */
  datatype Event =
    | Answer(data: Payload, index: nat, contact: nat)
    | Refetch(forget: bool)

  /** The data delivered over a life, a fetch that delivered being followed by the next. */
  function Deliveries(c: Config, s: State, allowStale: bool, life: seq<Event>): seq<Payload>
    decreases |life|
  {
    if life == [] then []
    else match life[0]
      case Refetch(forget) =>
        Deliveries(c, if forget then s.(lastIndex := 0) else s, c.maxStale != 0, life[1..])
      case Answer(data, index, contact) =>
        var r := Response(data, index, contact);
        var v, u := Judge(c, s, allowStale, r), Digest(c, s, allowStale, r);
        var rest := Deliveries(c, u, NextStale(c, v), life[1..]);
        if v.New? then [data] + rest else rest
  }

  /** The answers that are not dropped as stale, and the refetches. */
  function Passing(c: Config, allowStale: bool, life: seq<Event>): seq<Event>
    decreases |life|
  {
    if life == [] then []
    else match life[0]
      case Refetch(_) => [life[0]] + Passing(c, c.maxStale != 0, life[1..])
      case Answer(_, _, contact) =>
        if allowStale && contact > c.maxStale then Passing(c, false, life[1..])
        else [life[0]] + Passing(c, c.maxStale != 0, life[1..])
  }

  /** Of those, the answers whose index gets past the view's: the index machine alone. */
  function Fresh(lastIndex: nat, passing: seq<Event>): seq<Payload>
    decreases |passing|
  {
    if passing == [] then []
    else match passing[0]
      case Refetch(forget) => Fresh(if forget then 0 else lastIndex, passing[1..])
      case Answer(data, index, _) =>
        if index > lastIndex then [data] + Fresh(index, passing[1..])
        else Fresh(if index < lastIndex then 0 else lastIndex, passing[1..])
  }

  function Answers(passing: seq<Event>): seq<Payload>
    decreases |passing|
  {
    if passing == [] then []
    else if passing[0].Answer? then [passing[0].data] + Answers(passing[1..])
    else Answers(passing[1..])
  }

  /** A blocking query never delivers nil. */
  function Wanted(c: Config, xs: seq<Payload>): seq<Payload>
    decreases |xs|
  {
    if xs == [] then []
    else if c.blocking && xs[0].None? then Wanted(c, xs[1..])
    else [xs[0]] + Wanted(c, xs[1..])
  }

  /** Adjacent repeats removed, the first being compared with `last`. */
  function Destutter(last: Option<Payload>, xs: seq<Payload>): seq<Payload>
    decreases |xs|
  {
    if xs == [] then []
    else if last == Some(xs[0]) then Destutter(last, xs[1..])
    else [xs[0]] + Destutter(Some(xs[0]), xs[1..])
  }

  function Held(s: State): Option<Payload> {
    if s.received then Some(s.data) else None
  }

  /** A blocking view never holds nil. */
  ghost predicate Sane(c: Config, s: State) {
    c.blocking && s.received ==> s.data.Some?
  }

  lemma {:induction false} ConcatWanted(c: Config, x: Payload, xs: seq<Payload>)
    ensures Wanted(c, [x] + xs) == if c.blocking && x.None? then Wanted(c, xs) else [x] + Wanted(c, xs)
  {
    assert ([x] + xs)[1..] == xs;
  }

  lemma {:induction false} ConcatDestutter(last: Option<Payload>, x: Payload, xs: seq<Payload>)
    ensures Destutter(last, [x] + xs) == if last == Some(x) then Destutter(last, xs) else [x] + Destutter(Some(x), xs)
  {
    assert ([x] + xs)[1..] == xs;
  }

  lemma {:induction false} DeliveriesCons(c: Config, s: State, allowStale: bool, e: Event, life: seq<Event>)
    ensures ([e] + life)[1..] == life
    ensures Deliveries(c, s, allowStale, [e] + life) == match e
      case Refetch(forget) => Deliveries(c, if forget then s.(lastIndex := 0) else s, c.maxStale != 0, life)
      case Answer(data, index, contact) =>
        var r := Response(data, index, contact);
        var v, u := Judge(c, s, allowStale, r), Digest(c, s, allowStale, r);
        (if v.New? then [data] else []) + Deliveries(c, u, NextStale(c, v), life)
  {
    assert ([e] + life)[1..] == life;
  }

  lemma {:induction false} FreshCons(lastIndex: nat, e: Event, rest: seq<Event>)
    ensures Fresh(lastIndex, [e] + rest) == match e
      case Refetch(forget) => Fresh(if forget then 0 else lastIndex, rest)
      case Answer(data, index, _) =>
        if index > lastIndex then [data] + Fresh(index, rest)
        else Fresh(if index < lastIndex then 0 else lastIndex, rest)
  {
    assert ([e] + rest)[1..] == rest;
  }

  /** One passing answer: it is delivered exactly if the specification lists it next. */
  lemma {:induction false} PassingDelivers(c: Config, s: State, allowStale: bool, e: Event, rest: seq<Event>)
    requires Sane(c, s) && e.Answer?
    requires !Judge(c, s, allowStale, Response(e.data, e.index, e.contact)).Stale?
    ensures var r := Response(e.data, e.index, e.contact);
            var v, u := Judge(c, s, allowStale, r), Digest(c, s, allowStale, r);
            && Sane(c, u)
            && Destutter(Held(s), Wanted(c, Fresh(s.lastIndex, [e] + rest))) ==
               (if v.New? then [e.data] else []) + Destutter(Held(u), Wanted(c, Fresh(u.lastIndex, rest)))
  {
    FreshCons(s.lastIndex, e, rest);
    ConcatWanted(c, e.data, Fresh(e.index, rest));
    ConcatDestutter(Held(s), e.data, Wanted(c, Fresh(e.index, rest)));
  }

  /** For any upstream whatever: what is delivered is the fresh data, de-stuttered. */
  lemma {:induction false} DeliversFresh(c: Config, s: State, allowStale: bool, life: seq<Event>)
    requires Sane(c, s)
    ensures Deliveries(c, s, allowStale, life) ==
            Destutter(Held(s), Wanted(c, Fresh(s.lastIndex, Passing(c, allowStale, life))))
    decreases |life|
  {
    if life != [] {
      var e, more := life[0], life[1..];
      assert life == [e] + more;
      DeliveriesCons(c, s, allowStale, e, more);
      match e
      case Refetch(forget) =>
        DeliversFresh(c, if forget then s.(lastIndex := 0) else s, c.maxStale != 0, more);
        FreshCons(s.lastIndex, e, Passing(c, c.maxStale != 0, more));
      case Answer(data, index, contact) =>
        var r := Response(data, index, contact);
        var v, u := Judge(c, s, allowStale, r), Digest(c, s, allowStale, r);
        DeliversFresh(c, u, NextStale(c, v), more);
        if !v.Stale? {
          PassingDelivers(c, s, allowStale, e, Passing(c, c.maxStale != 0, more));
        }
    }
  }

  /** The events these replies amount to; a view found stopped or cancelled has no more. */
  function ToLife(replies: seq<Reply>): seq<Event>
    decreases |replies|
  {
    if replies == [] then []
    else match replies[0]
      case Response(data, index, contact) => [Answer(data, index, contact)] + ToLife(replies[1..])
      case NoMetadata => [Refetch(false)] + ToLife(replies[1..])
      case Broken(e) => [Refetch(e.ServerError?)] + ToLife(replies[1..])
      case _ => []
  }

  /** One call of fetch is one delivery's worth of the life. */
  lemma {:induction false} FetchIsLife(c: Config, s: State, allowStale: bool, replies: seq<Reply>)
    ensures var f := FetchWith(c, s, allowStale, replies); var all := Deliveries(c, s, allowStale, ToLife(replies));
      match f.outcome
      case Delivered =>
        && |f.requests| <= |replies|
        && all == [f.state.data] + Deliveries(c, f.state, c.maxStale != 0, ToLife(replies[|f.requests|..]))
      case Failed(e) =>
        && |f.requests| <= |replies|
        && all == Deliveries(c, if e.ServerError? then f.state.(lastIndex := 0) else f.state,
                             c.maxStale != 0, ToLife(replies[|f.requests|..]))
      case _ => all == []
    decreases |replies|
  {
    if replies != [] {
      var rest := ToLife(replies[1..]);
      match replies[0] {
        case Response(data, index, contact) =>
          var r := replies[0];
          var v, u := Judge(c, s, allowStale, r), Digest(c, s, allowStale, r);
          assert ([Answer(data, index, contact)] + rest)[1..] == rest;
          FetchIsLife(c, u, NextStale(c, v), replies[1..]);
          var f := FetchWith(c, u, NextStale(c, v), replies[1..]);
          if !v.New? && (f.outcome.Delivered? || f.outcome.Failed?) {
            assert replies[1..][|f.requests|..] == replies[1 + |f.requests|..];
          }
        case NoMetadata =>
          assert ([Refetch(false)] + rest)[1..] == rest;
        case Broken(e) =>
          assert ([Refetch(e.ServerError?)] + rest)[1..] == rest;
        case _ =>
      }
    }
  }

  /** The replies that a fetch consumes. */
  function Consumed(f: Fetched, replies: seq<Reply>): seq<Reply> {
    if (f.outcome.Delivered? || f.outcome.Failed?) && |f.requests| <= |replies| then replies[..|f.requests|]
    else replies
  }

  lemma {:induction false} AnswerThenLife(c: Config, s: State, allowStale: bool, r: Reply,
                                          rest: seq<Reply>, life: seq<Event>)
    requires r.Response?
    ensures var v, u := Judge(c, s, allowStale, r), Digest(c, s, allowStale, r);
      var news := if v.New? then [r.data] else [];
      && Deliveries(c, s, allowStale, ToLife([r] + rest) + life) ==
         news + Deliveries(c, u, NextStale(c, v), ToLife(rest) + life)
      && Deliveries(c, s, allowStale, ToLife([r] + rest)) == news + Deliveries(c, u, NextStale(c, v), ToLife(rest))
      && (rest == [] ==> ToLife(rest) + life == life)
  {
    var e := Answer(r.data, r.index, r.contact);
    assert ([r] + rest)[1..] == rest;
    assert ToLife([r] + rest) == [e] + ToLife(rest);
    assert ([e] + ToLife(rest)) + life == [e] + (ToLife(rest) + life);
    DeliveriesCons(c, s, allowStale, e, ToLife(rest) + life);
    DeliveriesCons(c, s, allowStale, e, ToLife(rest));
  }

  /** What a fetch consumes, followed by any other life. */
  lemma {:induction false} FetchThenLife(c: Config, s: State, allowStale: bool, replies: seq<Reply>, life: seq<Event>)
    ensures var f := FetchWith(c, s, allowStale, replies); var mine := ToLife(Consumed(f, replies));
      match f.outcome
      case Delivered =>
        Deliveries(c, s, allowStale, mine + life) == [f.state.data] + Deliveries(c, f.state, c.maxStale != 0, life)
      case Failed(e) =>
        Deliveries(c, s, allowStale, mine + life) ==
        Deliveries(c, if e.ServerError? then f.state.(lastIndex := 0) else f.state, c.maxStale != 0, life)
      case _ => Deliveries(c, s, allowStale, mine) == []
    decreases |replies|
  {
    var f := FetchWith(c, s, allowStale, replies);
    if replies != [] {
      var r, mine := replies[0], Consumed(f, replies);
      match r {
        case Response(data, index, contact) =>
          var v, u := Judge(c, s, allowStale, r), Digest(c, s, allowStale, r);
          var rest := if v.New? then [] else Consumed(FetchWith(c, u, NextStale(c, v), replies[1..]), replies[1..]);
          if !v.New? {
            FetchThenLife(c, u, NextStale(c, v), replies[1..], life);
          }
          assert mine == [r] + rest;
          AnswerThenLife(c, s, allowStale, r, rest, life);
        case NoMetadata =>
          assert mine == [r] && mine[1..] == [];
          assert ToLife(mine) == [Refetch(false)];
          DeliveriesCons(c, s, allowStale, Refetch(false), life);
        case Broken(e) =>
          assert mine == [r] && mine[1..] == [];
          assert ToLife(mine) == [Refetch(e.ServerError?)];
          DeliveriesCons(c, s, allowStale, Refetch(e.ServerError?), life);
        case _ =>
      }
    }
  }

  // --- the index over a life ---

  /** The view, and whether its next request may be stale, after a life. */
  function Lived(c: Config, s: State, allowStale: bool, life: seq<Event>): (State, bool)
    decreases |life|
  {
    if life == [] then (s, allowStale)
    else
      var (u, stale) := Lived(c, s, allowStale, life[..|life| - 1]);
      match life[|life| - 1]
      case Refetch(forget) => (if forget then u.(lastIndex := 0) else u, c.maxStale != 0)
      case Answer(data, index, contact) =>
        var r := Response(data, index, contact);
        (Digest(c, u, stale, r), NextStale(c, Judge(c, u, stale, r)))
  }

  lemma {:induction false} LivedAppend(c: Config, s: State, allowStale: bool, life: seq<Event>, more: seq<Event>)
    ensures var (u, stale) := Lived(c, s, allowStale, life);
            Lived(c, s, allowStale, life + more) == Lived(c, u, stale, more)
    decreases |more|
  {
    if more == [] {
      assert life + more == life;
    } else {
      LivedAppend(c, s, allowStale, life, more[..|more| - 1]);
      assert (life + more)[..|life| + |more| - 1] == life + more[..|more| - 1];
    }
  }

  lemma {:induction false} LivedCons(c: Config, s: State, allowStale: bool, e: Event, life: seq<Event>)
    ensures var (u, stale) := Lived(c, s, allowStale, [e]);
            Lived(c, s, allowStale, [e] + life) == Lived(c, u, stale, life)
    ensures Lived(c, s, allowStale, [e]) == match e
      case Refetch(forget) => (if forget then s.(lastIndex := 0) else s, c.maxStale != 0)
      case Answer(data, index, contact) =>
        var r := Response(data, index, contact);
        (Digest(c, s, allowStale, r), NextStale(c, Judge(c, s, allowStale, r)))
  {
    LivedAppend(c, s, allowStale, [e], life);
    assert [e][..0] == [];
  }

  /** What the replies to a fetch make of the view, as long as it is still asking and once it is done. */
  lemma {:induction false} FetchLived(c: Config, s: State, allowStale: bool, replies: seq<Reply>)
    ensures var f := FetchWith(c, s, allowStale, replies);
      var lived := Lived(c, s, allowStale, ToLife(Consumed(f, replies)));
      match f.outcome
      case Waiting => lived == (f.state, MayBeStale(c, allowStale, replies))
      case Delivered => lived == (f.state, c.maxStale != 0)
      case Failed(e) => lived == (if e.ServerError? then f.state.(lastIndex := 0) else f.state, c.maxStale != 0)
      case Silent(_) => lived.0 == f.state
    decreases |replies|
  {
    var f := FetchWith(c, s, allowStale, replies);
    if replies != [] {
      var r, mine := replies[0], Consumed(f, replies);
      match r {
        case Response(data, index, contact) =>
          var v, u := Judge(c, s, allowStale, r), Digest(c, s, allowStale, r);
          var rest := if v.New? then [] else Consumed(FetchWith(c, u, NextStale(c, v), replies[1..]), replies[1..]);
          if !v.New? {
            FetchLived(c, u, NextStale(c, v), replies[1..]);
          }
          assert mine == [r] + rest && mine[1..] == rest;
          LivedCons(c, s, allowStale, Answer(data, index, contact), ToLife(rest));
        case NoMetadata =>
          assert mine == [r] && mine[1..] == [];
          LivedCons(c, s, allowStale, Refetch(false), []);
        case Broken(e) =>
          assert mine == [r] && mine[1..] == [];
          LivedCons(c, s, allowStale, Refetch(e.ServerError?), []);
        case _ =>
      }
    }
  }

  /** An event that sets the index: one that forgets it, or an answer not dropped as stale. */
  predicate Counts(c: Config, s: State, allowStale: bool, life: seq<Event>, i: nat)
    requires i < |life|
  {
    match life[i]
    case Refetch(forget) => forget
    case Answer(_, _, contact) => !(Lived(c, s, allowStale, life[..i]).1 && contact > c.maxStale)
  }

  ghost predicate LastCounts(c: Config, s: State, allowStale: bool, life: seq<Event>, i: nat)
    requires i < |life|
  {
    Counts(c, s, allowStale, life, i) && forall j :: i < j < |life| ==> !Counts(c, s, allowStale, life, j)
  }

  /** The event leaves no index: it forgets it, or the answer's is 0 or behind the view's. */
  ghost predicate Clears(c: Config, s: State, allowStale: bool, life: seq<Event>, i: nat)
    requires i < |life|
  {
    life[i].Refetch? || life[i].index == 0 || life[i].index < Lived(c, s, allowStale, life[..i]).0.lastIndex
  }

  lemma {:induction false} CountsPrefix(c: Config, s: State, allowStale: bool, life: seq<Event>, i: nat)
    requires i < |life| - 1
    ensures var init := life[..|life| - 1];
      && (Counts(c, s, allowStale, init, i) <==> Counts(c, s, allowStale, life, i))
      && (Clears(c, s, allowStale, init, i) <==> Clears(c, s, allowStale, life, i))
  {
    assert life[..|life| - 1][..i] == life[..i];
  }

  ghost predicate SomeCounts(c: Config, s: State, allowStale: bool, life: seq<Event>) {
    exists i :: 0 <= i < |life| && Counts(c, s, allowStale, life, i)
  }

  /** What set the index last cleared it. */
  ghost predicate LastClears(c: Config, s: State, allowStale: bool, life: seq<Event>) {
    exists i :: 0 <= i < |life| && LastCounts(c, s, allowStale, life, i) && Clears(c, s, allowStale, life, i)
  }

  lemma {:induction false} LastCountsPrefix(c: Config, s: State, allowStale: bool, life: seq<Event>, i: nat)
    requires i < |life| - 1 && !Counts(c, s, allowStale, life, |life| - 1)
    ensures LastCounts(c, s, allowStale, life[..|life| - 1], i) <==> LastCounts(c, s, allowStale, life, i)
  {
    var init := life[..|life| - 1];
    forall j | i <= j < |init| ensures Counts(c, s, allowStale, init, j) <==> Counts(c, s, allowStale, life, j) {
      CountsPrefix(c, s, allowStale, life, j);
    }
  }

  /** Whether the last event counts or not. */
  lemma {:induction false} LastDoesCount(c: Config, s: State, allowStale: bool, life: seq<Event>)
    requires life != [] && Counts(c, s, allowStale, life, |life| - 1)
    ensures SomeCounts(c, s, allowStale, life)
    ensures LastClears(c, s, allowStale, life) <==> Clears(c, s, allowStale, life, |life| - 1)
  {
    assert LastCounts(c, s, allowStale, life, |life| - 1);
  }

  lemma {:induction false} LastDoesNot(c: Config, s: State, allowStale: bool, life: seq<Event>)
    requires life != [] && !Counts(c, s, allowStale, life, |life| - 1)
    ensures SomeCounts(c, s, allowStale, life) <==> SomeCounts(c, s, allowStale, life[..|life| - 1])
    ensures LastClears(c, s, allowStale, life) <==> LastClears(c, s, allowStale, life[..|life| - 1])
  {
    var n := |life| - 1;
    var init := life[..n];
    forall i | 0 <= i < n
      ensures Counts(c, s, allowStale, init, i) <==> Counts(c, s, allowStale, life, i)
      ensures Clears(c, s, allowStale, init, i) <==> Clears(c, s, allowStale, life, i)
      ensures LastCounts(c, s, allowStale, init, i) <==> LastCounts(c, s, allowStale, life, i)
    {
      CountsPrefix(c, s, allowStale, life, i);
      LastCountsPrefix(c, s, allowStale, life, i);
    }
    if LastClears(c, s, allowStale, life) {
      var i :| 0 <= i < |life| && LastCounts(c, s, allowStale, life, i) && Clears(c, s, allowStale, life, i);
      assert i < n && LastCounts(c, s, allowStale, init, i);
    }
  }

  /** A view waits on index 0, so that its query does not block, exactly if nothing has set the index
      since it was 0, or what set it last cleared it. */
  lemma {:induction false} WaitsOnZeroIff(c: Config, s: State, allowStale: bool, life: seq<Event>)
    ensures Lived(c, s, allowStale, life).0.lastIndex == 0 <==>
            if SomeCounts(c, s, allowStale, life) then LastClears(c, s, allowStale, life) else s.lastIndex == 0
    decreases |life|
  {
    if life != [] {
      var n := |life| - 1;
      WaitsOnZeroIff(c, s, allowStale, life[..n]);
      if Counts(c, s, allowStale, life, n) {
        LastDoesCount(c, s, allowStale, life);
      } else {
        LastDoesNot(c, s, allowStale, life);
        assert Lived(c, s, allowStale, life).0 == Lived(c, s, allowStale, life[..n]).0;
      }
    }
  }

  // --- when the index shortcut hides nothing ---

  /** Indices are positive, at least `from`, and never fall; an index equal to the one
      before comes with the same data. */
  ghost predicate Faithful(from: nat, was: Payload, passing: seq<Event>)
    decreases |passing|
  {
    passing == [] ||
    match passing[0]
    case Refetch(_) => Faithful(from, was, passing[1..])
    case Answer(data, index, _) =>
      index > 0 && index >= from && (index == from ==> data == was) && Faithful(index, data, passing[1..])
  }

  /** The latest answer is not news: it is held, or it is a nil a blocking view ignores. */
  ghost predicate Known(c: Config, last: Option<Payload>, was: Payload) {
    last == Some(was) || (c.blocking && was.None?)
  }

  lemma {:induction false} FreshIsAll(c: Config, lastIndex: nat, from: nat, was: Payload, last: Option<Payload>,
                                      passing: seq<Event>)
    requires Faithful(from, was, passing)
    requires lastIndex == from || lastIndex == 0
    requires from > 0 ==> Known(c, last, was)
    requires c.blocking && last.Some? ==> last.value.Some?
    ensures Destutter(last, Wanted(c, Fresh(lastIndex, passing))) == Destutter(last, Wanted(c, Answers(passing)))
    decreases |passing|
  {
    if passing != [] {
      match passing[0]
      case Refetch(forget) =>
        FreshIsAll(c, if forget then 0 else lastIndex, from, was, last, passing[1..]);
        assert Answers(passing) == Answers(passing[1..]);
      case Answer(data, index, _) =>
        var skip := c.blocking && data.None?;
        var now := if skip then last else Some(data);
        FreshIsAll(c, index, index, data, now, passing[1..]);
        ConcatWanted(c, data, Answers(passing[1..]));
        ConcatWanted(c, data, Fresh(index, passing[1..]));
        if !skip {
          ConcatDestutter(last, data, Wanted(c, Answers(passing[1..])));
          ConcatDestutter(last, data, Wanted(c, Fresh(index, passing[1..])));
        }
        assert Answers(passing) == [data] + Answers(passing[1..]);
        if index > lastIndex {
          assert Fresh(lastIndex, passing) == [data] + Fresh(index, passing[1..]);
        } else {
          assert Fresh(lastIndex, passing) == Fresh(index, passing[1..]);
        }
    }
  }

  /** With such an upstream a new view delivers every change, once, in order: the data of
      the passing answers with adjacent repeats removed, whenever and however often
      fetches fail and the poll forgets the index. */
  lemma DeliversEveryChange(c: Config, life: seq<Event>)
    requires Faithful(0, None, Passing(c, c.maxStale != 0, life))
    ensures Deliveries(c, NEW_STATE, c.maxStale != 0, life) ==
            Destutter(None, Wanted(c, Answers(Passing(c, c.maxStale != 0, life))))
  {
    DeliversFresh(c, NEW_STATE, c.maxStale != 0, life);
    FreshIsAll(c, 0, 0, None, None, Passing(c, c.maxStale != 0, life));
  }

  /** `n` passing answers in a row, all the same. */
  function Settled(c: Config, s: State, r: Reply, n: nat): State
    requires r.Response?
  {
    if n == 0 then s else Digest(c, Settled(c, s, r, n - 1), false, r)
  }

  /** Once the server has settled, two passing answers are enough, and if two are not
      then none ever are: an index that happens to equal the view's hides the data. */
  lemma {:induction false} SettlesIff(c: Config, s: State, r: Reply, n: nat)
    requires r.Response? && n >= 2 && (c.blocking ==> r.data.Some?)
    ensures Held(Settled(c, s, r, n)) == Some(r.data) <==>
            Held(s) == Some(r.data) || (r.index > 0 && r.index != s.lastIndex)
  {
    var one := Settled(c, s, r, 1);
    var two := Settled(c, s, r, 2);
    assert one == Digest(c, Settled(c, s, r, 0), false, r);
    assert two == Digest(c, one, false, r);
    if n > 2 {
      SettlesIff(c, s, r, n - 1);
      SettledIndex(c, s, r, n - 1);
    }
  }

  lemma {:induction false} SettledIndex(c: Config, s: State, r: Reply, n: nat)
    requires r.Response? && n >= 2
    ensures Settled(c, s, r, n).lastIndex == r.index
  {
    var one := Settled(c, s, r, 1);
    assert one == Digest(c, Settled(c, s, r, 0), false, r);
    assert Settled(c, s, r, 2) == Digest(c, one, false, r);
    if n > 2 {
      SettledIndex(c, s, r, n - 1);
    }
  }
}
