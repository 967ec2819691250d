// buffer_period.go: buffer timers. First one timer's arithmetic, then its concurrency.

module Buffering {
  import opened Storing

  /** Times and durations are integers on an abstract clock. */
  type Time = int

  /** The settings and state of one timer; `fires` is when the armed timer goes off. */
  datatype State = State(active: bool, deadline: Time, fires: Time)

  /** What tick does while no trigger is sent in between. */
  function Ticked(min: Time, max: Time, s: State, now: Time): State {
    if !s.active then State(true, now + max, now + min)
    else if now + min < s.deadline then s.(fires := now + min)
    else if s.deadline - now > 0 then s.(fires := s.deadline)
    else s
  }

  class Timer {
    const min: Time
    const max: Time
    var isActive: bool
    var deadline: Time
    var fires: Time
    // the underlying timer is running: armed and not stopped since
    var armed: bool

    ghost function Now(): State
      reads this
    {
      State(isActive, deadline, fires)
    }

    constructor (min: Time, max: Time)
      ensures this.min == min && this.max == max && !isActive && !armed
    {
      this.min, this.max := min, max;
      isActive, deadline, fires, armed := false, 0, 0, false;
    }

    method InactiveTick(now: Time)
      modifies this
      ensures Now() == State(true, now + max, now + min) && armed
    {
      fires, armed := now + min, true;
      isActive := true;
      deadline := now + max;
    }

    /** Looks at the flag again under the lock: the trigger may have been sent since. */
    method ActiveTick(now: Time)
      modifies this`fires, this`armed
      ensures Now() == if old(isActive) then Ticked(min, max, old(Now()), now) else old(Now())
      ensures armed <==> old(armed) || (isActive && (now + min < deadline || now < deadline))
    {
      if !isActive {
        return;
      }
      if now + min < deadline {
        fires, armed := now + min, true;
      } else {
        var dur := deadline - now;
        if dur > 0 {
          fires, armed := now + dur, true;
        }
      }
    }

    method Tick(now: Time)
      modifies this
      ensures Now() == Ticked(min, max, old(Now()), now)
    {
      if isActive {
        ActiveTick(now);
        return;
      }
      InactiveTick(now);
    }

    method Stop()
      modifies this`armed
      ensures !armed
    {
      armed := false;
    }

    method Reset()
      modifies this`isActive
      ensures Now() == old(Now()).(active := false)
    {
      if !isActive {
        return;
      }
      isActive := false;
    }
  }

  /** One timer's settings and state. */
  datatype Setup = Setup(min: Time, max: Time, state: State)

  /** The timers of all templates, by template ID. */
  class Timers {
    var timers: map<Id, Timer>
    var buffered: set<Id>
    // the IDs sent to the watcher's trigger channel
    var triggered: seq<Id>

    /** No two templates share a timer. */
    ghost predicate Valid()
      reads this
    {
      forall a, b :: a in timers && b in timers && a != b ==> timers[a] != timers[b]
    }

    ghost function Now(): map<Id, Setup>
      reads this, timers.Values
    {
      map id | id in timers :: Setup(timers[id].min, timers[id].max, timers[id].Now())
    }

    constructor ()
      ensures Valid() && Now() == map[] && buffered == {} && triggered == []
    {
      timers, buffered, triggered := map[], {}, [];
    }

    /** A template that already has a timer keeps it, settings included. */
    method Add(min: Time, max: Time, id: Id) returns (added: bool)
      requires Valid()
      modifies this`timers
      ensures Valid() && added == (id !in old(Now()))
      ensures Now().Keys == old(Now()).Keys + {id}
      ensures forall other :: other in old(Now()) ==> Now()[other] == old(Now())[other]
      ensures added ==> Now()[id].min == min && Now()[id].max == max && !Now()[id].state.active
    {
      if id in timers {
        return false;
      }
      var t := new Timer(min, max);
      timers := timers[id := t];
      added := true;
    }

    method IsBuffering(id: Id) returns (ok: bool)
      ensures ok <==> id in Now()
    {
      ok := id in timers;
    }

    method Tick(id: Id, now: Time) returns (found: bool)
      requires Valid()
      modifies timers.Values
      ensures found == (id in old(Now()))
      ensures Now() == if !found then old(Now())
                       else var t := old(Now())[id]; old(Now())[id := t.(state := Ticked(t.min, t.max, t.state, now))]
    {
      found := id in timers;
      if found {
        timers[id].Tick(now);
      }
    }

    /** Run, until the channel of the timers is closed: each ID received is noted, then passed on
        in the order received. */
    method Run(ids: seq<Id>)
      modifies this`buffered, this`triggered
      ensures buffered == old(buffered) + set id | id in ids
      ensures triggered == old(triggered) + ids
    {
      for i := 0 to |ids|
        invariant buffered == old(buffered) + set id | id in ids[..i]
        invariant triggered == old(triggered) + ids[..i]
      {
        assert ids[..i + 1] == ids[..i] + [ids[i]];
        buffered := buffered + {ids[i]};
        triggered := triggered + [ids[i]];
      }
      assert ids[..|ids|] == ids;
    }

    method Reset(id: Id)
      requires Valid()
      modifies this`buffered, timers.Values
      ensures buffered == if id in old(Now()) then old(buffered) - {id} else old(buffered)
      ensures Now() == if id !in old(Now()) then old(Now())
                       else var t := old(Now())[id]; old(Now())[id := t.(state := t.state.(active := false))]
    {
      if id in timers {
        timers[id].Reset();
        buffered := buffered - {id};
      }
    }

    /** Every timer is stopped and forgotten. */
    method Stop()
      modifies this`timers, timers.Values
      ensures Now() == map[]
      ensures forall id :: id in old(timers) ==> !old(timers)[id].armed
    {
      var rest := timers.Keys;
      ghost var all := timers;
      while rest != {}
        invariant rest <= all.Keys && timers == map id | id in all && id in rest :: all[id]
        invariant forall id :: id in all && id !in rest ==> !all[id].armed
        decreases rest
      {
        var id :| id in rest;
        assert id in timers && timers[id] == all[id];
        timers[id].Stop();
        timers := timers - {id};
        rest := rest - {id};
      }
    }
  }

  // --- a whole buffer period in closed form ---

  ghost function TickAll(min: Time, max: Time, s: State, ticks: seq<Time>): State {
    if ticks == [] then s else Ticked(min, max, TickAll(min, max, s, ticks[..|ticks| - 1]), ticks[|ticks| - 1])
  }

  ghost predicate Ordered(ticks: seq<Time>) {
    forall i, j :: 0 <= i < j < |ticks| ==> ticks[i] <= ticks[j]
  }

  function Least(a: Time, b: Time): Time {
    if a < b then a else b
  }

  /** How many of the ticks come before `limit`. */
  ghost function Early(limit: Time, ticks: seq<Time>): (k: nat)
    ensures k <= |ticks|
  {
    if ticks == [] then 0
    else if ticks[|ticks| - 1] < limit then |ticks|
    else Early(limit, ticks[..|ticks| - 1])
  }

  lemma {:induction false} EarlySplits(limit: Time, ticks: seq<Time>)
    requires Ordered(ticks)
    ensures forall i :: 0 <= i < |ticks| ==> (ticks[i] < limit <==> i < Early(limit, ticks))
  {
    if ticks != [] && ticks[|ticks| - 1] >= limit {
      EarlySplits(limit, ticks[..|ticks| - 1]);
    }
  }

  /** Ticks from this time on leave the timer alone: the deadline (a negative min could
      be set, and would still move it a little later than that). */
  function Limit(min: Time, max: Time, first: Time): Time {
    first + max + if min < 0 then -min else 0
  }

  /** For any settings and any ticks in order of time, starting inactive: the first tick
      arms the timer for first + min; from then on only ticks before the limit move it,
      to the last such tick + min or to the deadline if that is sooner. */
  lemma {:induction false} ClosedForm(min: Time, max: Time, s: State, ticks: seq<Time>)
    requires ticks != [] && Ordered(ticks) && !s.active
    ensures var u := TickAll(min, max, s, ticks); var k := Early(Limit(min, max, ticks[0]), ticks);
      && u.active && u.deadline == ticks[0] + max
      && u.fires == if k <= 1 then ticks[0] + min else Least(ticks[k - 1] + min, ticks[0] + max)
  {
    var before := ticks[..|ticks| - 1];
    if |ticks| == 1 {
      assert before == [];
    } else {
      ClosedForm(min, max, s, before);
      EarlySplits(Limit(min, max, ticks[0]), ticks);
    }
  }

  /** The debounce: with min <= max, as long as each tick finds the timer still armed, it
      fires min after the last one, but no later than max after the first; and no tick
      moves it earlier. */
  lemma {:induction false} Debounce(min: Time, max: Time, s: State, ticks: seq<Time>)
    requires min <= max && ticks != [] && Ordered(ticks) && !s.active
    requires forall i :: 0 < i < |ticks| ==> ticks[i] < TickAll(min, max, s, ticks[..i]).fires
    ensures TickAll(min, max, s, ticks).fires == Least(ticks[|ticks| - 1] + min, ticks[0] + max)
    ensures |ticks| > 1 ==>
      TickAll(min, max, s, ticks[..|ticks| - 1]).fires <= TickAll(min, max, s, ticks).fires
  {
    var before := ticks[..|ticks| - 1];
    if |ticks| == 1 {
      assert before == [];
    } else {
      forall i | 0 < i < |before| ensures before[i] < TickAll(min, max, s, before[..i]).fires {
        assert before[..i] == ticks[..i];
      }
      Debounce(min, max, s, before);
      ClosedForm(min, max, s, before);
    }
  }

  /** Whatever the settings, the trigger is not put off beyond max (or min) from the first. */
  lemma HardDeadline(min: Time, max: Time, s: State, ticks: seq<Time>)
    requires ticks != [] && Ordered(ticks) && !s.active
    ensures TickAll(min, max, s, ticks).fires <= ticks[0] + (if min < max then max else min)
  {
    ClosedForm(min, max, s, ticks);
  }

  /** Exactly when a tick moves an armed timer earlier: never with min <= max. */
  lemma MovedEarlierIff(min: Time, max: Time, s: State, first: Time, second: Time)
    requires !s.active && first <= second
    ensures TickAll(min, max, s, [first, second]).fires < TickAll(min, max, s, [first]).fires <==>
            max < min && second < first + max
  {
    assert [first, second][..1] == [first] && [first][..0] == [];
    assert TickAll(min, max, s, [first]) == Ticked(min, max, s, first);
  }
}
