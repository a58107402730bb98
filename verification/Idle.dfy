/** The idle timeout of src/util/idle_timeout.rs: a future wrapped with a timer that is
    pushed back at most once per check interval. */
module Idle {
  import TimerHandle

  datatype Outcome = Finished | TimedOut | Waiting

  /** `deadline` is that of the inner delay. */
  datatype State = State(deadline: nat, idleTimeout: nat, checkInterval: nat, lastVisited: nat)

  /** One poll: what the inner future answers, and the clock as the delay and then the
      wrapper read it. */
  datatype Visit = Visit(ready: bool, first: nat, second: nat)

  function Start(now: nat, idleTimeout: nat, checkInterval: nat): State {
    State(now + idleTimeout, idleTimeout, checkInterval, now)
  }

  function Poll(s: State, v: Visit): (State, Outcome) {
    if v.ready then (s, Finished)
    else if s.deadline <= v.first then (s, TimedOut)
    else if v.second - s.lastVisited >= s.checkInterval then
      (s.(lastVisited := v.second, deadline := v.second + s.idleTimeout), Waiting)
    else (s, Waiting)
  }

  class IdleTimeout {
    const sleep: TimerHandle.Timer
    const idleTimeout: nat
    const checkInterval: nat
    var lastVisited: nat

    ghost predicate Valid()
      reads this, sleep, sleep.reactor, sleep.reactor.ops
    {
      sleep.Valid()
    }

    function Value(): State
      reads this, sleep
    {
      State(sleep.deadline, idleTimeout, checkInterval, lastVisited)
    }

    constructor (reactor: TimerHandle.Reactor, now: nat, idleTimeout: nat, checkInterval: nat)
      requires reactor.Valid()
      ensures Valid() && Value() == Start(now, idleTimeout, checkInterval) && sleep.reactor == reactor && fresh(sleep)
    {
      sleep := new TimerHandle.Timer(reactor, now + idleTimeout);
      this.idleTimeout, this.checkInterval, lastVisited := idleTimeout, checkInterval, now;
    }

    method PollIdle(v: Visit, cx: nat) returns (r: Outcome)
      requires Valid()
      modifies this, sleep, sleep.reactor, sleep.reactor.ops
      ensures Valid() && (Value(), r) == Poll(old(Value()), v)
    {
      if v.ready {
        return Finished;
      }
      var elapsed := sleep.PollTimeout(v.first, cx);
      if elapsed {
        return TimedOut;
      }
      if v.second - lastVisited >= checkInterval {
        lastVisited := v.second;
        sleep.ResetTo(v.second + idleTimeout);
      }
      return Waiting;
    }
  }

  // ----- sequences of polls -----

  function Drive(s: State, visits: seq<Visit>): State
    decreases |visits|
  {
    if visits == [] then s else Poll(Drive(s, visits[..|visits| - 1]), visits[|visits| - 1]).0
  }

  /** The instant of the poll before the `i`-th, or of construction. */
  function Before(start: nat, visits: seq<Visit>, i: nat): nat
    requires i <= |visits|
  {
    if i == 0 then start else visits[i - 1].second
  }

  /** The clock never runs backwards. */
  predicate Monotone(start: nat, visits: seq<Visit>) {
    forall i :: 0 <= i < |visits| ==> Before(start, visits, i) <= visits[i].first <= visits[i].second
  }

  function OutcomeAt(start: nat, idleTimeout: nat, checkInterval: nat, visits: seq<Visit>, i: nat): Outcome
    requires i < |visits|
  {
    Poll(Drive(Start(start, idleTimeout, checkInterval), visits[..i]), visits[i]).1
  }

  /** Between polls the deadline is one idle timeout after the last recorded visit, which
      lags the last poll by less than a check interval. */
  lemma {:induction false} LagBound(start: nat, idleTimeout: nat, checkInterval: nat, visits: seq<Visit>, i: nat)
    requires i <= |visits| && Monotone(start, visits)
    requires forall j :: 0 <= j < i ==> OutcomeAt(start, idleTimeout, checkInterval, visits, j) == Waiting
    ensures var s := Drive(Start(start, idleTimeout, checkInterval), visits[..i]);
            && s.idleTimeout == idleTimeout && s.checkInterval == checkInterval
            && s.deadline == s.lastVisited + idleTimeout
            && s.lastVisited <= Before(start, visits, i)
            && (s.lastVisited == Before(start, visits, i) || Before(start, visits, i) < s.lastVisited + checkInterval)
  {
    if i == 0 {
    } else {
      LagBound(start, idleTimeout, checkInterval, visits, i - 1);
      var s := Drive(Start(start, idleTimeout, checkInterval), visits[..i - 1]);
      assert visits[..i][..i - 1] == visits[..i - 1];
      assert Drive(Start(start, idleTimeout, checkInterval), visits[..i]) == Poll(s, visits[i - 1]).0;
      assert OutcomeAt(start, idleTimeout, checkInterval, visits, i - 1) == Poll(s, visits[i - 1]).1;
      assert Before(start, visits, i - 1) <= visits[i - 1].first;
    }
  }

  /** Over every sequence of polls, the wrapper times out only when the gap since the
      previous poll, or since construction, is more than the idle timeout less a positive
      check interval, or with no check interval at least the idle timeout; and it does time
      out, unless the inner future is ready, whenever the gap is at least the idle timeout. */
  lemma TimesOutOnlyWhenIdle(start: nat, idleTimeout: nat, checkInterval: nat, visits: seq<Visit>, i: nat)
    requires i < |visits| && Monotone(start, visits)
    requires forall j :: 0 <= j < i ==> OutcomeAt(start, idleTimeout, checkInterval, visits, j) == Waiting
    ensures var gap := visits[i].first - Before(start, visits, i);
            var outcome := OutcomeAt(start, idleTimeout, checkInterval, visits, i);
            && (outcome == TimedOut ==> if checkInterval > 0 then gap > idleTimeout - checkInterval
                else gap >= idleTimeout)
            && (gap >= idleTimeout && !visits[i].ready ==> outcome == TimedOut)
            && (outcome == Finished <==> visits[i].ready)
  {
    LagBound(start, idleTimeout, checkInterval, visits, i);
  }

  /** The bound is sharp: with any positive check interval not above the idle timeout, the
      least gap it allows, one more than their difference, can time out. */
  lemma GapCanBeShort(start: nat, idleTimeout: nat, checkInterval: nat)
    returns (visits: seq<Visit>)
    requires 0 < checkInterval <= idleTimeout
    ensures |visits| == 2 && Monotone(start, visits)
    ensures OutcomeAt(start, idleTimeout, checkInterval, visits, 0) == Waiting
    ensures OutcomeAt(start, idleTimeout, checkInterval, visits, 1) == TimedOut
    ensures visits[1].first - Before(start, visits, 1) == idleTimeout - checkInterval + 1
  {
    var t := start + checkInterval - 1;
    visits := [Visit(false, t, t), Visit(false, start + idleTimeout, start + idleTimeout)];
    assert visits[..0] == [] && visits[..1] == [visits[0]] && [visits[0]][..0] == [];
  }
}
