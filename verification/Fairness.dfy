/** One executor thread and its `tick` (src/executor.rs), with tasks arriving meanwhile: the
    ticker in place, and the bound on how long the global queue can be starved. */
module Fairness {
  import opened Options
  import opened Words
  import opened Queues
  import opened LocalQueue

  const CAPACITY: nat := 512
  const EXPONENT: nat := 9

  /** The thread's ring, the global queue and the tick counter. */
  datatype Shop = Shop(local: seq<Task>, global: seq<Task>, ticks: nat)

  predicate Valid(q: Shop) {
    |q.local| <= CAPACITY && q.ticks < WORD
  }

  function Steal(q: Shop): (r: Shop)
    requires Valid(q)
    ensures Valid(r)
  {
    var (local, global) := Stolen(q.local, q.global, |q.global|, CAPACITY);
    Shop(local, global, q.ticks)
  }

  function Arrive(q: Shop, tasks: seq<Task>): Shop {
    q.(global := q.global + tasks)
  }

  /** `search` with no other shard to steal from; `mid` reach the global queue between its
      pop and the reading of its length. */
  function Search(q: Shop, mid: seq<Task>): (r: (Shop, Option<Task>))
    requires Valid(q)
    ensures Valid(r.0) && r.0.ticks == q.ticks
  {
    if q.local != [] then (q.(local := q.local[1..]), Some(q.local[0]))
    else if q.global != [] then (Steal(Arrive(q.(global := q.global[1..]), mid)), Some(q.global[0]))
    else (q, None)
  }

  /** One poll of `tick`; `late` reach the global queue between the search and the periodic
      steal. None: nothing was found and the ticker goes to sleep. */
  function Tick(q: Shop, mid: seq<Task>, late: seq<Task>): (r: (Shop, Option<Task>))
    requires Valid(q)
    ensures Valid(r.0)
  {
    var (s, found) := Search(q, mid);
    if found.None? then (s, None)
    else
      var t := Arrive(s, late).(ticks := WrappingInc(q.ticks));
      (if q.ticks % 64 == 0 then Steal(t) else t, found)
  }

  // ----- in place -----

  class Ticker {
    const local: Local
    const global: Queue<Task>
    var ticks: nat

    ghost predicate Ready()
      reads this, local, global
    {
      local.Valid() && local.k == EXPONENT && global.Valid() && ticks < WORD
    }

    ghost function Value(): Shop
      requires Ready()
      reads this, local, local.buffer, global
    {
      Shop(local.Contents(), global.queue, ticks)
    }

    constructor (global: Queue<Task>)
      requires global.Valid()
      ensures Ready() && this.global == global && Value() == Shop([], global.queue, 0) && fresh(local)
          && fresh(local.buffer)
    {
      CapacityIs512();
      var l := new Local(CAPACITY);
      if l.k != EXPONENT {
        if l.k < EXPONENT { Pow2Grows(l.k, EXPONENT - 1); } else { Pow2Grows(EXPONENT, l.k - 1); }
      }
      local, this.global, ticks := l, global, 0;
    }

    method FindTask() returns (r: Option<Task>)
      requires Ready()
      modifies local, local.buffer, global
      ensures Ready() && ticks == old(ticks)
      ensures Valid(old(Value())) && (Value(), r) == Search(old(Value()), [])
    {
      CapacityIs512();
      assert Valid(Value());
      r := local.Pop();
      if r.Some? {
        return;
      }
      r := global.Pop();
      if r.Some? {
        assert global.queue == old(global.queue)[1..] + [];
        var n := global.Len();
        local.Steal(n, global);
      }
    }

    /** Waking, sleeping and passing the notification on are in TickerSleep. */
    method PollTick() returns (r: Option<Task>)
      requires Ready()
      modifies this, local, local.buffer, global
      ensures Ready()
      ensures Valid(old(Value())) && (Value(), r) == Tick(old(Value()), [], [])
    {
      CapacityIs512();
      r := FindTask();
      if r.Some? {
        var t := ticks;
        ticks := WrappingInc(ticks);
        assert global.queue + [] == global.queue;
        if t % 64 == 0 {
          var n := global.Len();
          local.Steal(n, global);
        }
      }
    }
  }

  lemma CapacityIs512()
    ensures Pow2(EXPONENT) == CAPACITY && Pow2(EXPONENT - 1) == 256
  {
    Pow2Adds(4, 4);
    Pow2Is16();
    assert Pow2(9) == 2 * Pow2(8);
  }

  // ----- conservation -----

  /** The tasks in the shop. */
  function Tasks(q: Shop): multiset<Task> {
    multiset(q.local) + multiset(q.global)
  }

  function Taken(r: Option<Task>): multiset<Task> {
    if r.Some? then multiset{r.value} else multiset{}
  }

  lemma StealKeepsTasks(q: Shop)
    requires Valid(q)
    ensures Tasks(Steal(q)) == Tasks(q) && Steal(q).ticks == q.ticks
  {
    StealConserves(q.local, q.global, |q.global|, CAPACITY);
    var r := Steal(q);
    assert Tasks(r) == multiset(r.local + r.global) == multiset(q.local + q.global);
  }

  lemma FrontAndRest(s: seq<Task>)
    requires s != []
    ensures multiset(s) == multiset{s[0]} + multiset(s[1..])
  {
    assert s == [s[0]] + s[1..];
  }

  /** The tasks that reach the global queue during a search: none if the ring has one. */
  function Arrived(q: Shop, mid: seq<Task>): seq<Task> {
    if q.local == [] && q.global != [] then mid else []
  }

  /** A search comes back with a task exactly if there is one, and takes just that task. */
  lemma SearchTakesOne(q: Shop, mid: seq<Task>)
    requires Valid(q)
    ensures var (s, r) := Search(q, mid);
            && (r.None? <==> q.local == [] && q.global == [])
            && Tasks(s) + Taken(r) == Tasks(q) + multiset(Arrived(q, mid))
  {
    if q.local != [] {
      FrontAndRest(q.local);
    } else if q.global != [] {
      FrontAndRest(q.global);
      StealKeepsTasks(Arrive(q.(global := q.global[1..]), mid));
    }
  }

  /** So does a tick, which also counts itself exactly if it returns a task. */
  lemma TickTakesOne(q: Shop, mid: seq<Task>, late: seq<Task>)
    requires Valid(q)
    ensures var (s, r) := Tick(q, mid, late);
            && (r.None? <==> q.local == [] && q.global == [])
            && Tasks(s) + Taken(r) ==
                 Tasks(q) + multiset(Arrived(q, mid)) + (if r.Some? then multiset(late) else multiset{})
            && s.ticks == if r.Some? then WrappingInc(q.ticks) else q.ticks
  {
    SearchTakesOne(q, mid);
    var (s, r) := Search(q, mid);
    if r.Some? {
      LateAndSteal(s, late, WrappingInc(q.ticks));
    }
  }

  lemma LateAndSteal(s: Shop, late: seq<Task>, ticks: nat)
    requires Valid(s) && ticks < WORD
    ensures var t := Arrive(s, late).(ticks := ticks);
            Tasks(t) == Tasks(Steal(t)) == Tasks(s) + multiset(late) && Steal(t).ticks == ticks
  {
    var t := Arrive(s, late).(ticks := ticks);
    StealKeepsTasks(t);
    assert multiset(s.global + late) == multiset(s.global) + multiset(late);
  }

  // ----- starvation -----

  /** What happens between two successful ticks: tasks scheduled on the thread, to its ring
      while there is room and to the global queue otherwise, and on other threads. */
  datatype Arrival = Inside(t: Task) | Outside(t: Task)

  datatype Round = Round(before: seq<Arrival>, mid: seq<Task>, late: seq<Task>)

  function Schedule(q: Shop, a: Arrival): (r: Shop)
    requires Valid(q)
    ensures Valid(r) && r.ticks == q.ticks
  {
    if a.Inside? && |q.local| < CAPACITY then q.(local := q.local + [a.t]) else q.(global := q.global + [a.t])
  }

  lemma ScheduleKeepsTasks(q: Shop, a: Arrival)
    requires Valid(q)
    ensures Tasks(Schedule(q, a)) == Tasks(q) + multiset{a.t}
    ensures q.local <= Schedule(q, a).local && q.global <= Schedule(q, a).global
    ensures a.Outside? ==> Schedule(q, a).local == q.local
    ensures a.Inside? && Schedule(q, a).local == q.local ==> |q.local| == CAPACITY
  {
  }

  function ScheduleAll(q: Shop, arrivals: seq<Arrival>): (r: Shop)
    requires Valid(q)
    ensures Valid(r) && r.ticks == q.ticks
    decreases |arrivals|
  {
    if arrivals == [] then q else ScheduleAll(Schedule(q, arrivals[0]), arrivals[1..])
  }

  function Play(q: Shop, round: Round): (r: (Shop, Option<Task>))
    requires Valid(q)
    ensures Valid(r.0)
  {
    Tick(ScheduleAll(q, round.before), round.mid, round.late)
  }

  /** What each round's tick returned. */
  function Results(q: Shop, rounds: seq<Round>): (r: seq<Option<Task>>)
    requires Valid(q)
    ensures |r| == |rounds|
    decreases |rounds|
  {
    if rounds == [] then []
    else
      var (q', found) := Play(q, rounds[0]);
      [found] + Results(q', rounds[1..])
  }

  /** Where a waiting task is. */
  datatype Place = Local(i: nat) | Global(i: nat)

  predicate At(q: Shop, at: Place, x: Task) {
    match at
    case Local(i) => i < |q.local| && q.local[i] == x
    case Global(i) => i < |q.global| && q.global[i] == x
  }

  /** Ticks until the next periodic steal, not counting it. */
  function UntilSteal(ticks: nat): nat {
    (64 - ticks % 64) % 64
  }

  /** An upper bound on the ticks until a task at `at` is returned. */
  function Bound(q: Shop, at: Place): nat {
    match at
    case Local(i) => i + 1
    case Global(i) => UntilSteal(q.ticks) + 64 * i + 1 + CAPACITY
  }

  lemma {:induction false} ArrivalsKeepPlace(q: Shop, arrivals: seq<Arrival>, at: Place, x: Task)
    requires Valid(q) && At(q, at, x)
    ensures At(ScheduleAll(q, arrivals), at, x)
    decreases |arrivals|
  {
    if arrivals == [] {
    } else {
      ArrivalsKeepPlace(Schedule(q, arrivals[0]), arrivals[1..], at, x);
    }
  }

  /** Where a steal takes a task. */
  function AfterSteal(q: Shop, at: Place): Place {
    var half := (|q.global| + 1) / 2;
    var n := if half <= CAPACITY - |q.local| then half else CAPACITY - |q.local|;
    match at
    case Local(i) => at
    case Global(i) => if i < n then Local(|q.local| + i) else Global(i - n)
  }

  lemma StealMoves(q: Shop, at: Place, x: Task)
    requires Valid(q) && At(q, at, x)
    ensures At(Steal(q), AfterSteal(q, at), x)
    ensures AfterSteal(q, at).Local? ==> at.Local? || AfterSteal(q, at).i < CAPACITY
    ensures at.Local? ==> AfterSteal(q, at) == at
    ensures AfterSteal(q, at).Global? ==> at.Global? && AfterSteal(q, at).i <= at.i
    // with room in the ring, the front of the global queue moves
    ensures at.Global? && |q.local| < CAPACITY ==> AfterSteal(q, at).Local? || AfterSteal(q, at).i < at.i
  {
  }

  /** A search returns the task, or leaves it no further back, and leaves a free slot. */
  lemma SearchAdvances(q: Shop, mid: seq<Task>, at: Place, x: Task) returns (at': Place)
    requires Valid(q) && At(q, at, x)
    ensures Search(q, mid).1.Some?
    ensures Search(q, mid).1 == Some(x) || At(Search(q, mid).0, at', x)
    ensures Search(q, mid).1 != Some(x) ==>
              match at
              case Local(i) => i > 0 && at' == Local(i - 1)
              case Global(i) =>
                || (at'.Local? && at'.i < CAPACITY)
                || (at'.Global? && at'.i <= i && (at'.i == i ==> |Search(q, mid).0.local| < CAPACITY))
  {
    at' := at;
    if q.local != [] {
      if at.Local? && at.i > 0 {
        at' := Local(at.i - 1);
      }
    } else if at.i > 0 {
      var q' := Arrive(q.(global := q.global[1..]), mid);
      StealMoves(q', Global(at.i - 1), x);
      at' := AfterSteal(q', Global(at.i - 1));
    }
  }

  /** Every tick returns the task or brings it a tick closer. */
  lemma TickAdvances(q: Shop, mid: seq<Task>, late: seq<Task>, at: Place, x: Task) returns (at': Place)
    requires Valid(q) && At(q, at, x)
    ensures Tick(q, mid, late).1 == Some(x)
            || (At(Tick(q, mid, late).0, at', x) && Bound(Tick(q, mid, late).0, at') < Bound(q, at))
  {
    at' := SearchAdvances(q, mid, at, x);
    var s := Search(q, mid).0;
    if Search(q, mid).1 != Some(x) {
      var t := Arrive(s, late).(ticks := WrappingInc(q.ticks));
      assert At(t, at', x);
      UntilNext(q.ticks);
      if q.ticks % 64 == 0 {
        StealMoves(t, at', x);
        at' := AfterSteal(t, at');
      }
    }
  }

  lemma UntilNext(ticks: nat)
    requires ticks < WORD
    ensures ticks % 64 != 0 ==> UntilSteal(WrappingInc(ticks)) == UntilSteal(ticks) - 1
    ensures ticks % 64 == 0 ==> UntilSteal(ticks) == 0 && UntilSteal(WrappingInc(ticks)) == 63
  {
    IncMod64(ticks);
    NextMod64(ticks);
  }

  lemma IncMod64(ticks: nat)
    requires ticks < WORD
    ensures WrappingInc(ticks) % 64 == (ticks + 1) % 64
  {
    if ticks + 1 < WORD {
      DivModUnique(ticks + 1, WORD, 0, ticks + 1);
    } else {
      DivModUnique(ticks + 1, WORD, 1, 0);
    }
  }

  lemma NextMod64(x: nat)
    ensures (x + 1) % 64 == if x % 64 == 63 then 0 else x % 64 + 1
  {
    var q, r := x / 64, x % 64;
    if r == 63 {
      DivModUnique(x + 1, 64, q + 1, 0);
    } else {
      DivModUnique(x + 1, 64, q, r + 1);
    }
  }

  /** Some tick returns the task before its bound runs out. */
  lemma {:induction false} ReturnedWithin(q: Shop, rounds: seq<Round>, at: Place, x: Task)
    requires Valid(q) && At(q, at, x) && |rounds| >= Bound(q, at)
    ensures exists n :: 0 <= n < Bound(q, at) && Results(q, rounds)[n] == Some(x)
    decreases |rounds|
  {
    var first := ScheduleAll(q, rounds[0].before);
    ArrivalsKeepPlace(q, rounds[0].before, at, x);
    var at' := TickAdvances(first, rounds[0].mid, rounds[0].late, at, x);
    var (q', found) := Play(q, rounds[0]);
    if found == Some(x) {
      assert Results(q, rounds)[0] == Some(x);
    } else {
      ReturnedWithin(q', rounds[1..], at', x);
      var n :| 0 <= n < Bound(q', at') && Results(q', rounds[1..])[n] == Some(x);
      assert Results(q, rounds)[n + 1] == Some(x);
    }
  }

  /** Bounded starvation. With one executor thread, a task at position `p` of the global
      queue is returned by `tick` within 64 * (p + 1) + 512 ticks, however many tasks reach
      the ring and the global queue meanwhile. */
  lemma StarvationIsBounded(q: Shop, rounds: seq<Round>, p: nat)
    requires Valid(q) && p < |q.global| && |rounds| >= 64 * (p + 1) + 512
    ensures exists n :: 0 <= n < 64 * (p + 1) + 512 && Results(q, rounds)[n] == Some(q.global[p])
  {
    ReturnedWithin(q, rounds, Global(p), q.global[p]);
  }
}
