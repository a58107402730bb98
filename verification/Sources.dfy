/** Readiness of one registered source (src/io/reactor.rs): any number of tasks in
    `poll_ready` and the thread in `react`, around the lock on the source's states and the
    kernel's one-shot interest. Events carrying the source's key may also come from other
    descriptors, as keys are reused. */
module Sources {
  import opened Options
  import opened Runs

  type Waker = nat

  datatype Op = Read | Write

  /** One direction. History: `last` numbers the `react` call that last delivered an event
      to it (0: none yet), `base` is `last` as of the current registration, and `since` lists the
      calls that have delivered since. */
  datatype Dir = Dir(wakers: seq<Waker>, tick: nat, ticks: Option<(nat, nat)>, last: nat, base: nat, since: seq<nat>)

  datatype Event = Event(readable: bool, writable: bool)

  /** The task holding the states lock in `poll_ready`. */
  datatype PollPc =
    | Nobody
    | Test(op: Op, w: Waker)              // the tick test, then add the waker
    | Load(op: Op, wasEmpty: bool)        // load the reactor's ticker and remember the ticks
    | Interest                            // arm the interest in the poller
    | Unlock(ready: bool)                 // unlock the states and return Ready or Pending

  datatype ReactPc =
    | Rest
    | Wait               // ticker bumped, in Poller::wait
    | Deliver            // events reported, lock the source's states for the next one
    | Mark               // states locked: store the tick, collect the wakers
    | Rearm              // some wakers are left: arm the interest again
    | Release            // unlock the states
    | Waking             // events handled, call the collected wakers

  /** History: `owed` holds the tasks told to wait on an operation and not called or told ready
      since, `due` those of them for whose operation an event has been reported meanwhile, and
      `reported` the calls of `react` to which an event for an operation was reported. */
  datatype Log = Log(owed: set<(Op, Waker)>, due: set<(Op, Waker)>, reported: set<(Op, nat)>)

  /** `collected`: the wakers `react` has taken from the source and not yet called; `calls`: the
      wakers called, in order. */
  datatype State = State(ticker: nat, read: Dir, write: Dir, armedRead: bool, armedWrite: bool,
                         locked: bool, poll: PollPc, react: ReactPc, events: seq<Event>,
                         collected: seq<Waker>, calls: seq<Waker>, log: Log)

  datatype Step =
    | PollBegin(op: Op, w: Waker)
    | PollStep
    | ReactBegin
    | Report(events: seq<Event>, own: bool) // `own`: one of them is this descriptor's
    | ReactStep

  predicate Init(s: State) {
    var d := Dir([], 0, None, 0, 0, []);
    s == State(s.ticker, d, d, false, false, false, Nobody, Rest, [], [], [], Log({}, {}, {}))
  }

  predicate Enabled(s: State, a: Step) {
    match a
    case PollBegin(_, _) => !s.locked && s.poll.Nobody?
    case PollStep => !s.poll.Nobody?
    case ReactBegin => s.react.Rest?
    case Report(events, own) => s.react.Wait? && (own ==> events != [])
    case ReactStep => !s.react.Rest? && !s.react.Wait? && (s.react.Deliver? ==> s.events == [] || !s.locked)
  }

  function Get(s: State, op: Op): Dir {
    if op.Read? then s.read else s.write
  }

  function Put(s: State, op: Op, d: Dir): State {
    if op.Read? then s.(read := d) else s.(write := d)
  }

  /** The test of `poll_ready`: the direction's tick differs from both remembered ones. */
  predicate TestPasses(d: Dir) {
    d.ticks.Some? && d.tick != d.ticks.value.0 && d.tick != d.ticks.value.1
  }

  function ArmForWakers(s: State): State {
    s.(armedRead := s.read.wakers != [], armedWrite := s.write.wakers != [])
  }

  function PollGo(s: State): State
    requires Enabled(s, PollStep)
  {
    match s.poll
    case Test(op, w) =>
      var d := Get(s, op);
      if TestPasses(d) then Put(s, op, d.(ticks := None)).(poll := Unlock(true))
      else
        var wasEmpty := d.wakers == [];
        Put(s, op, d.(wakers := if w in d.wakers then d.wakers else d.wakers + [w]))
        .(poll := if d.ticks.None? then Load(op, wasEmpty) else if wasEmpty then Interest
            else Unlock(false))
    case Load(op, wasEmpty) =>
      var d := Get(s, op);
      Put(s, op, d.(ticks := Some((s.ticker, d.tick)), base := d.last, since := []))
      .(poll := if wasEmpty then Interest else Unlock(false))
    case Interest => ArmForWakers(s).(poll := Unlock(false))
    case Unlock(_) => s.(poll := Nobody, locked := false)
  }

  function Delivered(d: Dir, ticker: nat): Dir {
    d.(tick := ticker + 1, wakers := [], last := ticker, since := d.since + [ticker])
  }

  /** The wakers that an event for this direction takes. */
  function Taken(d: Dir, ready: bool): seq<Waker> {
    if ready then d.wakers else []
  }

  function ReactGo(s: State): State
    requires Enabled(s, ReactStep)
  {
    match s.react
    case Deliver => if s.events == [] then s.(react := Waking) else s.(react := Mark, locked := true)
    case Mark =>
      var e := if s.events == [] then Event(false, false) else s.events[0];
      var s1 := if e.readable then s.(read := Delivered(s.read, s.ticker)) else s;
      var s2 := if e.writable then s1.(write := Delivered(s.write, s.ticker)) else s1;
      s2.(react := if s2.read.wakers == [] && s2.write.wakers == [] then Release else Rearm,
          collected := s.collected + Taken(s.read, e.readable) + Taken(s.write, e.writable))
    case Rearm => ArmForWakers(s).(react := Release)
    case Release => s.(react := Deliver, locked := false, events := if s.events == [] then [] else s.events[1..])
    case Waking =>
      if s.collected == [] then s.(react := Rest)
      else s.(collected := s.collected[1..], calls := s.calls + [s.collected[0]])
  }

  predicate Ready(e: Event, op: Op) {
    if op.Read? then e.readable else e.writable
  }

  /** One of these events, from the `k`-th on, is for `op`. */
  predicate Coming(events: seq<Event>, k: nat, op: Op) {
    exists i :: k <= i < |events| && Ready(events[i], op)
  }

  function Settle(log: Log, tasks: set<(Op, Waker)>): Log {
    log.(owed := log.owed - tasks, due := log.due - tasks)
  }

  /** The calls of `react` to which these events are reported. */
  function ReportedTo(events: seq<Event>, ticker: nat): set<(Op, nat)> {
    (if Coming(events, 0, Read) then {(Read, ticker)} else {})
    + if Coming(events, 0, Write) then {(Write, ticker)} else {}
  }

  /** The tasks these events are for. */
  function Concerned(log: Log, events: seq<Event>): set<(Op, Waker)> {
    set me | me in log.owed && Coming(events, 0, me.0)
  }

  /** Keeps the history over one step. */
  function Record(s: State, a: Step, s': State): Log {
    match a
    case PollStep =>
      if s.poll.Test? then
        var me := (s.poll.op, s.poll.w);
        if s'.poll == Unlock(true) then Settle(s.log, {me}) else s.log.(owed := s.log.owed + {me})
      else s.log
    case Report(events, _) =>
      s.log.(due := s.log.due + Concerned(s.log, events), reported := s.log.reported + ReportedTo(events, s.ticker))
    case ReactStep =>
      if |s'.calls| == |s.calls| + 1 then Settle(s.log, {(Read, s'.calls[|s.calls|]), (Write, s'.calls[|s.calls|])})
      else s.log
    case _ => s.log
  }

  function Do(s: State, a: Step): State
    requires Enabled(s, a)
  {
    var s' := Act(s, a);
    s'.(log := Record(s, a, s'))
  }

  function Act(s: State, a: Step): State
    requires Enabled(s, a)
  {
    match a
    case PollBegin(op, w) => s.(locked := true, poll := Test(op, w))
    case PollStep => PollGo(s)
    case ReactBegin => s.(react := Wait, ticker := s.ticker + 1)
    case Report(events, own) =>
      s.(react := Deliver, events := events, armedRead := s.armedRead && !own, armedWrite := s.armedWrite && !own)
    case ReactStep => ReactGo(s)
  }

  ghost predicate Next(s: State, s': State) {
    exists a :: Enabled(s, a) && s' == Do(s, a)
  }

  // ----- interest stays armed -----

  predicate Armed(s: State, op: Op) {
    if op.Read? then s.armedRead else s.armedWrite
  }

  /** Whoever holds the states lock is going to arm the interest before releasing it. */
  predicate AboutToArm(s: State) {
    s.poll.Interest? || (s.poll.Load? && s.poll.wasEmpty) || s.react.Rearm?
  }

  predicate LockOk(s: State) {
    && (s.locked <==> !s.poll.Nobody? || s.react.Mark? || s.react.Rearm? || s.react.Release?)
    && (s.poll.Nobody? || !(s.react.Mark? || s.react.Rearm? || s.react.Release?))
    && (s.react.Mark? || s.react.Rearm? || s.react.Release? ==> s.events != [])
    && (s.react.Rest? || s.react.Wait? || s.react.Waking? ==> s.events == [])
  }

  /** A reported event is still to be marked, or to be followed by the re-arming it calls for. */
  predicate Unhandled(s: State) {
    s.events != [] && !(s.react.Release? && |s.events| == 1)
  }

  predicate InterestOk(s: State, op: Op) {
    Get(s, op).wakers != [] ==> Armed(s, op) || Unhandled(s) || AboutToArm(s)
  }

  // ----- no waker is dropped -----

  /** An event for `op` is still to be marked by the current `react`. */
  predicate StillComing(s: State, op: Op) {
    Coming(s.events, if s.react.Rearm? || s.react.Release? then 1 else 0, op)
  }

  /** A task told to wait is listed or about to be called; one whose event has been reported is
      about to be called once that event is handled. */
  predicate OwedOk(s: State, op: Op, w: Waker) {
    && ((op, w) in s.log.owed ==> w in Get(s, op).wakers || w in s.collected)
    && ((op, w) in s.log.due ==> (w in Get(s, op).wakers && StillComing(s, op)) || w in s.collected)
  }

  predicate Quiet(s: State) {
    (s.react.Rest? || s.react.Wait? ==> s.collected == []) && (s.react.Waking? ==> s.events == [])
  }

  ghost predicate WakersOk(s: State) {
    (forall op: Op, w: Waker {:trigger OwedOk(s, op, w)} :: OwedOk(s, op, w)) && Quiet(s)
  }

  lemma TestKeepsList(s: State, op: Op, w: Waker)
    requires Enabled(s, PollStep) && s.poll.Test? && w in Get(s, op).wakers
    ensures w in Get(PollGo(s), op).wakers
  {
  }

  /** A task told to wait is on the list. */
  lemma TestListsWaiter(s: State)
    requires Enabled(s, PollStep) && s.poll.Test?
    ensures PollGo(s).poll == Unlock(true) <==> TestPasses(Get(s, s.poll.op))
    ensures PollGo(s).poll != Unlock(true) ==> s.poll.w in Get(PollGo(s), s.poll.op).wakers
  {
  }

  lemma PollFrame(s: State, op: Op)
    requires Enabled(s, PollStep)
    ensures !s.poll.Test? ==> Get(PollGo(s), op).wakers == Get(s, op).wakers
    ensures PollGo(s).react == s.react && PollGo(s).collected == s.collected && PollGo(s).events == s.events
  {
    if !s.poll.Test? {
      PollKeepsLists(s, op);
    }
  }

  lemma PollKeepsLists(s: State, op: Op)
    requires Enabled(s, PollStep) && !s.poll.Test?
    ensures Get(PollGo(s), op).wakers == Get(s, op).wakers
  {
  }

  lemma PollKeepsWakers(s: State, op: Op, w: Waker)
    requires OwedOk(s, op, w) && Enabled(s, PollStep)
    ensures OwedOk(Do(s, PollStep), op, w)
  {
    PollFrame(s, op);
    if s.poll.Test? {
      if w in Get(s, op).wakers {
        TestKeepsList(s, op, w);
      }
      TestListsWaiter(s);
    }
  }

  lemma MarkKeepsWakers(s: State, op: Op, w: Waker)
    requires LockOk(s) && OwedOk(s, op, w) && Enabled(s, ReactStep) && s.react.Mark?
    ensures OwedOk(Do(s, ReactStep), op, w)
  {
    MarkTakes(s, op, w);
    if StillComing(s, op) && !Ready(s.events[0], op) {
      var i :| 0 <= i < |s.events| && Ready(s.events[i], op);
      assert i > 0;
    }
  }

  /** Marking an event takes exactly the wakers of its operations. */
  lemma MarkTakes(s: State, op: Op, w: Waker)
    requires LockOk(s) && Enabled(s, ReactStep) && s.react.Mark?
    ensures var s' := ReactGo(s);
            && s'.events == s.events && s'.calls == s.calls && (s'.react.Rearm? || s'.react.Release?)
            && (w in s.collected ==> w in s'.collected)
            && (if Ready(s.events[0], op) then w in Get(s, op).wakers ==> w in s'.collected
                else Get(s', op).wakers == Get(s, op).wakers)
  {
  }

  lemma ReactKeepsWakers(s: State, op: Op, w: Waker)
    requires LockOk(s) && OwedOk(s, op, w) && Quiet(s) && Enabled(s, ReactStep)
    ensures OwedOk(Do(s, ReactStep), op, w)
  {
    if s.react.Mark? {
      MarkKeepsWakers(s, op, w);
    } else if s.react.Release? && StillComing(s, op) {
      var i :| 1 <= i < |s.events| && Ready(s.events[i], op);
      assert Ready(s.events[1..][i - 1], op);
    }
  }

  lemma ReportKeepsWakers(s: State, a: Step, op: Op, w: Waker)
    requires LockOk(s) && OwedOk(s, op, w) && Quiet(s) && Enabled(s, a) && a.Report?
    ensures OwedOk(Do(s, a), op, w)
  {
  }

  lemma StepKeepsQuiet(s: State, a: Step)
    requires LockOk(s) && Quiet(s) && Enabled(s, a)
    ensures Quiet(Do(s, a))
  {
    if a.PollStep? {
      PollFrame(s, Read);
    }
  }

  lemma StepKeepsWakers(s: State, a: Step)
    requires LockOk(s) && WakersOk(s) && Enabled(s, a)
    ensures WakersOk(Do(s, a))
  {
    StepKeepsQuiet(s, a);
    forall op: Op, w: Waker ensures OwedOk(Do(s, a), op, w) {
      assert OwedOk(s, op, w);
      if a.PollStep? {
        PollKeepsWakers(s, op, w);
      } else if a.ReactStep? {
        ReactKeepsWakers(s, op, w);
      } else if a.Report? {
        ReportKeepsWakers(s, a, op, w);
      }
    }
  }

  // ----- a task is listed once -----

  predicate Distinct(ws: seq<Waker>) {
    forall i, j :: 0 <= i < j < |ws| ==> ws[i] != ws[j]
  }

  ghost predicate ListsOk(s: State) {
    Distinct(s.read.wakers) && Distinct(s.write.wakers)
  }

  lemma StepKeepsLists(s: State, a: Step)
    requires ListsOk(s) && Enabled(s, a)
    ensures ListsOk(Do(s, a))
  {
    if a.PollStep? {
      PollKeepsDistinct(s, Read);
      PollKeepsDistinct(s, Write);
    } else if a.ReactStep? {
      ReactOnDir(s, Read);
      ReactOnDir(s, Write);
    }
  }

  lemma PollKeepsDistinct(s: State, op: Op)
    requires Enabled(s, PollStep) && Distinct(Get(s, op).wakers)
    ensures Distinct(Get(PollGo(s), op).wakers)
  {
    if !s.poll.Test? {
      PollKeepsLists(s, op);
    }
  }

  // ----- deliveries come from reports -----

  /** The events of the current `react` have been reported to it, and a direction has deliveries
      only from calls to which an event for it was reported. */
  ghost predicate ReportsOk(s: State, op: Op) {
    && (Coming(s.events, 0, op) ==> (op, s.ticker) in s.log.reported)
    && (forall r :: r in Get(s, op).since ==> (op, r) in s.log.reported)
    && (Get(s, op).last != 0 ==> (op, Get(s, op).last) in s.log.reported)
  }

  lemma StepKeepsReports(s: State, a: Step, op: Op)
    requires LockOk(s) && ReportsOk(s, op) && Enabled(s, a)
    ensures ReportsOk(Do(s, a), op)
  {
    if a.PollStep? {
      PollOnDir(s, op);
      PollFrame(s, op);
    } else if a.ReactStep? {
      ReactKeepsReports(s, op);
    }
  }

  lemma ReactKeepsReports(s: State, op: Op)
    requires LockOk(s) && ReportsOk(s, op) && Enabled(s, ReactStep)
    ensures ReportsOk(Do(s, ReactStep), op)
  {
    ReactOnDir(s, op);
    if s.react.Release? && Coming(s.events[1..], 0, op) {
      var i :| 0 <= i < |s.events[1..]| && Ready(s.events[1..][i], op);
      assert Ready(s.events[i + 1], op);
    }
  }

  // ----- the ticks -----

  function TickOf(react: nat): nat {
    if react == 0 then 0 else react + 1
  }

  ghost predicate DirOk(d: Dir, ticker: nat) {
    && d.tick == TickOf(d.last) && d.last <= ticker
    && (d.ticks.Some? ==>
          var (a, b) := d.ticks.value;
          && b == TickOf(d.base) && d.base <= a <= ticker
          && d.last == (if d.since == [] then d.base else d.since[|d.since| - 1])
          && (forall r :: r in d.since ==> a <= r <= d.last && r > 0))
  }

  ghost predicate TicksOk(s: State, op: Op) {
    DirOk(Get(s, op), s.ticker)
  }

  predicate TickerOk(s: State) {
    !s.react.Rest? ==> s.ticker > 0
  }

  ghost predicate Inv(s: State) {
    && LockOk(s)
    && InterestOk(s, Read) && InterestOk(s, Write)
    && TicksOk(s, Read) && TicksOk(s, Write)
    && WakersOk(s) && ListsOk(s)
    && ReportsOk(s, Read) && ReportsOk(s, Write)
    && TickerOk(s)
  }

  lemma PollKeepsInterest(s: State)
    requires LockOk(s) && InterestOk(s, Read) && InterestOk(s, Write) && Enabled(s, PollStep)
    ensures LockOk(PollGo(s)) && InterestOk(PollGo(s), Read) && InterestOk(PollGo(s), Write)
  {
  }

  lemma ReactKeepsInterest(s: State)
    requires LockOk(s) && InterestOk(s, Read) && InterestOk(s, Write) && Enabled(s, ReactStep)
    ensures LockOk(ReactGo(s)) && InterestOk(ReactGo(s), Read) && InterestOk(ReactGo(s), Write)
  {
  }

  lemma StepKeepsInterest(s: State, a: Step)
    requires LockOk(s) && InterestOk(s, Read) && InterestOk(s, Write) && Enabled(s, a)
    ensures LockOk(Do(s, a)) && InterestOk(Do(s, a), Read) && InterestOk(Do(s, a), Write)
  {
    if a.PollStep? {
      PollKeepsInterest(s);
    } else if a.ReactStep? {
      ReactKeepsInterest(s);
    }
  }

  lemma DeliveryKeepsDir(d: Dir, ticker: nat)
    requires DirOk(d, ticker) && ticker > 0
    ensures DirOk(Delivered(d, ticker), ticker)
  {
  }

  /** What a step of `poll_ready` may do to a direction. */
  predicate PollEffect(d: Dir, d': Dir, ticker: nat) {
    || d' == d.(wakers := d'.wakers)
    || d' == d.(ticks := None)
    || d' == d.(ticks := Some((ticker, d.tick)), base := d.last, since := [])
  }

  lemma TestOnDir(s: State, op: Op)
    requires Enabled(s, PollStep) && s.poll.Test?
    ensures PollEffect(Get(s, op), Get(PollGo(s), op), s.ticker)
  {
  }

  lemma PollOnDir(s: State, op: Op)
    requires Enabled(s, PollStep)
    ensures PollGo(s).ticker == s.ticker && PollEffect(Get(s, op), Get(PollGo(s), op), s.ticker)
  {
    if s.poll.Test? {
      TestOnDir(s, op);
    }
  }

  /** What a step of `react` does to one direction. */
  lemma ReactOnDir(s: State, op: Op)
    requires Enabled(s, ReactStep)
    ensures var d, d' := Get(s, op), Get(ReactGo(s), op);
            && ReactGo(s).ticker == s.ticker
            && (|| d' == d
                || (s.react.Mark? && s.events != [] && Ready(s.events[0], op) && d' == Delivered(d, s.ticker)))
  {
    if s.react.Mark? {
      MarkOnDir(s, op);
    }
  }

  lemma MarkOnDir(s: State, op: Op)
    requires Enabled(s, ReactStep) && s.react.Mark?
    ensures ReactGo(s).ticker == s.ticker
    ensures || Get(ReactGo(s), op) == Get(s, op)
            || (s.events != [] && Ready(s.events[0], op) && Get(ReactGo(s), op) == Delivered(Get(s, op), s.ticker))
  {
  }

  lemma StepKeepsTicks(s: State, a: Step, op: Op)
    requires TicksOk(s, op) && Enabled(s, a) && TickerOk(s)
    ensures TicksOk(Do(s, a), op)
  {
    if a.PollStep? {
      PollOnDir(s, op);
    } else if a.ReactStep? {
      ReactOnDir(s, op);
      if s.react.Mark? {
        DeliveryKeepsDir(Get(s, op), s.ticker);
      }
    }
  }

  lemma StepKeepsTicker(s: State, a: Step)
    requires TickerOk(s) && Enabled(s, a)
    ensures TickerOk(Do(s, a))
  {
    if a.PollStep? {
      PollKeepsReact(s);
    }
  }

  lemma PollKeepsReact(s: State)
    requires Enabled(s, PollStep)
    ensures PollGo(s).react == s.react && PollGo(s).ticker == s.ticker
  {
  }

  lemma StepKeepsInv(s: State, a: Step)
    requires Inv(s) && Enabled(s, a)
    ensures Inv(Do(s, a))
  {
    StepKeepsInterest(s, a);
    StepKeepsWakers(s, a);
    StepKeepsLists(s, a);
    StepKeepsTicks(s, a, Read);
    StepKeepsTicks(s, a, Write);
    StepKeepsTicker(s, a);
    StepKeepsReports(s, a, Read);
    StepKeepsReports(s, a, Write);
  }

  lemma RunInv(ss: seq<State>, i: nat)
    requires Run(Init, Next, ss) && i < |ss|
    ensures Inv(ss[i])
  {
    forall s, s' | Inv(s) && Next(s, s') ensures Inv(s') {
      var a :| Enabled(s, a) && s' == Do(s, a);
      StepKeepsInv(s, a);
    }
    InductiveHolds(Init, Next, Inv, ss, i);
  }

  /** Interest stays armed: over every run, a direction with waiting tasks has its one-shot
      interest armed, or an event reported for the source is still to be handled by the
      current `react`, or the holder of the states lock is about to arm it. */
  lemma InterestStaysArmed(ss: seq<State>, i: nat, op: Op)
    requires Run(Init, Next, ss) && i < |ss| && Get(ss[i], op).wakers != []
    ensures Armed(ss[i], op) || Unhandled(ss[i]) || (ss[i].locked && AboutToArm(ss[i]))
    ensures !ss[i].locked && (ss[i].react.Rest? || ss[i].react.Wait? || ss[i].react.Waking?) ==> Armed(ss[i], op)
  {
    RunInv(ss, i);
  }

  /** A direction lists no task twice. */
  lemma ListedOnce(ss: seq<State>, i: nat, op: Op)
    requires Run(Init, Next, ss) && i < |ss|
    ensures Distinct(Get(ss[i], op).wakers)
  {
    RunInv(ss, i);
  }

  /** No task is forgotten: over every run, a task told to wait and neither called nor told
      ready since is on its direction's list, where `InterestStaysArmed` looks after it, or
      among the wakers the current `react` has still to call. Between calls of `react`, and
      with the states unlocked, its interest is armed. */
  lemma NoWakerDropped(ss: seq<State>, i: nat, op: Op, w: Waker)
    requires Run(Init, Next, ss) && i < |ss| && (op, w) in ss[i].log.owed
    ensures w in Get(ss[i], op).wakers || (w in ss[i].collected && !ss[i].react.Rest?)
    ensures ss[i].react.Rest? && !ss[i].locked ==> Armed(ss[i], op)
  {
    RunInv(ss, i);
    assert OwedOk(ss[i], op, w);
  }

  /** A reported event reaches those who wait for it: over every run, whenever `react` is at rest,
      each task that was waiting for an operation when an event for that operation was reported
      has been called since, or told ready. */
  lemma EventsReachWaiters(ss: seq<State>, i: nat)
    requires Run(Init, Next, ss) && i < |ss| && ss[i].react.Rest?
    ensures ss[i].log.due == {}
  {
    RunInv(ss, i);
    forall me ensures me !in ss[i].log.due {
      assert OwedOk(ss[i], me.0, me.1);
    }
  }

  /** And only such an event counts: every delivery a direction remembers is from a call of
      `react` to which an event for that direction was reported. */
  lemma DeliveriesAreReported(ss: seq<State>, i: nat, op: Op)
    requires Run(Init, Next, ss) && i < |ss|
    ensures forall r :: r in Get(ss[i], op).since ==> (op, r) in ss[i].log.reported
    ensures Get(ss[i], op).last != 0 ==> (op, Get(ss[i], op).last) in ss[i].log.reported
  {
    RunInv(ss, i);
    assert ReportsOk(ss[i], op);
  }

  /** A waker leaves a list, or comes to be collected, only for an event of its operation that
      was reported to the current `react`, and then leaves the one for the other. */
  ghost predicate TakesReported(s: State, s': State) {
    && (forall op: Op, w: Waker :: w in Get(s, op).wakers && w !in Get(s', op).wakers ==>
          (op, s.ticker) in s.log.reported && w in s'.collected)
    && (forall w: Waker :: w in s'.collected && w !in s.collected ==>
          exists op: Op :: (op, s.ticker) in s.log.reported && w in Get(s, op).wakers && Get(s', op).wakers == [])
  }

  lemma CollectsOnlyReported(ss: seq<State>, i: nat)
    requires Run(Init, Next, ss) && 0 < i < |ss|
    ensures TakesReported(ss[i - 1], ss[i])
  {
    RunInv(ss, i - 1);
    forall s, s' | Inv(s) && Next(s, s') ensures TakesReported(s, s') {
      var a :| Enabled(s, a) && s' == Do(s, a);
      StepTakesReported(s, a);
    }
    EveryStep(Init, Next, Inv, TakesReported, ss, i);
  }

  lemma StepTakesReported(s: State, a: Step)
    requires LockOk(s) && ReportsOk(s, Read) && ReportsOk(s, Write) && Enabled(s, a)
    ensures TakesReported(s, Do(s, a))
  {
    if a.PollStep? {
      PollTakesNone(s);
    } else if a.ReactStep? && s.react.Mark? {
      MarkTakesReported(s);
    } else {
      assert forall op: Op :: Get(Do(s, a), op) == Get(s, op);
    }
  }

  lemma PollTakesNone(s: State)
    requires Enabled(s, PollStep)
    ensures TakesReported(s, Do(s, PollStep))
  {
    forall op: Op, w: Waker | w in Get(s, op).wakers ensures w in Get(Do(s, PollStep), op).wakers {
      PollFrame(s, op);
      if s.poll.Test? {
        TestKeepsList(s, op, w);
      }
    }
    PollFrame(s, Read);
  }

  lemma MarkTakesReported(s: State)
    requires LockOk(s) && ReportsOk(s, Read) && ReportsOk(s, Write) && Enabled(s, ReactStep) && s.react.Mark?
    ensures TakesReported(s, Do(s, ReactStep))
  {
    assert forall op: Op :: Get(Do(s, ReactStep), op) == Get(ReactGo(s), op);
    forall op: Op ensures ReportsOk(s, op) && (Ready(s.events[0], op) ==> (op, s.ticker) in s.log.reported) {
      assert Ready(s.events[0], op) ==> Coming(s.events, 0, op);
    }
    forall op: Op, w: Waker | w in Get(s, op).wakers && w !in Get(ReactGo(s), op).wakers
      ensures (op, s.ticker) in s.log.reported && w in ReactGo(s).collected
    {
      MarkTakes(s, op, w);
    }
    forall w: Waker | w in ReactGo(s).collected && w !in s.collected
      ensures exists op: Op ::
                (op, s.ticker) in s.log.reported && w in Get(s, op).wakers && Get(ReactGo(s), op).wakers == []
    {
      if s.events[0].readable && w in s.read.wakers {
        assert (Read, s.ticker) in s.log.reported && w in Get(s, Read).wakers && Get(ReactGo(s), Read).wakers == [];
      } else {
        assert (Write, s.ticker) in s.log.reported && w in Get(s, Write).wakers && Get(ReactGo(s), Write).wakers == [];
      }
    }
  }

  /** What a poll answers: ready if and only if a registration is remembered and an event has
      been delivered since by a `react` call other than the last to deliver before it; it then
      forgets the registration, so that one event makes one poll ready. */
  ghost predicate AnswersExactly(s: State, s': State) {
    s.poll.Test? && s'.poll != s.poll ==>
      var d, d' := Get(s, s.poll.op), Get(s', s.poll.op);
      && (s'.poll == Unlock(true) <==> d.ticks.Some? && exists r :: r in d.since && r != d.base)
      && (s'.poll == Unlock(true) ==> d'.ticks.None?)
      && (s'.poll != Unlock(true) ==> (s.poll.op, s.poll.w) in s'.log.owed)
  }

  lemma PollAnswersExactly(ss: seq<State>, i: nat)
    requires Run(Init, Next, ss) && 0 < i < |ss|
    ensures AnswersExactly(ss[i - 1], ss[i])
  {
    RunInv(ss, i - 1);
    forall s, s' | Inv(s) && Next(s, s') ensures AnswersExactly(s, s') {
      var a :| Enabled(s, a) && s' == Do(s, a);
      StepAnswers(s, a);
    }
    EveryStep(Init, Next, Inv, AnswersExactly, ss, i);
  }

  lemma StepAnswers(s: State, a: Step)
    requires TicksOk(s, Read) && TicksOk(s, Write) && Enabled(s, a) && LockOk(s)
    ensures AnswersExactly(s, Do(s, a))
  {
    if a.PollStep? && s.poll.Test? {
      TestListsWaiter(s);
      assert TicksOk(s, s.poll.op);
      DirTest(Get(s, s.poll.op), s.ticker);
    }
  }

  lemma DirTest(d: Dir, ticker: nat)
    requires DirOk(d, ticker)
    ensures TestPasses(d) <==> d.ticks.Some? && exists r :: r in d.since && r != d.base
    ensures d.ticks.Some? ==> (TestPasses(d) <==> d.tick != d.ticks.value.1)
  {
    if d.ticks.Some? && d.since != [] && d.last != d.base {
      assert d.since[|d.since| - 1] in d.since;
    }
  }

  /** The tick test is exact: the next poll after a registration passes it if and only if an
      event has since been delivered by a `react` call other than the last one to have
      delivered before the registration. The comparison with the remembered ticker never
      decides the outcome. */
  lemma TickTestIsExact(ss: seq<State>, i: nat)
    requires Run(Init, Next, ss) && i < |ss| && ss[i].poll.Test? && Get(ss[i], ss[i].poll.op).ticks.Some?
    ensures var d := Get(ss[i], ss[i].poll.op);
            && (TestPasses(d) <==> exists r :: r in d.since && r != d.base)
            && (TestPasses(d) <==> d.tick != d.ticks.value.1)
  {
    RunInv(ss, i);
    assert TicksOk(ss[i], ss[i].poll.op);
    DirTest(Get(ss[i], ss[i].poll.op), ss[i].ticker);
  }

  /** Such a call had not delivered to the direction before the registration: `react` calls
      are numbered in order, and no earlier delivery has a later number. */
  lemma LaterCallsAreNew(ss: seq<State>, i: nat, op: Op)
    requires Run(Init, Next, ss) && i < |ss| && Get(ss[i], op).ticks.Some?
    ensures forall r :: r in Get(ss[i], op).since ==> r >= Get(ss[i], op).base
  {
    RunInv(ss, i);
    assert TicksOk(ss[i], op);
  }
}
