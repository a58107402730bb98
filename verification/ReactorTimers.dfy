/** Timers under concurrency (src/io/reactor.rs): any number of threads insert and remove
    timers through a bounded queue of operations while one thread, the holder of the
    reactor lock, drains the queue, fires what is due and waits for the rest. */
module ReactorTimers {
  import opened Options
  import opened Runs
  import opened TimerOps
  import Poller

  /** A call of `insert_timer` or `remove_timer`. */
  datatype CallerPc =
    | Gen(when: nat, waker: Waker)  // draw an id
    | Push(op: Op)                  // push the operation
    | WantMutex(op: Op)             // the queue was full: lock the timers
    | Draining(op: Op, k: nat)      // process_timer_ops, `k` operations done
    | Unlock(op: Op)
    | Notify(id: nat)               // pushed, notifying the poller

  /** How long to wait: `limit` is react's own timeout, `now` the clock as read by
      process_timers, `first` the deadline of the earliest timer it left, `timeout` the
      result. */
  datatype Plan = Plan(limit: Option<nat>, now: nat, first: Option<nat>, timeout: Option<nat>)

  /** The thread in `react`. `after`: the second call of process_timers; `at`: the clock when
      the kernel timer was set. */
  datatype ReactPc =
    | Rest
    | ReactLock(limit: Option<nat>, after: bool)
    | Drain(limit: Option<nat>, after: bool, k: nat)
    | ReadClock(limit: Option<nat>, after: bool)
    | Split(limit: Option<nat>, after: bool, now: nat)
    | ReactUnlock(plan: Plan, after: bool)
    | Arm(plan: Plan)
    | Enter(plan: Plan, at: nat)
    | Wait(plan: Plan, at: nat)
    | Wake                          // call the collected wakers

  datatype Owner = Nobody | TheReactor | Caller(c: nat)

  /** `due`: the timers whose wakers `react` has collected and not yet called. History: `fired`
      are the timers a split has taken off, `called` those whose waker has been called since,
      and `owes` says that a wait has timed out and no split followed. */
  datatype Firing = Firing(due: Timers, fired: Timers, called: Timers, owes: bool)

  /** History: `stale` counts the operations at the front of the queue that were there when
      the latest drain by `react` began; `since` are those pushed since, and `late` the ids
      these insert. */
  datatype State = State(clock: nat, nextId: nat, ops: seq<Op>, timers: Timers, mutex: Owner,
                         callers: map<nat, CallerPc>, react: ReactPc, poller: Poller.State,
                         stale: nat, since: seq<Op>, late: set<nat>, firing: Firing)

  datatype Step =
    | InsertBegin(c: nat, when: nat, waker: Waker)
    | RemoveBegin(c: nat, key: Key)
    | CallerStep(c: nat)
    | ReactBegin(limit: Option<nat>)
    | ReactStep(first: Option<nat>, again: bool) // `first`: deadline of the first pending timer;
                                                 // `again`: the wait returned no events
    | CallWaker(key: Key)
    | Kernel(a: Poller.Step)
    | OtherNotify(a: Poller.Step)
    | TimePasses(d: nat)

  const NONE := Firing(map[], map[], map[], false)

  predicate Init(s: State) {
    s == State(s.clock, 1, [], map[], Nobody, map[], Rest, Poller.State(false, false, true, map[], Poller.Idle), 0,
        [], {}, NONE)
  }

  ghost predicate Enabled(s: State, a: Step) {
    match a
    case InsertBegin(c, _, _) => c !in s.callers && c !in s.poller.notifiers
    case RemoveBegin(c, _) => c !in s.callers && c !in s.poller.notifiers
    case CallerStep(c) =>
      c in s.callers && (match s.callers[c]
                         case WantMutex(_) => s.mutex == Nobody
                         case Push(op) => c !in s.poller.notifiers
                         case Notify(_) => c in s.poller.notifiers
                         case _ => true)
    case ReactBegin(_) => s.react.Rest?
    case ReactStep(first, _) => (match s.react
                                 case Rest => false
                                 case ReactLock(_, _) => s.mutex == Nobody
                                 case Split(_, _, now) => Earliest(Later(s.timers, now), first)
                                 case Enter(_, _) => s.poller.waiter == Poller.Idle
                                 case Wait(_, _) => s.poller.waiter == Poller.Idle
                                 case Wake => s.firing.due == map[]
                                 case _ => true)
    case CallWaker(key) => s.react.Wake? && key in s.firing.due
    case Kernel(k) =>
      && s.react.Wait? && (k.WaitReturn? || k.Interrupt? || k.Drain? || k.Rearm? || k.Clear?)
      && Poller.Enabled(s.poller, k)
    case OtherNotify(k) => (k.NotifyBegin? || k.NotifyStep?) && k.n !in s.callers && Poller.Enabled(s.poller, k)
    case TimePasses(_) => true
  }

  function Min(a: Option<nat>, b: Option<nat>): Option<nat> {
    if a.None? then b else if b.None? then a else if a.value <= b.value then a else b
  }

  /** One iteration of process_timer_ops. */
  function DrainOne(s: State): State
    requires s.ops != []
  {
    s.(timers := ApplyOp(s.timers, s.ops[0]), ops := s.ops[1..], stale := if s.stale > 0 then s.stale - 1 else 0)
  }

  function CallerGo(s: State, c: nat): State
    requires Enabled(s, CallerStep(c))
  {
    match s.callers[c]
    case Gen(when, w) => s.(nextId := s.nextId + 1, callers := s.callers[c := Push(Insert(Key(when, s.nextId), w))])
    case Push(op) =>
      if |s.ops| == DEFAULT_TIME_OP_SIZE then s.(callers := s.callers[c := WantMutex(op)])
      else if op.Insert? then
        s.(ops := s.ops + [op], since := s.since + [op], late := s.late + {op.key.id},
            callers := s.callers[c := Notify(op.key.id)],
           poller := Poller.Do(s.poller, Poller.NotifyBegin(c)))
      else s.(ops := s.ops + [op], since := s.since + [op], callers := s.callers - {c})
    case WantMutex(op) => s.(mutex := Caller(c), callers := s.callers[c := Draining(op, 0)])
    case Draining(op, k) =>
      if k < DEFAULT_TIME_OP_SIZE && s.ops != [] then DrainOne(s).(callers := s.callers[c := Draining(op, k + 1)])
      else s.(callers := s.callers[c := Unlock(op)])
    case Unlock(op) => s.(mutex := Nobody, callers := s.callers[c := Push(op)])
    case Notify(_) =>
      var p := Poller.Do(s.poller, Poller.NotifyStep(c));
      s.(poller := p, callers := if c in p.notifiers then s.callers else s.callers - {c})
  }

  function ReactGo(s: State, first: Option<nat>, again: bool): State
    requires Enabled(s, ReactStep(first, again))
  {
    match s.react
    case ReactLock(limit, after) => s.(mutex := TheReactor, react := Drain(limit, after, 0), stale := |s.ops|,
        since := [], late := {})
    case Drain(limit, after, k) =>
      if k < DEFAULT_TIME_OP_SIZE && s.ops != [] then DrainOne(s).(react := Drain(limit, after, k + 1))
      else s.(react := ReadClock(limit, after))
    case ReadClock(limit, after) => s.(react := Split(limit, after, s.clock))
    case Split(limit, after, now) =>
      var next := if Ready(s.timers, now) != map[] then Some(0)
                  else if first.Some? then Some(if first.value > now then first.value - now else 0)
                  else None;
      s.(timers := Later(s.timers, now), firing := Collect(s.firing, Ready(s.timers, now)),
          react := ReactUnlock(Plan(limit, now, first, Min(next, limit)), after))
    case ReactUnlock(plan, after) => s.(mutex := Nobody, react := if after then Wake else Arm(plan))
    case Arm(plan) => s.(react := Enter(plan, s.clock))
    case Enter(plan, at) => s.(react := Wait(plan, at), poller := Poller.Do(s.poller, Poller.WaitBegin))
    case Wait(plan, _) => s.(react := if again && plan.timeout != Some(0) then ReactLock(None, true) else Wake)
    case Wake => s.(react := Rest)
  }

  function Collect(f: Firing, ready: Timers): Firing {
    f.(due := f.due + ready)
  }

  function CallOne(f: Firing, key: Key): Firing
    requires key in f.due
  {
    f.(due := f.due - {key}, called := f.called[key := f.due[key]])
  }

  /** The timers of `m` that are missing from `m'`. */
  function Missing(m: Timers, m': Timers): Timers {
    map k | k in m && k !in m' :: m[k]
  }

  /** Keeps the history of `react` over one of its steps. */
  function Record(s: State, s': State, again: bool): Firing {
    if s.react.Split? then s'.firing.(fired := s.firing.fired + Missing(s.timers, s'.timers), owes := false)
    else if s.react.Wait? && again && s.react.plan.timeout != Some(0) then s'.firing.(owes := true)
    else s'.firing
  }

  function Do(s: State, a: Step): State
    requires Enabled(s, a)
  {
    match a
    case InsertBegin(c, when, w) => s.(callers := s.callers[c := Gen(when, w)])
    case RemoveBegin(c, key) => s.(callers := s.callers[c := Push(Remove(key))])
    case CallerStep(c) => CallerGo(s, c)
    case ReactBegin(limit) => s.(react := ReactLock(limit, false))
    case ReactStep(first, again) =>
      var s' := ReactGo(s, first, again);
      s'.(firing := Record(s, s', again))
    case CallWaker(key) => s.(firing := CallOne(s.firing, key))
    case Kernel(k) => s.(poller := Poller.Do(s.poller, k))
    case OtherNotify(k) => s.(poller := Poller.Do(s.poller, k))
    case TimePasses(d) => s.(clock := s.clock + d)
  }

  ghost predicate Next(s: State, s': State) {
    exists a :: Enabled(s, a) && s' == Do(s, a)
  }

  /** The map that holds every timer at once: all pending operations applied. */
  function Abstract(s: State): Timers {
    Apply(s.timers, s.ops)
  }

  // ----- ids are never reused -----

  predicate Awaits(pc: CallerPc, id: nat) {
    && (pc.Push? || pc.WantMutex? || pc.Draining? || pc.Unlock?)
    && pc.op.Insert? && pc.op.key.id == id
  }

  ghost predicate Placed(s: State, id: nat) {
    || (exists k :: k in s.timers && k.id == id)
    || (exists i :: 0 <= i < |s.ops| && s.ops[i].Insert? && s.ops[i].key.id == id)
  }

  /** Ids in the queue and the map are drawn and distinct. */
  ghost predicate PlacedOk(s: State) {
    && (forall id: nat {:trigger Placed(s, id)} :: Placed(s, id) ==> id < s.nextId)
    && (forall i, j :: 0 <= i < j < |s.ops| && s.ops[i].Insert? && s.ops[j].Insert? ==>
        s.ops[i].key.id != s.ops[j].key.id)
    && (forall i, k :: 0 <= i < |s.ops| && s.ops[i].Insert? && k in s.timers ==> s.ops[i].key.id != k.id)
  }

  /** A call that has drawn an id and not pushed it is the only one to know it. */
  predicate AwaitOk(s: State, c: nat, d: nat, id: nat) {
    c in s.callers && Awaits(s.callers[c], id) ==>
      id < s.nextId && (d in s.callers && d != c ==> !Awaits(s.callers[d], id))
  }

  ghost predicate IdsOk(s: State) {
    && PlacedOk(s)
    && (forall c: nat, d: nat, id: nat {:trigger AwaitOk(s, c, d, id)} :: AwaitOk(s, c, d, id))
    && (forall c: nat, id: nat {:trigger Awaits(s.callers[c], id)} :: c in s.callers && Awaits(s.callers[c], id) ==>
        !Placed(s, id))
  }

  /** Every pending insertion of `s'` was pending in `s`, by the same call. */
  ghost predicate NoNewAwaits(s: State, s': State) {
    forall c: nat, id: nat {:trigger Awaits(s'.callers[c], id)} ::
      c in s'.callers && Awaits(s'.callers[c], id) ==> c in s.callers && Awaits(s.callers[c], id)
  }

  lemma FewerKeepsIds(s: State, s': State)
    requires IdsOk(s) && PlacedOk(s') && NoNewAwaits(s, s') && s'.nextId == s.nextId
    requires forall id: nat :: Placed(s', id) ==> Placed(s, id)
    ensures IdsOk(s')
  {
    forall c: nat, d: nat, id: nat ensures AwaitOk(s', c, d, id) {
      assert AwaitOk(s, c, d, id);
    }
  }

  /** Steps that place no id, draw none and add no pending insertion. */
  lemma QuietKeepsIds(s: State, s': State)
    requires IdsOk(s) && s'.ops == s.ops && s'.timers.Keys <= s.timers.Keys && s'.nextId == s.nextId
             && NoNewAwaits(s, s')
    ensures IdsOk(s')
  {
    assert forall id: nat :: Placed(s', id) ==> Placed(s, id);
    FewerKeepsIds(s, s');
  }

  lemma DrainKeepsIds(s: State, s': State)
    requires IdsOk(s) && s.ops != [] && s'.ops == s.ops[1..] && s'.timers == ApplyOp(s.timers, s.ops[0])
             && s'.nextId == s.nextId
    requires NoNewAwaits(s, s')
    ensures IdsOk(s')
  {
    var op := s.ops[0];
    assert forall k :: k in s'.timers ==> k in s.timers || (op.Insert? && k == op.key);
    assert forall i :: 0 <= i < |s'.ops| ==> s'.ops[i] == s.ops[i + 1];
    forall id: nat | Placed(s', id) ensures Placed(s, id) {
      if k :| k in s'.timers && k.id == id {
        assert k in s.timers || (s.ops[0].Insert? && s.ops[0].key.id == id);
      } else {
        var i :| 0 <= i < |s'.ops| && s'.ops[i].Insert? && s'.ops[i].key.id == id;
        assert s.ops[i + 1].Insert? && s.ops[i + 1].key.id == id;
      }
    }
    FewerKeepsIds(s, s');
  }

  lemma GenKeepsIds(s: State, c: nat)
    requires IdsOk(s) && Enabled(s, CallerStep(c)) && s.callers[c].Gen?
    ensures IdsOk(CallerGo(s, c))
  {
    var s' := CallerGo(s, c);
    forall id: nat | Placed(s', id) ensures Placed(s, id) && id < s.nextId {
      assert Placed(s, id);
    }
    forall b: nat, d: nat, id: nat ensures AwaitOk(s', b, d, id) {
      assert AwaitOk(s, b, d, id) && AwaitOk(s, d, b, id);
    }
  }

  lemma PushPlaces(s: State, s': State, op: Op)
    requires PlacedOk(s) && s'.ops == s.ops + [op] && s'.timers == s.timers && s'.nextId == s.nextId
    requires op.Insert? ==> op.key.id < s.nextId && !Placed(s, op.key.id)
    ensures PlacedOk(s')
    ensures forall id: nat :: Placed(s', id) ==> Placed(s, id) || (op.Insert? && op.key.id == id)
  {
    forall id: nat | Placed(s', id) ensures Placed(s, id) || (op.Insert? && op.key.id == id) {
      if !exists k :: k in s'.timers && k.id == id {
        var i :| 0 <= i < |s'.ops| && s'.ops[i].Insert? && s'.ops[i].key.id == id;
        assert i < |s.ops| ==> s.ops[i].Insert? && s.ops[i].key.id == id;
      }
    }
    forall i, j | 0 <= i < j < |s'.ops| && s'.ops[i].Insert? && s'.ops[j].Insert?
      ensures s'.ops[i].key.id != s'.ops[j].key.id
    {
      assert s'.ops[i] == s.ops[i];
      assert Placed(s, s.ops[i].key.id);
    }
    forall i, k | 0 <= i < |s'.ops| && s'.ops[i].Insert? && k in s'.timers ensures s'.ops[i].key.id != k.id {
      assert Placed(s, k.id);
    }
  }

  lemma PushKeepsIds(s: State, c: nat)
    requires IdsOk(s) && Enabled(s, CallerStep(c)) && s.callers[c].Push? && |s.ops| != DEFAULT_TIME_OP_SIZE
    ensures IdsOk(CallerGo(s, c))
  {
    var s', op := CallerGo(s, c), s.callers[c].op;
    if op.Insert? {
      assert Awaits(s.callers[c], op.key.id) && AwaitOk(s, c, c, op.key.id);
    }
    PushPlaces(s, s', op);
    forall b: nat, d: nat, id: nat ensures AwaitOk(s', b, d, id) {
      assert AwaitOk(s, b, d, id);
    }
    forall b: nat, id: nat | b in s'.callers && Awaits(s'.callers[b], id) ensures !Placed(s', id) {
      assert Awaits(s.callers[b], id) && AwaitOk(s, b, c, id);
    }
  }

  lemma CallerKeepsIds(s: State, c: nat)
    requires IdsOk(s) && Enabled(s, CallerStep(c))
    ensures IdsOk(CallerGo(s, c))
  {
    match s.callers[c]
    case Gen(_, _) => GenKeepsIds(s, c);
    case Push(_) =>
      if |s.ops| != DEFAULT_TIME_OP_SIZE {
        PushKeepsIds(s, c);
      } else {
        QuietKeepsIds(s, CallerGo(s, c));
      }
    case Draining(_, k) =>
      if k < DEFAULT_TIME_OP_SIZE && s.ops != [] {
        DrainKeepsIds(s, CallerGo(s, c));
      } else {
        QuietKeepsIds(s, CallerGo(s, c));
      }
    case _ => QuietKeepsIds(s, CallerGo(s, c));
  }

  lemma StepKeepsIds(s: State, a: Step)
    requires IdsOk(s) && Enabled(s, a)
    ensures IdsOk(Do(s, a))
  {
    if a.CallerStep? {
      CallerKeepsIds(s, a.c);
    } else if a.ReactStep? && s.react.Drain? && s.react.k < DEFAULT_TIME_OP_SIZE && s.ops != [] {
      DrainKeepsIds(s, Do(s, a));
    } else {
      QuietKeepsIds(s, Do(s, a));
    }
  }

  // ----- who holds the mutex, who waits, who notifies -----

  predicate HoldsMutex(r: ReactPc) {
    r.Drain? || r.ReadClock? || r.Split? || r.ReactUnlock?
  }

  predicate CallerOk(s: State, c: nat)
    requires c in s.callers
  {
    && (s.mutex == Caller(c) <==> s.callers[c].Draining? || s.callers[c].Unlock?)
    && (s.callers[c].Notify? <==> c in s.poller.notifiers)
  }

  ghost predicate OwnersOk(s: State) {
    && (forall c {:trigger CallerOk(s, c)} :: c in s.callers ==> CallerOk(s, c))
    && (s.mutex == TheReactor <==> HoldsMutex(s.react))
    && (s.mutex.Caller? ==> s.mutex.c in s.callers)
    && (s.poller.waiter != Poller.Idle ==> s.react.Wait?)
    && Poller.Inv(s.poller)
  }

  lemma CallerKeepsOwners(s: State, c: nat)
    requires OwnersOk(s) && Enabled(s, CallerStep(c))
    ensures OwnersOk(CallerGo(s, c))
  {
    var s' := CallerGo(s, c);
    assert CallerOk(s, c);
    if s.callers[c].Push? && s'.poller != s.poller {
      Poller.StepKeepsInv(s.poller, Poller.NotifyBegin(c));
    } else if s.callers[c].Notify? {
      Poller.StepKeepsInv(s.poller, Poller.NotifyStep(c));
    }
    forall d | d in s'.callers ensures CallerOk(s', d) {
      assert d in s.callers ==> CallerOk(s, d);
    }
  }

  lemma StepKeepsOwners(s: State, a: Step)
    requires OwnersOk(s) && Enabled(s, a)
    ensures OwnersOk(Do(s, a))
  {
    if a.CallerStep? {
      CallerKeepsOwners(s, a.c);
    } else {
      var s' := Do(s, a);
      if a.ReactStep? && s.react.Enter? {
        Poller.StepKeepsInv(s.poller, Poller.WaitBegin);
      } else if a.Kernel? || a.OtherNotify? {
        Poller.StepKeepsInv(s.poller, a.a);
      }
      forall d | d in s'.callers ensures CallerOk(s', d) {
        assert d in s.callers ==> CallerOk(s, d);
      }
    }
  }

  // ----- the map a wait is computed from -----

  /** `react` has begun the drain its wait will be computed from, and the kernel wait has
      not returned. */
  predicate Snapped(s: State) {
    || ((s.react.Drain? || s.react.ReadClock? || s.react.Split? || s.react.ReactUnlock?) && !s.react.after)
    || s.react.Arm? || s.react.Enter? || (s.react.Wait? && s.poller.waiter == Poller.Blocked)
  }

  /** The timeout of the coming or current wait has been computed. */
  predicate Timed(s: State) {
    || (s.react.ReactUnlock? && !s.react.after)
    || s.react.Arm? || s.react.Enter? || (s.react.Wait? && s.poller.waiter == Poller.Blocked)
  }

  /** Call `c` has pushed the insertion of `id` and not yet passed the poller's flag. */
  predicate Inserting(s: State, c: nat, id: nat) {
    c in s.callers && s.callers[c] == Notify(id) && c in s.poller.notifiers && s.poller.notifiers[c] == Poller.Cas
  }

  ghost predicate Announced(s: State, id: nat) {
    Poller.Pending(s.poller) || exists c :: Inserting(s, c, id)
  }

  ghost predicate LateOk(s: State) {
    Snapped(s) ==> forall id: nat {:trigger Announced(s, id)} :: id in s.late ==> Announced(s, id)
  }

  /** What was queued when the drain began is drained by its end: the drain pops as many
      operations as the queue can hold. Any later operation left in the queue is late. */
  predicate QueueOk(s: State) {
    && |s.ops| <= DEFAULT_TIME_OP_SIZE && s.stale <= |s.ops|
    && (s.react.Drain? ==> s.react.k <= DEFAULT_TIME_OP_SIZE && s.stale + s.react.k <= DEFAULT_TIME_OP_SIZE)
    && (!s.react.Drain? ==> s.stale == 0)
    && (Snapped(s) ==> forall i :: s.stale <= i < |s.ops| && s.ops[i].Insert? ==> s.ops[i].key.id in s.late)
  }

  /** `key` is due no earlier than the wait's end, as computed from the clock reading. */
  predicate DueAfter(key: Key, now: nat, timeout: Option<nat>) {
    timeout.Some? && key.when >= now + timeout.value
  }

  predicate BoundOk(s: State) {
    Timed(s) ==> forall key :: key in s.timers ==>
        key.id in s.late || DueAfter(key, s.react.plan.now, s.react.plan.timeout)
  }

  /** Behind the stale operations, the queue holds the last of those pushed since. */
  predicate NewBehind(ops: seq<Op>, stale: nat, since: seq<Op>) {
    && stale <= |ops| && |ops| - stale <= |since|
    && ops[stale..] == since[|since| - (|ops| - stale)..]
  }

  lemma PushBehind(ops: seq<Op>, stale: nat, since: seq<Op>, op: Op)
    requires NewBehind(ops, stale, since)
    ensures NewBehind(ops + [op], stale, since + [op])
  {
    assert (ops + [op])[stale..] == ops[stale..] + [op];
    var n := |since| - (|ops| - stale);
    assert (since + [op])[n..] == since[n..] + [op];
  }

  lemma PopBehind(ops: seq<Op>, stale: nat, since: seq<Op>)
    requires NewBehind(ops, stale, since) && ops != []
    ensures NewBehind(ops[1..], if stale > 0 then stale - 1 else 0, since)
  {
    if stale > 0 {
      assert ops[1..][stale - 1..] == ops[stale..];
    } else {
      assert ops[1..] == since[|since| - |ops|..][1..];
    }
  }

  predicate SinceOk(s: State) {
    NewBehind(s.ops, s.stale, s.since)
  }

  lemma StepKeepsSince(s: State, a: Step)
    requires SinceOk(s) && Enabled(s, a)
    ensures SinceOk(Do(s, a))
  {
    if a.CallerStep? && s.callers[a.c].Push? {
      PushBehind(s.ops, s.stale, s.since, s.callers[a.c].op);
    } else if s.ops != [] && Do(s, a).ops == s.ops[1..] {
      PopBehind(s.ops, s.stale, s.since);
    } else if a.ReactStep? && s.react.ReactLock? {
      assert s.ops[|s.ops|..] == [];
    }
  }

  /** The readings of the clock are in order. */
  predicate ClockOk(s: State) {
    match s.react
    case Split(_, _, now) => now <= s.clock
    case ReactUnlock(plan, _) => plan.now <= s.clock
    case Arm(plan) => plan.now <= s.clock
    case Enter(plan, at) => plan.now <= at <= s.clock
    case Wait(plan, at) => plan.now <= at <= s.clock
    case _ => true
  }

  /** With no limit of its own, a wait with a positive timeout is computed to end exactly when
      the earliest timer is due, and one without timeout only if there is none. */
  predicate PlanExact(plan: Plan) {
    plan.limit.None? ==>
      match plan.timeout
      case None => plan.first.None?
      case Some(d) => d > 0 ==> plan.first == Some(plan.now + d)
  }

  ghost predicate PlanOk(s: State) {
    && (s.react.ReactUnlock? || s.react.Arm? || s.react.Enter? || s.react.Wait? ==> PlanExact(s.react.plan))
    && (s.react.ReactUnlock? ==> Earliest(s.timers, s.react.plan.first))
  }

  lemma StepKeepsPlan(s: State, a: Step)
    requires OwnersOk(s) && PlanOk(s) && ClockOk(s) && Enabled(s, a)
    ensures PlanOk(Do(s, a)) && ClockOk(Do(s, a))
  {
    if a.CallerStep? && s.callers[a.c].Draining? {
      assert CallerOk(s, a.c);
    }
  }

  // ----- what has fired is called -----

  /** The second round of process_timers, after a wait that timed out. */
  predicate Again(r: ReactPc) {
    (r.ReactLock? || r.Drain? || r.ReadClock? || r.Split? || r.ReactUnlock?) && r.after
  }

  /** Nothing has been collected yet. */
  predicate Early(r: ReactPc) {
    r.Rest? || ((r.ReactLock? || r.Drain? || r.ReadClock? || r.Split?) && !r.after)
  }

  /** The entry of `key` in `m` is in `m'` too. */
  predicate Same(m: Timers, m': Timers, key: Key)
    requires key in m
  {
    key in m' && m'[key] == m[key]
  }

  /** What has fired is either due or called. */
  ghost predicate Accounted(f: Firing) {
    && (forall k :: k in f.fired ==> Same(f.fired, f.due, k) || Same(f.fired, f.called, k))
    && f.due.Keys + f.called.Keys <= f.fired.Keys
    && forall k :: k in f.due ==> Same(f.due, f.fired, k)
  }

  lemma CollectKeepsAccount(f: Firing, ready: Timers)
    requires Accounted(f)
    ensures Accounted(Collect(f, ready).(fired := f.fired + ready, owes := false))
  {
  }

  lemma CallKeepsAccount(f: Firing, key: Key)
    requires Accounted(f) && key in f.due
    ensures Accounted(CallOne(f, key))
  {
    var f' := CallOne(f, key);
    forall k | k in f'.fired ensures Same(f'.fired, f'.due, k) || Same(f'.fired, f'.called, k) {
      assert Same(f.fired, f.due, k) || Same(f.fired, f.called, k);
    }
  }

  /** The timeout is planned and the wait not over. */
  predicate HasPlan(r: ReactPc) {
    (r.ReactUnlock? && !r.after) || r.Arm? || r.Enter? || r.Wait?
  }

  ghost predicate FiringOk(s: State) {
    && (Early(s.react) ==> s.firing.due == map[])
    && (HasPlan(s.react) && s.firing.due != map[] ==> s.react.plan.timeout == Some(0))
    && Accounted(s.firing)
    && (s.firing.owes ==> Again(s.react) && !s.react.ReactUnlock?)
  }

  lemma SplitRemoves(m: Timers, now: nat)
    ensures Missing(m, Later(m, now)) == Ready(m, now)
  {
  }

  lemma ReactKeepsFiring(s: State, first: Option<nat>, again: bool)
    requires FiringOk(s) && Enabled(s, ReactStep(first, again))
    ensures FiringOk(Do(s, ReactStep(first, again)))
  {
    if s.react.Split? {
      SplitKeepsFiring(s, first, again);
    } else {
      RestKeepsFiring(s, first, again);
    }
  }

  lemma SplitKeepsFiring(s: State, first: Option<nat>, again: bool)
    requires FiringOk(s) && Enabled(s, ReactStep(first, again)) && s.react.Split?
    ensures FiringOk(Do(s, ReactStep(first, again)))
  {
    SplitRemoves(s.timers, s.react.now);
    CollectKeepsAccount(s.firing, Ready(s.timers, s.react.now));
  }

  lemma RestKeepsFiring(s: State, first: Option<nat>, again: bool)
    requires FiringOk(s) && Enabled(s, ReactStep(first, again)) && !s.react.Split?
    ensures FiringOk(Do(s, ReactStep(first, again)))
  {
    assert Do(s, ReactStep(first, again)).firing in {s.firing, s.firing.(owes := true)};
  }

  lemma StepKeepsFiring(s: State, a: Step)
    requires FiringOk(s) && Enabled(s, a)
    ensures FiringOk(Do(s, a))
  {
    if a.ReactStep? {
      ReactKeepsFiring(s, a.first, a.again);
    } else if a.CallWaker? {
      CallKeepsAccount(s.firing, a.key);
    }
  }

  lemma FiringFrame(s: State, f: Firing)
    requires LateOk(s)
    ensures LateOk(s.(firing := f))
  {
    var s' := s.(firing := f);
    forall id: nat | Snapped(s') && id in s'.late ensures Announced(s', id) {
      assert Announced(s, id);
      assert forall c :: Inserting(s, c, id) ==> Inserting(s', c, id);
    }
  }

  ghost predicate Inv(s: State) {
    FiringOk(s) && IdsOk(s) && OwnersOk(s) && LateOk(s) && QueueOk(s) && SinceOk(s) && BoundOk(s) && PlanOk(s)
        && ClockOk(s)
  }

  lemma CallerKeepsQueue(s: State, c: nat)
    requires OwnersOk(s) && QueueOk(s) && BoundOk(s) && Enabled(s, CallerStep(c))
    ensures QueueOk(CallerGo(s, c)) && BoundOk(CallerGo(s, c))
  {
    var s' := CallerGo(s, c);
    assert CallerOk(s, c);
    if s.callers[c].Draining? && s'.ops != s.ops {
      assert s.mutex == Caller(c) && !HoldsMutex(s.react);
      assert forall i :: 0 <= i < |s'.ops| ==> s'.ops[i] == s.ops[i + 1];
      assert Snapped(s) && s.ops[0].Insert? ==> s.ops[0].key.id in s.late;
    }
  }

  lemma CallerKeepsLate(s: State, c: nat)
    requires OwnersOk(s) && LateOk(s) && Enabled(s, CallerStep(c))
    ensures LateOk(CallerGo(s, c))
  {
    var s' := CallerGo(s, c);
    assert CallerOk(s, c);
    if s.callers[c].Notify? {
      Poller.StepKeepsInv(s.poller, Poller.NotifyStep(c));
      assert Snapped(s) ==> Poller.BeforeReturn(s.poller);
    } else if s'.poller != s.poller {
      Poller.StepKeepsInv(s.poller, Poller.NotifyBegin(c));
    }
    forall id: nat | Snapped(s') && id in s'.late ensures Announced(s', id) {
      if id in s.late {
        assert Announced(s, id);
        assert forall d :: Inserting(s, d, id) && d != c ==> Inserting(s', d, id);
      } else {
        assert Inserting(s', c, id);
      }
    }
  }

  lemma ReactKeepsQueue(s: State, first: Option<nat>, again: bool)
    requires OwnersOk(s) && QueueOk(s) && Enabled(s, ReactStep(first, again))
    ensures QueueOk(ReactGo(s, first, again))
  {
    var s' := ReactGo(s, first, again);
    if s'.ops != s.ops {
      assert forall i :: 0 <= i < |s'.ops| ==> s'.ops[i] == s.ops[i + 1];
    }
  }

  lemma ReactKeepsBound(s: State, first: Option<nat>, again: bool)
    requires BoundOk(s) && Enabled(s, ReactStep(first, again))
    ensures BoundOk(ReactGo(s, first, again))
  {
  }

  lemma ReactKeepsLate(s: State, first: Option<nat>, again: bool)
    requires OwnersOk(s) && LateOk(s) && Enabled(s, ReactStep(first, again))
    ensures LateOk(ReactGo(s, first, again))
  {
    var s' := ReactGo(s, first, again);
    if s.react.Enter? {
      Poller.StepKeepsInv(s.poller, Poller.WaitBegin);
    }
    forall id: nat | Snapped(s') && id in s'.late ensures Announced(s', id) {
      assert Announced(s, id);
      assert forall d :: Inserting(s, d, id) ==> Inserting(s', d, id);
    }
  }

  lemma OtherKeepsLate(s: State, a: Step)
    requires OwnersOk(s) && LateOk(s) && QueueOk(s) && BoundOk(s) && Enabled(s, a) && !a.CallerStep? && !a.ReactStep?
    ensures LateOk(Do(s, a)) && QueueOk(Do(s, a)) && BoundOk(Do(s, a))
  {
    var s' := Do(s, a);
    if a.Kernel? || a.OtherNotify? {
      Poller.StepKeepsInv(s.poller, a.a);
    }
    forall id: nat | Snapped(s') && id in s'.late ensures Announced(s', id) {
      assert Announced(s, id);
      assert forall d :: Inserting(s, d, id) ==> Inserting(s', d, id);
    }
  }

  lemma StepKeepsInv(s: State, a: Step)
    requires Inv(s) && Enabled(s, a)
    ensures Inv(Do(s, a))
  {
    StepKeepsIds(s, a);
    StepKeepsOwners(s, a);
    StepKeepsPlan(s, a);
    StepKeepsSince(s, a);
    StepKeepsFiring(s, a);
    StepKeepsRest(s, a);
  }

  lemma StepKeepsRest(s: State, a: Step)
    requires OwnersOk(s) && LateOk(s) && QueueOk(s) && BoundOk(s) && Enabled(s, a)
    ensures LateOk(Do(s, a)) && QueueOk(Do(s, a)) && BoundOk(Do(s, a))
  {
    match a
    case CallerStep(c) => CallerKeepsQueue(s, c); CallerKeepsLate(s, c);
    case ReactStep(first, again) =>
      ReactKeepsQueue(s, first, again);
      ReactKeepsBound(s, first, again);
      ReactKeepsLate(s, first, again);
      FiringFrame(ReactGo(s, first, again), Do(s, a).firing);
    case _ => OtherKeepsLate(s, a);
  }

  lemma RunInv(ss: seq<State>, i: nat)
    requires Run(Init, Next, ss) && i < |ss|
    ensures Inv(ss[i])
  {
    forall s, s' | Inv(s) && Next(s, s') ensures Inv(s') {
      var a :| Enabled(s, a) && s' == Do(s, a);
      StepKeepsInv(s, a);
    }
    InductiveHolds(Init, Next, Inv, ss, i);
  }

  // ----- theorems over every run -----

  /** No oversleeping. While the reactor is blocked in the kernel, every timer not yet
      fired, drained or still queued, is due no earlier than the clock reading plus the
      timeout, and the kernel timer was set no earlier than that reading and no later than
      the present; or its inserter is between push and notification, or a notification is
      pending. */
  lemma NeverOversleeps(ss: seq<State>, i: nat, key: Key)
    requires Run(Init, Next, ss) && i < |ss|
    requires ss[i].react.Wait? && ss[i].poller.waiter == Poller.Blocked && key in Abstract(ss[i])
    ensures || DueAfter(key, ss[i].react.plan.now, ss[i].react.plan.timeout)
            || Poller.Pending(ss[i].poller)
            || (exists c :: Inserting(ss[i], c, key.id))
    ensures ss[i].react.plan.now <= ss[i].react.at <= ss[i].clock
  {
    RunInv(ss, i);
    var s := ss[i];
    ApplyOrigin(s.timers, s.ops, key);
    if key.id in s.late {
      assert Announced(s, key.id);
    }
  }

  /** The timeout is exact. With no limit of its own, a wait with a positive timeout is
      computed to last from the clock reading to the deadline of the earliest timer, and one
      without timeout only with no timer at all; that earliest deadline is read off the map
      while the mutex is held. */
  lemma TimeoutIsExact(ss: seq<State>, i: nat)
    requires Run(Init, Next, ss) && i < |ss|
    requires var r := ss[i].react; r.ReactUnlock? || r.Arm? || r.Enter? || r.Wait?
    ensures PlanExact(ss[i].react.plan)
    ensures ss[i].react.ReactUnlock? ==> Earliest(ss[i].timers, ss[i].react.plan.first)
  {
    RunInv(ss, i);
  }

  /** The timeout planned in terms of the timers: zero if some were taken off; otherwise up to the
      earliest kept, and none without any; in either case no more than the limit. */
  ghost predicate PlannedFor(plan: Plan, gone: set<Key>, kept: set<Key>) {
    match plan.timeout
    case None => plan.limit.None? && gone == {} && kept == {}
    case Some(d) =>
      && (plan.limit.Some? ==> d <= plan.limit.value)
      && (gone != {} ==> d == 0)
      && (gone == {} ==> forall key :: key in kept ==> plan.now + d <= key.when)
      && (|| (gone != {} && d == 0) || plan.limit == Some(d)
          || exists key :: key in kept && key.when == plan.now + d)
  }

  /** A split takes off exactly the timers due strictly before the clock reading, collecting
      their wakers, keeps all others, and plans the timeout accordingly. */
  ghost predicate Splits(s: State, s': State)
    requires s.react.Split?
  {
    var now := s.react.now;
    && now <= s'.clock && s'.react.ReactUnlock? && s'.react.plan.now == now && s'.react.plan.limit == s.react.limit
    && (forall k :: k in s'.timers <==> k in s.timers && k.when >= now)
    && (forall k :: k in s'.timers ==> Same(s'.timers, s.timers, k))
    && (forall k :: k in s.timers && k.when < now ==>
        Same(s.timers, s'.firing.due, k) && Same(s.timers, s'.firing.fired, k))
    && PlannedFor(s'.react.plan, s.timers.Keys - s'.timers.Keys, s'.timers.Keys)
  }

  /** Leaving the split of the timers is such a step. */
  ghost predicate SplitsIfLeft(s: State, s': State) {
    s.react.Split? && s'.react != s.react ==> Splits(s, s')
  }

  lemma SplitIsExact(ss: seq<State>, i: nat)
    requires Run(Init, Next, ss) && 0 < i < |ss|
    ensures SplitsIfLeft(ss[i - 1], ss[i])
  {
    RunClockAt(ss, i - 1);
    forall s, s' | ClockOk(s) && Next(s, s') ensures SplitsIfLeft(s, s') {
      NextSplits(s, s');
    }
    EveryStep(Init, Next, ClockOk, SplitsIfLeft, ss, i);
  }

  lemma NextSplits(s: State, s': State)
    requires ClockOk(s) && Next(s, s')
    ensures SplitsIfLeft(s, s')
  {
    var a :| Enabled(s, a) && s' == Do(s, a);
    if s.react.Split? && s'.react != s.react {
      SplitFacts(s, a, s');
    }
  }

  lemma RunClockAt(ss: seq<State>, i: nat)
    requires Run(Init, Next, ss) && i < |ss|
    ensures ClockOk(ss[i])
  {
    RunInv(ss, i);
  }

  lemma SplitFacts(s: State, a: Step, s': State)
    requires Enabled(s, a) && s' == Do(s, a) && ClockOk(s) && s.react.Split? && s'.react != s.react
    ensures Splits(s, s')
  {
    OnlySplitMoves(s, a);
    SplitPlans(s, a.first, s'.react.plan);
    SplitRemoves(s.timers, s.react.now);
    assert s.timers.Keys - s'.timers.Keys == Ready(s.timers, s.react.now).Keys;
  }

  lemma OnlySplitMoves(s: State, a: Step)
    requires Enabled(s, a) && s.react.Split? && Do(s, a).react != s.react
    ensures a.ReactStep? && Earliest(Later(s.timers, s.react.now), a.first)
    ensures Do(s, a).timers == Later(s.timers, s.react.now) && Do(s, a).clock == s.clock
    ensures Do(s, a).firing.due == s.firing.due + Ready(s.timers, s.react.now)
    ensures Do(s, a).firing.fired == s.firing.fired + Missing(s.timers, Later(s.timers, s.react.now))
    ensures Do(s, a).react == ReactGo(s, a.first, true).react
  {
  }

  lemma SplitPlans(s: State, first: Option<nat>, plan: Plan)
    requires s.react.Split? && Earliest(Later(s.timers, s.react.now), first)
    requires plan == ReactGo(s, first, true).react.plan
    ensures PlannedFor(plan, Ready(s.timers, s.react.now).Keys, Later(s.timers, s.react.now).Keys)
  {
    assert Ready(s.timers, s.react.now) == map[] <==> Ready(s.timers, s.react.now).Keys == {};
    assert Later(s.timers, s.react.now) == map[] <==> Later(s.timers, s.react.now).Keys == {};
  }

  /** What has fired is called: over every run, whenever `react` is at rest the waker of every
      timer it has ever fired has been called; it never blocks while it has one to call; and
      a wait that timed out is followed by another split before it rests. */
  lemma FiredIsCalled(ss: seq<State>, i: nat)
    requires Run(Init, Next, ss) && i < |ss|
    ensures ss[i].react.Rest? ==> ss[i].firing.called == ss[i].firing.fired && !ss[i].firing.owes
    ensures ss[i].react.Wait? && ss[i].react.plan.timeout != Some(0) ==> ss[i].firing.due == map[]
  {
    RunInv(ss, i);
    if ss[i].react.Rest? {
      var f := ss[i].firing;
      assert forall k :: k in f.fired ==> Same(f.fired, f.called, k);
    }
  }

  /** No notification is pending or about to be made for a new timer. */
  ghost predicate Undisturbed(s: State) {
    !Poller.Pending(s.poller) && forall c: nat, id: nat :: !Inserting(s, c, id)
  }

  /** The kernel wait ends by the time the first timer is due. */
  ghost predicate EndsInTime(s: State)
    requires s.react.Wait? && s.react.plan.timeout.Some?
  {
    forall key :: key in Abstract(s) ==> s.react.at + s.react.plan.timeout.value <= key.when
  }

  /** Exactly when a wait outlasts a timer. The timeout is computed from one reading of the
      clock, and the kernel timer set at a later one: while the earliest timer is still there
      the wait ends in time if and only if the clock did not advance in between. */
  lemma EndsInTimeIff(ss: seq<State>, i: nat)
    requires Run(Init, Next, ss) && i < |ss|
    requires ss[i].react.Wait? && ss[i].poller.waiter == Poller.Blocked && Undisturbed(ss[i])
    requires var plan := ss[i].react.plan; plan.limit.None? && plan.timeout.Some? && plan.timeout.value > 0
    ensures ss[i].react.plan.first.Some?
    ensures ss[i].react.at == ss[i].react.plan.now ==> EndsInTime(ss[i])
    ensures (exists key :: key in Abstract(ss[i]) && key.when == ss[i].react.plan.first.value) ==>
              (EndsInTime(ss[i]) <==> ss[i].react.at == ss[i].react.plan.now)
  {
    RunInv(ss, i);
    forall key | key in Abstract(ss[i]) ensures DueAfter(key, ss[i].react.plan.now, ss[i].react.plan.timeout) {
      NeverOversleeps(ss, i, key);
    }
  }

  lemma Extend(ss: seq<State>, a: Step, s': State) returns (ss': seq<State>)
    requires Run(Init, Next, ss) && Enabled(ss[|ss| - 1], a) && s' == Do(ss[|ss| - 1], a)
    ensures Run(Init, Next, ss') && |ss'| > 0 && ss'[|ss'| - 1] == s'
  {
    assert Next(ss[|ss| - 1], s');
    ss' := ss + [s'];
  }

  const QUIET := Poller.State(false, false, true, map[], Poller.Idle)

  /** At time 0 a timer due at 10 is inserted and announced. */
  lemma TimerInserted() returns (ss: seq<State>)
    ensures Run(Init, Next, ss) && |ss| > 0
    ensures ss[|ss| - 1] == State(0, 2, [Insert(Key(10, 1), 7)], map[], Nobody, map[], Rest,
                                  QUIET.(flag := true, fd := true), 0, [Insert(Key(10, 1), 7)], {1}, NONE)
  {
    var op := Insert(Key(10, 1), 7);
    var s := State(0, 1, [], map[], Nobody, map[], Rest, QUIET, 0, [], {}, NONE);
    ss := [s];
    ss := Extend(ss, InsertBegin(0, 10, 7), s.(callers := map[0 := Gen(10, 7)]));
    s := s.(nextId := 2, callers := map[0 := Push(op)]);
    ss := Extend(ss, CallerStep(0), s);
    s := s.(ops := [op], since := [op], late := {1}, callers := map[0 := Notify(1)],
        poller := QUIET.(notifiers := map[0 := Poller.Cas]));
    ss := Extend(ss, CallerStep(0), s);
    s := s.(poller := QUIET.(flag := true, notifiers := map[0 := Poller.Write]));
    ss := Extend(ss, CallerStep(0), s);
    ss := Extend(ss, CallerStep(0), s.(callers := map[], poller := QUIET.(flag := true, fd := true)));
  }

  /** `react` drains the operation and begins a wait, which that notification ends. */
  lemma FirstWait() returns (ss: seq<State>)
    ensures Run(Init, Next, ss) && |ss| > 0
    ensures ss[|ss| - 1] == State(0, 2, [], map[Key(10, 1) := 7], Nobody, map[], Rest, QUIET, 0, [], {},
                                  NONE)
  {
    ss := TimerInserted();
    var s := ss[|ss| - 1];
    s := s.(react := ReactLock(None, false));
    ss := Extend(ss, ReactBegin(None), s);
    s := s.(react := ReactPc.Drain(None, false, 0), mutex := TheReactor, stale := 1, since := [], late := {});
    ss := Extend(ss, ReactStep(None, false), s);
    s := s.(react := ReactPc.Drain(None, false, 1), ops := [], timers := map[Key(10, 1) := 7], stale := 0);
    ss := Extend(ss, ReactStep(None, false), s);
    ss := Planned(ss, s.(react := ReadClock(None, false)));
    var plan := Plan(None, 0, Some(10), Some(10));
    s := ss[|ss| - 1].(react := Enter(plan, 0));
    ss := Extend(ss, ReactStep(None, false), s);
    s := s.(react := Wait(plan, 0), poller := s.poller.(waiter := Poller.Blocked));
    ss := Extend(ss, ReactStep(None, false), s);
    ss := Woken(ss);
  }

  lemma NothingFires(f: Firing, m: Timers, now: nat)
    requires Ready(m, now) == map[] && !f.owes
    ensures Collect(f, Ready(m, now)) == f && Missing(m, Later(m, now)) == map[]
        && f.fired + Missing(m, Later(m, now)) == f.fired
  {
    SplitRemoves(m, now);
  }

  /** From the end of a drain, at time 0 and with that timer alone, to setting the kernel timer. */
  lemma Planned(ss: seq<State>, s: State) returns (ss': seq<State>)
    requires Run(Init, Next, ss) && ss[|ss| - 1].react.Drain? && ss[|ss| - 1].ops == []
    requires s == ss[|ss| - 1].(react := ReadClock(ss[|ss| - 1].react.limit, ss[|ss| - 1].react.after))
    requires s.react == ReadClock(None, false) && s.clock == 0 && !s.firing.owes && s.mutex == TheReactor
             && s.timers == map[Key(10, 1) := 7]
    ensures Run(Init, Next, ss') && |ss'| > 0
    ensures ss'[|ss'| - 1] == s.(react := Arm(Plan(None, 0, Some(10), Some(10))), mutex := Nobody)
  {
    ss' := Extend(ss, ReactStep(None, false), s);
    var s' := s.(react := Split(None, false, 0));
    ss' := Extend(ss', ReactStep(None, false), s');
    assert Later(s'.timers, 0) == s'.timers && Ready(s'.timers, 0) == map[];
    assert Key(10, 1) in s'.timers && Earliest(s'.timers, Some(10));
    NothingFires(s'.firing, s'.timers, 0);
    s' := s'.(react := ReactUnlock(Plan(None, 0, Some(10), Some(10)), false));
    ss' := Extend(ss', ReactStep(Some(10), false), s');
    ss' := Extend(ss', ReactStep(None, false), s.(react := Arm(Plan(None, 0, Some(10), Some(10))), mutex := Nobody));
  }

  /** The notification ends the wait and is cleared. */
  lemma Woken(ss: seq<State>) returns (ss': seq<State>)
    requires Run(Init, Next, ss) && ss[|ss| - 1].react.Wait?
    requires ss[|ss| - 1].poller == QUIET.(flag := true, fd := true, waiter := Poller.Blocked)
        && ss[|ss| - 1].firing == NONE
    ensures Run(Init, Next, ss') && |ss'| > 0 && ss'[|ss'| - 1] == ss[|ss| - 1].(react := Rest, poller := QUIET)
  {
    var s, p := ss[|ss| - 1], QUIET.(flag := true, fd := true, armed := false, waiter := Poller.Returned);
    ss' := Extend(ss, Kernel(Poller.WaitReturn(true)), s.(poller := p));
    p := p.(fd := false, waiter := Poller.Drained);
    ss' := Extend(ss', Kernel(Poller.Drain), s.(poller := p));
    p := p.(armed := true, waiter := Poller.Rearmed);
    ss' := Extend(ss', Kernel(Poller.Rearm), s.(poller := p));
    ss' := Extend(ss', Kernel(Poller.Clear), s.(poller := QUIET));
    ss' := Extend(ss', ReactStep(None, false), s.(react := Wake, poller := QUIET));
    ss' := Extend(ss', ReactStep(None, false), s.(react := Rest, poller := QUIET));
  }

  /** The next wait is planned. */
  lemma SecondPlan() returns (ss: seq<State>)
    ensures Run(Init, Next, ss) && |ss| > 0
    ensures ss[|ss| - 1] == State(0, 2, [], map[Key(10, 1) := 7], Nobody, map[], Arm(Plan(None, 0, Some(10), Some(10))),
                                  QUIET, 0, [], {}, NONE)
  {
    ss := FirstWait();
    var s := ss[|ss| - 1];
    s := s.(react := ReactLock(None, false));
    ss := Extend(ss, ReactBegin(None), s);
    s := s.(react := ReactPc.Drain(None, false, 0), mutex := TheReactor);
    ss := Extend(ss, ReactStep(None, false), s);
    ss := Planned(ss, s.(react := ReadClock(None, false)));
  }

  /** A wait that does outlast a timer: the clock moves from 0 to 3 between reading it and
      setting the kernel timer, so at time 11 the reactor is still blocked, until 13, with
      nothing on its way to wake it and a timer that was due at 10. */
  lemma WaitOutlastsTimer() returns (ss: seq<State>, key: Key)
    ensures Run(Init, Next, ss) && |ss| > 0
    ensures var s := ss[|ss| - 1];
            && s.react.Wait? && s.poller.waiter == Poller.Blocked && Undisturbed(s) && key in Abstract(s)
            && s.react.plan.timeout.Some? && key.when < s.clock < s.react.at + s.react.plan.timeout.value
  {
    ss := SecondPlan();
    key := Key(10, 1);
    var s := ss[|ss| - 1].(clock := 3);
    ss := Extend(ss, TimePasses(3), s);
    var plan := Plan(None, 0, Some(10), Some(10));
    s := s.(react := Enter(plan, 3));
    ss := Extend(ss, ReactStep(None, false), s);
    s := s.(react := Wait(plan, 3), poller := QUIET.(waiter := Poller.Blocked));
    ss := Extend(ss, ReactStep(None, false), s);
    ss := Extend(ss, TimePasses(8), s.(clock := 11));
  }

  /** Concurrent pushers and drainers keep the queue bounded, and leave in it, whenever
      `react` is not draining it, only operations pushed since its latest drain began, in the
      order they were pushed. */
  lemma DrainLeavesOnlyNew(ss: seq<State>, i: nat)
    requires Run(Init, Next, ss) && i < |ss|
    ensures |ss[i].ops| <= DEFAULT_TIME_OP_SIZE
    ensures var ops, since := ss[i].ops, ss[i].since;
            !ss[i].react.Drain? ==> |ops| <= |since| && ops == since[|since| - |ops|..]
  {
    RunInv(ss, i);
    assert ss[i].ops[0..] == ss[i].ops;
  }

  /** What a step does to the abstract map: a push into a queue with room applies its
      operation at once; firing removes exactly the drained timers due strictly before the
      clock reading; every other step, draining above all, leaves the map as it is. */
  ghost function Effect(s: State, a: Step): Timers
    requires Enabled(s, a)
  {
    if a.CallerStep? && s.callers[a.c].Push? && |s.ops| < DEFAULT_TIME_OP_SIZE
    then ApplyOp(Abstract(s), s.callers[a.c].op)
    else if a.ReactStep? && s.react.Split? then Abstract(s) - set k | k in s.timers && k.when < s.react.now
    else Abstract(s)
  }

  ghost predicate MapStep(s: State, a: Step, s': State) {
    Enabled(s, a) && s' == Do(s, a) && Abstract(s') == Effect(s, a)
  }

  ghost predicate MapNext(s: State, s': State) {
    exists a :: MapStep(s, a, s')
  }

  /** A drained timer is in the abstract map unless a queued operation removes it. */
  lemma {:induction false} DrainedOrCancelled(m: Timers, ops: seq<Op>, key: Key)
    requires key in m
    ensures key in Apply(m, ops) || exists i :: 0 <= i < |ops| && ops[i].Remove? && ops[i].key == key
    decreases |ops|
  {
    if ops == [] {
    } else {
      if key in ApplyOp(m, ops[0]) {
        DrainedOrCancelled(ApplyOp(m, ops[0]), ops[1..], key);
        if key !in Apply(m, ops) {
          var i :| 0 <= i < |ops| - 1 && ops[1..][i].Remove? && ops[1..][i].key == key;
          assert ops[i + 1].Remove? && ops[i + 1].key == key;
        }
      } else {
        assert ops[0].Remove? && ops[0].key == key;
      }
    }
  }

  lemma PushEffect(s: State, c: nat)
    requires QueueOk(s) && Enabled(s, CallerStep(c)) && s.callers[c].Push?
    ensures Abstract(CallerGo(s, c)) == Effect(s, CallerStep(c))
  {
    ApplyAppend(s.timers, s.ops, s.callers[c].op);
  }

  lemma FiringEffect(s: State, first: Option<nat>, again: bool)
    requires IdsOk(s) && Enabled(s, ReactStep(first, again)) && s.react.Split?
    ensures Abstract(ReactGo(s, first, again)) == Effect(s, ReactStep(first, again))
  {
    var gone := Ready(s.timers, s.react.now).Keys;
    LaterIsRemoval(s.timers, s.react.now);
    RemovalCommutes(s.timers, s.ops, gone);
  }

  lemma StepEffect(s: State, a: Step)
    requires Inv(s) && Enabled(s, a)
    ensures Abstract(Do(s, a)) == Effect(s, a)
  {
    if a.CallerStep? && s.callers[a.c].Push? {
      PushEffect(s, a.c);
    } else if a.ReactStep? && s.react.Split? {
      FiringEffect(s, a.first, a.again);
    } else {
      UntouchedEffect(s, a);
    }
  }

  lemma UntouchedEffect(s: State, a: Step)
    requires Enabled(s, a) && !(a.CallerStep? && s.callers[a.c].Push?) && !(a.ReactStep? && s.react.Split?)
    ensures Abstract(Do(s, a)) == Abstract(s)
  {
    var s' := Do(s, a);
    assert (s'.timers == s.timers && s'.ops == s.ops)
        || (s.ops != [] && s'.timers == ApplyOp(s.timers, s.ops[0]) && s'.ops == s.ops[1..]);
  }

  /** Queued operations refine an immediate map, over every run, with any number of
      concurrent pushers and a queue that may be full. A timer that fires is in the map
      or has a removal queued. */
  lemma RefinesImmediateMap(ss: seq<State>, i: nat)
    requires Run(Init, Next, ss) && 0 < i < |ss|
    ensures MapNext(ss[i - 1], ss[i])
    ensures ss[i - 1].react.Split? ==> forall key :: key in ss[i - 1].timers && key.when < ss[i - 1].react.now ==>
              key in Abstract(ss[i - 1]) || Remove(key) in ss[i - 1].ops
  {
    RunInv(ss, i - 1);
    var s, s' := ss[i - 1], ss[i];
    assert Next(s, s');
    var a :| Enabled(s, a) && s' == Do(s, a);
    StepEffect(s, a);
    assert MapStep(s, a, s');
    if s.react.Split? {
      forall key | key in Ready(s.timers, s.react.now) ensures key in Abstract(s) || Remove(key) in s.ops {
        DrainedOrCancelled(s.timers, s.ops, key);
      }
    }
  }
}
