/** The parker of src/parking.rs: an atomic cell, a mutex and a condition variable.
    One thread parks; any number of threads unpark concurrently. */
module Parker {
  import opened Runs

  const EMPTY := 0
  const PARKED := 1
  const NOTIFIED := 2

  datatype Timeout = Zero | Finite | Forever

  /** Program counter of the parking thread. The comment gives what runs next. */
  datatype ParkPc =
    | Out(result: bool)                    // outside `park`; what the last call returned
    | Begin(t: Timeout)                    // compare-and-swap NOTIFIED to EMPTY
    | Lock(t: Timeout)                     // acquire the mutex
    | Announce(t: Timeout)                 // compare-and-swap EMPTY to PARKED, mutex held
    | TakeBack(t: Timeout)                 // swap in EMPTY, mutex held
    | Sleep(t: Timeout)                    // release the mutex and start waiting, atomically
    | Waiting(t: Timeout, signalled: bool) // inside the condition variable, mutex free
    | Relock(t: Timeout)                   // woken, acquire the mutex again
    | Recheck(t: Timeout)                  // look at the cell again, mutex held
    | Unlock(t: Timeout, result: bool)     // drop the guard and return
    | Panicked

  datatype UnparkPc =
    | Swap | WantLock | Holding | Signal
    | Returned(result: bool)
    | Crashed

  datatype Owner = Nobody | TheParker | By(u: nat)

  /** History: `granted` counts the `unpark` calls that have come to return true and
      `consumed` the `park` calls that have returned true. */
  datatype State = State(cell: int, lock: Owner, park: ParkPc, unparks: map<nat, UnparkPc>,
                         granted: nat, consumed: nat)

  datatype Step =
    | ParkBegin(t: Timeout)
    | ParkStep
    | UnparkBegin(u: nat)
    | UnparkStep(u: nat)
    | UnparkEnd(u: nat)

  predicate Init(s: State) {
    s == State(EMPTY, Nobody, Out(false), map[], 0, 0)
  }

  predicate Enabled(s: State, a: Step) {
    match a
    case ParkBegin(_) => s.park.Out?
    case ParkStep =>
      !s.park.Out? && !s.park.Panicked? && (s.park.Lock? || s.park.Relock? ==> s.lock == Nobody)
    case UnparkBegin(u) => u !in s.unparks
    case UnparkStep(u) =>
      && u in s.unparks && !s.unparks[u].Returned? && !s.unparks[u].Crashed?
      && (s.unparks[u].WantLock? ==> s.lock == Nobody)
    case UnparkEnd(u) => u in s.unparks && s.unparks[u].Returned?
  }

  function Do(s: State, a: Step): State
    requires Enabled(s, a)
  {
    match a
    case ParkBegin(t) => s.(park := Begin(t))
    case ParkStep => var s' := Park(s); if s'.park == Out(true) then s'.(consumed := s.consumed + 1) else s'
    case UnparkBegin(u) => s.(unparks := s.unparks[u := Swap])
    case UnparkStep(u) =>
      var s' := Unpark(s, u);
      if u in s'.unparks && s'.unparks[u] == Returned(true) then s'.(granted := s.granted + 1) else s'
    case UnparkEnd(u) => s.(unparks := s.unparks - {u})
  }

  /** One step of `Inner::park`. A waiting thread may return from the condition
      variable at any moment: signalled, timed out or spuriously. */
  function Park(s: State): State
    requires Enabled(s, ParkStep)
  {
    match s.park
    case Begin(t) =>
      if s.cell == NOTIFIED then s.(cell := EMPTY, park := Out(true))
      else if t == Zero then s.(park := Out(false))
      else s.(park := Lock(t))
    case Lock(t) => s.(lock := TheParker, park := Announce(t))
    case Announce(t) =>
      if s.cell == EMPTY then s.(cell := PARKED, park := Sleep(t))
      else if s.cell == NOTIFIED then s.(park := TakeBack(t))
      else s.(park := Panicked)
    case TakeBack(t) =>
      if s.cell == NOTIFIED then s.(cell := EMPTY, park := Unlock(t, true))
      else s.(cell := EMPTY, park := Panicked)
    case Sleep(t) => s.(lock := Nobody, park := Waiting(t, false))
    case Waiting(t, _) => s.(park := Relock(t))
    case Relock(t) => s.(lock := TheParker, park := Recheck(t))
    case Recheck(t) =>
      if s.cell == NOTIFIED then s.(cell := EMPTY, park := Unlock(t, true))
      else if t == Forever then s.(park := Sleep(t))
      else if s.cell == PARKED then s.(cell := EMPTY, park := Unlock(t, false))
      else s.(cell := EMPTY, park := Panicked)
    case Unlock(_, r) => s.(lock := Nobody, park := Out(r))
  }

  /** One step of `Inner::unpark`. */
  function Unpark(s: State, u: nat): State
    requires Enabled(s, UnparkStep(u))
  {
    match s.unparks[u]
    case Swap =>
      if s.cell == EMPTY then
        s.(cell := NOTIFIED, unparks := s.unparks[u := Returned(true)])
      else if s.cell == NOTIFIED then s.(unparks := s.unparks[u := Returned(false)])
      else if s.cell == PARKED then
        s.(cell := NOTIFIED, unparks := s.unparks[u := WantLock])
      else s.(cell := NOTIFIED, unparks := s.unparks[u := Crashed])
    case WantLock => s.(lock := By(u), unparks := s.unparks[u := Holding])
    case Holding => s.(lock := Nobody, unparks := s.unparks[u := Signal])
    case Signal =>
      var woken := if s.park.Waiting? then s.park.(signalled := true) else s.park;
      s.(park := woken, unparks := s.unparks[u := Returned(true)])
  }

  ghost predicate Next(s: State, s': State) {
    exists a :: Enabled(s, a) && s' == Do(s, a)
  }

  // ----- invariant -----

  predicate ParkerHolds(p: ParkPc) {
    p.Announce? || p.TakeBack? || p.Sleep? || p.Recheck? || p.Unlock?
  }

  /** The thread has announced itself as parked and has not yet left. */
  predicate Announced(p: ParkPc) {
    p.Sleep? || p.Waiting? || p.Relock? || p.Recheck?
  }

  /** Unparker `u` saw PARKED and has not yet called `notify_one`. */
  predicate Owes(s: State, u: nat) {
    u in s.unparks && (s.unparks[u].WantLock? || s.unparks[u].Holding? || s.unparks[u].Signal?)
  }

  /** Permits granted and not yet handed back by a returning `park`. */
  function Held(s: State): nat {
    (if s.cell == NOTIFIED then 1 else 0) + (if s.park.Unlock? && s.park.result then 1 else 0)
  }

  ghost predicate Inv(s: State) {
    && s.cell in {EMPTY, PARKED, NOTIFIED}
    && !s.park.Panicked?
    && (s.lock == TheParker <==> ParkerHolds(s.park))
    && (forall u :: u in s.unparks ==> !s.unparks[u].Crashed? && (s.unparks[u].Holding? <==> s.lock == By(u)))
    && (s.lock.By? ==> s.lock.u in s.unparks)
    && (Announced(s.park) ==> s.cell != EMPTY && s.park.t != Zero)
    && (!Announced(s.park) ==> s.cell != PARKED)
    && (s.park.TakeBack? ==> s.cell == NOTIFIED)
    && (s.park.Lock? || s.park.Announce? || s.park.TakeBack? ==> s.park.t != Zero)
    && (s.park.Sleep? && s.cell == NOTIFIED ==> exists u :: u in s.unparks && s.unparks[u].WantLock?)
    && (s.park.Waiting? && !s.park.signalled && s.cell == NOTIFIED ==> exists u :: Owes(s, u))
    && (s.park.Unlock? && s.park.t == Forever ==> s.park.result)
  }

  /** Unparkers that are going to return true and have not yet. */
  function Owing(s: State): set<nat> {
    set u | u in s.unparks && Owes(s, u)
  }

  predicate Permits(s: State) {
    s.granted + |Owing(s)| == s.consumed + Held(s)
  }

  lemma ParkKeepsPermits(s: State)
    requires Inv(s) && Permits(s) && Enabled(s, ParkStep)
    ensures Permits(Do(s, ParkStep))
  {
    assert Owing(Do(s, ParkStep)) == Owing(s);
  }

  lemma UnparkKeepsPermits(s: State, u: nat)
    requires Inv(s) && Permits(s) && Enabled(s, UnparkStep(u))
    ensures Permits(Do(s, UnparkStep(u)))
  {
    var s' := Do(s, UnparkStep(u));
    assert forall v :: v != u ==> (v in Owing(s') <==> v in Owing(s));
    assert Owing(s') == if u in Owing(s') then Owing(s) + {u} else Owing(s) - {u};
  }

  lemma StepKeepsPermits(s: State, a: Step)
    requires Inv(s) && Permits(s) && Enabled(s, a)
    ensures Permits(Do(s, a))
  {
    match a
    case ParkStep => ParkKeepsPermits(s);
    case UnparkStep(u) => UnparkKeepsPermits(s, u);
    case _ => assert Owing(Do(s, a)) == Owing(s);
  }

  lemma ParkKeepsInv(s: State)
    requires Inv(s) && Enabled(s, ParkStep)
    ensures Inv(Do(s, ParkStep))
  {
    var s' := Do(s, ParkStep);
    if s.park.Sleep? && s.cell == NOTIFIED {
      var u :| u in s.unparks && s.unparks[u].WantLock?;
      assert Owes(s', u);
    }
  }

  lemma UnparkKeepsInv(s: State, u: nat)
    requires Inv(s) && Enabled(s, UnparkStep(u))
    ensures Inv(Do(s, UnparkStep(u)))
  {
    var s' := Do(s, UnparkStep(u));
    assert u in s'.unparks;
    if s.park.Waiting? && !s.park.signalled && s.cell == NOTIFIED && !s.unparks[u].Signal? {
      var v :| Owes(s, v);
      assert Owes(s', v);
    }
    if s.park.Waiting? && s.unparks[u].Swap? {
      assert s.cell == PARKED ==> Owes(s', u);
    }
  }

  lemma StepKeepsInv(s: State, a: Step)
    requires Inv(s) && Enabled(s, a)
    ensures Inv(Do(s, a))
  {
    match a
    case ParkBegin(_) =>
    case ParkStep => ParkKeepsInv(s);
    case UnparkStep(u) => UnparkKeepsInv(s, u);
    case UnparkBegin(u) =>
      var s' := Do(s, a);
      assert forall v :: v in s.unparks ==> s'.unparks[v] == s.unparks[v];
      assert forall v :: Owes(s, v) ==> Owes(s', v);
    case UnparkEnd(u) =>
      var s' := Do(s, a);
      assert forall v :: v in s'.unparks ==> s'.unparks[v] == s.unparks[v];
      assert forall v :: Owes(s, v) ==> Owes(s', v);
  }

  ghost predicate InvPermits(s: State) {
    Inv(s) && Permits(s)
  }

  lemma RunInv(ss: seq<State>, i: nat)
    requires Run(Init, Next, ss) && i < |ss|
    ensures Inv(ss[i]) && Permits(ss[i])
  {
    forall s, s' | InvPermits(s) && Next(s, s') ensures InvPermits(s') {
      var a :| Enabled(s, a) && s' == Do(s, a);
      StepKeepsInv(s, a);
      StepKeepsPermits(s, a);
    }
    InductiveHolds(Init, Next, InvPermits, ss, i);
  }

  // ----- theorems over every run -----

  /** A parked thread with a pending permit has been signalled, or some unparker is
      still between its swap and `notify_one`. */
  lemma SignalNeverLost(ss: seq<State>, i: nat)
    requires Run(Init, Next, ss) && i < |ss|
    ensures ss[i].park.Waiting? && ss[i].cell == NOTIFIED ==>
              ss[i].park.signalled || exists u :: Owes(ss[i], u)
  {
    RunInv(ss, i);
  }

  /** The `unpark` calls that have come to return true, and those that are going to once they
      have signalled, match the `park` calls that have returned true, the permit in the cell
      and the permit a returning `park` is carrying; no panic or assertion branch is reached
      by either side. */
  lemma PermitsConserved(ss: seq<State>, i: nat)
    requires Run(Init, Next, ss) && i < |ss|
    ensures ss[i].granted + |Owing(ss[i])| == ss[i].consumed + Held(ss[i])
    ensures ss[i].park.Out? ==>
              ss[i].granted + |Owing(ss[i])| == ss[i].consumed + (if ss[i].cell == NOTIFIED then 1 else 0)
    ensures !ss[i].park.Panicked? && forall u :: u in ss[i].unparks ==> !ss[i].unparks[u].Crashed?
  {
    RunInv(ss, i);
  }

  /** `park` without a timeout returns only true, however often it wakes spuriously. */
  lemma ForeverReturnsTrue(ss: seq<State>, i: nat)
    requires Run(Init, Next, ss) && 0 < i < |ss|
    requires !ss[i - 1].park.Out? && !ss[i - 1].park.Panicked? && ss[i - 1].park.t == Forever && ss[i].park.Out?
    ensures ss[i].park.result
  {
    RunInv(ss, i - 1);
    assert Next(ss[i - 1], ss[i]);
  }

  /** A call keeps its timeout until it returns. */
  lemma TimeoutIsKept(ss: seq<State>, i: nat)
    requires Run(Init, Next, ss) && 0 < i < |ss|
    requires !ss[i - 1].park.Out? && !ss[i].park.Out?
    ensures !ss[i - 1].park.Panicked? && !ss[i].park.Panicked? && ss[i].park.t == ss[i - 1].park.t
  {
    RunInv(ss, i - 1);
    RunInv(ss, i);
    assert Next(ss[i - 1], ss[i]);
    NextKeepsTimeout(ss[i - 1], ss[i]);
  }

  lemma NextKeepsTimeout(s: State, s': State)
    requires Next(s, s') && !s.park.Out? && !s.park.Panicked? && !s'.park.Out? && !s'.park.Panicked?
    ensures s'.park.t == s.park.t
  {
    var a :| Enabled(s, a) && s' == Do(s, a);
    if a.ParkStep? {
      ParkKeepsTimeout(s);
    }
  }

  lemma ParkKeepsTimeout(s: State)
    requires Enabled(s, ParkStep) && !Park(s).park.Out? && !Park(s).park.Panicked?
    ensures Park(s).park.t == s.park.t
  {
  }

  ghost predicate UnparkerMoves(s: State, s': State) {
    exists u :: Enabled(s, UnparkStep(u)) && s' == Do(s, UnparkStep(u))
  }

  /** The owed signal can always be delivered: from any reachable state in which the
      thread waits unsignalled on a pending permit, the unparkers alone can go on to
      signal it, whatever the other unparkers were doing. */
  lemma SignalDeliverable(ss: seq<State>, i: nat) returns (path: seq<State>)
    requires Run(Init, Next, ss) && i < |ss|
    requires ss[i].park.Waiting? && !ss[i].park.signalled && ss[i].cell == NOTIFIED
    ensures |path| > 0 && path[0] == ss[i]
    ensures forall j :: 0 < j < |path| ==> UnparkerMoves(path[j - 1], path[j])
    ensures path[|path| - 1].park == ss[i].park.(signalled := true)
  {
    RunInv(ss, i);
    var p := ss[i];
    var u :| Owes(p, u);
    path := [p];
    if p.lock.By? && p.lock.u != u {
      var v := p.lock.u;
      assert UnparkerMoves(p, Do(p, UnparkStep(v)));
      p := Do(p, UnparkStep(v));
      path := path + [p];
    }
    while !p.unparks[u].Returned?
      invariant |path| > 0 && path[0] == ss[i] && path[|path| - 1] == p
      invariant forall j :: 0 < j < |path| ==> UnparkerMoves(path[j - 1], path[j])
      invariant u in p.unparks && p.park.Waiting?
      invariant p.unparks[u].WantLock? ==> p.lock == Nobody
      invariant !p.unparks[u].Swap? && !p.unparks[u].Crashed?
      invariant p.park == if p.unparks[u].Returned? then ss[i].park.(signalled := true) else ss[i].park
      decreases match p.unparks[u] case WantLock => 3 case Holding => 2 case Signal => 1 case _ => 0
    {
      assert UnparkerMoves(p, Do(p, UnparkStep(u)));
      p := Do(p, UnparkStep(u));
      path := path + [p];
    }
  }
}
