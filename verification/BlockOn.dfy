/** `block_on` (src/blocking.rs): any number of threads, each running one future with
    its own parker and `io_blocked` flag, sharing the reactor lock and the poller
    with the background reactor thread and with any number of concurrent waker calls. */
module BlockOn {
  import opened Runs
  import Parker
  import Poller

  /** Where control goes when the inner guard has run. `locked`: the reactor lock is
      still held. */
  datatype Exit = Again | Leave(locked: bool)

  /** Program counter of a `block_on` thread; the comment gives what runs next. */
  datatype Pc =
    | Polling                // the future is being polled
    | FirstCheck             // park_timeout(0) after a pending poll
    | FirstTry               // try_lock with a permit in hand
    | FirstMark              // set IO_POLLING for the non-blocking react
    | Enter(block: bool)     // react, up to the kernel wait
    | InWait(block: bool)    // Poller::wait
    | WakeLoop(block: bool)  // react, running the collected wakers
    | FirstUnmark            // clear IO_POLLING
    | FirstUnlock            // release the reactor lock
    | SecondTry              // try_lock without a permit
    | Mark                   // set IO_POLLING
    | MarkBlocked            // set io_blocked
    | SecondCheck            // park_timeout(0) before blocking in react
    | ThirdCheck             // park_timeout(0) after react
    | Elapsed                // has this thread been handling events for too long?
    | GiveUpLock             // release the reactor lock, then park
    | Park(hog: bool)        // park() with no timeout; `hog`: entered from the inner loop
    | Unmark(exit: Exit)         // guard: clear IO_POLLING
    | UnmarkBlocked(exit: Exit)  // guard: clear io_blocked
    | SecondUnlock           // release the reactor lock
    | Done

  /** `woken`: the waker has been called (its swap has happened) since the future was
      last polled. History: `base` is how many parks had returned true when it was last polled;
      `owes`: the reactor lock has been taken with a permit in hand, and no wait finished since. */
  datatype Thread =
    Thread(pc: Pc, parker: Parker.State, blocked: bool, polling: bool, woken: bool, base: nat, owes: bool)

  /** A waker runs on a `block_on` thread inside `react`, where that thread's IO_POLLING
      counts, or anywhere else, where the flag of the running thread is clear. */
  datatype Site = Elsewhere | Inside(t: nat)

  datatype CallPc = Unparking | TestPolling | TestBlocked | Notifying

  datatype Call = Call(target: nat, site: Site, pc: CallPc)

  datatype Lock = Free | Held(t: nat) | Background

  datatype State = State(threads: map<nat, Thread>, calls: map<nat, Call>, lock: Lock, poller: Poller.State)

  datatype Step =
    | Spawn(t: nat)                       // a thread enters `block_on`
    | Advance(t: nat, yes: bool)          // next statement; `yes` answers an open question
    | ParkInside(t: nat)                  // one step inside park()
    | CallBegin(c: nat, target: nat, site: Site)
    | CallStep(c: nat)
    | Kernel(a: Poller.Step)              // a step of the wait in progress
    | OtherNotify(a: Poller.Step)         // a notification not made by a waker
    | BackgroundLock | BackgroundWait | BackgroundUnlock

  predicate Init(s: State) {
    s.threads == map[] && s.calls == map[] && s.lock == Free && Poller.Init(s.poller)
  }

  predicate Enabled(s: State, a: Step) {
    match a
    case Spawn(t) => t !in s.threads
    case Advance(t, _) => t in s.threads && CanAdvance(s, t)
    case ParkInside(t) =>
      t in s.threads && s.threads[t].pc.Park? && Parker.Enabled(s.threads[t].parker, Parker.ParkStep)
    case CallBegin(c, target, site) =>
      && c !in s.calls && c !in s.poller.notifiers && target in s.threads
      && c !in s.threads[target].parker.unparks
      && (site.Inside? ==> site.t in s.threads && s.threads[site.t].pc.WakeLoop?)
    case CallStep(c) => c in s.calls && CanCall(s, c)
    case Kernel(k) =>
      (k.WaitReturn? || k.Interrupt? || k.Drain? || k.Rearm? || k.Clear?) && Poller.Enabled(s.poller, k)
    case OtherNotify(k) =>
      (k.NotifyBegin? || k.NotifyStep?) && k.n !in s.calls && Poller.Enabled(s.poller, k)
    case BackgroundLock => s.lock == Free
    case BackgroundWait => s.lock == Background && s.poller.waiter == Poller.Idle
    case BackgroundUnlock => s.lock == Background && s.poller.waiter == Poller.Idle
  }

  predicate CanAdvance(s: State, t: nat)
    requires t in s.threads
  {
    match s.threads[t].pc
    case FirstCheck | SecondCheck | ThirdCheck | SecondTry | GiveUpLock | Park(_) => s.threads[t].parker.park.Out?
    case Enter(_) | InWait(_) => s.poller.waiter == Poller.Idle
    case WakeLoop(_) => forall c :: c in s.calls ==> s.calls[c].site != Inside(t)
    case Done => false
    case _ => true
  }

  predicate CanCall(s: State, c: nat)
    requires c in s.calls
  {
    var k := s.calls[c];
    && k.target in s.threads
    && match k.pc
       case Unparking =>
         var p := s.threads[k.target].parker;
         Parker.Enabled(p, Parker.UnparkStep(c)) || Parker.Enabled(p, Parker.UnparkEnd(c))
       case TestPolling => k.site.Inside? ==> k.site.t in s.threads
       case TestBlocked => c !in s.poller.notifiers
       case Notifying => c in s.poller.notifiers
  }

  /** `park_timeout(0)`: one compare-and-swap. `TryParkIsPark` ties it to the parker. */
  function TryPark(p: Parker.State): Parker.State {
    if p.cell == Parker.NOTIFIED then p.(cell := Parker.EMPTY, park := Parker.Out(true), consumed := p.consumed + 1)
    else p.(park := Parker.Out(false))
  }

  /** Entering park() with no timeout. */
  function EnterPark(p: Parker.State): Parker.State {
    p.(park := Parker.Begin(Parker.Forever))
  }

  function Repoll(th: Thread): Thread {
    th.(pc := Polling, woken := false)
  }

  /** Statements of the inner loop, in which the reactor lock is held to wait for events. */
  predicate Inner(pc: Pc) {
    || pc.Mark? || pc.MarkBlocked? || pc.SecondCheck? || pc.ThirdCheck? || pc.Elapsed? || pc.GiveUpLock?
    || pc.Unmark? || pc.UnmarkBlocked? || pc.SecondUnlock?
  }

  /** Statements around the poll of the future and the non-blocking `react`. */
  predicate First(pc: Pc) {
    pc.Polling? || pc.FirstCheck? || pc.FirstTry? || pc.FirstMark? || pc.FirstUnmark? || pc.FirstUnlock?
  }

  /** The next statement of a `block_on` thread, as it sees itself; `free`: the reactor
      lock is free. */
  function Statement(th: Thread, free: bool, yes: bool): Thread {
    if Inner(th.pc) then InnerStatement(th, yes) else OuterStatement(th, free, yes)
  }

  function OuterStatement(th: Thread, free: bool, yes: bool): Thread
    requires !Inner(th.pc)
  {
    match th.pc
    case Polling => th.(pc := if yes then Done else FirstCheck)
    case FirstCheck =>
      var p := TryPark(th.parker);
      th.(parker := p, pc := if p.park.result then FirstTry else SecondTry)
    case FirstTry => if free then th.(pc := FirstMark) else Repoll(th)
    case FirstMark => th.(polling := true, pc := Enter(false))
    case Enter(b) => th.(pc := InWait(b))
    case InWait(b) => th.(pc := WakeLoop(b))
    case WakeLoop(b) => th.(pc := if b then ThirdCheck else FirstUnmark)
    case FirstUnmark => th.(polling := false, pc := FirstUnlock)
    case FirstUnlock => Repoll(th)
    case SecondTry => if free then th.(pc := Mark) else th.(pc := Park(false), parker := EnterPark(th.parker))
    case Park(hog) => if hog then th.(pc := Unmark(Leave(false))) else Repoll(th)
    case Done => th
  }

  function InnerStatement(th: Thread, yes: bool): Thread
    requires Inner(th.pc)
  {
    match th.pc
    case Mark => th.(polling := true, pc := MarkBlocked)
    case MarkBlocked => th.(blocked := true, pc := SecondCheck)
    case SecondCheck =>
      var p := TryPark(th.parker);
      th.(parker := p, pc := if p.park.result then Unmark(Leave(true)) else Enter(true))
    case ThirdCheck =>
      var p := TryPark(th.parker);
      th.(parker := p, pc := if p.park.result then Unmark(Leave(true)) else Elapsed)
    case Elapsed => th.(pc := if yes then GiveUpLock else Unmark(Again))
    case GiveUpLock => th.(pc := Park(true), parker := EnterPark(th.parker))
    case Unmark(exit) => th.(polling := false, pc := UnmarkBlocked(exit))
    case UnmarkBlocked(exit) =>
      var th' := th.(blocked := false);
      if exit == Again then th'.(pc := Mark) else if exit == Leave(true) then th'.(pc := SecondUnlock) else Repoll(th')
    case SecondUnlock => Repoll(th)
  }

  /** What the next statement does to the reactor lock. */
  function LockAfter(lock: Lock, t: nat, pc: Pc): Lock {
    if (pc.FirstTry? || pc.SecondTry?) && lock == Free then Held(t)
    else if pc.FirstUnlock? || pc.SecondUnlock? || pc.GiveUpLock? then Free
    else lock
  }

  /** Keeps the history of a thread over one statement; `got`: it took the reactor lock. */
  function Record(th: Thread, th': Thread, got: bool): Thread {
    th'.(base := if th'.pc.Polling? && !th.pc.Polling? then th'.parker.consumed else th.base,
         owes := if got && th.parker.consumed > th.base then true else if th.pc.InWait? then false else th.owes)
  }

  function Go(s: State, t: nat, yes: bool): State
    requires Enabled(s, Advance(t, yes))
  {
    var th, pc, lock := s.threads[t], s.threads[t].pc, LockAfter(s.lock, t, s.threads[t].pc);
    var got := s.lock != Held(t) && lock == Held(t);
    State(s.threads[t := Record(th, Statement(th, s.lock == Free, yes), got)], s.calls, lock,
          if pc.Enter? then Poller.Do(s.poller, Poller.WaitBegin) else s.poller)
  }

  function Put(s: State, t: nat, th: Thread): State {
    s.(threads := s.threads[t := th])
  }

  function PutParker(s: State, t: nat, p: Parker.State): State
    requires t in s.threads
  {
    Put(s, t, s.threads[t].(parker := p))
  }

  function PutCall(s: State, c: nat, pc: CallPc): State
    requires c in s.calls
  {
    s.(calls := s.calls[c := s.calls[c].(pc := pc)])
  }

  function EndCall(s: State, c: nat): State {
    s.(calls := s.calls - {c})
  }

  /** One step of the waker closure: unpark() && !IO_POLLING && io_blocked, then notify. */
  function CallGo(s: State, c: nat): State
    requires Enabled(s, CallStep(c))
  {
    var k := s.calls[c];
    match k.pc
    case Unparking =>
      var p := s.threads[k.target].parker;
      if p.unparks[c].Returned? then
        var s' := PutParker(s, k.target, Parker.Do(p, Parker.UnparkEnd(c)));
        if p.unparks[c].result then PutCall(s', c, TestPolling) else EndCall(s', c)
      else
        var th := s.threads[k.target];
        Put(s, k.target, th.(parker := Parker.Do(p, Parker.UnparkStep(c)), woken := th.woken || p.unparks[c].Swap?))
    case TestPolling =>
      if k.site.Inside? && s.threads[k.site.t].polling then EndCall(s, c) else PutCall(s, c, TestBlocked)
    case TestBlocked =>
      if s.threads[k.target].blocked then
        PutCall(s, c, Notifying).(poller := Poller.Do(s.poller, Poller.NotifyBegin(c)))
      else EndCall(s, c)
    case Notifying =>
      var s' := s.(poller := Poller.Do(s.poller, Poller.NotifyStep(c)));
      if c in s'.poller.notifiers then s' else EndCall(s', c)
  }

  function Do(s: State, a: Step): State
    requires Enabled(s, a)
  {
    match a
    case Spawn(t) =>
      Put(s, t, Thread(Polling, Parker.State(Parker.EMPTY, Parker.Nobody, Parker.Out(false), map[], 0, 0), false,
          false, false, 0, false))
    case Advance(t, yes) => Go(s, t, yes)
    case ParkInside(t) => PutParker(s, t, Parker.Do(s.threads[t].parker, Parker.ParkStep))
    case CallBegin(c, target, site) =>
      var s' := PutParker(s, target, Parker.Do(s.threads[target].parker, Parker.UnparkBegin(c)));
      s'.(calls := s.calls[c := Call(target, site, Unparking)])
    case CallStep(c) => CallGo(s, c)
    case Kernel(k) => s.(poller := Poller.Do(s.poller, k))
    case OtherNotify(k) => s.(poller := Poller.Do(s.poller, k))
    case BackgroundLock => s.(lock := Background)
    case BackgroundWait => s.(poller := Poller.Do(s.poller, Poller.WaitBegin))
    case BackgroundUnlock => s.(lock := Free)
  }

  ghost predicate Next(s: State, s': State) {
    exists a :: Enabled(s, a) && s' == Do(s, a)
  }

  // ----- invariant -----

  predicate HoldsLock(pc: Pc) {
    || pc.FirstMark? || pc.Enter? || pc.InWait? || pc.WakeLoop? || pc.FirstUnmark? || pc.FirstUnlock?
    || pc.Mark? || pc.MarkBlocked? || pc.SecondCheck? || pc.ThirdCheck? || pc.Elapsed? || pc.GiveUpLock?
    || ((pc.Unmark? || pc.UnmarkBlocked?) && pc.exit != Leave(false))
    || pc.SecondUnlock?
  }

  predicate MarkedPolling(pc: Pc) {
    || pc.Enter? || pc.InWait? || pc.WakeLoop? || pc.FirstUnmark? || pc.MarkBlocked?
    || pc.SecondCheck? || pc.ThirdCheck? || pc.Elapsed? || pc.GiveUpLock? || pc == Park(true) || pc.Unmark?
  }

  predicate MarkedBlocked(pc: Pc) {
    || ((pc.Enter? || pc.InWait? || pc.WakeLoop?) && pc.block)
    || pc.SecondCheck? || pc.ThirdCheck? || pc.Elapsed? || pc.GiveUpLock? || pc == Park(true)
    || pc.Unmark? || pc.UnmarkBlocked?
  }

  /** A permit has been consumed and the thread is on its way to poll the future again
      without blocking. */
  predicate Returning(th: Thread) {
    || th.pc.FirstTry? || th.pc.FirstMark? || th.pc.FirstUnmark? || th.pc.FirstUnlock?
    || ((th.pc.Enter? || th.pc.InWait? || th.pc.WakeLoop?) && !th.pc.block)
    || (th.pc.Park? && (th.parker.park.Unlock? || th.parker.park.Out?))
    || ((th.pc.Unmark? || th.pc.UnmarkBlocked?) && th.pc.exit != Again)
    || th.pc.SecondUnlock? || th.pc.Done?
  }

  /** What a thread's program counter says about its own flags and parker. */
  predicate LocalOk(th: Thread) {
    && th.polling == MarkedPolling(th.pc)
    && th.blocked == MarkedBlocked(th.pc)
    && (th.pc.Park? || th.parker.park.Out?)
    && (th.woken ==> th.parker.cell == Parker.NOTIFIED || Returning(th))
  }

  ghost predicate LocalsOk(s: State) {
    forall t {:trigger LocalOk(s.threads[t])} :: t in s.threads ==> LocalOk(s.threads[t])
  }

  ghost predicate ParkerOk(s: State, t: nat)
    requires t in s.threads
  {
    Parker.Inv(s.threads[t].parker)
  }

  ghost predicate ParkersOk(s: State) {
    forall t {:trigger ParkerOk(s, t)} :: t in s.threads ==> ParkerOk(s, t)
  }

  lemma ParkerUpdate(s: State, s': State, t: nat)
    requires ParkersOk(s) && t in s'.threads && s'.threads == s.threads[t := s'.threads[t]]
    requires Parker.Inv(s'.threads[t].parker)
    ensures ParkersOk(s')
  {
    forall u | u in s'.threads ensures ParkerOk(s', u) {
      assert u != t ==> ParkerOk(s, u);
    }
  }

  /** The reactor lock is held by the thread whose program counter says so, and only its
      holder is in `Poller::wait`. */
  predicate LockAt(s: State, t: nat)
    requires t in s.threads
  {
    s.lock == Held(t) <==> HoldsLock(s.threads[t].pc)
  }

  ghost predicate LockOk(s: State) {
    && (forall t {:trigger LockAt(s, t)} :: t in s.threads ==> LockAt(s, t))
    && (s.lock.Held? ==> s.lock.t in s.threads)
    && (s.poller.waiter != Poller.Idle ==>
          s.lock == Background || (s.lock.Held? && s.threads[s.lock.t].pc.InWait?))
  }

  predicate CallOk(s: State, c: nat)
    requires c in s.calls
  {
    var k := s.calls[c];
    && k.target in s.threads
    && (k.site.Inside? ==> k.site.t in s.threads && s.threads[k.site.t].pc.WakeLoop?)
    && (k.pc.Unparking? <==> c in s.threads[k.target].parker.unparks)
    && (k.pc.Notifying? <==> c in s.poller.notifiers)
  }

  /** An unparker of thread `t` is a waker call aimed at `t`. */
  predicate Traced(s: State, t: nat, c: nat)
    requires t in s.threads
  {
    c in s.threads[t].parker.unparks ==> c in s.calls && s.calls[c].target == t
  }

  ghost predicate CallsOk(s: State) {
    && (forall c {:trigger CallOk(s, c)} :: c in s.calls ==> CallOk(s, c))
    && (forall t, c {:trigger Traced(s, t, c)} :: t in s.threads ==> Traced(s, t, c))
  }

  /** Thread `t` has made its last check and will block, or is blocked, in the poller. */
  predicate Committed(s: State, t: nat) {
    && t in s.threads
    && (s.threads[t].pc == Enter(true) || (s.threads[t].pc == InWait(true) && s.poller.waiter == Poller.Blocked))
  }

  /** Waker call `c` granted `t` its permit and has not yet passed the poller's flag. */
  predicate Responsible(s: State, c: nat, t: nat) {
    && c in s.calls && s.calls[c].target == t && s.calls[c].site == Elsewhere && t in s.threads
    && match s.calls[c].pc
       case Unparking => c in s.threads[t].parker.unparks && s.threads[t].parker.unparks[c] == Parker.Returned(true)
       case Notifying => c in s.poller.notifiers && s.poller.notifiers[c] == Poller.Cas
       case _ => true
  }

  ghost predicate Covered(s: State, t: nat) {
    Poller.Pending(s.poller) || exists c :: Responsible(s, c, t)
  }

  ghost predicate Covers(s: State) {
    forall t {:trigger Committed(s, t)} :: Committed(s, t) && s.threads[t].parker.cell == Parker.NOTIFIED ==>
        Covered(s, t)
  }

  ghost predicate Inv(s: State) {
    && LocalsOk(s) && ParkersOk(s) && LockOk(s) && CallsOk(s) && Covers(s) && Poller.Inv(s.poller)
  }

  lemma TryParkIsPark(p: Parker.State)
    requires Parker.Inv(p) && p.park.Out?
    ensures TryPark(p) == Parker.Do(Parker.Do(p, Parker.ParkBegin(Parker.Zero)), Parker.ParkStep)
    ensures Parker.Inv(TryPark(p))
  {
    var q := Parker.Do(p, Parker.ParkBegin(Parker.Zero));
    Parker.StepKeepsInv(p, Parker.ParkBegin(Parker.Zero));
    Parker.StepKeepsInv(q, Parker.ParkStep);
  }

  /** Each statement keeps the thread's own facts. */
  lemma StatementKeepsLocal(th: Thread, free: bool, yes: bool)
    requires LocalOk(th) && !th.pc.Done? && (th.pc.Park? ==> th.parker.park.Out?)
    ensures LocalOk(Statement(th, free, yes))
  {
    if Inner(th.pc) {
      StatementKeepsLocalInner(th, free, yes);
    } else {
      StatementKeepsLocalOuter(th, free, yes);
    }
  }

  lemma StatementKeepsLocalInner(th: Thread, free: bool, yes: bool)
    requires Inner(th.pc)
    requires LocalOk(th) && !th.pc.Done? && (th.pc.Park? ==> th.parker.park.Out?)
    ensures LocalOk(Statement(th, free, yes))
  {
  }

  lemma StatementKeepsLocalOuter(th: Thread, free: bool, yes: bool)
    requires !Inner(th.pc)
    requires LocalOk(th) && !th.pc.Done? && (th.pc.Park? ==> th.parker.park.Out?)
    ensures LocalOk(Statement(th, free, yes))
  {
  }

  /** Each statement acquires and releases the reactor lock exactly where its program
      counter says. */
  lemma StatementKeepsLock(th: Thread, lock: Lock, t: nat, yes: bool)
    requires !th.pc.Done? && (lock == Held(t) <==> HoldsLock(th.pc))
    ensures LockAfter(lock, t, th.pc) == Held(t) <==> HoldsLock(Statement(th, lock == Free, yes).pc)
  {
    if Inner(th.pc) {
      StatementKeepsLockInner(th, lock, t, yes);
    } else {
      StatementKeepsLockOuter(th, lock, t, yes);
    }
  }

  lemma StatementKeepsLockInner(th: Thread, lock: Lock, t: nat, yes: bool)
    requires Inner(th.pc)
    requires !th.pc.Done? && (lock == Held(t) <==> HoldsLock(th.pc))
    ensures LockAfter(lock, t, th.pc) == Held(t) <==> HoldsLock(Statement(th, lock == Free, yes).pc)
  {
  }

  lemma StatementKeepsLockOuter(th: Thread, lock: Lock, t: nat, yes: bool)
    requires !Inner(th.pc)
    requires !th.pc.Done? && (lock == Held(t) <==> HoldsLock(th.pc))
    ensures LockAfter(lock, t, th.pc) == Held(t) <==> HoldsLock(Statement(th, lock == Free, yes).pc)
  {
    if First(th.pc) {
      StatementKeepsLockFirst(th, lock, t, yes);
    } else {
      StatementKeepsLockRest(th, lock, t, yes);
    }
  }

  lemma StatementKeepsLockFirst(th: Thread, lock: Lock, t: nat, yes: bool)
    requires !Inner(th.pc) && First(th.pc)
    requires !th.pc.Done? && (lock == Held(t) <==> HoldsLock(th.pc))
    ensures LockAfter(lock, t, th.pc) == Held(t) <==> HoldsLock(Statement(th, lock == Free, yes).pc)
  {
  }

  lemma StatementKeepsLockRest(th: Thread, lock: Lock, t: nat, yes: bool)
    requires !Inner(th.pc) && !First(th.pc)
    requires !th.pc.Done? && (lock == Held(t) <==> HoldsLock(th.pc))
    ensures LockAfter(lock, t, th.pc) == Held(t) <==> HoldsLock(Statement(th, lock == Free, yes).pc)
  {
  }

  /** Each statement leaves the parker alone, tries it or enters it. */
  lemma StatementParker(th: Thread, free: bool, yes: bool)
    ensures var p := Statement(th, free, yes).parker;
            p == th.parker || p == TryPark(th.parker) || p == EnterPark(th.parker)
  {
    if Inner(th.pc) {
      StatementParkerInner(th, free, yes);
    } else {
      StatementParkerOuter(th, free, yes);
    }
  }

  lemma StatementParkerInner(th: Thread, free: bool, yes: bool)
    requires Inner(th.pc)
    ensures var p := Statement(th, free, yes).parker;
            p == th.parker || p == TryPark(th.parker) || p == EnterPark(th.parker)
  {
  }

  lemma StatementParkerOuter(th: Thread, free: bool, yes: bool)
    requires !Inner(th.pc)
    ensures var p := Statement(th, free, yes).parker;
            p == th.parker || p == TryPark(th.parker) || p == EnterPark(th.parker)
  {
  }

  /** A thread commits to blocking in the poller only with no permit in the cell. */
  lemma StatementFacts(th: Thread, free: bool, yes: bool)
    requires !th.pc.Done?
    ensures var th' := Statement(th, free, yes);
            && (th'.pc.WakeLoop? ==> th.pc.InWait?)
            && (th'.pc == Enter(true) ==> th'.parker.cell != Parker.NOTIFIED)
            && (th.pc.Enter? <==> th'.pc.InWait?)
  {
    if Inner(th.pc) {
      StatementFactsInner(th, free, yes);
    } else {
      StatementFactsOuter(th, free, yes);
    }
  }

  lemma StatementFactsInner(th: Thread, free: bool, yes: bool)
    requires Inner(th.pc)
    requires !th.pc.Done?
    ensures var th' := Statement(th, free, yes);
            && (th'.pc.WakeLoop? ==> th.pc.InWait?)
            && (th'.pc == Enter(true) ==> th'.parker.cell != Parker.NOTIFIED)
            && (th.pc.Enter? <==> th'.pc.InWait?)
  {
  }

  lemma StatementFactsOuter(th: Thread, free: bool, yes: bool)
    requires !Inner(th.pc)
    requires !th.pc.Done?
    ensures var th' := Statement(th, free, yes);
            && (th'.pc.WakeLoop? ==> th.pc.InWait?)
            && (th'.pc == Enter(true) ==> th'.parker.cell != Parker.NOTIFIED)
            && (th.pc.Enter? <==> th'.pc.InWait?)
  {
    if First(th.pc) {
      StatementFactsFirst(th, free, yes);
    } else {
      StatementFactsRest(th, free, yes);
    }
  }

  lemma StatementFactsFirst(th: Thread, free: bool, yes: bool)
    requires !Inner(th.pc) && First(th.pc)
    requires !th.pc.Done?
    ensures var th' := Statement(th, free, yes);
            && (th'.pc.WakeLoop? ==> th.pc.InWait?)
            && (th'.pc == Enter(true) ==> th'.parker.cell != Parker.NOTIFIED)
            && (th.pc.Enter? <==> th'.pc.InWait?)
  {
  }

  lemma StatementFactsRest(th: Thread, free: bool, yes: bool)
    requires !Inner(th.pc) && !First(th.pc)
    requires !th.pc.Done?
    ensures var th' := Statement(th, free, yes);
            && (th'.pc.WakeLoop? ==> th.pc.InWait?)
            && (th'.pc == Enter(true) ==> th'.parker.cell != Parker.NOTIFIED)
            && (th.pc.Enter? <==> th'.pc.InWait?)
  {
  }

  /** `s'` differs from `s` in thread `t` alone, apart from the lock and the poller. */
  predicate OnlyThread(s: State, s': State, t: nat) {
    && t in s.threads && t in s'.threads
    && s'.threads == s.threads[t := s'.threads[t]]
    && s'.calls == s.calls
    && s'.poller.notifiers == s.poller.notifiers
  }

  lemma ThreadUpdateKeepsCalls(s: State, s': State, t: nat)
    requires CallsOk(s) && OnlyThread(s, s', t)
    requires s'.threads[t].parker.unparks == s.threads[t].parker.unparks
    requires s.threads[t].pc.WakeLoop? ==> s'.threads[t].pc.WakeLoop? || forall c :: c in s.calls ==>
        s.calls[c].site != Inside(t)
    ensures CallsOk(s')
  {
    forall c | c in s'.calls ensures CallOk(s', c) {
      assert CallOk(s, c);
    }
    forall u, c | u in s'.threads ensures Traced(s', u, c) {
      assert Traced(s, u, c);
    }
  }

  lemma ThreadUpdateKeepsLock(s: State, s': State, t: nat)
    requires LockOk(s) && OnlyThread(s, s', t)
    requires s'.lock == Held(t) <==> HoldsLock(s'.threads[t].pc)
    requires s'.lock == s.lock || (s.lock == Free && s'.lock == Held(t)) || (s.lock == Held(t) && s'.lock == Free)
    requires s'.poller.waiter == s.poller.waiter || s'.threads[t].pc.InWait?
    requires s.threads[t].pc.InWait? ==> s'.threads[t].pc.InWait? || s.poller.waiter == Poller.Idle
    ensures LockOk(s')
  {
    assert LockAt(s, t);
    forall u | u in s'.threads ensures LockAt(s', u) {
      assert LockAt(s, u);
    }
  }

  /** A statement of one thread does not uncover another, and commits its own only after
      finding no permit. */
  lemma ThreadUpdateKeepsCover(s: State, s': State, t: nat)
    requires Covers(s) && LockOk(s) && LockOk(s') && OnlyThread(s, s', t)
    requires s'.threads[t].parker.unparks == s.threads[t].parker.unparks
    requires s'.poller == s.poller || (s'.poller == s.poller.(waiter := Poller.Blocked) && s'.threads[t].pc.InWait?)
    requires Committed(s', t) && s'.threads[t].parker.cell == Parker.NOTIFIED ==>
        Committed(s, t) && s.threads[t].parker.cell == Parker.NOTIFIED
    ensures Covers(s')
  {
    forall u | Committed(s', u) && s'.threads[u].parker.cell == Parker.NOTIFIED ensures Covered(s', u) {
      assert LockAt(s', t) && LockAt(s', u);
      assert Committed(s, u);
      assert forall c :: Responsible(s, c, u) ==> Responsible(s', c, u);
      assert forall n :: Poller.Writing(s.poller, n) ==> Poller.Writing(s'.poller, n);
    }
  }

  lemma AdvanceKeepsInv(s: State, t: nat, yes: bool)
    requires Inv(s) && Enabled(s, Advance(t, yes))
    ensures Inv(Go(s, t, yes))
  {
    var s' := Go(s, t, yes);
    var th, p := s.threads[t], s.threads[t].parker;
    assert LocalOk(th) && LockAt(s, t);
    StatementKeepsLocal(th, s.lock == Free, yes);
    StatementKeepsLock(th, s.lock, t, yes);
    StatementParker(th, s.lock == Free, yes);
    StatementFacts(th, s.lock == Free, yes);
    if th.pc.Enter? {
      Poller.StepKeepsInv(s.poller, Poller.WaitBegin);
    }
    ThreadUpdateKeepsLock(s, s', t);
    ThreadUpdateKeepsCalls(s, s', t);
    ThreadUpdateKeepsCover(s, s', t);
    assert ParkerOk(s, t);
    AdvanceKeepsParker(th, s.lock == Free, yes);
    ParkerUpdate(s, s', t);
  }

  lemma AdvanceKeepsParker(th: Thread, free: bool, yes: bool)
    requires Parker.Inv(th.parker) && LocalOk(th) && (th.pc.Park? ==> th.parker.park.Out?)
    ensures Parker.Inv(Statement(th, free, yes).parker)
  {
    TryParkIsPark(th.parker);
    Parker.StepKeepsInv(th.parker, Parker.ParkBegin(Parker.Forever));
  }

  lemma ParkStepFacts(p: Parker.State)
    requires Parker.Inv(p) && Parker.Enabled(p, Parker.ParkStep)
    ensures var p' := Parker.Do(p, Parker.ParkStep);
            && Parker.Inv(p') && p'.unparks == p.unparks
            && (p.cell == Parker.NOTIFIED || p.park.Unlock? ==>
                p'.cell == Parker.NOTIFIED || p'.park.Unlock? || p'.park.Out?)
  {
    Parker.StepKeepsInv(p, Parker.ParkStep);
  }

  lemma ParkInsideKeepsInv(s: State, t: nat)
    requires Inv(s) && Enabled(s, ParkInside(t))
    ensures Inv(Do(s, ParkInside(t)))
  {
    var s' := Do(s, ParkInside(t));
    assert LocalOk(s.threads[t]) && ParkerOk(s, t) && LockAt(s, t);
    ParkStepFacts(s.threads[t].parker);
    ThreadUpdateKeepsLock(s, s', t);
    ThreadUpdateKeepsCalls(s, s', t);
    ThreadUpdateKeepsCover(s, s', t);
    ParkerUpdate(s, s', t);
  }

  /** Facts about the threads that a waker call leaves as they were. */
  lemma CallUpdateKeepsThreads(s: State, s': State, t: nat)
    requires LocalsOk(s) && ParkersOk(s) && LockOk(s)
    requires t in s.threads && t in s'.threads && s'.threads == s.threads[t := s'.threads[t]]
    requires var th, th' := s.threads[t], s'.threads[t];
             && th' == th.(parker := th'.parker, woken := th'.woken)
             && Parker.Inv(th'.parker)
             && (th.parker.park.Out? ==> th'.parker.park.Out?) && (th.parker.park.Unlock? ==> th'.parker.park.Unlock?)
             && (th'.parker.cell == Parker.NOTIFIED || (th'.parker.cell == th.parker.cell && th'.woken == th.woken))
    requires s'.lock == s.lock && s'.poller.waiter == s.poller.waiter
    ensures LocalsOk(s') && ParkersOk(s') && LockOk(s')
  {
    assert LocalOk(s.threads[t]);
    ParkerUpdate(s, s', t);
    forall u | u in s'.threads ensures LocalOk(s'.threads[u]) && LockAt(s', u) {
      assert LocalOk(s.threads[u]) && LockAt(s, u);
    }
  }

  ghost predicate SameBut<V>(m: map<nat, V>, m': map<nat, V>, c: nat) {
    forall d :: d != c ==> (d in m <==> d in m') && (d in m ==> m[d] == m'[d])
  }

  /** `s'` differs from `s` in waker call `c`, whose target is `t`, alone. */
  ghost predicate OnlyCall(s: State, s': State, t: nat, c: nat) {
    && t in s.threads && t in s'.threads
    && s'.threads == s.threads[t := s'.threads[t]]
    && s'.threads[t].pc == s.threads[t].pc
    && s'.lock == s.lock && s'.poller.waiter == s.poller.waiter
    && (c in s.calls ==> s.calls[c].target == t)
    && (c in s'.calls ==> s'.calls[c].target == t)
    && SameBut(s.calls, s'.calls, c)
    && SameBut(s.poller.notifiers, s'.poller.notifiers, c)
    && SameBut(s.threads[t].parker.unparks, s'.threads[t].parker.unparks, c)
  }

  lemma CallUpdateKeepsCalls(s: State, s': State, t: nat, c: nat)
    requires CallsOk(s) && OnlyCall(s, s', t, c)
    requires c in s'.calls ==> CallOk(s', c)
    requires c in s'.threads[t].parker.unparks ==> c in s'.calls
    ensures CallsOk(s')
  {
    forall d | d in s'.calls ensures CallOk(s', d) {
      assert d != c ==> CallOk(s, d);
    }
    forall u, d | u in s'.threads ensures Traced(s', u, d) {
      assert Traced(s, u, d) && Traced(s, u, c);
    }
  }

  lemma CallUpdateKeepsCover(s: State, s': State, t: nat, c: nat)
    requires Covers(s) && OnlyCall(s, s', t, c)
    requires Poller.Pending(s.poller) ==> Poller.Pending(s'.poller)
    requires Committed(s, t) && Responsible(s, c, t) ==> Covered(s', t)
    requires var p, p' := s.threads[t].parker, s'.threads[t].parker;
             Committed(s, t) && p'.cell == Parker.NOTIFIED && p.cell != Parker.NOTIFIED ==> Covered(s', t)
    ensures Covers(s')
  {
    forall u | Committed(s', u) && s'.threads[u].parker.cell == Parker.NOTIFIED ensures Covered(s', u) {
      assert Committed(s, u);
      if s.threads[u].parker.cell == Parker.NOTIFIED && !Poller.Pending(s.poller) {
        var d :| Responsible(s, d, u);
        assert d != c ==> Responsible(s', d, u);
      }
    }
  }

  lemma CallBeginKeepsInv(s: State, c: nat, target: nat, site: Site)
    requires Inv(s) && Enabled(s, CallBegin(c, target, site))
    ensures Inv(Do(s, CallBegin(c, target, site)))
  {
    var s' := Do(s, CallBegin(c, target, site));
    assert ParkerOk(s, target);
    Parker.StepKeepsInv(s.threads[target].parker, Parker.UnparkBegin(c));
    CallUpdateKeepsThreads(s, s', target);
    CallUpdateKeepsCalls(s, s', target, c);
    CallUpdateKeepsCover(s, s', target, c);
  }

  lemma UnparkFacts(p: Parker.State, c: nat)
    requires Parker.Inv(p) && Parker.Enabled(p, Parker.UnparkStep(c))
    ensures var p' := Parker.Do(p, Parker.UnparkStep(c));
            && Parker.Inv(p') && c in p'.unparks && SameBut(p.unparks, p'.unparks, c)
            && (p.park.Out? ==> p'.park.Out?) && (p.park.Unlock? ==> p'.park.Unlock?)
            && (p'.cell == Parker.NOTIFIED || (p'.cell == p.cell && !p.unparks[c].Swap?))
            && (p'.cell == Parker.NOTIFIED && p.cell != Parker.NOTIFIED && p.park.Out? ==>
                p'.unparks[c] == Parker.Returned(true))
  {
    Parker.StepKeepsInv(p, Parker.UnparkStep(c));
  }

  /** The reactor lock keeps wakers that run inside `react` away from committed threads. */
  lemma CommittedFromElsewhere(s: State, c: nat)
    requires CallsOk(s) && LockOk(s) && c in s.calls && Committed(s, s.calls[c].target)
    ensures s.calls[c].site == Elsewhere
  {
    assert CallOk(s, c) && LockAt(s, s.calls[c].target);
    assert s.calls[c].site.Inside? ==> LockAt(s, s.calls[c].site.t);
  }

  lemma UnparkingKeepsInv(s: State, c: nat)
    requires Inv(s) && Enabled(s, CallStep(c)) && s.calls[c].pc == Unparking
    requires !s.threads[s.calls[c].target].parker.unparks[c].Returned?
    ensures Inv(CallGo(s, c))
  {
    var s', t := CallGo(s, c), s.calls[c].target;
    assert CallOk(s, c) && LocalOk(s.threads[t]) && ParkerOk(s, t);
    UnparkFacts(s.threads[t].parker, c);
    CallUpdateKeepsThreads(s, s', t);
    CallUpdateKeepsCalls(s, s', t, c);
    if Committed(s, t) {
      CommittedFromElsewhere(s, c);
      assert s'.threads[t].parker.unparks[c] == Parker.Returned(true) ==> Responsible(s', c, t);
    }
    CallUpdateKeepsCover(s, s', t, c);
  }

  lemma UnparkEndFacts(p: Parker.State, c: nat)
    requires Parker.Inv(p) && Parker.Enabled(p, Parker.UnparkEnd(c))
    ensures var p' := Parker.Do(p, Parker.UnparkEnd(c));
            && Parker.Inv(p') && c !in p'.unparks && SameBut(p.unparks, p'.unparks, c)
            && p'.park == p.park && p'.cell == p.cell
  {
    Parker.StepKeepsInv(p, Parker.UnparkEnd(c));
  }

  lemma UnparkedKeepsInv(s: State, c: nat)
    requires Inv(s) && Enabled(s, CallStep(c)) && s.calls[c].pc == Unparking
    requires s.threads[s.calls[c].target].parker.unparks[c].Returned?
    ensures Inv(CallGo(s, c))
  {
    var s', t := CallGo(s, c), s.calls[c].target;
    assert CallOk(s, c) && ParkerOk(s, t);
    UnparkEndFacts(s.threads[t].parker, c);
    CallUpdateKeepsThreads(s, s', t);
    CallUpdateKeepsCalls(s, s', t, c);
    assert Responsible(s, c, t) ==> Responsible(s', c, t);
    CallUpdateKeepsCover(s, s', t, c);
  }

  /** A call granted to a committed thread passes both tests: it does not run inside
      `react`, and `io_blocked` is set. */
  lemma TestsKeepInv(s: State, c: nat)
    requires Inv(s) && Enabled(s, CallStep(c)) && (s.calls[c].pc == TestPolling || s.calls[c].pc == TestBlocked)
    ensures Inv(CallGo(s, c))
  {
    var s', t := CallGo(s, c), s.calls[c].target;
    assert CallOk(s, c) && LocalOk(s.threads[t]) && ParkerOk(s, t);
    if s'.poller != s.poller {
      Poller.StepKeepsInv(s.poller, Poller.NotifyBegin(c));
    }
    CallUpdateKeepsThreads(s, s', t);
    CallUpdateKeepsCalls(s, s', t, c);
    assert Committed(s, t) && Responsible(s, c, t) ==> Responsible(s', c, t);
    CallUpdateKeepsCover(s, s', t, c);
  }

  lemma NotifyingKeepsInv(s: State, c: nat)
    requires Inv(s) && Enabled(s, CallStep(c)) && s.calls[c].pc == Notifying
    ensures Inv(CallGo(s, c))
  {
    var s', t := CallGo(s, c), s.calls[c].target;
    assert CallOk(s, c) && ParkerOk(s, t);
    Poller.StepKeepsInv(s.poller, Poller.NotifyStep(c));
    NotifyingFrame(s, c);
    CallUpdateKeepsThreads(s, s', t);
    CallUpdateKeepsCalls(s, s', t, c);
    assert LockAt(s, t);
    assert Committed(s, t) ==> Poller.BeforeReturn(s.poller);
    CallUpdateKeepsCover(s, s', t, c);
  }

  lemma NotifyingFrame(s: State, c: nat)
    requires Enabled(s, CallStep(c)) && s.calls[c].pc == Notifying && CallOk(s, c)
    ensures OnlyCall(s, CallGo(s, c), s.calls[c].target, c)
    ensures CallGo(s, c).threads == s.threads && (c in CallGo(s, c).calls ==> CallOk(CallGo(s, c), c))
  {
  }

  /** Steps that touch the poller or the lock but no thread and no call. */
  lemma PollerUpdateKeepsRest(s: State, s': State)
    requires LocalsOk(s) && ParkersOk(s) && CallsOk(s) && Covers(s) && s'.threads == s.threads && s'.calls == s.calls
    requires forall c :: c in s.calls ==> (c in s.poller.notifiers <==> c in s'.poller.notifiers)
    requires forall c :: c in s.calls && c in s.poller.notifiers ==> s'.poller.notifiers[c] == s.poller.notifiers[c]
    requires s'.poller.waiter == Poller.Blocked ==>
               s.poller.waiter == Poller.Blocked || forall t :: t in s.threads ==> !s.threads[t].pc.InWait?
    requires Poller.Pending(s.poller) ==> Poller.Pending(s'.poller) || forall t :: !Committed(s', t)
    ensures LocalsOk(s') && ParkersOk(s') && CallsOk(s') && Covers(s')
  {
    forall t | t in s'.threads ensures ParkerOk(s', t) {
      assert ParkerOk(s, t);
    }
    forall t, c | t in s'.threads ensures Traced(s', t, c) {
      assert Traced(s, t, c);
    }
    forall t | t in s'.threads ensures LocalOk(s'.threads[t]) {
      assert LocalOk(s.threads[t]);
    }
    forall d | d in s'.calls ensures CallOk(s', d) {
      assert CallOk(s, d);
    }
    forall u | Committed(s', u) && s'.threads[u].parker.cell == Parker.NOTIFIED ensures Covered(s', u) {
      assert Committed(s, u);
      assert forall d :: Responsible(s, d, u) ==> Responsible(s', d, u);
    }
  }

  lemma PollerUpdateKeepsLock(s: State, s': State)
    requires LockOk(s) && s'.threads == s.threads
    requires s'.lock == s.lock || (!s'.lock.Held? && !s.lock.Held? && s'.poller.waiter == Poller.Idle)
    requires s'.poller.waiter == Poller.Idle || s'.lock == Background || s.poller.waiter != Poller.Idle
    ensures LockOk(s')
  {
    forall u | u in s'.threads ensures LockAt(s', u) {
      assert LockAt(s, u);
    }
  }

  lemma KernelKeepsInv(s: State, k: Poller.Step)
    requires Inv(s) && Enabled(s, Kernel(k))
    ensures Inv(Do(s, Kernel(k)))
  {
    Poller.StepKeepsInv(s.poller, k);
    assert forall t :: Committed(Do(s, Kernel(k)), t) ==> LockAt(s, t);
    PollerUpdateKeepsRest(s, Do(s, Kernel(k)));
    PollerUpdateKeepsLock(s, Do(s, Kernel(k)));
  }

  lemma EnvironmentKeepsInv(s: State, a: Step)
    requires Inv(s) && Enabled(s, a)
    requires a.OtherNotify? || a.BackgroundWait? || a.BackgroundLock? || a.BackgroundUnlock?
    ensures Inv(Do(s, a))
  {
    if a.OtherNotify? {
      Poller.StepKeepsInv(s.poller, a.a);
    } else if a.BackgroundWait? {
      Poller.StepKeepsInv(s.poller, Poller.WaitBegin);
    }
    assert forall t {:trigger s.threads[t]} :: t in s.threads ==> LockAt(s, t);
    PollerUpdateKeepsRest(s, Do(s, a));
    PollerUpdateKeepsLock(s, Do(s, a));
  }

  lemma SpawnKeepsCover(s: State, s': State, t: nat)
    requires CallsOk(s) && Covers(s) && t !in s.threads && t in s'.threads
             && s' == s.(threads := s.threads[t := s'.threads[t]])
    requires s'.threads[t].pc == Polling && s'.threads[t].parker.unparks == map[]
    ensures CallsOk(s') && Covers(s')
  {
    forall d | d in s'.calls ensures CallOk(s', d) {
      assert CallOk(s, d);
    }
    forall u, d | u in s'.threads ensures Traced(s', u, d) {
      assert u != t ==> Traced(s, u, d);
    }
    forall u | Committed(s', u) && s'.threads[u].parker.cell == Parker.NOTIFIED ensures Covered(s', u) {
      assert Committed(s, u);
      assert forall d :: Responsible(s, d, u) ==> Responsible(s', d, u);
    }
  }

  lemma SpawnKeepsLock(s: State, s': State, t: nat)
    requires LockOk(s) && LocalsOk(s) && t !in s.threads && t in s'.threads
             && s' == s.(threads := s.threads[t := s'.threads[t]])
    requires s'.threads[t].pc == Polling && LocalOk(s'.threads[t])
    ensures LockOk(s') && LocalsOk(s')
  {
    forall u | u in s'.threads ensures LocalOk(s'.threads[u]) && LockAt(s', u) {
      assert u != t ==> LocalOk(s.threads[u]) && LockAt(s, u);
    }
  }

  lemma SpawnKeepsInv(s: State, t: nat)
    requires Inv(s) && Enabled(s, Spawn(t))
    ensures Inv(Do(s, Spawn(t)))
  {
    SpawnKeepsCover(s, Do(s, Spawn(t)), t);
    ParkerUpdate(s, Do(s, Spawn(t)), t);
    SpawnKeepsLock(s, Do(s, Spawn(t)), t);
  }

  lemma StepKeepsInv(s: State, a: Step)
    requires Inv(s) && Enabled(s, a)
    ensures Inv(Do(s, a))
  {
    match a
    case Spawn(t) => SpawnKeepsInv(s, t);
    case Advance(t, yes) => AdvanceKeepsInv(s, t, yes);
    case ParkInside(t) => ParkInsideKeepsInv(s, t);
    case CallBegin(c, target, site) => CallBeginKeepsInv(s, c, target, site);
    case CallStep(c) =>
      if s.calls[c].pc == Notifying {
        NotifyingKeepsInv(s, c);
      } else if s.calls[c].pc != Unparking {
        TestsKeepInv(s, c);
      } else if s.threads[s.calls[c].target].parker.unparks[c].Returned? {
        UnparkedKeepsInv(s, c);
      } else {
        UnparkingKeepsInv(s, c);
      }
    case Kernel(k) => KernelKeepsInv(s, k);
    case _ => EnvironmentKeepsInv(s, a);
  }

  lemma RunInv(ss: seq<State>, i: nat)
    requires Run(Init, Next, ss) && i < |ss|
    ensures Inv(ss[i])
  {
    forall s, s' | Inv(s) && Next(s, s') ensures Inv(s') {
      var a :| Enabled(s, a) && s' == Do(s, a);
      StepKeepsInv(s, a);
    }
    InductiveHolds(Init, Next, Inv, ss, i);
  }

  // ----- theorems over every run -----

  /** Thread `t` sleeps in the condition variable and has not been signalled. */
  predicate AsleepInPark(s: State, t: nat) {
    t in s.threads && s.threads[t].pc.Park? && s.threads[t].parker.park.Waiting? && !s.threads[t].parker.park.signalled
  }

  /** Thread `t` sleeps in the kernel, waiting for events. */
  predicate AsleepInPoller(s: State, t: nat) {
    t in s.threads && s.threads[t].pc == InWait(true) && s.poller.waiter == Poller.Blocked
  }

  /** Waker call `c` is past its swap and has yet to signal thread `t`. */
  predicate AboutToSignal(s: State, c: nat, t: nat) {
    c in s.calls && s.calls[c].target == t && t in s.threads && Parker.Owes(s.threads[t].parker, c)
  }

  lemma AsleepIsCovered(s: State, t: nat)
    requires Inv(s) && t in s.threads && s.threads[t].parker.cell == Parker.NOTIFIED
    ensures AsleepInPark(s, t) ==> exists c :: AboutToSignal(s, c, t)
    ensures AsleepInPoller(s, t) ==> Covered(s, t)
  {
    assert ParkerOk(s, t);
    if AsleepInPark(s, t) {
      var c :| Parker.Owes(s.threads[t].parker, c);
      assert Traced(s, t, c);
      assert AboutToSignal(s, c, t);
    }
    assert AsleepInPoller(s, t) ==> Committed(s, t);
  }

  /** No wakeup is lost. Once the waker of a thread has been called since its last poll,
      the thread is not asleep unless the permit is still there and either a waker call
      is about to signal the condition variable, or a poller notification is pending, or
      the call that granted the permit is on its way to make one. */
  lemma NoLostWakeup(ss: seq<State>, i: nat, t: nat)
    requires Run(Init, Next, ss) && i < |ss| && t in ss[i].threads && ss[i].threads[t].woken
    ensures AsleepInPark(ss[i], t) || AsleepInPoller(ss[i], t) ==> ss[i].threads[t].parker.cell == Parker.NOTIFIED
    ensures AsleepInPark(ss[i], t) ==> exists c :: AboutToSignal(ss[i], c, t)
    ensures AsleepInPoller(ss[i], t) ==> Poller.Pending(ss[i].poller) || exists c :: Responsible(ss[i], c, t)
  {
    RunInv(ss, i);
    assert LocalOk(ss[i].threads[t]);
    if AsleepInPark(ss[i], t) || AsleepInPoller(ss[i], t) {
      AsleepIsCovered(ss[i], t);
    }
  }

  // ----- permits and polls -----

  /** A permit has been consumed since the last poll, by a call that has returned. */
  predicate Paid(th: Thread) {
    || th.pc.FirstTry? || th.pc.FirstMark? || th.pc.FirstUnmark? || th.pc.FirstUnlock?
    || ((th.pc.Enter? || th.pc.InWait? || th.pc.WakeLoop?) && !th.pc.block)
    || (th.pc.Park? && th.parker.park.Out?)
    || ((th.pc.Unmark? || th.pc.UnmarkBlocked?) && th.pc.exit != Again)
    || th.pc.SecondUnlock?
  }

  predicate PaidOk(th: Thread) {
    && th.parker.consumed == (if Paid(th) then th.base + 1 else th.base)
    && (th.pc.Park? && !th.parker.park.Out? ==> !th.parker.park.Panicked? && th.parker.park.t == Parker.Forever)
    && (th.owes ==> th.pc.FirstMark? || ((th.pc.Enter? || th.pc.InWait?) && !th.pc.block))
  }

  lemma StatementKeepsPaid(th: Thread, lock: Lock, t: nat, yes: bool)
    requires PaidOk(th) && !th.pc.Done? && (th.pc.Park? ==> th.parker.park.Out?)
    ensures var got := lock != Held(t) && LockAfter(lock, t, th.pc) == Held(t);
            PaidOk(Record(th, Statement(th, lock == Free, yes), got))
  {
    if Inner(th.pc) {
      StatementKeepsPaidInner(th, lock, t, yes);
    } else {
      StatementKeepsPaidOuter(th, lock, t, yes);
    }
  }

  lemma StatementKeepsPaidInner(th: Thread, lock: Lock, t: nat, yes: bool)
    requires Inner(th.pc)
    requires PaidOk(th) && !th.pc.Done? && (th.pc.Park? ==> th.parker.park.Out?)
    ensures var got := lock != Held(t) && LockAfter(lock, t, th.pc) == Held(t);
            PaidOk(Record(th, Statement(th, lock == Free, yes), got))
  {
  }

  lemma StatementKeepsPaidOuter(th: Thread, lock: Lock, t: nat, yes: bool)
    requires !Inner(th.pc)
    requires PaidOk(th) && !th.pc.Done? && (th.pc.Park? ==> th.parker.park.Out?)
    ensures var got := lock != Held(t) && LockAfter(lock, t, th.pc) == Held(t);
            PaidOk(Record(th, Statement(th, lock == Free, yes), got))
  {
  }

  lemma ParkKeepsPaid(p: Parker.State)
    requires Parker.Inv(p) && Parker.Enabled(p, Parker.ParkStep) && p.park.t == Parker.Forever
    ensures var p' := Parker.Do(p, Parker.ParkStep);
            && p'.consumed == (if p'.park.Out? then p.consumed + 1 else p.consumed)
            && (!p'.park.Out? ==> !p'.park.Panicked? && p'.park.t == Parker.Forever)
  {
    Parker.StepKeepsInv(p, Parker.ParkStep);
  }

  ghost predicate AllPaid(s: State) {
    forall t {:trigger s.threads[t]} :: t in s.threads ==> PaidOk(s.threads[t])
  }

  /** Steps of others leave what a thread has paid alone. */
  lemma OtherKeepsPaid(s: State, a: Step, t: nat)
    requires AllPaid(s) && Enabled(s, a) && !a.Advance? && !a.ParkInside? && t in Do(s, a).threads
    ensures PaidOk(Do(s, a).threads[t])
  {
    if t in s.threads {
      assert PaidOk(s.threads[t]);
      OthersLeavePaid(s, a, t);
    }
  }

  /** What an unparker's step leaves of a thread. */
  predicate LeavesPaid(th: Thread, th': Thread) {
    && th' == th.(parker := th'.parker, woken := th'.woken) && th'.parker.consumed == th.parker.consumed
    && (|| th'.parker.park == th.parker.park
        || (th.parker.park.Waiting? && th'.parker.park == th.parker.park.(signalled := true)))
  }

  lemma UnparkLeavesPaid(p: Parker.State, a: Parker.Step)
    requires Parker.Enabled(p, a) && (a.UnparkBegin? || a.UnparkStep? || a.UnparkEnd?)
    ensures var p' := Parker.Do(p, a);
            && p'.consumed == p.consumed
            && (p'.park == p.park || (p.park.Waiting? && p'.park == p.park.(signalled := true)))
  {
  }

  lemma CallLeavesPaid(s: State, c: nat, t: nat)
    requires Enabled(s, CallStep(c)) && t in s.threads
    ensures t in CallGo(s, c).threads && LeavesPaid(s.threads[t], CallGo(s, c).threads[t])
  {
    if s.calls[c].pc.Unparking? {
      var p := s.threads[s.calls[c].target].parker;
      UnparkLeavesPaid(p, if p.unparks[c].Returned? then Parker.UnparkEnd(c) else Parker.UnparkStep(c));
    }
  }

  lemma OthersLeavePaid(s: State, a: Step, t: nat)
    requires Enabled(s, a) && !a.Advance? && !a.ParkInside? && t in s.threads
    ensures t in Do(s, a).threads && LeavesPaid(s.threads[t], Do(s, a).threads[t])
  {
    if a.CallStep? {
      CallLeavesPaid(s, a.c, t);
    } else if a.CallBegin? {
      UnparkLeavesPaid(s.threads[a.target].parker, Parker.UnparkBegin(a.c));
    }
  }

  lemma StepKeepsPaid(s: State, a: Step)
    requires Inv(s) && AllPaid(s) && Enabled(s, a)
    ensures AllPaid(Do(s, a))
  {
    forall t | t in Do(s, a).threads ensures PaidOk(Do(s, a).threads[t]) {
      match a
      case Advance(u, yes) =>
        assert PaidOk(s.threads[t]);
        if t == u {
          StatementKeepsPaid(s.threads[t], s.lock, t, yes);
        }
      case ParkInside(u) =>
        assert PaidOk(s.threads[t]);
        if t == u {
          assert ParkerOk(s, t);
          ParkKeepsPaid(s.threads[t].parker);
        }
      case _ => OtherKeepsPaid(s, a, t);
    }
  }

  ghost predicate InvPaid(s: State) {
    Inv(s) && AllPaid(s)
  }

  lemma RunPaid(ss: seq<State>, i: nat)
    requires Run(Init, Next, ss) && i < |ss|
    ensures InvPaid(ss[i])
  {
    forall s, s' | InvPaid(s) && Next(s, s') ensures InvPaid(s') {
      var a :| Enabled(s, a) && s' == Do(s, a);
      StepKeepsInv(s, a);
      StepKeepsPaid(s, a);
    }
    InductiveHolds(Init, Next, InvPaid, ss, i);
  }

  /** Every poll of the future but the first is paid for by exactly one permit. A thread that
      took the reactor lock with that permit in hand has been through a wait of the poller
      before it polls. */
  lemma PolledOncePerPermit(ss: seq<State>, i: nat, t: nat)
    requires Run(Init, Next, ss) && 0 < i < |ss| && t in ss[i - 1].threads && t in ss[i].threads
    requires !ss[i - 1].threads[t].pc.Polling? && ss[i].threads[t].pc.Polling?
    ensures ss[i - 1].threads[t].parker.consumed == ss[i - 1].threads[t].base + 1
    ensures !ss[i].threads[t].owes
  {
    RunPaidAt(ss, i - 1, t);
    RunPaidAt(ss, i, t);
    PollStepPaid(ss[i - 1], ss[i], t);
  }

  lemma RunPaidAt(ss: seq<State>, i: nat, t: nat)
    requires Run(Init, Next, ss) && i < |ss| && t in ss[i].threads
    ensures PaidOk(ss[i].threads[t])
  {
    RunPaid(ss, i);
  }

  lemma PollStepPaid(s: State, s': State, t: nat)
    requires Next(s, s') && t in s.threads && t in s'.threads
    requires !s.threads[t].pc.Polling? && s'.threads[t].pc.Polling?
    ensures Paid(s.threads[t])
  {
    var a :| Enabled(s, a) && s' == Do(s, a);
    OnlyAdvanceMoves(s, a, t);
    PollsWhenPaid(s.threads[t], s.lock == Free, a.yes);
  }

  /** Only its own statements move a thread. */
  lemma OnlyAdvanceMoves(s: State, a: Step, t: nat)
    requires Enabled(s, a) && t in s.threads && t in Do(s, a).threads
    requires s.threads[t].pc != Do(s, a).threads[t].pc
    ensures a.Advance? && a.t == t && (s.threads[t].pc.Park? ==> s.threads[t].parker.park.Out?)
    ensures Statement(s.threads[t], s.lock == Free, a.yes).pc == Do(s, a).threads[t].pc
  {
    if !a.Advance? && !a.ParkInside? {
      OthersLeavePaid(s, a, t);
    }
  }

  lemma PollsWhenPaid(th: Thread, free: bool, yes: bool)
    requires Statement(th, free, yes).pc.Polling? && !th.pc.Polling? && (th.pc.Park? ==> th.parker.park.Out?)
    ensures Paid(th)
  {
    if Inner(th.pc) {
      PollsWhenPaidInner(th, free, yes);
    } else {
      PollsWhenPaidOuter(th, free, yes);
    }
  }

  lemma PollsWhenPaidInner(th: Thread, free: bool, yes: bool)
    requires Inner(th.pc)
    requires Statement(th, free, yes).pc.Polling? && !th.pc.Polling? && (th.pc.Park? ==> th.parker.park.Out?)
    ensures Paid(th)
  {
  }

  lemma PollsWhenPaidOuter(th: Thread, free: bool, yes: bool)
    requires !Inner(th.pc)
    requires Statement(th, free, yes).pc.Polling? && !th.pc.Polling? && (th.pc.Park? ==> th.parker.park.Out?)
    ensures Paid(th)
  {
  }

  /** A thread goes on handling events for others, or gives up the reactor, only if it finds no
      permit after its wait. */
  lemma HogsOnlyWithoutPermit(ss: seq<State>, i: nat, t: nat)
    requires Run(Init, Next, ss) && 0 < i < |ss| && t in ss[i - 1].threads && t in ss[i].threads
    requires ss[i].threads[t].pc.Elapsed? && !ss[i - 1].threads[t].pc.Elapsed?
    ensures ss[i - 1].threads[t].pc.ThirdCheck? && ss[i - 1].threads[t].parker.cell != Parker.NOTIFIED
  {
    ElapsedFacts(ss[i - 1], ss[i], t);
  }

  lemma ElapsedFacts(s: State, s': State, t: nat)
    requires Next(s, s') && t in s.threads && t in s'.threads
    requires s'.threads[t].pc.Elapsed? && !s.threads[t].pc.Elapsed?
    ensures s.threads[t].pc.ThirdCheck? && s.threads[t].parker.cell != Parker.NOTIFIED
  {
    var a :| Enabled(s, a) && s' == Do(s, a);
    OnlyAdvanceMoves(s, a, t);
    StatementElapsed(s.threads[t], s.lock == Free, a.yes);
  }

  lemma StatementElapsed(th: Thread, free: bool, yes: bool)
    requires Statement(th, free, yes).pc.Elapsed? && !th.pc.Elapsed?
    ensures th.pc.ThirdCheck? && th.parker.cell != Parker.NOTIFIED
  {
    if !Inner(th.pc) {
      OuterNeverElapses(th, free, yes);
    }
  }

  lemma OuterNeverElapses(th: Thread, free: bool, yes: bool)
    requires !Inner(th.pc)
    ensures !OuterStatement(th, free, yes).pc.Elapsed?
  {
  }

  /** The `unpark` of waker call `c` has returned true. */
  predicate Granted(s: State, c: nat)
    requires c in s.calls
  {
    var t := s.calls[c].target;
    t in s.threads && c in s.threads[t].parker.unparks && s.threads[t].parker.unparks[c] == Parker.Returned(true)
  }

  /** What lets waker call `c` go on to `pc`. */
  predicate Justified(s: State, c: nat, pc: CallPc)
    requires c in s.calls
  {
    var k := s.calls[c];
    match pc
    case Unparking => false
    case TestPolling => k.pc.Unparking? && Granted(s, c)
    case TestBlocked =>
      k.pc.TestPolling? && !(k.site.Inside? && k.site.t in s.threads && s.threads[k.site.t].polling)
    case Notifying => k.pc.TestBlocked? && k.target in s.threads && s.threads[k.target].blocked
  }

  /** Waker call `c` stays where it is, or is let go on. */
  predicate CallMoved(s: State, s': State, c: nat)
    requires c in s.calls && c in s'.calls
  {
    s'.calls[c].pc != s.calls[c].pc ==>
      s'.calls[c] == s.calls[c].(pc := s'.calls[c].pc) && Justified(s, c, s'.calls[c].pc)
  }

  /** A waker goes on only if its own `unpark` returned true, then only if it does not run where
      IO_POLLING is set, and turns to the poller only if, when it looks, the thread it wakes has
      set `io_blocked`. */
  lemma NotifiesOnlyIfBlocked(ss: seq<State>, i: nat, c: nat)
    requires Run(Init, Next, ss) && 0 < i < |ss| && c in ss[i - 1].calls && c in ss[i].calls
    ensures CallMoved(ss[i - 1], ss[i], c)
  {
    RunCallAt(ss, i - 1, c);
    assert Next(ss[i - 1], ss[i]);
    if ss[i].calls[c].pc != ss[i - 1].calls[c].pc {
      NextMovesCall(ss[i - 1], ss[i], c);
    }
  }

  lemma RunCallAt(ss: seq<State>, i: nat, c: nat)
    requires Run(Init, Next, ss) && i < |ss| && c in ss[i].calls
    ensures CallOk(ss[i], c)
  {
    RunInv(ss, i);
  }

  lemma NextMovesCall(s: State, s': State, c: nat)
    requires Next(s, s') && c in s.calls && CallOk(s, c) && c in s'.calls && s'.calls[c].pc != s.calls[c].pc
    ensures s'.calls[c] == s.calls[c].(pc := s'.calls[c].pc) && Justified(s, c, s'.calls[c].pc)
  {
    var a :| Enabled(s, a) && s' == Do(s, a);
    OnlyItsStepMovesCall(s, a, c);
    CallMoves(s, c);
  }

  lemma OnlyItsStepMovesCall(s: State, a: Step, c: nat)
    requires Enabled(s, a) && c in s.calls && c in Do(s, a).calls && Do(s, a).calls[c].pc != s.calls[c].pc
    ensures a == CallStep(c)
  {
  }

  lemma CallMoves(s: State, c: nat)
    requires Enabled(s, CallStep(c)) && CallOk(s, c) && c in CallGo(s, c).calls
    requires CallGo(s, c).calls[c].pc != s.calls[c].pc
    ensures CallGo(s, c).calls[c] == s.calls[c].(pc := CallGo(s, c).calls[c].pc)
    ensures Justified(s, c, CallGo(s, c).calls[c].pc)
  {
  }

  /** A waker that IO_POLLING makes skip its notification never belongs to a thread that is
      about to block, or is blocked, in the poller. */
  lemma CommittedCallsComeFromElsewhere(ss: seq<State>, i: nat, c: nat)
    requires Run(Init, Next, ss) && i < |ss| && c in ss[i].calls && Committed(ss[i], ss[i].calls[c].target)
    ensures ss[i].calls[c].site == Elsewhere
  {
    RunInv(ss, i);
    CommittedFromElsewhere(ss[i], c);
  }

  /** A thread asleep with a permit, no waker call for it in flight and no notification
      pending: the state a lost wakeup would leave behind. */
  ghost predicate Stuck(s: State, t: nat) {
    && (AsleepInPark(s, t) || AsleepInPoller(s, t))
    && s.threads[t].parker.cell == Parker.NOTIFIED
    && (forall c :: c in s.calls ==> s.calls[c].target != t)
    && (AsleepInPoller(s, t) ==> !Poller.Pending(s.poller))
  }

  lemma NeverStuck(ss: seq<State>, i: nat, t: nat)
    requires Run(Init, Next, ss) && i < |ss|
    ensures !Stuck(ss[i], t)
  {
    RunInv(ss, i);
    if t in ss[i].threads && ss[i].threads[t].parker.cell == Parker.NOTIFIED {
      AsleepIsCovered(ss[i], t);
    }
  }

  /** Waker calls and notifications already under way move on; nothing new begins. */
  ghost predicate InFlightMoves(s: State, s': State) {
    || (exists c :: Enabled(s, CallStep(c)) && s' == Do(s, CallStep(c)))
    || (exists n :: Enabled(s, OtherNotify(Poller.NotifyStep(n))) && s' == Do(s, OtherNotify(Poller.NotifyStep(n))))
  }

  /** Steps call `c` has to take before the poller's flag. */
  function Distance(s: State, c: nat): nat {
    if c !in s.calls then 0
    else match s.calls[c].pc case Unparking => 4 case TestPolling => 3 case TestBlocked => 2 case Notifying => 1
  }

  /** The pending wakeup of a thread asleep in the poller can always be delivered: waker
      calls and notifiers that are already under way can go on to make the eventfd readable,
      with its interest armed, so that the kernel wait can return to a thread that finds its permit. */
  lemma WakeupDeliverable(ss: seq<State>, i: nat, t: nat) returns (path: seq<State>)
    requires Run(Init, Next, ss) && i < |ss|
    requires Summoned(ss[i], t)
    ensures Path(InFlightMoves, path) && path[0] == ss[i]
    ensures CanReturn(path[|path| - 1], t)
  {
    RunInv(ss, i);
    NoLostWakeup(ss, i, t);
    if Poller.Pending(ss[i].poller) {
      path := MakeReadable(ss[i], t);
    } else {
      var c :| Responsible(ss[i], c, t);
      path := Deliver(ss[i], c, t);
    }
  }

  /** Thread `t` sleeps in the poller although its waker has been called. */
  predicate Summoned(s: State, t: nat) {
    AsleepInPoller(s, t) && s.threads[t].woken
  }

  /** The kernel wait can return to thread `t`, which will find its permit. */
  predicate CanReturn(s: State, t: nat) {
    AsleepInPoller(s, t) && s.threads[t].parker.cell == Parker.NOTIFIED && Enabled(s, Kernel(Poller.WaitReturn(true)))
  }

  /** From a pending notification to a readable eventfd. */
  lemma MakeReadable(s: State, t: nat) returns (path: seq<State>)
    requires Inv(s) && Summoned(s, t) && Poller.Pending(s.poller)
    ensures Path(InFlightMoves, path) && path[0] == s && CanReturn(path[|path| - 1], t)
  {
    path := [s];
    assert LocalOk(s.threads[t]);
    if !s.poller.fd {
      var n :| Poller.Writing(s.poller, n);
      var s' := WriteStep(s, n, t);
      assert LocalOk(s'.threads[t]);
      Prepend(InFlightMoves, s, [s']);
      path := [s, s'];
    }
  }

  /** From a responsible call to a readable eventfd. */
  lemma Deliver(s: State, c: nat, t: nat) returns (path: seq<State>)
    requires Inv(s) && Summoned(s, t) && Responsible(s, c, t) && !Poller.Pending(s.poller)
    ensures Path(InFlightMoves, path) && path[0] == s && CanReturn(path[|path| - 1], t)
    decreases Distance(s, c)
  {
    var s' := DeliverStep(s, c, t);
    if Poller.Pending(s'.poller) {
      path := MakeReadable(s', t);
    } else {
      path := Deliver(s', c, t);
    }
    Prepend(InFlightMoves, s, path);
    path := [s] + path;
  }

  /** The responsible call moves one step closer to the eventfd. */
  lemma DeliverStep(s: State, c: nat, t: nat) returns (s': State)
    requires Inv(s) && Summoned(s, t) && Responsible(s, c, t) && !Poller.Pending(s.poller)
    ensures InFlightMoves(s, s') && Inv(s') && Summoned(s', t)
    ensures Poller.Pending(s'.poller) || (Responsible(s', c, t) && Distance(s', c) < Distance(s, c))
  {
    assert CallOk(s, c) && LocalOk(s.threads[t]);
    s' := Do(s, CallStep(c));
    StepKeepsInv(s, CallStep(c));
    if s.calls[c].pc == Notifying {
      Poller.StepKeepsInv(s.poller, Poller.NotifyStep(c));
    }
  }

  lemma WriteStep(s: State, n: nat, t: nat) returns (s': State)
    requires Inv(s) && Summoned(s, t) && Poller.Writing(s.poller, n)
    ensures InFlightMoves(s, s') && Inv(s') && Summoned(s', t) && s'.poller.fd
  {
    if n in s.calls {
      assert CallOk(s, n);
      s' := Do(s, CallStep(n));
      StepKeepsInv(s, CallStep(n));
    } else {
      s' := Do(s, OtherNotify(Poller.NotifyStep(n)));
      StepKeepsInv(s, OtherNotify(Poller.NotifyStep(n)));
    }
  }

  /** And so can that of a thread asleep in the condition variable: waker calls already
      under way can go on to signal it. */
  lemma SignalDeliverable(ss: seq<State>, i: nat, t: nat) returns (path: seq<State>)
    requires Run(Init, Next, ss) && i < |ss|
    requires AsleepInPark(ss[i], t) && ss[i].threads[t].woken
    ensures Path(InFlightMoves, path) && path[0] == ss[i]
    ensures SignalledFrom(ss[i], path[|path| - 1], t)
  {
    RunInv(ss, i);
    NoLostWakeup(ss, i, t);
    var s := ss[i];
    var c :| AboutToSignal(s, c, t);
    var p := s.threads[t].parker;
    assert ParkerOk(s, t);
    if p.lock.By? && p.lock.u != c {
      var s' := SignalStep(s, p.lock.u, t);
      path := FinishSignal(s', c, t);
      Prepend(InFlightMoves, s, path);
      path := [s] + path;
    } else {
      path := FinishSignal(s, c, t);
    }
  }

  /** Thread `t` of `s'` is that of `s` with its condition variable signalled. */
  predicate SignalledFrom(s: State, s': State, t: nat)
    requires AsleepInPark(s, t)
  {
    && t in s'.threads && s'.threads[t] == s.threads[t].(parker := s'.threads[t].parker)
    && s'.threads[t].parker.park == s.threads[t].parker.park.(signalled := true)
  }

  lemma FinishSignal(s: State, c: nat, t: nat) returns (path: seq<State>)
    requires Inv(s) && AsleepInPark(s, t) && AboutToSignal(s, c, t) && s.threads[t].woken
    requires s.threads[t].parker.lock in {Parker.Nobody, Parker.By(c)}
    ensures Path(InFlightMoves, path) && path[0] == s && SignalledFrom(s, path[|path| - 1], t)
    decreases ToSignal(s.threads[t].parker, c)
  {
    var s' := SignalStep(s, c, t);
    path := [s'];
    if !s.threads[t].parker.unparks[c].Signal? {
      path := FinishSignal(s', c, t);
    }
    Prepend(InFlightMoves, s, path);
    path := [s] + path;
  }

  function ToSignal(p: Parker.State, c: nat): nat {
    if c !in p.unparks then 0
    else match p.unparks[c] case WantLock => 3 case Holding => 2 case Signal => 1 case _ => 0
  }

  /** What a step of unparker `c` does to a parker whose thread waits. */
  ghost predicate SignalEffect(p: Parker.State, p': Parker.State, c: nat)
    requires c in p.unparks && p.park.Waiting?
  {
    && SameBut(p.unparks, p'.unparks, c)
    && (if p.unparks[c].Signal? then p'.park == p.park.(signalled := true)
        else p'.park == p.park && Parker.Owes(p', c) && ToSignal(p', c) < ToSignal(p, c))
    && (p'.lock == if p.unparks[c].WantLock? then Parker.By(c) else Parker.Nobody)
  }

  lemma SignalEffects(p: Parker.State, c: nat)
    requires Parker.Inv(p) && Parker.Owes(p, c) && p.park.Waiting? && p.lock in {Parker.Nobody, Parker.By(c)}
    ensures Parker.Enabled(p, Parker.UnparkStep(c)) && SignalEffect(p, Parker.Do(p, Parker.UnparkStep(c)), c)
  {
  }

  /** A call that holds the parker's mutex, or is to signal while nobody does, moves. */
  lemma SignalStep(s: State, c: nat, t: nat) returns (s': State)
    requires Inv(s) && AsleepInPark(s, t) && Parker.Owes(s.threads[t].parker, c) && s.threads[t].woken
    requires s.threads[t].parker.lock in {Parker.Nobody, Parker.By(c)}
    ensures InFlightMoves(s, s') && Inv(s') && t in s'.threads
    ensures s'.threads[t] == s.threads[t].(parker := s'.threads[t].parker) && s'.calls == s.calls
    ensures SignalEffect(s.threads[t].parker, s'.threads[t].parker, c)
  {
    assert ParkerOk(s, t) && Traced(s, t, c);
    assert CallOk(s, c);
    SignalEffects(s.threads[t].parker, c);
    s' := Do(s, CallStep(c));
    StepKeepsInv(s, CallStep(c));
  }
}
