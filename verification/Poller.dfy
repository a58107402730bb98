/** Notification of the poller (src/io/poller/mod.rs) over an abstract eventfd: the
    `notified` flag coalesces notifications, the eventfd is a level-triggered bit
    whose one-shot interest the waiter re-arms after draining it. One thread waits
    at a time; any number of threads notify. */
module Poller {
  import opened Runs

  datatype NotifyPc = Cas | Write

  datatype WaitPc =
    | Idle        // not in `wait`
    | Blocked     // inside epoll_wait
    | Returned    // epoll_wait returned, eventfd not yet read
    | Drained     // eventfd read, its interest not yet re-armed
    | Rearmed     // about to clear the flag

  datatype State = State(flag: bool, fd: bool, armed: bool, notifiers: map<nat, NotifyPc>, waiter: WaitPc)

  datatype Step =
    | NotifyBegin(n: nat)
    | NotifyStep(n: nat)
    | WaitBegin
    | WaitReturn(reported: bool)  // epoll_wait succeeds; `reported`: the eventfd is among the events
    | Interrupt                   // epoll_wait fails with EINTR: `wait` returns at once
    | Drain | Rearm | Clear

  predicate Init(s: State) {
    s == State(false, false, true, map[], Idle)
  }

  predicate Enabled(s: State, a: Step) {
    match a
    case NotifyBegin(n) => n !in s.notifiers
    case NotifyStep(n) => n in s.notifiers
    case WaitBegin => s.waiter == Idle
    case WaitReturn(reported) => s.waiter == Blocked && (reported ==> s.fd && s.armed)
    case Interrupt => s.waiter == Blocked
    case Drain => s.waiter == Returned
    case Rearm => s.waiter == Drained
    case Clear => s.waiter == Rearmed
  }

  function Do(s: State, a: Step): State
    requires Enabled(s, a)
  {
    match a
    case NotifyBegin(n) => s.(notifiers := s.notifiers[n := Cas])
    case NotifyStep(n) =>
      if s.notifiers[n] == Write then s.(fd := true, notifiers := s.notifiers - {n})
      else if s.flag then s.(notifiers := s.notifiers - {n})
      else s.(flag := true, notifiers := s.notifiers[n := Write])
    case WaitBegin => s.(waiter := Blocked)
    case WaitReturn(reported) => s.(waiter := Returned, armed := s.armed && !reported)
    case Interrupt => s.(waiter := Idle)
    case Drain => s.(waiter := Drained, fd := false)
    case Rearm => s.(waiter := Rearmed, armed := true)
    case Clear => s.(waiter := Idle, flag := false)
  }

  ghost predicate Next(s: State, s': State) {
    exists a :: Enabled(s, a) && s' == Do(s, a)
  }

  predicate Writing(s: State, n: nat) {
    n in s.notifiers && s.notifiers[n] == Write
  }

  /** A wait in progress, or the next one, is bound to return: the eventfd is
      readable or a notifier is about to make it so. */
  ghost predicate Pending(s: State) {
    s.fd || exists n :: Writing(s, n)
  }

  /** The kernel wait has not yet returned. */
  predicate BeforeReturn(s: State) {
    s.waiter == Idle || s.waiter == Blocked
  }

  ghost predicate Inv(s: State) {
    && (s.waiter == Returned || s.waiter == Drained || s.armed)
    && (s.flag && BeforeReturn(s) ==> Pending(s))
  }

  lemma StepKeepsInv(s: State, a: Step)
    requires Inv(s) && Enabled(s, a)
    ensures Inv(Do(s, a))
    // nothing but the waiter's own drain takes a pending notification away
    ensures Pending(s) && a != Drain ==> Pending(Do(s, a))
    // a notification attempt leaves one pending unless the waiter is already on its way out
    ensures a.NotifyStep? && BeforeReturn(s) ==> Pending(Do(s, a))
  {
    var s' := Do(s, a);
    if Pending(s) && a != Drain && !s'.fd {
      var n :| Writing(s, n);
      assert Writing(s', n);
    }
    if a.NotifyStep? && BeforeReturn(s) && !s.flag && s.notifiers[a.n] == Cas {
      assert Writing(s', a.n);
    }
  }

  /** Notifications coalesce without loss: over every run, a set flag means the
      eventfd is readable and armed, or a notifier is between its compare-and-swap
      and its write, or the waiter has returned from the kernel and not yet cleared
      the flag. */
  lemma CoalescingLosesNothing(ss: seq<State>, i: nat)
    requires Run(Init, Next, ss) && i < |ss|
    ensures ss[i].flag ==>
              || (ss[i].fd && ss[i].armed)
              || (exists n :: Writing(ss[i], n))
              || ss[i].waiter in {Returned, Drained, Rearmed}
  {
    forall s, s' | Inv(s) && Next(s, s') ensures Inv(s') {
      var a :| Enabled(s, a) && s' == Do(s, a);
      StepKeepsInv(s, a);
    }
    InductiveHolds(Init, Next, Inv, ss, i);
  }

  lemma StepAt(ss: seq<State>, i: nat) returns (a: Step)
    requires Run(Init, Next, ss) && 0 < i < |ss|
    ensures Enabled(ss[i - 1], a) && ss[i] == Do(ss[i - 1], a)
  {
    assert Next(ss[i - 1], ss[i]);
    a :| Enabled(ss[i - 1], a) && ss[i] == Do(ss[i - 1], a);
  }

  /** A notification writes only if it found the flag clear and set it itself. */
  lemma WritesOnlyIfClear(ss: seq<State>, i: nat, n: nat)
    requires Run(Init, Next, ss) && 0 < i < |ss| && Writing(ss[i], n) && !Writing(ss[i - 1], n)
    ensures !ss[i - 1].flag && ss[i].flag
  {
    var a := StepAt(ss, i);
  }

  /** A notifier ends by writing the eventfd. */
  ghost predicate Wrote(s: State, s': State) {
    exists n :: Writing(s, n) && n !in s'.notifiers
  }

  /** The eventfd is read in step `k`. */
  predicate DrainedAt(ss: seq<State>, k: nat) {
    0 < k < |ss| && ss[k - 1].waiter == Returned && ss[k].waiter == Drained
  }

  /** A readable eventfd is owed to a write since it was last read. */
  lemma {:induction false} ReadableIsUnread(ss: seq<State>, i: nat) returns (j: nat)
    requires Run(Init, Next, ss) && i < |ss| && ss[i].fd
    ensures 0 < j <= i && Wrote(ss[j - 1], ss[j])
    ensures forall k: nat {:trigger DrainedAt(ss, k)} :: j < k <= i ==> !DrainedAt(ss, k)
  {
    assert i > 0;
    var s := ss[i - 1];
    var a := StepAt(ss, i);
    ReadableStep(s, a);
    if s.fd {
      j := ReadableIsUnread(ss, i - 1);
    } else {
      j := i;
    }
  }

  lemma ReadableStep(s: State, a: Step)
    requires Enabled(s, a) && Do(s, a).fd
    ensures s.fd || Wrote(s, Do(s, a))
    ensures !(s.waiter == Returned && Do(s, a).waiter == Drained)
  {
    if !s.fd {
      assert Writing(s, a.n);
    }
  }
}
