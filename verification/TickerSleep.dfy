/** Sleeping, waking and notifying tickers (src/executor.rs): any number of tickers and
    of concurrent `State::notify` calls around one mutex and the `notified` flag. The
    global queue is kept as two counts, tasks pushed and tasks popped. */
module TickerSleep {
  import opened Options
  import opened Runs
  import opened Sleepers

  datatype TickerPc =
    | Rest                           // not inside a poll of `tick`
    | Search                         // about to pop the global queue
    | SleepLock(w: Waker)            // sleep: acquire the mutex
    | SleepUpdate(w: Waker)          // sleep: insert or update, mutex held
    | SleepPublish                   // sleep: swap the flag, mutex held
    | SleepUnlock                    // sleep: release the mutex
    | WakeSwap                       // wake: take the sleeper id
    | WakeLock(id: nat)              // wake: acquire the mutex
    | WakeRemove(id: nat)            // wake: remove the id, mutex held
    | WakePublish                    // wake: swap the flag, mutex held
    | WakeUnlock                     // wake: release the mutex
    | Passing                        // woken: about to pass a notification on

  /** `sleeping` is the field of that name. History: `seen` counts the tasks pushed when
      the last search found nothing, `slept` those pushed when the ticker last published
      the flag from `sleep` (or at its last empty search, if later). */
  datatype Ticker = Ticker(pc: TickerPc, sleeping: nat, waker: Waker, seen: nat, slept: nat)

  datatype NotifyPc =
    | Cas                      // compare-and-swap the flag
    | Lock                     // acquire the mutex
    | Take                     // Sleepers::notify, mutex held
    | Release(taken: Option<Entry>) // release the mutex
    | Call(e: Entry)           // call the waker

  datatype Owner = Nobody | TickerOwner(t: nat) | NotifierOwner(n: nat)

  /** History: `registered` is the waker each sleeper last gave, `takenAt` how many wakers had
      been called when its entry was last taken from the list, and `woken` holds the tickers
      whose waker has been called since their last poll. */
  datatype Log = Log(registered: map<nat, Waker>, takenAt: map<nat, nat>, woken: set<nat>)

  /** `calls`: the wakers called, in order. */
  datatype State = State(tickers: map<nat, Ticker>, notifiers: map<nat, NotifyPc>, list: List, flag: bool,
                         mutex: Owner, pushed: nat, popped: nat, calls: seq<Waker>, log: Log)

  datatype Step =
    | NewTicker(t: nat)
    | PollTick(t: nat, w: Waker)   // `tick` is polled with this waker
    | TickerStep(t: nat)
    | PushTask(n: nat)             // a task enters the global queue; its notify call is `n`
    | PassOn(t: nat, n: nat)       // `tick` passes the notification on; its notify call is `n`
    | NotifyStep(n: nat)

  predicate Init(s: State) {
    s == State(map[], map[], List(0, [], 1), false, Nobody, 0, 0, [], Log(map[], map[], {}))
  }

  predicate WantsMutex(pc: TickerPc) {
    pc.SleepLock? || pc.WakeLock?
  }

  predicate Enabled(s: State, a: Step) {
    match a
    case NewTicker(t) => t !in s.tickers
    case PollTick(t, _) => t in s.tickers && s.tickers[t].pc.Rest?
    case TickerStep(t) =>
      t in s.tickers && !s.tickers[t].pc.Rest? && !s.tickers[t].pc.Passing?
          && (WantsMutex(s.tickers[t].pc) ==> s.mutex == Nobody)
    case PushTask(n) => n !in s.notifiers
    case PassOn(t, n) => t in s.tickers && s.tickers[t].pc.Passing? && n !in s.notifiers
    case NotifyStep(n) => n in s.notifiers && (s.notifiers[n].Lock? ==> s.mutex == Nobody)
  }

  function Put(s: State, t: nat, k: Ticker): State {
    s.(tickers := s.tickers[t := k])
  }

  function Tick(s: State, t: nat): State
    requires Enabled(s, TickerStep(t))
  {
    var k := s.tickers[t];
    match k.pc
    case Search =>
      if s.popped < s.pushed then Put(s, t, k.(pc := WakeSwap)).(popped := s.popped + 1)
      else Put(s, t, k.(pc := SleepLock(k.waker), seen := s.pushed, slept := s.pushed))
    case SleepLock(w) => Put(s, t, k.(pc := SleepUpdate(w))).(mutex := TickerOwner(t))
    case SleepUpdate(w) =>
      if k.sleeping == 0 then
        var (l, id) := Insert(s.list, w);
        Put(s, t, k.(pc := SleepPublish, sleeping := id)).(list := l)
      else
        var (l, inserted) := Update(s.list, k.sleeping, w);
        Put(s, t, k.(pc := if inserted then SleepPublish else SleepUnlock)).(list := l)
    case SleepPublish => Put(s, t, k.(pc := SleepUnlock, slept := s.pushed)).(flag := IsNotified(s.list))
    case SleepUnlock => Put(s, t, k.(pc := Rest)).(mutex := Nobody)
    case WakeSwap =>
      Put(s, t, k.(pc := if k.sleeping == 0 then Passing else WakeLock(k.sleeping), sleeping := 0))
    case WakeLock(id) => Put(s, t, k.(pc := WakeRemove(id))).(mutex := TickerOwner(t))
    case WakeRemove(id) => Put(s, t, k.(pc := WakePublish)).(list := Remove(s.list, id))
    case WakePublish => Put(s, t, k.(pc := WakeUnlock)).(flag := IsNotified(s.list))
    case WakeUnlock => Put(s, t, k.(pc := Passing)).(mutex := Nobody)
  }

  /** The tickers last polled with this waker, whose task its call wakes. */
  function PolledWith(s: State, w: Waker): set<nat> {
    set t | t in s.tickers && s.tickers[t].waker == w
  }

  function NotifyGo(s: State, n: nat): State
    requires Enabled(s, NotifyStep(n))
  {
    match s.notifiers[n]
    case Cas =>
      if s.flag then s.(notifiers := s.notifiers - {n})
      else s.(flag := true, notifiers := s.notifiers[n := Lock])
    case Lock => s.(mutex := NotifierOwner(n), notifiers := s.notifiers[n := Take])
    case Take =>
      var (l, e) := Notify(s.list);
      s.(list := l, notifiers := s.notifiers[n := Release(e)])
    case Release(e) =>
      s.(mutex := Nobody, notifiers := if e.Some? then s.notifiers[n := Call(e.value)] else s.notifiers - {n})
    case Call(e) => s.(notifiers := s.notifiers - {n}, calls := s.calls + [e.1])
  }

  function Act(s: State, a: Step): State
    requires Enabled(s, a)
  {
    match a
    case NewTicker(t) => Put(s, t, Ticker(Rest, 0, 0, 0, 0))
    case PollTick(t, w) => Put(s, t, s.tickers[t].(pc := Search, waker := w))
    case TickerStep(t) => Tick(s, t)
    case PushTask(n) => s.(pushed := s.pushed + 1, notifiers := s.notifiers[n := Cas])
    case PassOn(t, n) => Put(s, t, s.tickers[t].(pc := Rest)).(notifiers := s.notifiers[n := Cas])
    case NotifyStep(n) => NotifyGo(s, n)
  }

  /** `takenAt` with these ids taken when `at` wakers had been called. */
  function Stamp(takenAt: map<nat, nat>, ids: set<nat>, at: nat): map<nat, nat> {
    map id | id in takenAt.Keys + ids :: if id in ids then at else takenAt[id]
  }

  /** Keeps the history over one step. */
  function Record(s: State, a: Step, s': State): Log {
    match a
    case NewTicker(t) => s.log.(woken := s.log.woken - {t})
    case PollTick(t, _) => s.log.(woken := s.log.woken - {t})
    case TickerStep(t) =>
      if t in s.tickers && t in s'.tickers && s.tickers[t].pc.SleepUpdate? then
        s.log.(registered := s.log.registered[s'.tickers[t].sleeping := s.tickers[t].pc.w])
      else s.log
    case NotifyStep(_) =>
      s.log.(takenAt := Stamp(s.log.takenAt, Ids(s.list.wakers) - Ids(s'.list.wakers), |s.calls|),
             woken := if |s'.calls| == |s.calls| + 1 then s.log.woken + PolledWith(s, s'.calls[|s.calls|])
                 else s.log.woken)
    case _ => s.log
  }

  function Do(s: State, a: Step): State
    requires Enabled(s, a)
  {
    var s' := Act(s, a);
    s'.(log := Record(s, a, s'))
  }

  ghost predicate Next(s: State, s': State) {
    exists a :: Enabled(s, a) && s' == Do(s, a)
  }

  // ----- who sleeps -----

  /** The id under which a ticker is counted: asleep, or part-way through `wake`. */
  function SleeperId(k: Ticker): nat {
    if k.pc.WakeLock? || k.pc.WakeRemove? then k.pc.id else k.sleeping
  }

  /** Tickers asleep or part-way through `wake`. */
  function Sleeping(s: State): set<nat> {
    set t | t in s.tickers && SleeperId(s.tickers[t]) != 0
  }

  function SleepingIds(s: State): set<nat> {
    set t | t in s.tickers && SleeperId(s.tickers[t]) != 0 :: SleeperId(s.tickers[t])
  }

  /** Sleepers whose waker is missing from the list. */
  function NotifiedIds(s: State): set<nat> {
    SleepingIds(s) - Ids(s.list.wakers)
  }

  // ----- invariant -----

  predicate HoldsMutex(pc: TickerPc) {
    pc.SleepUpdate? || pc.SleepPublish? || pc.SleepUnlock? || pc.WakeRemove? || pc.WakePublish? || pc.WakeUnlock?
  }

  predicate TickerOk(s: State, t: nat)
    requires t in s.tickers
  {
    var k := s.tickers[t];
    && (s.mutex == TickerOwner(t) <==> HoldsMutex(k.pc))
    && SleeperId(k) < s.list.idGen
    && (k.pc.WakeLock? || k.pc.WakeRemove? ==> k.pc.id != 0 && k.sleeping == 0)
    && (k.pc.WakePublish? || k.pc.WakeUnlock? ==> k.sleeping == 0)
    && (k.pc.SleepPublish? ==> k.sleeping != 0)
    && (k.pc.Passing? ==> k.sleeping == 0)
  }

  predicate Apart(s: State, t: nat, u: nat)
    requires t in s.tickers && u in s.tickers
  {
    t != u && SleeperId(s.tickers[t]) != 0 ==> SleeperId(s.tickers[t]) != SleeperId(s.tickers[u])
  }

  ghost predicate TickersOk(s: State) {
    && (forall t {:trigger TickerOk(s, t)} :: t in s.tickers ==> TickerOk(s, t))
    && (forall t, u {:trigger Apart(s, t, u)} :: t in s.tickers && u in s.tickers ==> Apart(s, t, u))
    && (s.mutex.TickerOwner? ==> s.mutex.t in s.tickers)
  }

  predicate NotifierOk(s: State, n: nat)
    requires n in s.notifiers
  {
    s.mutex == NotifierOwner(n) <==> s.notifiers[n].Take? || s.notifiers[n].Release?
  }

  ghost predicate NotifiersOk(s: State) {
    && (forall n {:trigger NotifierOk(s, n)} :: n in s.notifiers ==> NotifierOk(s, n))
    && (s.mutex.NotifierOwner? ==> s.mutex.n in s.notifiers)
  }

  /** The list agrees with the tickers; at most one sleeper is missing from it. */
  predicate ListOk(s: State) {
    && DistinctIds(s.list.wakers)
    && s.list.idGen >= 1
    && Ids(s.list.wakers) <= SleepingIds(s)
    && s.list.count == |SleepingIds(s)|
    && |NotifiedIds(s)| <= 1
  }

  /** Notifier `n` has set the flag and has not yet consulted the list. */
  predicate Consulting(s: State, n: nat) {
    n in s.notifiers && (s.notifiers[n].Lock? || s.notifiers[n].Take?)
  }

  /** Ticker `t` has changed the list and has not yet republished the flag. */
  predicate Unpublished(s: State, t: nat) {
    t in s.tickers && (s.tickers[t].pc.SleepPublish? || s.tickers[t].pc.WakePublish?)
  }

  ghost predicate FlagOk(s: State) {
    s.flag ==> || IsNotified(s.list)
               || (exists n :: Consulting(s, n))
               || (exists t :: Unpublished(s, t))
  }

  ghost predicate Inv(s: State) {
    TickersOk(s) && NotifiersOk(s) && ListOk(s) && FlagOk(s)
  }

  /** `s'` differs from `s` in ticker `t`, the mutex, the list and the flag at most. */
  predicate OnlyTicker(s: State, s': State, t: nat) {
    && t in s'.tickers && s'.tickers == s.tickers[t := s'.tickers[t]]
    && s'.notifiers == s.notifiers
  }

  function OldId(s: State, t: nat): nat {
    if t in s.tickers then SleeperId(s.tickers[t]) else 0
  }

  lemma IdsAfter(s: State, s': State, t: nat)
    requires TickersOk(s) && OnlyTicker(s, s', t)
    ensures var id, id' := OldId(s, t), SleeperId(s'.tickers[t]);
            SleepingIds(s') == SleepingIds(s) - {id} + (if id' != 0 then {id'} else {})
  {
    var id, id' := OldId(s, t), SleeperId(s'.tickers[t]);
    forall x | x in SleepingIds(s) && x != id ensures x in SleepingIds(s') {
      var u :| u in s.tickers && SleeperId(s.tickers[u]) == x && x != 0;
      assert s'.tickers[u] == s.tickers[u];
    }
    forall x | x in SleepingIds(s') ensures x == id' || (x in SleepingIds(s) && x != id) {
      var u :| u in s'.tickers && SleeperId(s'.tickers[u]) == x && x != 0;
      if u != t {
        assert s'.tickers[u] == s.tickers[u];
        assert t in s.tickers ==> Apart(s, u, t);
      }
    }
    if id' != 0 {
      assert t in s'.tickers && SleeperId(s'.tickers[t]) == id';
    }
  }

  lemma TickerUpdateKeepsTickers(s: State, s': State, t: nat)
    requires TickersOk(s) && NotifiersOk(s) && OnlyTicker(s, s', t)
    requires s'.list.idGen >= s.list.idGen && TickerOk(s', t)
    requires s'.mutex == s.mutex || (s.mutex == Nobody && s'.mutex == TickerOwner(t))
             || (s.mutex == TickerOwner(t) && s'.mutex == Nobody)
    requires SleeperId(s'.tickers[t]) == 0 || SleeperId(s'.tickers[t]) == OldId(s, t)
             || SleeperId(s'.tickers[t]) >= s.list.idGen
    ensures TickersOk(s') && NotifiersOk(s')
  {
    forall u | u in s'.tickers ensures TickerOk(s', u) {
      assert u != t ==> TickerOk(s, u);
    }
    forall u, v | u in s'.tickers && v in s'.tickers ensures Apart(s', u, v) {
      assert u in s.tickers && v in s.tickers ==> Apart(s, u, v);
      assert u in s.tickers ==> TickerOk(s, u);
      assert v in s.tickers ==> TickerOk(s, v);
    }
    forall n | n in s'.notifiers ensures NotifierOk(s', n) {
      assert NotifierOk(s, n);
    }
  }

  /** Steps of a ticker that change neither the list nor its sleeper id. */
  lemma QuietStepKeepsRest(s: State, s': State, t: nat)
    requires TickersOk(s) && ListOk(s) && FlagOk(s) && OnlyTicker(s, s', t)
    requires s'.list == s.list && SleeperId(s'.tickers[t]) == OldId(s, t)
    requires (s'.flag == s.flag && !Unpublished(s, t)) || s'.flag == IsNotified(s'.list)
    ensures ListOk(s') && FlagOk(s') && NotifiedIds(s') == NotifiedIds(s)
  {
    IdsAfter(s, s', t);
    assert SleepingIds(s') == SleepingIds(s) by {
      if OldId(s, t) != 0 {
        assert OldId(s, t) in SleepingIds(s);
      } else {
        assert 0 !in SleepingIds(s);
      }
    }
    FlagFrame(s, s', t);
  }

  lemma FlagFrame(s: State, s': State, t: nat)
    requires FlagOk(s) && OnlyTicker(s, s', t) && s'.list == s.list
    requires (s'.flag == s.flag && !Unpublished(s, t)) || s'.flag == IsNotified(s'.list)
    ensures FlagOk(s')
  {
    if s'.flag && !IsNotified(s'.list) {
      if n :| Consulting(s, n) {
        assert Consulting(s', n);
      } else {
        var u :| Unpublished(s, u);
        assert Unpublished(s', u);
      }
    }
  }

  lemma SleepInsertKeepsList(s: State, t: nat)
    requires TickersOk(s) && ListOk(s) && Enabled(s, TickerStep(t)) && s.tickers[t].pc.SleepUpdate?
             && s.tickers[t].sleeping == 0
    ensures ListOk(Tick(s, t)) && NotifiedIds(Tick(s, t)) <= NotifiedIds(s)
  {
    FreshId(s);
    IdsAfter(s, Tick(s, t), t);
    InsertIds(s.list, s.tickers[t].pc.w);
    AddToBoth(SleepingIds(s), Ids(s.list.wakers), s.list.idGen);
  }

  lemma AddToBoth(all: set<nat>, listed: set<nat>, id: nat)
    requires id !in all && 0 !in all && listed <= all
    ensures |all - {0} + {id}| == |all| + 1
    ensures (all - {0} + {id}) - (listed + {id}) == all - listed
  {
    assert all - {0} == all;
  }

  lemma SleepAgainKeepsList(s: State, t: nat)
    requires TickersOk(s) && ListOk(s) && Enabled(s, TickerStep(t)) && s.tickers[t].pc.SleepUpdate?
             && s.tickers[t].sleeping != 0
    ensures ListOk(Tick(s, t)) && NotifiedIds(Tick(s, t)) <= NotifiedIds(s)
  {
    var s', id := Tick(s, t), s.tickers[t].sleeping;
    IdsAfter(s, s', t);
    UpdateIds(s.list, id, s.tickers[t].pc.w);
    var all, listed := SleepingIds(s), Ids(s.list.wakers);
    assert id in all;
    assert all - {id} + {id} == all;
    assert all - (listed + {id}) == (all - listed) - {id};
  }

  lemma WakeRemoveKeepsList(s: State, t: nat)
    requires TickersOk(s) && ListOk(s) && Enabled(s, TickerStep(t)) && s.tickers[t].pc.WakeRemove?
    ensures ListOk(Tick(s, t)) && NotifiedIds(Tick(s, t)) <= NotifiedIds(s)
  {
    var s', id := Tick(s, t), s.tickers[t].pc.id;
    assert TickerOk(s, t);
    IdsAfter(s, s', t);
    RemoveIds(s.list, id);
    var all, listed := SleepingIds(s), Ids(s.list.wakers);
    assert id in all;
    assert all - {id} + {} == all - {id};
    assert (all - {id}) - (listed - {id}) == (all - listed) - {id};
  }

  lemma ListChangeKeepsFlag(s: State, t: nat)
    requires TickersOk(s) && FlagOk(s) && Enabled(s, TickerStep(t))
             && (s.tickers[t].pc.SleepUpdate? || s.tickers[t].pc.WakeRemove?)
    ensures FlagOk(Tick(s, t))
  {
    var s' := Tick(s, t);
    if Unpublished(s', t) {
    } else {
      FlagSameSize(s, s', t);
    }
  }

  lemma FlagSameSize(s: State, s': State, t: nat)
    requires FlagOk(s) && OnlyTicker(s, s', t) && |s'.list.wakers| == |s.list.wakers| && s'.list.count == s.list.count
    requires s'.flag == s.flag && !Unpublished(s, t)
    ensures FlagOk(s')
  {
    if s'.flag && !IsNotified(s'.list) {
      if n :| Consulting(s, n) {
        assert Consulting(s', n);
      } else {
        var u :| Unpublished(s, u);
        assert Unpublished(s', u);
      }
    }
  }

  lemma FreshId(s: State)
    requires TickersOk(s)
    ensures forall x :: x in SleepingIds(s) ==> 0 < x < s.list.idGen
  {
    forall x | x in SleepingIds(s) ensures 0 < x < s.list.idGen {
      var u :| u in s.tickers && SleeperId(s.tickers[u]) == x;
      assert TickerOk(s, u);
    }
  }

  lemma TickerStepFacts(s: State, t: nat)
    requires Enabled(s, TickerStep(t)) && TickerOk(s, t) && s.list.idGen >= 1
    ensures OnlyTicker(s, Tick(s, t), t) && TickerOk(Tick(s, t), t)
  {
  }

  lemma TickerOwnership(s: State, t: nat)
    requires Enabled(s, TickerStep(t)) && TickerOk(s, t) && t in Tick(s, t).tickers
    ensures var s' := Tick(s, t);
            && s'.list.idGen >= s.list.idGen
            && (s'.mutex == s.mutex || (s.mutex == Nobody && s'.mutex == TickerOwner(t))
                || (s.mutex == TickerOwner(t) && s'.mutex == Nobody))
            && (SleeperId(s'.tickers[t]) in {0, OldId(s, t), s.list.idGen})
  {
  }

  lemma TickerListFacts(s: State, t: nat)
    requires Enabled(s, TickerStep(t)) && TickerOk(s, t)
    ensures var s' := Tick(s, t);
            && t in s'.tickers
            && (s.tickers[t].pc.SleepUpdate? || s.tickers[t].pc.WakeRemove? ||
                (s'.list == s.list && SleeperId(s'.tickers[t]) == OldId(s, t)
                 && ((s'.flag == s.flag && !Unpublished(s, t)) || s'.flag == IsNotified(s'.list))))
  {
  }

  lemma TickerStepKeepsInv(s: State, t: nat)
    requires Inv(s) && Enabled(s, TickerStep(t))
    ensures Inv(Tick(s, t)) && NotifiedIds(Tick(s, t)) <= NotifiedIds(s)
  {
    assert TickerOk(s, t);
    TickerStepFacts(s, t);
    TickerOwnership(s, t);
    TickerListFacts(s, t);
    TickerUpdateKeepsTickers(s, Tick(s, t), t);
    if s.tickers[t].pc.SleepUpdate? || s.tickers[t].pc.WakeRemove? {
      if s.tickers[t].pc.WakeRemove? {
        WakeRemoveKeepsList(s, t);
      } else if s.tickers[t].sleeping == 0 {
        SleepInsertKeepsList(s, t);
      } else {
        SleepAgainKeepsList(s, t);
      }
      ListChangeKeepsFlag(s, t);
    } else {
      QuietStepKeepsRest(s, Tick(s, t), t);
    }
  }

  lemma NotifierUpdateKeepsOwners(s: State, s': State, n: nat)
    requires TickersOk(s) && NotifiersOk(s) && s'.tickers == s.tickers && s'.list.idGen == s.list.idGen
    requires forall m :: m != n ==>
               (m in s'.notifiers <==> m in s.notifiers) && (m in s.notifiers ==> s'.notifiers[m] == s.notifiers[m])
    requires n in s'.notifiers ==> NotifierOk(s', n)
    requires s'.mutex == s.mutex || (s.mutex == Nobody && s'.mutex == NotifierOwner(n))
             || (s.mutex == NotifierOwner(n) && s'.mutex == Nobody)
    requires n !in s'.notifiers ==> s'.mutex != NotifierOwner(n)
    ensures TickersOk(s') && NotifiersOk(s')
  {
    forall u | u in s'.tickers ensures TickerOk(s', u) {
      assert TickerOk(s, u);
    }
    forall u, v | u in s'.tickers && v in s'.tickers ensures Apart(s', u, v) {
      assert Apart(s, u, v);
    }
    forall m | m in s'.notifiers ensures NotifierOk(s', m) {
      assert m != n ==> NotifierOk(s, m);
    }
  }

  lemma NotifyStepKeepsFlag(s: State, n: nat)
    requires Inv(s) && Enabled(s, NotifyStep(n))
    ensures FlagOk(NotifyGo(s, n))
  {
    var s' := NotifyGo(s, n);
    if s.notifiers[n].Take? {
      NotifyIds(s.list);
      DistinctSize(s.list.wakers);
      assert s.list.count == |s.list.wakers| + |NotifiedIds(s)| by { CountIs(s); }
    } else if s'.flag && !IsNotified(s'.list) {
      if s.notifiers[n].Cas? && !s.flag {
        assert Consulting(s', n);
      } else if m :| Consulting(s, m) {
        assert Consulting(s', m);
      } else {
        var u :| Unpublished(s, u);
        assert Unpublished(s', u);
      }
    }
  }

  lemma CountIs(s: State)
    requires ListOk(s)
    ensures s.list.count == |s.list.wakers| + |NotifiedIds(s)|
  {
    DistinctSize(s.list.wakers);
    assert SleepingIds(s) == Ids(s.list.wakers) + NotifiedIds(s);
  }

  lemma TakeKeepsList(s: State, n: nat)
    requires ListOk(s) && Enabled(s, NotifyStep(n)) && s.notifiers[n].Take?
    ensures ListOk(NotifyGo(s, n))
  {
    var s' := NotifyGo(s, n);
    var (_, e) := Notify(s.list);
    if e.Some? {
      TakeOne(s, n, e.value);
    } else {
      assert s'.list == s.list;
      assert SleepingIds(s') == SleepingIds(s);
    }
  }

  /** A waker is taken only from a full list, so its sleeper is the one then missing. */
  lemma TakeOne(s: State, n: nat, e: Entry)
    requires ListOk(s) && Enabled(s, NotifyStep(n)) && s.notifiers[n].Take? && Notify(s.list).1 == Some(e)
    ensures ListOk(NotifyGo(s, n)) && NotifiedIds(NotifyGo(s, n)) == {e.0}
  {
    var s' := NotifyGo(s, n);
    assert SleepingIds(s') == SleepingIds(s);
    CountIs(s);
    NotifyIds(s.list);
    LastOut(SleepingIds(s), Ids(s.list.wakers), e.0);
  }

  lemma LastOut(all: set<nat>, listed: set<nat>, id: nat)
    requires |all - listed| == 0 && id in listed && listed <= all
    ensures listed - {id} <= all && all - (listed - {id}) == {id} && |all - (listed - {id})| == 1
  {
    assert all - listed == {};
    assert all - (listed - {id}) == {id};
  }

  lemma ListFrame(s: State, s': State)
    requires ListOk(s) && s'.tickers == s.tickers && s'.list == s.list
    ensures ListOk(s') && NotifiedIds(s') == NotifiedIds(s)
  {
    assert SleepingIds(s') == SleepingIds(s);
  }

  lemma NotifyStepKeepsOwners(s: State, n: nat)
    requires TickersOk(s) && NotifiersOk(s) && Enabled(s, NotifyStep(n))
    ensures TickersOk(NotifyGo(s, n)) && NotifiersOk(NotifyGo(s, n))
  {
    assert NotifierOk(s, n);
    NotifierUpdateKeepsOwners(s, NotifyGo(s, n), n);
  }

  lemma NotifyStepKeepsInv(s: State, n: nat)
    requires Inv(s) && Enabled(s, NotifyStep(n))
    ensures Inv(NotifyGo(s, n))
  {
    NotifyStepKeepsOwners(s, n);
    NotifyStepKeepsFlag(s, n);
    if s.notifiers[n].Take? {
      TakeKeepsList(s, n);
    } else {
      ListFrame(s, NotifyGo(s, n));
    }
  }

  lemma NotifierBeginsKeepsInv(s: State, s': State, n: nat)
    requires Inv(s) && n !in s.notifiers && s' == s.(notifiers := s.notifiers[n := Cas], pushed := s'.pushed)
    ensures Inv(s') && NotifiedIds(s') == NotifiedIds(s)
  {
    assert SleepingIds(s') == SleepingIds(s);
    NotifierUpdateKeepsOwners(s, s', n);
    if s'.flag && !IsNotified(s'.list) {
      if m :| Consulting(s, m) {
        assert Consulting(s', m);
      } else {
        var u :| Unpublished(s, u);
        assert Unpublished(s', u);
      }
    }
  }

  /** A ticker's program counter or waker changes, outside the mutex. */
  lemma FreeStepKeepsInv(s: State, s': State, t: nat)
    requires Inv(s) && OnlyTicker(s, s', t) && s'.list == s.list && s'.flag == s.flag && s'.mutex == s.mutex
    requires TickerOk(s', t) && SleeperId(s'.tickers[t]) == OldId(s, t) && !Unpublished(s, t)
    ensures Inv(s') && NotifiedIds(s') == NotifiedIds(s)
  {
    TickerUpdateKeepsTickers(s, s', t);
    QuietStepKeepsRest(s, s', t);
  }

  lemma LogFrame(s: State, l: Log)
    requires Inv(s)
    ensures Inv(s.(log := l)) && NotifiedIds(s.(log := l)) == NotifiedIds(s)
  {
    var s' := s.(log := l);
    assert SleepingIds(s') == SleepingIds(s);
    forall t | t in s'.tickers ensures TickerOk(s', t) {
      assert TickerOk(s, t);
    }
    forall t, u | t in s'.tickers && u in s'.tickers ensures Apart(s', t, u) {
      assert Apart(s, t, u);
    }
    forall n | n in s'.notifiers ensures NotifierOk(s', n) {
      assert NotifierOk(s, n);
    }
    assert forall n :: Consulting(s, n) ==> Consulting(s', n);
    assert forall t :: Unpublished(s, t) ==> Unpublished(s', t);
  }

  lemma ActKeepsInv(s: State, a: Step)
    requires Inv(s) && Enabled(s, a)
    ensures Inv(Act(s, a))
    ensures !a.NotifyStep? ==> NotifiedIds(Act(s, a)) <= NotifiedIds(s)
  {
    match a
    case TickerStep(t) => TickerStepKeepsInv(s, t);
    case NotifyStep(n) => NotifyStepKeepsInv(s, n);
    case PushTask(n) => NotifierBeginsKeepsInv(s, Act(s, a), n);
    case PassOn(t, n) =>
      assert TickerOk(s, t);
      var s1 := Put(s, t, s.tickers[t].(pc := Rest));
      FreeStepKeepsInv(s, s1, t);
      NotifierBeginsKeepsInv(s1, Act(s, a), n);
    case NewTicker(t) => FreeStepKeepsInv(s, Act(s, a), t);
    case PollTick(t, _) =>
      assert TickerOk(s, t);
      FreeStepKeepsInv(s, Act(s, a), t);
  }

  lemma StepKeepsInv(s: State, a: Step)
    requires Inv(s) && Enabled(s, a)
    ensures Inv(Do(s, a))
    ensures !a.NotifyStep? ==> NotifiedIds(Do(s, a)) <= NotifiedIds(s)
  {
    ActKeepsInv(s, a);
    LogFrame(Act(s, a), Do(s, a).log);
  }

  lemma RunInv(ss: seq<State>, i: nat)
    requires Run(Init, Next, ss) && i < |ss|
    ensures Inv(ss[i])
  {
    forall s, s' | Inv(s) && Next(s, s') ensures Inv(s') {
      var a :| Enabled(s, a) && s' == Do(s, a);
      StepKeepsInv(s, a);
    }
    InductiveHolds(Init, Next, Inv, ss, i);
  }

  // ----- whose waker is called -----

  /** Notifier `n` holds this entry and has not yet called its waker. */
  predicate InHand(s: State, n: nat, e: Entry) {
    && n in s.notifiers
    && match s.notifiers[n]
       case Release(taken) => taken == Some(e)
       case Call(taken) => taken == e
       case _ => false
  }

  /** The waker that sleeper `id` last registered has been called since its entry was taken. */
  predicate CalledSince(s: State, id: nat)
    requires id in s.log.registered && id in s.log.takenAt
  {
    exists j :: s.log.takenAt[id] <= j < |s.calls| && s.calls[j] == s.log.registered[id]
  }

  ghost predicate Reached(s: State, id: nat) {
    && id in s.log.registered && id in s.log.takenAt && s.log.takenAt[id] <= |s.calls|
    && (CalledSince(s, id) || exists n :: InHand(s, n, (id, s.log.registered[id])))
  }

  predicate EntryOk(s: State, e: Entry) {
    e in s.list.wakers ==> e.0 in s.log.registered && s.log.registered[e.0] == e.1
  }

  /** Every listed entry has the waker its sleeper last registered, and every sleeper missing
      from the list has been reached. */
  ghost predicate WakersOk(s: State) {
    && (forall e {:trigger EntryOk(s, e)} :: EntryOk(s, e))
    && (forall id {:trigger Reached(s, id)} :: id in NotifiedIds(s) ==> Reached(s, id))
  }

  /** Nothing is registered, taken or called, and hands keep what they hold. */
  lemma WakersFrame(s: State, s': State)
    requires WakersOk(s) && NotifiedIds(s') <= NotifiedIds(s)
    requires forall e :: e in s'.list.wakers ==> e in s.list.wakers
    requires s'.calls == s.calls && s'.log.registered == s.log.registered && s'.log.takenAt == s.log.takenAt
    requires forall n, e :: InHand(s, n, e) ==> InHand(s', n, e)
    ensures WakersOk(s')
  {
    forall e ensures EntryOk(s', e) {
      assert EntryOk(s, e);
    }
    forall id | id in NotifiedIds(s') ensures Reached(s', id) {
      assert Reached(s, id);
      ReachedFrame(s, s', id);
    }
  }

  lemma ReachedFrame(s: State, s': State, id: nat)
    requires Reached(s, id) && s.calls <= s'.calls && id in s'.log.registered && id in s'.log.takenAt
    requires s'.log.registered[id] == s.log.registered[id] && s'.log.takenAt[id] == s.log.takenAt[id]
    requires forall n, e :: InHand(s, n, e) ==>
        InHand(s', n, e) || (e.0 == id ==> |s.calls| < |s'.calls| && s'.calls[|s.calls|] == e.1)
    ensures Reached(s', id)
  {
    var e := (id, s.log.registered[id]);
    if CalledSince(s, id) {
      var j :| s.log.takenAt[id] <= j < |s.calls| && s.calls[j] == e.1;
      assert s'.calls[j] == e.1;
    } else {
      var n :| InHand(s, n, e);
      assert InHand(s', n, e) || s'.calls[|s.calls|] == e.1;
    }
  }

  /** A sleeper registers its waker. */
  lemma RegisterKeepsWakers(s: State, t: nat)
    requires Inv(s) && WakersOk(s) && Enabled(s, TickerStep(t)) && s.tickers[t].pc.SleepUpdate?
    requires NotifiedIds(Do(s, TickerStep(t))) <= NotifiedIds(s)
    ensures WakersOk(Do(s, TickerStep(t)))
  {
    var s', k := Do(s, TickerStep(t)), s.tickers[t];
    var id := s'.tickers[t].sleeping;
    Registers(s, t);
    forall e ensures EntryOk(s', e) {
      assert EntryOk(s, e);
    }
    forall x | x in NotifiedIds(s') ensures Reached(s', x) {
      assert Reached(s, x) && x != id;
      assert forall n, e :: InHand(s, n, e) ==> InHand(s', n, e);
      ReachedFrame(s, s', x);
    }
  }

  lemma Registers(s: State, t: nat)
    requires TickersOk(s) && ListOk(s) && Enabled(s, TickerStep(t)) && s.tickers[t].pc.SleepUpdate?
    ensures var s', w := Do(s, TickerStep(t)), s.tickers[t].pc.w;
            && t in s'.tickers
            && var id := s'.tickers[t].sleeping;
               && id in Ids(s'.list.wakers) && s'.log == s.log.(registered := s.log.registered[id := w])
               && s'.calls == s.calls && s'.notifiers == s.notifiers
               && (forall x: Entry :: x in s'.list.wakers <==> (x in s.list.wakers && x.0 != id) || x == (id, w))
  {
    var k := s.tickers[t];
    if k.sleeping == 0 {
      FreshId(s);
      InsertIds(s.list, k.pc.w);
      InsertEntries(s.list, k.pc.w);
      forall x: Entry | x in s.list.wakers ensures x.0 != s.list.idGen {
        var i :| 0 <= i < |s.list.wakers| && s.list.wakers[i] == x;
        assert s.list.wakers[i].0 in Ids(s.list.wakers);
      }
    } else {
      UpdateIds(s.list, k.sleeping, k.pc.w);
      UpdateEntries(s.list, k.sleeping, k.pc.w);
    }
  }

  lemma TickerKeepsWakers(s: State, t: nat)
    requires Inv(s) && WakersOk(s) && Enabled(s, TickerStep(t))
    requires NotifiedIds(Do(s, TickerStep(t))) <= NotifiedIds(s)
    ensures WakersOk(Do(s, TickerStep(t)))
  {
    if s.tickers[t].pc.SleepUpdate? {
      RegisterKeepsWakers(s, t);
    } else {
      TickerKeepsEntries(s, t);
      WakersFrame(s, Do(s, TickerStep(t)));
    }
  }

  lemma TickerKeepsEntries(s: State, t: nat)
    requires ListOk(s) && Enabled(s, TickerStep(t)) && !s.tickers[t].pc.SleepUpdate?
    ensures var s' := Do(s, TickerStep(t));
            && s'.log == s.log && s'.calls == s.calls && s'.notifiers == s.notifiers
            && forall e :: e in s'.list.wakers ==> e in s.list.wakers
  {
    TickerKeepsCalls(s, t);
    if s.tickers[t].pc.WakeRemove? {
      assert Tick(s, t).list == Remove(s.list, s.tickers[t].pc.id);
      RemoveEntries(s.list, s.tickers[t].pc.id);
    } else {
      TickerKeepsList(s, t);
    }
  }

  lemma TickerKeepsList(s: State, t: nat)
    requires Enabled(s, TickerStep(t)) && !s.tickers[t].pc.SleepUpdate? && !s.tickers[t].pc.WakeRemove?
    ensures Tick(s, t).list == s.list
  {
  }

  lemma TickerKeepsCalls(s: State, t: nat)
    requires Enabled(s, TickerStep(t))
    ensures Tick(s, t).calls == s.calls && Tick(s, t).log == s.log && Tick(s, t).notifiers == s.notifiers
  {
  }

  lemma StampNone(m: map<nat, nat>, at: nat)
    ensures Stamp(m, {}, at) == m
  {
  }

  /** What a notifier's step writes down. */
  lemma NotifyLog(s: State, n: nat)
    requires Enabled(s, NotifyStep(n))
    ensures var s1, s' := NotifyGo(s, n), Do(s, NotifyStep(n));
            && s' == s1.(log := s'.log) && s'.log.registered == s.log.registered
            && s'.log.takenAt == Stamp(s.log.takenAt, Ids(s.list.wakers) - Ids(s1.list.wakers), |s.calls|)
            && SleepingIds(s') == SleepingIds(s)
  {
    assert NotifyGo(s, n).log == s.log && NotifyGo(s, n).tickers == s.tickers;
  }

  lemma TakeKeepsWakers(s: State, n: nat)
    requires Inv(s) && WakersOk(s) && Enabled(s, NotifyStep(n)) && s.notifiers[n].Take?
    ensures WakersOk(Do(s, NotifyStep(n)))
  {
    var s' := Do(s, NotifyStep(n));
    NotifyLog(s, n);
    var (_, e) := Notify(s.list);
    if e.Some? {
      TakenIsReached(s, n, e.value);
    } else {
      NothingTaken(s, n);
      StampNone(s.log.takenAt, |s.calls|);
      WakersFrame(s, s');
    }
  }

  lemma NothingTaken(s: State, n: nat)
    requires Enabled(s, NotifyStep(n)) && s.notifiers[n].Take? && Notify(s.list).1 == None
    ensures var s' := NotifyGo(s, n);
            && s'.list == s.list && s'.calls == s.calls && Ids(s.list.wakers) - Ids(s'.list.wakers) == {}
            && forall m, x :: InHand(s, m, x) ==> InHand(s', m, x)
  {
  }

  lemma TakenIsReached(s: State, n: nat, e: Entry)
    requires Inv(s) && WakersOk(s) && Enabled(s, NotifyStep(n)) && s.notifiers[n].Take? && Notify(s.list).1 == Some(e)
    ensures WakersOk(Do(s, NotifyStep(n)))
  {
    var s' := Do(s, NotifyStep(n));
    NotifyLog(s, n);
    NotifyIds(s.list);
    NotifyEntries(s.list);
    TakeOne(s, n, e);
    assert NotifiedIds(s') == {e.0};
    assert EntryOk(s, e);
    assert Ids(s.list.wakers) - Ids(s'.list.wakers) == {e.0};
    assert InHand(s', n, e);
    assert Reached(s', e.0);
    forall x ensures EntryOk(s', x) {
      assert EntryOk(s, x);
    }
  }

  lemma NotifyKeepsWakers(s: State, n: nat)
    requires Inv(s) && WakersOk(s) && Enabled(s, NotifyStep(n)) && !s.notifiers[n].Take?
    ensures WakersOk(Do(s, NotifyStep(n)))
  {
    var s' := Do(s, NotifyStep(n));
    NotifyLog(s, n);
    NotifyHands(s, n);
    StampNone(s.log.takenAt, |s.calls|);
    forall e ensures EntryOk(s', e) {
      assert EntryOk(s, e);
    }
    forall id | id in NotifiedIds(s') ensures Reached(s', id) {
      assert Reached(s, id);
      ReachedFrame(s, s', id);
    }
  }

  /** A notifier lets go of a waker only by calling it. */
  lemma NotifyHands(s: State, n: nat)
    requires Enabled(s, NotifyStep(n)) && !s.notifiers[n].Take?
    ensures var s' := NotifyGo(s, n);
            && s'.list == s.list && s.calls <= s'.calls && Ids(s.list.wakers) - Ids(s'.list.wakers) == {}
            && forall m, e :: InHand(s, m, e) ==>
                 InHand(s', m, e) || (|s.calls| < |s'.calls| && s'.calls[|s.calls|] == e.1)
  {
  }

  lemma StepKeepsWakers(s: State, a: Step)
    requires Inv(s) && WakersOk(s) && Enabled(s, a)
    ensures WakersOk(Do(s, a))
  {
    StepKeepsInv(s, a);
    match a
    case TickerStep(t) => TickerKeepsWakers(s, t);
    case NotifyStep(n) => if s.notifiers[n].Take? { TakeKeepsWakers(s, n); } else { NotifyKeepsWakers(s, n); }
    case _ => WakersFrame(s, Do(s, a));
  }

  ghost predicate InvWakers(s: State) {
    Inv(s) && WakersOk(s)
  }

  lemma RunWakers(ss: seq<State>, i: nat)
    requires Run(Init, Next, ss) && i < |ss|
    ensures WakersOk(ss[i])
  {
    forall s, s' | InvWakers(s) && Next(s, s') ensures InvWakers(s') {
      var a :| Enabled(s, a) && s' == Do(s, a);
      StepKeepsInv(s, a);
      StepKeepsWakers(s, a);
    }
    InductiveHolds(Init, Next, InvWakers, ss, i);
  }

  // ----- theorems over every run -----

  lemma SleepingSize(s: State)
    requires TickersOk(s)
    ensures |Sleeping(s)| == |SleepingIds(s)|
  {
    ImageSize(s, Sleeping(s));
    assert SleepingIds(s) == set t | t in Sleeping(s) :: SleeperId(s.tickers[t]);
  }

  lemma {:induction false} ImageSize(s: State, ts: set<nat>)
    requires TickersOk(s) && ts <= Sleeping(s)
    ensures |set t | t in ts :: SleeperId(s.tickers[t])| == |ts|
  {
    if ts == {} {
    } else {
      var u :| u in ts;
      ImageSize(s, ts - {u});
      var id := SleeperId(s.tickers[u]);
      var rest := set t | t in ts - {u} :: SleeperId(s.tickers[t]);
      assert (set t | t in ts :: SleeperId(s.tickers[t])) == rest + {id};
      assert id !in rest by {
        forall t | t in ts - {u} ensures SleeperId(s.tickers[t]) != id {
          assert Apart(s, t, u);
        }
      }
    }
  }

  /** `count` is the number of tickers asleep or part-way through `wake`; the listed ids
      are distinct and belong to such tickers; `count - wakers.len()` of them are
      notified, at most one; and the decrement in `remove` never underflows. */
  lemma SleepersBookkeeping(ss: seq<State>, i: nat)
    requires Run(Init, Next, ss) && i < |ss|
    ensures ss[i].list.count == |Sleeping(ss[i])|
    ensures DistinctIds(ss[i].list.wakers)
    ensures forall id :: id in Ids(ss[i].list.wakers) ==>
              exists t :: t in Sleeping(ss[i]) && SleeperId(ss[i].tickers[t]) == id
    ensures ss[i].list.count - |ss[i].list.wakers| == |NotifiedIds(ss[i])| <= 1
    ensures forall t :: t in ss[i].tickers && ss[i].tickers[t].pc.WakeRemove? ==> ss[i].list.count >= 1
  {
    RunInv(ss, i);
    var s := ss[i];
    SleepingSize(s);
    CountIs(s);
    forall id | id in Ids(s.list.wakers) ensures exists t :: t in Sleeping(s) && SleeperId(s.tickers[t]) == id {
      assert id in SleepingIds(s);
    }
    forall t | t in s.tickers && s.tickers[t].pc.WakeRemove? ensures s.list.count >= 1 {
      assert TickerOk(s, t);
      assert SleeperId(s.tickers[t]) in SleepingIds(s);
    }
  }

  /** A suppressed notification is always justified: while the flag is set, no ticker
      sleeps, or a sleeping ticker's waker has been taken, or a notifier is between its
      compare-and-swap and the list, or the mutex holder has yet to republish the flag. */
  lemma SuppressionJustified(ss: seq<State>, i: nat)
    requires Run(Init, Next, ss) && i < |ss| && ss[i].flag
    ensures || Sleeping(ss[i]) == {}
            || (exists t :: t in Sleeping(ss[i]) && SleeperId(ss[i].tickers[t]) !in Ids(ss[i].list.wakers))
            || (exists n :: Consulting(ss[i], n))
            || (exists t :: Unpublished(ss[i], t) && ss[i].mutex == TickerOwner(t))
  {
    RunInv(ss, i);
    var s := ss[i];
    SleepingSize(s);
    CountIs(s);
    if s.list.count > |s.list.wakers| {
      var id :| id in NotifiedIds(s);
      var t :| t in s.tickers && SleeperId(s.tickers[t]) == id;
      assert t in Sleeping(s);
    } else if t :| Unpublished(s, t) {
      assert TickerOk(s, t);
    }
  }

  /** A ticker publishing the flag sets it to exactly whether nobody sleeps or some sleeper has
      been notified. */
  ghost predicate PublishesExactly(s: State, s': State) {
    forall t :: t in s.tickers && t in s'.tickers && Unpublished(s, t) && !Unpublished(s', t) ==>
      (s'.flag <==> SleepingIds(s') == {} || NotifiedIds(s') != {})
  }

  lemma FlagIsPublished(ss: seq<State>, i: nat)
    requires Run(Init, Next, ss) && 0 < i < |ss|
    ensures PublishesExactly(ss[i - 1], ss[i])
  {
    RunInv(ss, i - 1);
    forall s, s' | Inv(s) && Next(s, s') ensures PublishesExactly(s, s') {
      var a :| Enabled(s, a) && s' == Do(s, a);
      StepPublishes(s, a);
    }
    EveryStep(Init, Next, Inv, PublishesExactly, ss, i);
  }

  lemma StepPublishes(s: State, a: Step)
    requires Inv(s) && Enabled(s, a)
    ensures PublishesExactly(s, Do(s, a))
  {
    var s' := Do(s, a);
    forall t | t in s.tickers && t in s'.tickers && Unpublished(s, t) && !Unpublished(s', t)
      ensures s'.flag <==> SleepingIds(s') == {} || NotifiedIds(s') != {}
    {
      StepKeepsInv(s, a);
      CountIs(s');
      OnlyItsStepPublishes(s, a, t);
    }
  }

  lemma OnlyItsStepPublishes(s: State, a: Step, t: nat)
    requires Enabled(s, a) && Unpublished(s, t) && t in Do(s, a).tickers && !Unpublished(Do(s, a), t)
    ensures Do(s, a).flag == IsNotified(Do(s, a).list)
  {
    assert Act(s, a).tickers[t].pc != s.tickers[t].pc;
    OnlyOwnStepMoves(s, a, t);
    PublishStep(s, t);
  }

  lemma OnlyOwnStepMoves(s: State, a: Step, t: nat)
    requires Enabled(s, a) && t in s.tickers && t in Act(s, a).tickers && Act(s, a).tickers[t].pc != s.tickers[t].pc
    requires !s.tickers[t].pc.Rest? && !s.tickers[t].pc.Passing?
    ensures a == TickerStep(t)
  {
  }

  lemma PublishStep(s: State, t: nat)
    requires Enabled(s, TickerStep(t)) && Unpublished(s, t)
    ensures Tick(s, t).flag == IsNotified(Tick(s, t).list)
  {
  }

  /** Every entry on the list has the waker its sleeper last registered. */
  lemma ListedWakersAreCurrent(ss: seq<State>, i: nat, e: Entry)
    requires Run(Init, Next, ss) && i < |ss| && e in ss[i].list.wakers
    ensures e.0 in ss[i].log.registered && ss[i].log.registered[e.0] == e.1
  {
    RunWakers(ss, i);
    assert EntryOk(ss[i], e);
  }

  /** The right waker is called: whenever a sleeping ticker is missing from the list, the waker
      it last registered has been called since its entry was taken, or a notifier holds that
      very entry and is about to call it. */
  lemma TakenWakerIsCalled(ss: seq<State>, i: nat, t: nat)
    requires Run(Init, Next, ss) && i < |ss|
    requires t in Sleeping(ss[i]) && SleeperId(ss[i].tickers[t]) !in Ids(ss[i].list.wakers)
    ensures var id := SleeperId(ss[i].tickers[t]);
            && id in ss[i].log.registered && id in ss[i].log.takenAt
            && (CalledSince(ss[i], id) || exists n :: InHand(ss[i], n, (id, ss[i].log.registered[id])))
  {
    RunWakers(ss, i);
    assert SleeperId(ss[i].tickers[t]) in NotifiedIds(ss[i]);
    assert Reached(ss[i], SleeperId(ss[i].tickers[t]));
  }

  // ----- what the tickers may sleep through -----

  /** The ticker's last search found nothing and it has not popped since. */
  predicate Dormant(k: Ticker) {
    || k.pc.SleepLock? || k.pc.SleepUpdate? || k.pc.SleepPublish? || k.pc.SleepUnlock?
    || ((k.pc.Rest? || k.pc.Search?) && k.sleeping != 0)
  }

  /** Asleep on the list, and not about to publish. */
  predicate Settled(s: State, t: nat) {
    && t in s.tickers && s.tickers[t].sleeping != 0 && s.tickers[t].sleeping in Ids(s.list.wakers)
    && !s.tickers[t].pc.SleepPublish? && !s.tickers[t].pc.WakeSwap? && !s.tickers[t].pc.WakePublish?
  }

  ghost predicate AllDormant(s: State) {
    s.tickers != map[] && forall t :: t in s.tickers ==> Dormant(s.tickers[t])
  }

  ghost predicate AllSettled(s: State) {
    s.tickers != map[] && forall t {:trigger Settled(s, t)} :: t in s.tickers ==> Settled(s, t)
  }

  /** Notifier `n` has still to decide whether to take a waker. */
  predicate Undecided(s: State, n: nat) {
    n in s.notifiers && (s.notifiers[n].Cas? || s.notifiers[n].Lock? || s.notifiers[n].Take?)
  }

  predicate CountsOk(s: State, t: nat)
    requires t in s.tickers
  {
    s.tickers[t].seen <= s.tickers[t].slept <= s.pushed && s.tickers[t].seen <= s.popped <= s.pushed
  }

  /** Nothing has been popped since ticker `t` last found nothing. */
  predicate SeenLast(s: State, t: nat) {
    t in s.tickers && s.tickers[t].seen == s.popped
  }

  /** Nothing has been pushed since ticker `t` last published the flag. */
  predicate SleptLast(s: State, t: nat) {
    t in s.tickers && s.tickers[t].slept == s.pushed
  }

  ghost predicate SeenOk(s: State) {
    AllDormant(s) ==> exists t :: SeenLast(s, t)
  }

  /** Ticker `t` is about to publish the flag, or is on its way from having found a task to
      passing a notification on. */
  predicate Busy(s: State, t: nat) {
    && t in s.tickers
    && (|| s.tickers[t].pc.SleepPublish? || s.tickers[t].pc.WakeSwap? || s.tickers[t].pc.WakeLock?
        || s.tickers[t].pc.WakeRemove? || s.tickers[t].pc.WakePublish? || s.tickers[t].pc.WakeUnlock?
        || s.tickers[t].pc.Passing?)
  }

  /** No task has been pushed since the last publishing, or a notification is on its way. */
  ghost predicate Attended(s: State) {
    || (exists t :: SleptLast(s, t)) || (exists n :: Undecided(s, n))
    || NotifiedIds(s) != {} || (exists t :: Busy(s, t))
  }

  /** While some ticker sleeps on the list, tasks pushed are attended to. */
  ghost predicate SleptOk(s: State) {
    (exists t :: Settled(s, t)) ==> Attended(s)
  }

  ghost predicate QueueOk(s: State) {
    && s.popped <= s.pushed
    && (forall t {:trigger CountsOk(s, t)} :: t in s.tickers ==> CountsOk(s, t))
    && SeenOk(s) && SleptOk(s)
  }

  lemma TickFrame(s: State, t: nat)
    requires Enabled(s, TickerStep(t))
    ensures var s' := Tick(s, t);
            && t in s'.tickers && s'.tickers == s.tickers[t := s'.tickers[t]]
            && s'.notifiers == s.notifiers && s'.pushed == s.pushed && s.popped <= s'.popped
  {
  }

  lemma TickCounts(s: State, t: nat)
    requires Enabled(s, TickerStep(t)) && CountsOk(s, t)
    ensures t in Tick(s, t).tickers && CountsOk(Tick(s, t), t)
  {
    if s.tickers[t].pc.Search? {
      SearchCounts(s, t);
    } else {
      RestCounts(s, t);
    }
  }

  lemma SearchCounts(s: State, t: nat)
    requires Enabled(s, TickerStep(t)) && CountsOk(s, t) && s.tickers[t].pc.Search?
    ensures t in Tick(s, t).tickers && CountsOk(Tick(s, t), t)
  {
  }

  lemma RestCounts(s: State, t: nat)
    requires Enabled(s, TickerStep(t)) && CountsOk(s, t) && !s.tickers[t].pc.Search?
    ensures t in Tick(s, t).tickers && CountsOk(Tick(s, t), t)
  {
  }

  lemma TickHistory(s: State, t: nat)
    requires Enabled(s, TickerStep(t)) && CountsOk(s, t)
    ensures t in Tick(s, t).tickers
    ensures var s', k, k' := Tick(s, t), s.tickers[t], Tick(s, t).tickers[t];
            && (Dormant(k') && k.pc.Search? ==> SeenLast(s', t) && SleptLast(s', t))
            && (!k.pc.Search? ==> k'.seen == k.seen && s'.popped == s.popped)
            && (k.pc.SleepPublish? ==> SleptLast(s', t))
            && (!k.pc.Search? && !k.pc.SleepPublish? ==> k'.slept == k.slept)
  {
  }

  lemma TickDormant(s: State, t: nat)
    requires Enabled(s, TickerStep(t)) && TickerOk(s, t) && Dormant(Tick(s, t).tickers[t])
    ensures s.tickers[t].pc.Search? || Dormant(s.tickers[t])
  {
  }

  lemma TickKeepsSeen(s: State, t: nat)
    requires SeenOk(s) && Enabled(s, TickerStep(t)) && TickerOk(s, t) && CountsOk(s, t)
    ensures SeenOk(Tick(s, t))
  {
    var s' := Tick(s, t);
    TickHistory(s, t);
    TickFrame(s, t);
    if AllDormant(s') {
      TickDormant(s, t);
      assert t in s'.tickers;
      if !s.tickers[t].pc.Search? {
        assert forall u :: u in s.tickers && u != t ==> s'.tickers[u] == s.tickers[u];
        var u :| SeenLast(s, u);
        assert SeenLast(s', u);
      }
    }
  }

  /** Nothing that attends to the queue goes away. */
  lemma SleptFrame(s: State, s': State)
    requires SleptOk(s)
    requires forall t :: Settled(s', t) ==> Settled(s, t)
    requires forall t :: SleptLast(s, t) ==> SleptLast(s', t)
    requires forall n :: Undecided(s, n) ==> Undecided(s', n)
    requires forall t :: Busy(s, t) ==> Busy(s', t)
    requires NotifiedIds(s) <= NotifiedIds(s')
    ensures SleptOk(s')
  {
    if t :| Settled(s', t) {
      assert Settled(s, t);
      if u :| SleptLast(s, u) {
        assert SleptLast(s', u);
      } else if n :| Undecided(s, n) {
        assert Undecided(s', n);
      } else if u :| Busy(s, u) {
        assert Busy(s', u);
      }
    }
  }

  /** A ticker's step either attends to the queue itself or changes nothing that matters. */
  lemma TickAttends(s: State, t: nat)
    requires Enabled(s, TickerStep(t)) && TickerOk(s, t) && CountsOk(s, t)
    ensures var k := s.tickers[t];
            || Busy(Tick(s, t), t) || SleptLast(Tick(s, t), t)
            || k.pc.SleepLock? || k.pc.SleepUnlock? || (k.pc.SleepUpdate? && k.sleeping != 0)
  {
  }

  lemma TickQuiet(s: State, t: nat)
    requires Enabled(s, TickerStep(t)) && DistinctIds(s.list.wakers)
    requires s.tickers[t].pc.SleepLock? || s.tickers[t].pc.SleepUnlock? || s.tickers[t].pc.SleepUpdate?
    requires s.tickers[t].pc.SleepUpdate? ==> s.tickers[t].sleeping != 0 && !Busy(Tick(s, t), t)
    ensures var s' := Tick(s, t);
            && OnlyTicker(s, s', t) && s'.pushed == s.pushed && Ids(s'.list.wakers) == Ids(s.list.wakers)
            && s'.tickers[t] == s.tickers[t].(pc := s'.tickers[t].pc) && !Busy(s, t) && !Busy(s', t)
            && !s'.tickers[t].pc.WakeLock? && !s'.tickers[t].pc.WakeRemove?
  {
    if s.tickers[t].pc.SleepUpdate? {
      var (id, w) := (s.tickers[t].sleeping, s.tickers[t].pc.w);
      UpdateIds(s.list, id, w);
      assert id in Ids(s.list.wakers);
      assert Ids(s.list.wakers) + {id} == Ids(s.list.wakers);
    }
  }

  lemma TickKeepsSlept(s: State, t: nat)
    requires SleptOk(s) && Enabled(s, TickerStep(t)) && TickerOk(s, t) && CountsOk(s, t)
    requires TickersOk(s) && DistinctIds(s.list.wakers)
    ensures SleptOk(Tick(s, t))
  {
    var s' := Tick(s, t);
    TickAttends(s, t);
    if !Busy(s', t) && !SleptLast(s', t) {
      TickQuiet(s, t);
      QuietIds(s, s', t);
      assert forall u :: u in s.tickers && u != t ==> s'.tickers[u] == s.tickers[u];
      SleptFrame(s, s');
    }
  }

  lemma QuietIds(s: State, s': State, t: nat)
    requires TickersOk(s) && OnlyTicker(s, s', t) && t in s.tickers && SleeperId(s'.tickers[t]) == OldId(s, t)
    requires Ids(s'.list.wakers) == Ids(s.list.wakers)
    ensures NotifiedIds(s') == NotifiedIds(s)
  {
    IdsAfter(s, s', t);
    if OldId(s, t) != 0 {
      assert OldId(s, t) in SleepingIds(s);
      assert SleepingIds(s') == SleepingIds(s);
    } else {
      assert 0 !in SleepingIds(s);
      assert SleepingIds(s') == SleepingIds(s);
    }
  }

  /** When every ticker is settled the list is full. */
  lemma AllListed(s: State)
    requires TickersOk(s) && ListOk(s) && AllSettled(s)
    ensures s.list.count == |s.list.wakers| > 0
  {
    forall id | id in SleepingIds(s) ensures id in Ids(s.list.wakers) {
      var t :| t in s.tickers && SleeperId(s.tickers[t]) == id;
      assert TickerOk(s, t) && Settled(s, t);
    }
    assert SleepingIds(s) == Ids(s.list.wakers);
    DistinctSize(s.list.wakers);
    var t :| t in s.tickers;
    assert Settled(s, t);
  }

  /** A notifier that finds the flag set or the list not full leaves the queue attended to by
      others. */
  lemma NotifyKeepsSlept(s: State, n: nat)
    requires TickersOk(s) && ListOk(s) && FlagOk(s) && SleptOk(s) && Enabled(s, NotifyStep(n))
    ensures SleptOk(NotifyGo(s, n))
  {
    var s' := NotifyGo(s, n);
    if s.notifiers[n].Take? {
      TakeAttends(s, n);
    } else if s.notifiers[n].Cas? && s.flag {
      if t :| Settled(s', t) {
        assert Settled(s, t);
        SuppressedByAnother(s, n, t);
      }
    } else {
      assert SleepingIds(s') == SleepingIds(s);
      forall m | Undecided(s, m) ensures Undecided(s', m) {
        StaysUndecided(s, n, m);
      }
      SleptFrame(s, s');
    }
  }

  lemma SettledIsCounted(s: State, t: nat)
    requires TickersOk(s) && ListOk(s) && Settled(s, t)
    ensures s.list.count > 0 && |s.list.wakers| > 0
  {
    assert TickerOk(s, t);
    assert s.tickers[t].sleeping in SleepingIds(s);
  }

  lemma TakeAttends(s: State, n: nat)
    requires TickersOk(s) && ListOk(s) && Enabled(s, NotifyStep(n)) && s.notifiers[n].Take?
    ensures SleptOk(NotifyGo(s, n))
  {
    var s' := NotifyGo(s, n);
    assert SleepingIds(s') == SleepingIds(s);
    NotifyIds(s.list);
    var (_, e) := Notify(s.list);
    if e.Some? {
      assert e.value.0 in NotifiedIds(s');
    } else if t :| Settled(s', t) {
      assert Settled(s, t);
      SettledIsCounted(s, t);
      CountIs(s);
    }
  }

  /** A notification is suppressed only if another attends to the queue. */
  lemma SuppressedByAnother(s: State, n: nat, t: nat)
    requires TickersOk(s) && ListOk(s) && FlagOk(s) && Settled(s, t) && s.flag
    requires Enabled(s, NotifyStep(n)) && s.notifiers[n].Cas?
    ensures Attended(NotifyGo(s, n))
  {
    var s' := NotifyGo(s, n);
    assert SleepingIds(s') == SleepingIds(s);
    SettledIsCounted(s, t);
    CountIs(s);
    if m :| Consulting(s, m) {
      StaysUndecided(s, n, m);
    } else if u :| Unpublished(s, u) {
      assert Busy(s', u);
    } else {
      assert IsNotified(s.list) && NotifiedIds(s') != {};
    }
  }

  lemma StaysUndecided(s: State, n: nat, m: nat)
    requires Enabled(s, NotifyStep(n)) && Undecided(s, m)
    requires m == n ==> s.notifiers[n].Lock? || (s.notifiers[n].Cas? && !s.flag)
    ensures Undecided(NotifyGo(s, n), m)
  {
  }

  lemma SeenFrame(s: State, s': State)
    requires SeenOk(s) && s'.tickers.Keys == s.tickers.Keys && s'.popped == s.popped
    requires forall t :: t in s.tickers && Dormant(s'.tickers[t]) ==> Dormant(s.tickers[t])
    requires forall t :: t in s.tickers ==> s'.tickers[t].seen == s.tickers[t].seen
    ensures SeenOk(s')
  {
    if AllDormant(s') {
      assert s.tickers != map[];
      var t :| SeenLast(s, t);
      assert SeenLast(s', t);
    }
  }

  lemma BeginKeepsCounts(s: State, a: Step)
    requires QueueOk(s) && Enabled(s, a) && !a.TickerStep? && !a.NotifyStep?
    ensures var s' := Act(s, a);
            s'.popped <= s'.pushed && forall t :: t in s'.tickers ==> CountsOk(s', t)
  {
    forall t | t in Act(s, a).tickers ensures CountsOk(Act(s, a), t) {
      assert t in s.tickers ==> CountsOk(s, t);
    }
  }

  lemma BeginKeepsQueue(s: State, a: Step)
    requires TickersOk(s) && QueueOk(s) && Enabled(s, a) && !a.TickerStep? && !a.NotifyStep?
    ensures QueueOk(Act(s, a))
  {
    var s' := Act(s, a);
    BeginKeepsCounts(s, a);
    match a
    case NewTicker(t) =>
      assert !Dormant(s'.tickers[t]) && t in s'.tickers;
      assert SleepingIds(s') == SleepingIds(s) by { IdsAfter(s, s', t); assert 0 !in SleepingIds(s); }
      assert forall u :: u in s.tickers ==> s'.tickers[u] == s.tickers[u];
      SleptFrame(s, s');
    case PollTick(t, _) =>
      QuietIds(s, s', t);
      assert forall u :: u in s.tickers && u != t ==> s'.tickers[u] == s.tickers[u];
      SeenFrame(s, s');
      SleptFrame(s, s');
    case PushTask(n) =>
      SeenFrame(s, s');
      assert Undecided(s', n);
    case PassOn(t, n) =>
      assert TickerOk(s, t);
      SeenFrame(s, s');
      assert Undecided(s', n);
    case _ =>
  }

  lemma QueueLogFrame(s: State, l: Log)
    requires QueueOk(s)
    ensures QueueOk(s.(log := l))
  {
    var s' := s.(log := l);
    forall t | t in s'.tickers ensures CountsOk(s', t) {
      assert CountsOk(s, t);
    }
    assert SleepingIds(s') == SleepingIds(s);
    SeenFrame(s, s');
    SleptFrame(s, s');
  }

  lemma TickKeepsQueue(s: State, t: nat)
    requires Inv(s) && QueueOk(s) && Enabled(s, TickerStep(t))
    ensures QueueOk(Tick(s, t))
  {
    var s' := Tick(s, t);
    assert TickerOk(s, t) && CountsOk(s, t);
    TickCounts(s, t);
    TickFrame(s, t);
    TickKeepsSeen(s, t);
    TickKeepsSlept(s, t);
    forall u | u in s'.tickers ensures CountsOk(s', u) {
      assert u != t ==> CountsOk(s, u);
    }
  }

  lemma NotifyKeepsQueue(s: State, n: nat)
    requires Inv(s) && QueueOk(s) && Enabled(s, NotifyStep(n))
    ensures QueueOk(NotifyGo(s, n))
  {
    var s' := NotifyGo(s, n);
    NotifyKeepsSlept(s, n);
    SeenFrame(s, s');
    forall u | u in s'.tickers ensures CountsOk(s', u) {
      assert CountsOk(s, u);
    }
  }

  lemma StepKeepsQueue(s: State, a: Step)
    requires Inv(s) && QueueOk(s) && Enabled(s, a)
    ensures QueueOk(Do(s, a))
  {
    match a {
      case TickerStep(t) => TickKeepsQueue(s, t);
      case NotifyStep(n) => NotifyKeepsQueue(s, n);
      case _ => BeginKeepsQueue(s, a);
    }
    QueueLogFrame(Act(s, a), Do(s, a).log);
  }

  lemma {:induction false} RunQueue(ss: seq<State>, i: nat)
    requires Run(Init, Next, ss) && i < |ss|
    ensures QueueOk(ss[i])
  {
    if i == 0 {
      assert ss[0].tickers == map[];
    } else {
      RunQueue(ss, i - 1);
      RunInv(ss, i - 1);
      var s, s' := ss[i - 1], ss[i];
      assert Next(s, s');
      var a :| Enabled(s, a) && s' == Do(s, a);
      StepKeepsQueue(s, a);
    }
  }

  /** Notifier `n` is going to call the waker ticker `t` was last polled with. */
  predicate Waking(s: State, n: nat, t: nat) {
    && n in s.notifiers && t in s.tickers
    && match s.notifiers[n]
       case Release(e) => e.Some? && e.value.1 == s.tickers[t].waker
       case Call(e) => e.1 == s.tickers[t].waker
       case _ => false
  }

  /** Ticker `t` sleeps on the list; its waker has not been called since its last poll and
      nobody is going to call it. */
  ghost predicate FastAsleep(s: State, t: nat) {
    && t in s.tickers && s.tickers[t].pc.Rest? && Settled(s, t)
    && t !in s.log.woken && forall n :: !Waking(s, n, t)
  }

  /** Every ticker is fast asleep, and no notification is undecided. */
  ghost predicate Quiescent(s: State) {
    && s.tickers != map[]
    && (forall t {:trigger FastAsleep(s, t)} :: t in s.tickers ==> FastAsleep(s, t))
    && forall n :: !Undecided(s, n)
  }

  /** Ticker `t` published the flag after a push that came later than every empty search. */
  ghost predicate PublishedTooLate(s: State, t: nat) {
    t in s.tickers && forall u :: u in s.tickers ==> s.tickers[u].seen < s.tickers[t].slept
  }

  /** `tick` does not search again after `sleep`. With every ticker asleep and every
      notification settled, the tasks left in the queue are exactly those pushed between the
      last empty search of any ticker (that of `last`) and the last publishing of the flag
      from `sleep` (that of `late`); so a task is left queued if and only if some ticker
      published the flag after a push that no search had seen. */
  lemma QueuedWhileAsleepIff(ss: seq<State>, i: nat) returns (last: nat, late: nat)
    requires Run(Init, Next, ss) && i < |ss| && Quiescent(ss[i])
    ensures last in ss[i].tickers && late in ss[i].tickers
    ensures forall t :: t in ss[i].tickers ==>
              ss[i].tickers[t].seen <= ss[i].tickers[last].seen && ss[i].tickers[t].slept <= ss[i].tickers[late].slept
    ensures ss[i].pushed - ss[i].popped == ss[i].tickers[late].slept - ss[i].tickers[last].seen
    ensures ss[i].popped < ss[i].pushed <==> exists t :: PublishedTooLate(ss[i], t)
  {
    RunQueue(ss, i);
    RunInv(ss, i);
    var s := ss[i];
    forall t | t in s.tickers ensures Settled(s, t) && Dormant(s.tickers[t]) && !Busy(s, t) {
      assert FastAsleep(s, t);
    }
    assert AllSettled(s) && AllDormant(s);
    last :| SeenLast(s, last);
    var t :| t in s.tickers;
    assert Settled(s, t);
    AllListed(s);
    CountIs(s);
    late :| SleptLast(s, late);
    forall t | t in s.tickers
      ensures s.tickers[t].seen <= s.tickers[last].seen && s.tickers[t].slept <= s.tickers[late].slept
    {
      assert CountsOk(s, t);
    }
    if s.popped < s.pushed {
      assert PublishedTooLate(s, late);
    }
  }

  /** No notification is on its way: none is undecided, every sleeper is on the list, and no
      ticker is between finding a task and passing a notification on, or about to publish. */
  ghost predicate Calm(s: State) {
    NotifiedIds(s) == {} && (forall n :: !Undecided(s, n)) && forall t :: !Busy(s, t)
  }

  /** Busy tickers do not leave a sleeping one with tasks to do, but for the same window: while
      some ticker sleeps on the list and no notification is on its way, a task is left queued
      only if some ticker published the flag after a push that no search had seen. */
  lemma SleepsOnlyIfTooLate(ss: seq<State>, i: nat, t: nat)
    requires Run(Init, Next, ss) && i < |ss| && Settled(ss[i], t) && Calm(ss[i]) && ss[i].popped < ss[i].pushed
    ensures exists u :: SleptLast(ss[i], u) && PublishedTooLate(ss[i], u)
  {
    RunQueue(ss, i);
    var s := ss[i];
    var u :| SleptLast(s, u);
    forall v | v in s.tickers ensures s.tickers[v].seen < s.tickers[u].slept {
      assert CountsOk(s, v);
    }
    assert PublishedTooLate(s, u);
  }

  lemma Extend(ss: seq<State>, a: Step, s': State) returns (ss': seq<State>)
    requires Run(Init, Next, ss) && Enabled(ss[|ss| - 1], a) && s' == Do(ss[|ss| - 1], a)
    ensures Run(Init, Next, ss') && |ss'| > 0 && ss'[|ss'| - 1] == s'
  {
    assert Next(ss[|ss| - 1], s');
    ss' := ss + [s'];
  }

  const NONE := Log(map[], map[], {})

  lemma NotifyExtend(ss: seq<State>, s': State) returns (ss': seq<State>)
    requires Run(Init, Next, ss) && Enabled(ss[|ss| - 1], NotifyStep(0)) && ss[|ss| - 1].list.wakers == []
    requires ss[|ss| - 1].log == NONE && s' == NotifyGo(ss[|ss| - 1], 0) && s'.list == ss[|ss| - 1].list
    requires s'.calls == ss[|ss| - 1].calls
    ensures Run(Init, Next, ss') && |ss'| > 0 && ss'[|ss'| - 1] == s'
  {
    assert Stamp(map[], {}, |s'.calls|) == map[];
    ss' := Extend(ss, NotifyStep(0), s');
  }

  /** A search that finds nothing, followed by a push and its notification. */
  lemma PushInTheWindow() returns (ss: seq<State>)
    ensures Run(Init, Next, ss) && |ss| > 0
    ensures ss[|ss| - 1] ==
              State(map[0 := Ticker(SleepLock(7), 0, 7, 0, 0)], map[], List(0, [], 1), true, Nobody, 1, 0, [], NONE)
  {
    var s := State(map[], map[], List(0, [], 1), false, Nobody, 0, 0, [], NONE);
    ss := [s];
    s := s.(tickers := map[0 := Ticker(Rest, 0, 0, 0, 0)]);
    ss := Extend(ss, NewTicker(0), s);
    s := s.(tickers := map[0 := Ticker(Search, 0, 7, 0, 0)]);
    ss := Extend(ss, PollTick(0, 7), s);
    s := s.(tickers := map[0 := Ticker(SleepLock(7), 0, 7, 0, 0)]);
    ss := Extend(ss, TickerStep(0), s);
    ss := Extend(ss, PushTask(0), s.(pushed := 1, notifiers := map[0 := Cas]));
    ss := Suppressed(ss);
  }

  /** The notification finds nobody to wake. */
  lemma Suppressed(ss0: seq<State>) returns (ss: seq<State>)
    requires Run(Init, Next, ss0) && |ss0| > 0
    requires ss0[|ss0| - 1] == State(map[0 := Ticker(SleepLock(7), 0, 7, 0, 0)], map[0 := Cas], List(0, [], 1), false,
                                     Nobody, 1, 0, [], NONE)
    ensures Run(Init, Next, ss) && |ss| > 0
    ensures ss[|ss| - 1] == ss0[|ss0| - 1].(flag := true, notifiers := map[])
  {
    ss := ss0;
    var s := ss[|ss| - 1];
    s := s.(flag := true, notifiers := map[0 := Lock]);
    ss := NotifyExtend(ss, s);
    s := s.(mutex := NotifierOwner(0), notifiers := map[0 := Take]);
    ss := NotifyExtend(ss, s);
    s := s.(notifiers := map[0 := Release(None)]);
    ss := NotifyExtend(ss, s);
    ss := NotifyExtend(ss, s.(mutex := Nobody, notifiers := map[]));
  }

  /** That window is real: a run that ends with the only ticker asleep on a non-empty queue,
      no waker ever called and no notifier left to call one. */
  lemma TaskSleptThrough() returns (ss: seq<State>)
    ensures Run(Init, Next, ss) && |ss| > 0 && Quiescent(ss[|ss| - 1])
    ensures ss[|ss| - 1].popped < ss[|ss| - 1].pushed
    ensures ss[|ss| - 1].notifiers == map[] && ss[|ss| - 1].calls == [] && ss[|ss| - 1].log.woken == {}
  {
    ss := PushInTheWindow();
    var s := ss[|ss| - 1].(tickers := map[0 := Ticker(SleepUpdate(7), 0, 7, 0, 0)], mutex := TickerOwner(0));
    ss := Extend(ss, TickerStep(0), s);
    s := s.(tickers := map[0 := Ticker(SleepPublish, 1, 7, 0, 0)], list := List(1, [(1, 7)], 2),
            log := NONE.(registered := map[1 := 7]));
    ss := Extend(ss, TickerStep(0), s);
    s := s.(tickers := map[0 := Ticker(SleepUnlock, 1, 7, 0, 1)], flag := false);
    ss := Extend(ss, TickerStep(0), s);
    s := s.(tickers := map[0 := Ticker(Rest, 1, 7, 0, 1)], mutex := Nobody);
    ss := Extend(ss, TickerStep(0), s);
    assert s.list.wakers[0].0 in Ids(s.list.wakers);
    assert FastAsleep(s, 0);
  }
}
