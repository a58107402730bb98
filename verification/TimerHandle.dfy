/** The reactor's timer operations in place (src/io/reactor.rs) and the `Timer` handle over
    them (src/io/mod.rs): classes proved against operations on the abstract map, and what
    those operations guarantee over every run. */
module TimerHandle {
  import opened Options
  import opened Runs
  import opened TimerOps
  import opened Queues

  /** All timers, pending operations applied, and the next id to be drawn. */
  datatype World = World(timers: Timers, nextId: nat)

  datatype Handle = Handle(deadline: nat, key: nat, waker: Option<Waker>)

  function InsertTimer(w: World, when: nat, waker: Waker): World {
    World(w.timers[Key(when, w.nextId) := waker], w.nextId + 1)
  }

  function RemoveTimer(w: World, when: nat, id: nat): World {
    w.(timers := w.timers - {Key(when, id)})
  }

  /** `Timer::reset`. */
  function Reset(h: Handle, w: World, when: nat): (Handle, World) {
    if h.waker.Some? then
      var w1 := RemoveTimer(w, h.deadline, h.key);
      (h.(deadline := when, key := w1.nextId), InsertTimer(w1, when, h.waker.value))
    else (h.(deadline := when), w)
  }

  /** `Timer::poll_timeout` with the clock at `now` and a task woken by `cx`; the last
      component is false for Pending. */
  function Poll(h: Handle, w: World, now: nat, cx: Waker): (Handle, World, bool) {
    if h.deadline <= now then
      (h, if h.key > 0 then RemoveTimer(w, h.deadline, h.key) else w, true)
    else if h.waker.None? then
      (h.(key := w.nextId, waker := Some(cx)), InsertTimer(w, h.deadline, cx), false)
    else if h.waker.value != cx then
      var w1 := RemoveTimer(w, h.deadline, h.key);
      (h.(key := w1.nextId, waker := Some(cx)), InsertTimer(w1, h.deadline, cx), false)
    else (h, w, false)
  }

  /** Dropping the handle. */
  function Drop(h: Handle, w: World): World {
    if h.waker.Some? then RemoveTimer(w, h.deadline, h.key) else w
  }

  // ----- the reactor's side, in place -----

  class Reactor {
    const ops: Queue<Op>
    var timers: Timers
    var nextId: nat

    ghost predicate Valid()
      reads this, ops
    {
      ops.Valid() && ops.capacity == DEFAULT_TIME_OP_SIZE
    }

    ghost function Value(): World
      reads this, ops
    {
      World(Apply(timers, ops.queue), nextId)
    }

    constructor ()
      ensures Valid() && fresh(ops) && Value() == World(map[], 1)
    {
      ops := new Queue<Op>.Bound(DEFAULT_TIME_OP_SIZE);
      timers, nextId := map[], 1;
    }

    method ProcessTimerOps()
      requires Valid()
      modifies this`timers, ops
      ensures Valid() && ops.queue == [] && Value() == old(Value())
    {
      var n := 0;
      while n < ops.capacity
        invariant 0 <= n <= ops.capacity && Valid()
        invariant |ops.queue| <= ops.capacity - n
        invariant Apply(timers, ops.queue) == old(Apply(timers, ops.queue))
      {
        var op := ops.Pop();
        match op {
          case Some(Insert(key, waker)) => timers := timers[key := waker];
          case Some(Remove(key)) => timers := timers - {key};
          case None => return;
        }
        n := n + 1;
      }
    }

    /** Push, draining whenever the queue is full. */
    method PushOp(op: Op)
      requires Valid()
      modifies this`timers, ops
      ensures Valid() && nextId == old(nextId)
      ensures Value().timers == ApplyOp(old(Value().timers), op)
    {
      ghost var before := Value().timers;
      var q := ops.queue;
      var pushed := ops.Push(op);
      ApplyAppend(timers, q, op);
      while !pushed
        invariant Valid()
        invariant Value().timers == if pushed then ApplyOp(before, op) else before
        decreases !pushed, |ops.queue|
      {
        ProcessTimerOps();
        pushed := ops.Push(op);
        ApplyAppend(timers, [], op);
        assert [] + [op] == [op];
      }
    }

    method Insert(when: nat, waker: Waker) returns (id: nat)
      requires Valid()
      modifies this, ops
      ensures Valid() && id == old(nextId) && Value() == InsertTimer(old(Value()), when, waker)
    {
      id := nextId;
      nextId := nextId + 1;
      PushOp(TimerOps.Insert(Key(when, id), waker));
    }

    method Remove(when: nat, id: nat)
      requires Valid()
      modifies this`timers, ops
      ensures Valid() && Value() == RemoveTimer(old(Value()), when, id)
    {
      PushOp(TimerOps.Remove(Key(when, id)));
    }

    /** process_timers with the clock at `now`: the timers to wake and the time to the next
        one. Exactly those due strictly before `now` fire. */
    method ProcessTimers(now: nat) returns (ready: Timers, dur: Option<nat>)
      requires Valid()
      modifies this`timers, ops
      ensures Valid() && Value() == old(Value()).(timers := Later(old(Value()).timers, now))
      ensures ready == Ready(old(Value()).timers, now)
      ensures var m, m' := old(Value()).timers, Value().timers;
              && (forall k :: k in ready <==> k in m && k.when < now) && (forall k :: k in ready ==> ready[k] == m[k])
              && (forall k :: k in m' <==> k in m && k.when >= now) && (forall k :: k in m' ==> m'[k] == m[k])
      ensures dur.None? <==> old(Value()).timers == map[]
      ensures ready != map[] ==> dur == Some(0)
      ensures ready == map[] && dur.Some? ==> Earliest(Value().timers, Some(now + dur.value))
    {
      ProcessTimerOps();
      ready := map k | k in timers && k.when < now :: timers[k];
      timers := map k | k in timers && k.when >= now :: timers[k];
      if ready == map[] {
        if timers == map[] {
          dur := None;
        } else {
          FirstExists(timers);
          var first :| first in timers && forall k :: k in timers ==> first.when <= k.when;
          dur := Some(if first.when > now then first.when - now else 0);
        }
      } else {
        dur := Some(0);
      }
    }
  }

  lemma FirstExists(m: Timers)
    requires m != map[]
    ensures exists first :: first in m && forall k :: k in m ==> first.when <= k.when
    decreases |m|
  {
    var k :| k in m;
    var rest := m - {k};
    if rest != map[] {
      FirstExists(rest);
      var f :| f in rest && forall j :: j in rest ==> f.when <= j.when;
      assert forall j :: j in m ==> j == k || j in rest;
      var first := if k.when <= f.when then k else f;
      assert first in m && forall j :: j in m ==> first.when <= j.when;
    } else {
      assert forall j :: j in m && j != k ==> j in rest;
      assert k in m && forall j :: j in m ==> k.when <= j.when;
    }
  }

  // ----- the handle, in place -----

  class Timer {
    const reactor: Reactor
    var deadline: nat
    var key: nat
    var waker: Option<Waker>

    ghost predicate Valid()
      reads this, reactor, reactor.ops
    {
      reactor.Valid()
    }

    function Value(): Handle
      reads this
    {
      Handle(deadline, key, waker)
    }

    constructor (reactor: Reactor, deadline: nat)
      requires reactor.Valid()
      ensures Valid() && this.reactor == reactor && Value() == Handle(deadline, 0, None)
    {
      this.reactor, this.deadline, key, waker := reactor, deadline, 0, None;
    }

    method ResetTo(when: nat)
      requires Valid()
      modifies this, reactor, reactor.ops
      ensures Valid() && (Value(), reactor.Value()) == Reset(old(Value()), old(reactor.Value()), when)
    {
      if waker.Some? {
        reactor.Remove(deadline, key);
        key := reactor.Insert(when, waker.value);
      }
      deadline := when;
    }

    method PollTimeout(now: nat, cx: Waker) returns (ready: bool)
      requires Valid()
      modifies this, reactor, reactor.ops
      ensures Valid() && (Value(), reactor.Value(), ready) == Poll(old(Value()), old(reactor.Value()), now, cx)
    {
      if deadline <= now {
        if key > 0 {
          reactor.Remove(deadline, key);
        }
        return true;
      }
      match waker {
        case None =>
          key := reactor.Insert(deadline, cx);
          waker := Some(cx);
        case Some(w) =>
          if w != cx {
            reactor.Remove(deadline, key);
            key := reactor.Insert(deadline, cx);
            waker := Some(cx);
          }
      }
      return false;
    }

    method Discard()
      requires Valid()
      modifies this, reactor, reactor.ops
      ensures Valid() && reactor.Value() == Drop(old(Value()), old(reactor.Value()))
    {
      var w := waker;
      waker := None;
      if w.Some? {
        reactor.Remove(deadline, key);
      }
    }
  }

  // ----- every run of poll, reset, fire and drop -----

  /** Where a call on a handle is; the comment gives what runs next. `poll`: the task
      polling, if the call is one of poll_timeout. */
  datatype CallPc =
    | ReadClock(cx: Waker)                                            // compare the deadline with the clock
    | Expire                                                          // due: remove the entry of a key
    | Cancel(when: nat, waker: Waker, poll: Option<Waker>)            // remove the old entry
    | Draw(when: nat, waker: Waker, poll: Option<Waker>)              // insert_timer: draw an id
    | Push(when: nat, waker: Waker, poll: Option<Waker>, id: nat)     // insert_timer: push the operation
    | Elapsed                                                         // return Ready
    | Pending(cx: Waker)                                              // return Pending
    | Dropping                                                        // remove the entry of a dropped timer

  /** Any number of handles over one reactor, each with at most one call in progress.
      History: `issued` is every key id ever drawn for a handle, `tasks` the waker of its
      latest pending poll, `fired` every entry ever fired. */
  datatype State = State(clock: nat, world: World, handles: map<nat, Handle>, calls: map<nat, CallPc>,
                         issued: map<nat, set<nat>>, tasks: map<nat, Waker>, fired: Timers)

  datatype Step =
    | New(i: nat, deadline: nat)
    | PollBegin(i: nat, cx: Waker)
    | ResetBegin(i: nat, when: nat)
    | DropBegin(i: nat)
    | CallStep(i: nat)
    | Fire(now: nat, due: set<Key>) // process_timers, with the clock read at `now`, fires some of what was due
    | TimePasses(d: nat)

  predicate Init(s: State) {
    s == State(s.clock, World(map[], 1), map[], map[], map[], map[], map[])
  }

  predicate Enabled(s: State, a: Step) {
    match a
    case New(i, _) => i !in s.issued && i !in s.calls
    case PollBegin(i, _) => i in s.handles && i !in s.calls
    case ResetBegin(i, _) => i in s.handles && i !in s.calls
    case DropBegin(i) => i in s.handles && i !in s.calls
    case CallStep(i) => i in s.calls && i in s.handles && i in s.issued
    case Fire(now, due) => now <= s.clock && due <= s.world.timers.Keys && forall k :: k in due ==> k.when < now
    case TimePasses(_) => true
  }

  function SetCall(s: State, i: nat, pc: CallPc): State {
    s.(calls := s.calls[i := pc])
  }

  function EndCall(s: State, i: nat): State {
    s.(calls := s.calls - {i})
  }

  /** One step of the call in progress on handle `i`. */
  function Go(s: State, i: nat): State
    requires Enabled(s, CallStep(i))
  {
    var h := s.handles[i];
    match s.calls[i]
    case ReadClock(cx) =>
      SetCall(s, i, if h.deadline <= s.clock then if h.key > 0 then Expire else Elapsed
                    else if h.waker.None? then Draw(h.deadline, cx, Some(cx))
                    else if h.waker.value != cx then Cancel(h.deadline, cx, Some(cx))
                    else Pending(cx))
    case Expire => SetCall(s, i, Elapsed).(world := RemoveTimer(s.world, h.deadline, h.key))
    case Cancel(when, w, poll) => SetCall(s, i, Draw(when, w, poll)).(world := RemoveTimer(s.world, h.deadline, h.key))
    case Draw(when, w, poll) =>
      SetCall(s, i, Push(when, w, poll, s.world.nextId))
      .(world := s.world.(nextId := s.world.nextId + 1), issued := s.issued[i := s.issued[i] + {s.world.nextId}])
    case Push(when, w, poll, id) =>
      (if poll.Some? then SetCall(s, i, Pending(poll.value)) else EndCall(s, i))
      .(world := s.world.(timers := s.world.timers[Key(when, id) := w]),
          handles := s.handles[i := Handle(when, id, Some(w))])
    case Elapsed => EndCall(s, i)
    case Pending(cx) => EndCall(s, i).(tasks := s.tasks[i := cx])
    case Dropping => EndCall(s, i).(world := RemoveTimer(s.world, h.deadline, h.key), handles := s.handles - {i})
  }

  function Do(s: State, a: Step): State
    requires Enabled(s, a)
  {
    match a
    case New(i, deadline) =>
      s.(handles := s.handles[i := Handle(deadline, 0, None)], issued := s.issued[i := {}])
    case PollBegin(i, cx) => SetCall(s, i, ReadClock(cx))
    case ResetBegin(i, when) =>
      if s.handles[i].waker.Some? then SetCall(s, i, Cancel(when, s.handles[i].waker.value, None))
      else s.(handles := s.handles[i := s.handles[i].(deadline := when)])
    case DropBegin(i) => if s.handles[i].waker.Some? then SetCall(s, i, Dropping) else s.(handles := s.handles - {i})
    case CallStep(i) => Go(s, i)
    case Fire(_, due) =>
      s.(world := s.world.(timers := s.world.timers - due),
         fired := s.fired + map k | k in due && k in s.world.timers :: s.world.timers[k])
    case TimePasses(d) => s.(clock := s.clock + d)
  }

  ghost predicate Next(s: State, s': State) {
    exists a :: Enabled(s, a) && s' == Do(s, a)
  }

  // ----- a call alone -----

  /** Steps a call still has to take at most. */
  function Left(pc: CallPc): nat {
    match pc
    case ReadClock(_) => 5
    case Cancel(_, _, _) => 4
    case Draw(_, _, _) => 3
    case Push(_, _, _, _) => 2
    case Expire => 2
    case _ => 1
  }

  /** The state in which the call in progress on handle `i`, run alone, is about to return
      or has ended. */
  function Alone(s: State, i: nat): State
    requires i in s.calls ==> Enabled(s, CallStep(i))
    decreases if i in s.calls then Left(s.calls[i]) else 0
  {
    if i !in s.calls || s.calls[i].Elapsed? || s.calls[i].Pending? then s else Alone(Go(s, i), i)
  }

  /** Run without interruption, the steps of each call are the call in place. */
  lemma PollAlone(s: State, i: nat, cx: Waker)
    requires Enabled(s, PollBegin(i, cx)) && i in s.issued
    ensures var (h, w, ready) := Poll(s.handles[i], s.world, s.clock, cx);
            var s' := Alone(Do(s, PollBegin(i, cx)), i);
            && i in s'.handles && (s'.handles[i], s'.world) == (h, w)
            && i in s'.calls && s'.calls[i] == if ready then Elapsed else Pending(cx)
  {
    var s1 := Do(s, PollBegin(i, cx));
    var s2 := Go(s1, i);
    assert Alone(s1, i) == Alone(s2, i);
    if s2.calls[i].Expire? {
      assert Alone(s2, i) == Go(s2, i);
    } else if s2.calls[i].Draw? {
      DrawAlone(s2, i);
    } else if s2.calls[i].Cancel? {
      assert Alone(s2, i) == Alone(Go(s2, i), i);
      DrawAlone(Go(s2, i), i);
    }
  }

  lemma DrawAlone(s: State, i: nat)
    requires i in s.calls && Enabled(s, CallStep(i)) && s.calls[i].Draw?
    ensures var pc, s' := s.calls[i], Alone(s, i);
            && s'.handles == s.handles[i := Handle(pc.when, s.world.nextId, Some(pc.waker))]
            && s'.world == InsertTimer(s.world, pc.when, pc.waker)
            && s'.calls == if pc.poll.Some? then s.calls[i := Pending(pc.poll.value)] else s.calls - {i}
  {
    var s1 := Go(s, i);
    var s2 := Go(s1, i);
    assert Alone(s, i) == Alone(s1, i) == Alone(s2, i);
  }

  lemma ResetAlone(s: State, i: nat, when: nat)
    requires Enabled(s, ResetBegin(i, when)) && i in s.issued
    ensures var (h, w) := Reset(s.handles[i], s.world, when);
            var s' := Alone(Do(s, ResetBegin(i, when)), i);
            i in s'.handles && (s'.handles[i], s'.world) == (h, w) && i !in s'.calls
  {
    var s1 := Do(s, ResetBegin(i, when));
    if i in s1.calls {
      assert Alone(s1, i) == Alone(Go(s1, i), i);
      DrawAlone(Go(s1, i), i);
    }
  }

  lemma DropAlone(s: State, i: nat)
    requires Enabled(s, DropBegin(i)) && i in s.issued
    ensures var s' := Alone(Do(s, DropBegin(i)), i);
            i !in s'.handles && s'.world == Drop(s.handles[i], s.world) && i !in s'.calls
  {
    var s1 := Do(s, DropBegin(i));
    if i in s1.calls {
      assert Alone(s1, i) == Alone(Go(s1, i), i);
    }
  }

  // ----- invariant -----

  function KeyOf(h: Handle): Key {
    Key(h.deadline, h.key)
  }

  /** The call is between removing the old entry and inserting the new one. */
  predicate Inserting(s: State, i: nat) {
    i in s.calls && (s.calls[i].Draw? || s.calls[i].Push?)
  }

  /** A poll is about to return Ready: the entry has been removed. */
  predicate Done(s: State, i: nat) {
    i in s.calls && s.calls[i].Elapsed?
  }

  /** The entries whose id was issued to handle `i` are at most its current one. */
  predicate EntriesOk(s: State, i: nat)
    requires i in s.handles && i in s.issued
  {
    var h := s.handles[i];
    forall k :: k in s.world.timers && k.id in s.issued[i] ==>
      !Inserting(s, i) && !Done(s, i) && h.waker.Some? && k == KeyOf(h) && s.world.timers[k] == h.waker.value
  }

  /** The entry of handle `h` is in the map or has fired, with its current waker. */
  predicate Kept(s: State, h: Handle) {
    h.waker.Some? && (KeyOf(h) in s.world.timers || (KeyOf(h) in s.fired && s.fired[KeyOf(h)] == h.waker.value))
  }

  predicate KeptOk(s: State, i: nat)
    requires i in s.handles
  {
    var h := s.handles[i];
    if i !in s.calls then h.waker.Some? && s.clock < h.deadline ==> Kept(s, h)
    else match s.calls[i]
         case ReadClock(_) => h.waker.Some? && s.clock < h.deadline ==> Kept(s, h)
         case Pending(cx) => h.waker == Some(cx) && Kept(s, h)
         case Expire => h.deadline <= s.clock
         case Elapsed => h.deadline <= s.clock
         case _ => true
  }

  /** What a handle knows about its own ids, and what its call carries. */
  predicate HandleOk(s: State, i: nat)
    requires i in s.handles && i in s.issued
  {
    var h := s.handles[i];
    && (h.waker.Some? <==> h.key > 0)
    && (h.waker.Some? ==> h.key in s.issued[i])
    && (h.waker.Some? && !(i in s.calls && s.calls[i].Pending?) ==> i in s.tasks && s.tasks[i] == h.waker.value)
    && (i in s.calls ==>
          match s.calls[i]
          case Expire => h.waker.Some?
          case Cancel(_, w, poll) => h.waker.Some? && w == (if poll.Some? then poll.value else h.waker.value)
          case Draw(_, w, poll) => (poll.Some? ==> w == poll.value) && (poll.None? ==> h.waker == Some(w))
          case Push(_, w, poll, id) =>
            (poll.Some? ==> w == poll.value) && (poll.None? ==> h.waker == Some(w)) && id in s.issued[i]
          case Dropping => h.waker.Some?
          case _ => true)
  }

  /** The id a call has drawn and not pushed is in neither map. */
  ghost predicate PushOk(s: State, i: nat) {
    i in s.calls && s.calls[i].Push? ==>
      forall k :: k in s.world.timers || k in s.fired ==> k.id != s.calls[i].id
  }

  predicate IssuedOk(s: State, i: nat, j: nat)
    requires i in s.issued && j in s.issued
  {
    (forall id :: id in s.issued[i] ==> 0 < id < s.world.nextId) && (i != j ==> s.issued[i] !! s.issued[j])
  }

  predicate Silent(s: State, i: nat)
    requires i in s.issued
  {
    forall k :: k in s.world.timers ==> k.id !in s.issued[i]
  }

  ghost predicate KeysOk(s: State) {
    && s.world.nextId > 0
    && (forall k :: k in s.world.timers || k in s.fired ==> k.id < s.world.nextId)
    && (forall k :: k in s.fired ==> k !in s.world.timers && k.when < s.clock)
  }

  ghost predicate Inv(s: State) {
    && s.calls.Keys <= s.handles.Keys <= s.issued.Keys
    && KeysOk(s)
    && (forall i, j {:trigger IssuedOk(s, i, j)} :: i in s.issued && j in s.issued ==> IssuedOk(s, i, j))
    && (forall i {:trigger EntriesOk(s, i)} :: i in s.handles ==> EntriesOk(s, i))
    && (forall i {:trigger KeptOk(s, i)} :: i in s.handles ==> KeptOk(s, i))
    && (forall i {:trigger HandleOk(s, i)} :: i in s.handles ==> HandleOk(s, i))
    && (forall i {:trigger PushOk(s, i)} :: PushOk(s, i))
    && (forall i {:trigger Silent(s, i)} :: i in s.issued && i !in s.handles ==> Silent(s, i))
  }

  /** Nothing of handle `j` changes. */
  predicate Aside(s: State, s': State, j: nat) {
    && (j in s.handles <==> j in s'.handles) && (j in s.handles ==> s'.handles[j] == s.handles[j])
    && (j in s.calls <==> j in s'.calls) && (j in s.calls ==> s'.calls[j] == s.calls[j])
    && (j in s.issued <==> j in s'.issued) && (j in s.issued ==> s'.issued[j] == s.issued[j])
    && (j in s.tasks <==> j in s'.tasks) && (j in s.tasks ==> s'.tasks[j] == s.tasks[j])
  }

  /** What a call's step does to the map: it adds at most the entry `put` and takes away at
      most the entry `cut`. */
  predicate MapEffect(s: State, s': State, put: Option<Key>, cut: Option<Key>) {
    && s'.fired == s.fired && s'.clock == s.clock && s.world.nextId <= s'.world.nextId
    && (forall k :: k in s'.world.timers ==> k in s.world.timers || put == Some(k))
    && (forall k :: k in s.world.timers && k in s'.world.timers && put != Some(k) ==>
        s'.world.timers[k] == s.world.timers[k])
    && (forall k :: k in s.world.timers ==> k in s'.world.timers || cut == Some(k))
  }

  function PutBy(s: State, i: nat): Option<Key> {
    if i in s.calls && s.calls[i].Push? then Some(Key(s.calls[i].when, s.calls[i].id)) else None
  }

  function CutBy(s: State, i: nat): Option<Key> {
    if i in s.calls && i in s.handles && (s.calls[i].Expire? || s.calls[i].Cancel? || s.calls[i].Dropping?)
    then Some(KeyOf(s.handles[i]))
    else None
  }

  /** The step of a call on handle `i`: others are left alone, and at most a fresh id is issued. */
  ghost predicate CallEffect(s: State, s': State, i: nat) {
    && i in s'.issued
    && MapEffect(s, s', PutBy(s, i), CutBy(s, i))
    && (forall j {:trigger Aside(s, s', j)} :: j != i ==> Aside(s, s', j))
    && (forall id :: id in s'.issued[i] ==>
          (i in s.issued && id in s.issued[i]) || s.world.nextId == id < s'.world.nextId)
  }

  /** What the step establishes for the handle itself. */
  ghost predicate OwnOk(s: State, i: nat) {
    && i in s.issued && (i in s.calls ==> i in s.handles) && PushOk(s, i)
    && if i in s.handles then EntriesOk(s, i) && KeptOk(s, i) && HandleOk(s, i) else Silent(s, i)
  }

  lemma GoMap(s: State, i: nat)
    requires Enabled(s, CallStep(i))
    ensures MapEffect(s, Go(s, i), PutBy(s, i), CutBy(s, i))
  {
  }

  lemma GoAside(s: State, i: nat, j: nat)
    requires Enabled(s, CallStep(i)) && j != i
    ensures Aside(s, Go(s, i), j)
  {
  }

  lemma GoEffect(s: State, i: nat)
    requires Enabled(s, CallStep(i))
    ensures CallEffect(s, Go(s, i), i)
  {
    GoMap(s, i);
    forall j | j != i ensures Aside(s, Go(s, i), j) {
      GoAside(s, i, j);
    }
  }

  lemma GoKeys(s: State, i: nat)
    requires Inv(s) && Enabled(s, CallStep(i))
    ensures KeysOk(Go(s, i))
  {
    assert PushOk(s, i) && HandleOk(s, i) && IssuedOk(s, i, i);
    GoMap(s, i);
  }

  lemma GoEntries(s: State, i: nat)
    requires KeysOk(s) && Enabled(s, CallStep(i)) && EntriesOk(s, i) && HandleOk(s, i)
    ensures i in Go(s, i).issued
    ensures if i in Go(s, i).handles then EntriesOk(Go(s, i), i) else Silent(Go(s, i), i)
  {
    if s.calls[i].Push? {
      PushEntries(s, i);
    }
  }

  lemma PushEntries(s: State, i: nat)
    requires Enabled(s, CallStep(i)) && EntriesOk(s, i) && s.calls[i].Push?
    ensures i in Go(s, i).issued && i in Go(s, i).handles && EntriesOk(Go(s, i), i)
  {
  }

  lemma GoKept(s: State, i: nat)
    requires Enabled(s, CallStep(i)) && KeptOk(s, i) && HandleOk(s, i) && i in Go(s, i).handles
    ensures KeptOk(Go(s, i), i)
  {
  }

  lemma GoHandle(s: State, i: nat)
    requires KeysOk(s) && Enabled(s, CallStep(i)) && KeptOk(s, i) && HandleOk(s, i) && IssuedOk(s, i, i)
             && i in Go(s, i).handles
    ensures i in Go(s, i).issued && HandleOk(Go(s, i), i)
  {
  }

  lemma GoOwn(s: State, i: nat)
    requires Inv(s) && Enabled(s, CallStep(i))
    ensures OwnOk(Go(s, i), i)
  {
    assert EntriesOk(s, i) && KeptOk(s, i) && HandleOk(s, i) && IssuedOk(s, i, i);
    GoEntries(s, i);
    if i in Go(s, i).handles {
      GoKept(s, i);
      GoHandle(s, i);
    }
  }

  /** The other handles: the entry put in or taken out has an id of handle `i`. */
  lemma OtherOk(s: State, s': State, i: nat, j: nat)
    requires Inv(s) && CallEffect(s, s', i) && j != i && j in s.issued
    ensures OwnOk(s', j)
  {
    assert Aside(s, s', j) && PushOk(s, j);
    assert i in s.calls ==> HandleOk(s, i) && IssuedOk(s, i, j);
    if j in s.handles {
      assert EntriesOk(s, j) && KeptOk(s, j) && HandleOk(s, j);
    } else {
      assert Silent(s, j);
    }
  }

  lemma PairOk(s: State, s': State, i: nat, j: nat, l: nat)
    requires Inv(s) && CallEffect(s, s', i) && j in s'.issued && l in s'.issued
    ensures IssuedOk(s', j, l)
  {
    assert j != i ==> Aside(s, s', j);
    assert l != i ==> Aside(s, s', l);
    assert j in s.issued ==> IssuedOk(s, j, j);
    assert l in s.issued ==> IssuedOk(s, l, l);
    assert j in s.issued && l in s.issued ==> IssuedOk(s, j, l);
  }

  lemma EffectKeepsInv(s: State, s': State, i: nat)
    requires Inv(s) && CallEffect(s, s', i) && KeysOk(s') && OwnOk(s', i)
    ensures Inv(s')
  {
    forall j ensures Settled(s', j) {
      if j != i {
        assert Aside(s, s', j) && PushOk(s, j);
        if j in s.issued {
          OtherOk(s, s', i, j);
        }
      }
    }
    forall j, l | j in s'.issued && l in s'.issued ensures IssuedOk(s', j, l) {
      PairOk(s, s', i, j, l);
    }
    AllSettled(s');
  }

  /** Everything the invariant says about one handle. */
  ghost predicate Settled(s: State, j: nat) {
    if j in s.issued then OwnOk(s, j) else j !in s.calls && j !in s.handles
  }

  lemma AllSettled(s: State)
    requires KeysOk(s) && forall j {:trigger Settled(s, j)} :: Settled(s, j)
    requires forall i, j {:trigger IssuedOk(s, i, j)} :: i in s.issued && j in s.issued ==> IssuedOk(s, i, j)
    ensures Inv(s)
  {
    forall j ensures (j in s.calls ==> j in s.handles) && (j in s.handles ==> j in s.issued) && PushOk(s, j) {
      assert Settled(s, j);
    }
    forall j | j in s.handles ensures EntriesOk(s, j) && KeptOk(s, j) && HandleOk(s, j) {
      assert Settled(s, j);
    }
    forall j | j in s.issued && j !in s.handles ensures Silent(s, j) {
      assert Settled(s, j);
    }
  }

  /** Beginning a call, or making a handle. */
  lemma BeginEffect(s: State, a: Step, i: nat)
    requires s.calls.Keys <= s.handles.Keys <= s.issued.Keys && Enabled(s, a)
    requires a.New? || a.PollBegin? || a.ResetBegin? || a.DropBegin?
    requires i == a.i
    ensures CallEffect(s, Do(s, a), i)
  {
    BeginMap(s, a, i);
    forall j | j != i ensures Aside(s, Do(s, a), j) {
      BeginAside(s, a, j);
    }
  }

  lemma BeginMap(s: State, a: Step, i: nat)
    requires Enabled(s, a) && (a.New? || a.PollBegin? || a.ResetBegin? || a.DropBegin?) && i == a.i
    ensures MapEffect(s, Do(s, a), PutBy(s, i), CutBy(s, i))
    ensures KeysOk(s) ==> KeysOk(Do(s, a))
  {
  }

  lemma BeginAside(s: State, a: Step, j: nat)
    requires Enabled(s, a) && (a.New? || a.PollBegin? || a.ResetBegin? || a.DropBegin?) && j != a.i
    ensures Aside(s, Do(s, a), j)
  {
  }

  lemma BeginOwn(s: State, a: Step, i: nat)
    requires Inv(s) && Enabled(s, a)
    requires a.New? || a.PollBegin? || a.ResetBegin? || a.DropBegin?
    requires i == a.i
    ensures OwnOk(Do(s, a), i)
  {
    if i in s.handles {
      assert EntriesOk(s, i) && KeptOk(s, i) && HandleOk(s, i);
    }
  }

  lemma TimeKeepsInv(s: State, d: nat)
    requires Inv(s)
    ensures Inv(Do(s, TimePasses(d)))
  {
    var s' := Do(s, TimePasses(d));
    forall j, l | j in s'.issued && l in s'.issued ensures IssuedOk(s', j, l) {
      assert IssuedOk(s, j, l);
    }
    forall j ensures PushOk(s', j) {
      assert PushOk(s, j);
    }
    forall j | j in s'.handles ensures EntriesOk(s', j) && KeptOk(s', j) && HandleOk(s', j) {
      assert EntriesOk(s, j) && KeptOk(s, j) && HandleOk(s, j);
    }
    forall j | j in s'.issued && j !in s'.handles ensures Silent(s', j) {
      assert Silent(s, j);
    }
  }

  lemma FireKeepsInv(s: State, a: Step)
    requires Inv(s) && Enabled(s, a) && a.Fire?
    ensures Inv(Do(s, a))
  {
    var s' := Do(s, a);
    forall j, l | j in s'.issued && l in s'.issued ensures IssuedOk(s', j, l) {
      assert IssuedOk(s, j, l);
    }
    forall j ensures PushOk(s', j) {
      assert PushOk(s, j);
    }
    forall j | j in s'.handles ensures EntriesOk(s', j) && KeptOk(s', j) && HandleOk(s', j) {
      assert EntriesOk(s, j) && KeptOk(s, j) && HandleOk(s, j);
    }
    forall j | j in s'.issued && j !in s'.handles ensures Silent(s', j) {
      assert Silent(s, j);
    }
  }

  lemma StepKeepsInv(s: State, a: Step)
    requires Inv(s) && Enabled(s, a)
    ensures Inv(Do(s, a))
  {
    match a
    case CallStep(i) =>
      GoEffect(s, i);
      GoKeys(s, i);
      GoOwn(s, i);
      EffectKeepsInv(s, Go(s, i), i);
    case Fire(_, _) => FireKeepsInv(s, a);
    case TimePasses(d) => TimeKeepsInv(s, d);
    case _ =>
      BeginEffect(s, a, a.i);
      BeginMap(s, a, a.i);
      BeginOwn(s, a, a.i);
      EffectKeepsInv(s, Do(s, a), a.i);
  }

  lemma RunInv(ss: seq<State>, n: nat)
    requires Run(Init, Next, ss) && n < |ss|
    ensures Inv(ss[n])
  {
    forall s, s' | Inv(s) && Next(s, s') ensures Inv(s') {
      var a :| Enabled(s, a) && s' == Do(s, a);
      StepKeepsInv(s, a);
    }
    InductiveHolds(Init, Next, Inv, ss, n);
  }

  // ----- theorems over every run -----

  /** The entries of the map that belong to handle `i`. */
  function Entries(s: State, i: nat): Timers
    requires i in s.issued
  {
    map k | k in s.world.timers && k.id in s.issued[i] :: s.world.timers[k]
  }

  /** Whenever a poll is about to return Pending, in any run in which calls on any number of
      handles interleave step by step with firing, the map holds exactly one entry for that
      timer, at its current deadline and key, with a waker for the task that polled; or, the
      deadline having passed meanwhile, that entry has fired, with that task's waker. It is
      missing if and only if it has fired. */
  lemma PendingIsRegistered(ss: seq<State>, n: nat, i: nat)
    requires Run(Init, Next, ss) && n < |ss| && i in ss[n].calls && ss[n].calls[i].Pending?
    ensures i in ss[n].handles && i in ss[n].issued
    ensures var s, key, cx := ss[n], KeyOf(ss[n].handles[i]), ss[n].calls[i].cx;
            && (key !in s.fired ==> Entries(s, i) == map[key := cx])
            && (key in s.fired ==> Entries(s, i) == map[] && s.fired[key] == cx && key.when < s.clock)
  {
    RunInv(ss, n);
    assert EntriesOk(ss[n], i) && KeptOk(ss[n], i) && HandleOk(ss[n], i);
  }

  /** Whenever a poll is about to return Ready, the deadline has passed and the map holds no
      entry for that timer. */
  lemma ReadyLeavesNothing(ss: seq<State>, n: nat, i: nat)
    requires Run(Init, Next, ss) && n < |ss| && i in ss[n].calls && ss[n].calls[i].Elapsed?
    ensures i in ss[n].handles && i in ss[n].issued
    ensures ss[n].handles[i].deadline <= ss[n].clock && Entries(ss[n], i) == map[]
  {
    RunInv(ss, n);
    assert EntriesOk(ss[n], i) && KeptOk(ss[n], i);
  }

  /** At every moment of every run a live handle has at most that one entry. Between calls,
      while the deadline of a timer once polled lies ahead, it has it, and the entry wakes
      the task of its latest pending poll. */
  lemma AtMostOneEntry(ss: seq<State>, n: nat, i: nat)
    requires Run(Init, Next, ss) && n < |ss| && i in ss[n].handles
    ensures i in ss[n].issued
    ensures var h := ss[n].handles[i];
            && Entries(ss[n], i).Keys <= {KeyOf(h)}
            && (i !in ss[n].calls && h.waker.Some? && h.deadline > ss[n].clock ==>
                  i in ss[n].tasks && Entries(ss[n], i) == map[KeyOf(h) := ss[n].tasks[i]])
  {
    RunInv(ss, n);
    assert EntriesOk(ss[n], i) && KeptOk(ss[n], i) && HandleOk(ss[n], i);
  }

  /** Once a handle is dropped the map never again holds any key issued to it. */
  lemma DroppedStaysSilent(ss: seq<State>, n: nat, i: nat)
    requires Run(Init, Next, ss) && n < |ss| && i in ss[n].issued && i !in ss[n].handles
    ensures Entries(ss[n], i) == map[]
  {
    RunInv(ss, n);
    assert Silent(ss[n], i);
  }

  /** A step of a call on one handle leaves the entries of every other as they were. */
  lemma OthersUntouched(ss: seq<State>, n: nat, i: nat, j: nat)
    requires Run(Init, Next, ss) && n < |ss| && Enabled(ss[n], CallStep(i))
    requires i != j && j in ss[n].issued
    ensures j in Go(ss[n], i).issued && Entries(Go(ss[n], i), j) == Entries(ss[n], j)
  {
    RunInv(ss, n);
    GoMap(ss[n], i);
    GoAside(ss[n], i, j);
    assert HandleOk(ss[n], i) && IssuedOk(ss[n], i, j);
  }

  lemma Extend(ss: seq<State>, a: Step, s': State) returns (ss': seq<State>)
    requires Run(Init, Next, ss) && Enabled(ss[|ss| - 1], a) && s' == Do(ss[|ss| - 1], a)
    ensures Run(Init, Next, ss') && |ss'| > 0 && ss'[|ss'| - 1] == s'
  {
    assert Next(ss[|ss| - 1], s');
    ss' := ss + [s'];
  }

  lemma BeforeDraw(h: map<nat, Handle>) returns (ss: seq<State>)
    requires h == map[0 := Handle(5, 0, None)]
    ensures Run(Init, Next, ss) && |ss| > 0
    ensures ss[|ss| - 1] == State(0, World(map[], 1), h, map[0 := Draw(5, 7, Some(7))], map[0 := {}], map[], map[])
  {
    ss := [State(0, World(map[], 1), map[], map[], map[], map[], map[])];
    var s := State(0, World(map[], 1), h, map[], map[0 := {}], map[], map[]);
    ss := Extend(ss, New(0, 5), s);
    ss := Extend(ss, PollBegin(0, 7), s.(calls := map[0 := ReadClock(7)]));
    ss := Extend(ss, CallStep(0), s.(calls := map[0 := Draw(5, 7, Some(7))]));
  }

  /** A new timer due at 5, polled at 0: the entry is in and the poll about to return. */
  lemma PolledAtZero() returns (ss: seq<State>)
    ensures Run(Init, Next, ss) && |ss| > 0
    ensures ss[|ss| - 1] == State(0, World(map[Key(5, 1) := 7], 2), map[0 := Handle(5, 1, Some(7))],
                                  map[0 := Pending(7)], map[0 := {1}], map[], map[])
  {
    var h := map[0 := Handle(5, 0, None)];
    ss := BeforeDraw(h);
    var drawn: set<nat> := {1};
    assert {} + drawn == drawn;
    var s := State(0, World(map[], 2), h, map[0 := Push(5, 7, Some(7), 1)], map[0 := drawn], map[], map[]);
    ss := Extend(ss, CallStep(0), s);
    s := s.(world := World(map[Key(5, 1) := 7], 2), handles := map[0 := Handle(5, 1, Some(7))],
            calls := map[0 := Pending(7)]);
    ss := Extend(ss, CallStep(0), s);
  }

  /** The second case is real: a poll reads the clock before the deadline, its entry fires,
      and only then it returns Pending. */
  lemma FiredBeforePending() returns (ss: seq<State>)
    ensures Run(Init, Next, ss) && |ss| > 0
    ensures var s := ss[|ss| - 1];
            0 in s.calls && s.calls[0] == Pending(7) && 0 in s.issued && Entries(s, 0) == map[]
  {
    ss := PolledAtZero();
    var s, key := ss[|ss| - 1], Key(5, 1);
    ss := Extend(ss, TimePasses(6), s.(clock := 6));
    ss := Extend(ss, Fire(6, {key}), Do(s.(clock := 6), Fire(6, {key})));
  }
}
