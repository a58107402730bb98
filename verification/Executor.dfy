/** Scheduling, searching and stealing (src/executor.rs): any fixed number of executor
    threads, each with a ring it alone pushes to, around one global queue. A ring operation
    is one step here, as the ring's refinement of a FIFO queue allows. `len` loads the head
    before the tail: of another's ring it answers at least the length the ring has when the
    tail is loaded; of a thread's own, whose tail only the thread moves, exactly the length
    it has when the head is. */
module Executor {
  import opened Options
  import opened Runs

  type Task = nat

  const CAPACITY: nat := 512

  datatype Source = Global | Shard(j: nat)

  /** What a call of `steal` returns to. */
  datatype After =
    | InSearch(r: Task)            // search has popped `r` from the global queue
    | InShards(rest: seq<nat>)     // search is going round the other shards
    | InTick(r: Task)              // the periodic steal of `tick`, `r` already found

  datatype Pc =
    | Idle                                        // running a task, or nothing
    | Overflow(t: Task)                           // schedule: the ring was full
    | OwnPop                                      // search: pop the own ring
    | GlobalPop                                   // search: pop the global queue
    | Shards(rest: seq<nat>)                      // search: the other shards, in this order
    | ReadLen(src: Source, back: After)           // length of the source
    | OwnLen(src: Source, want: nat, back: After) // steal: len of the own ring
    | StealPop(src: Source, k: nat, back: After)  // steal: take one more, `k` to go
    | StealPush(src: Source, k: nat, t: Task, back: After) // steal: push it
    | ShardPop(rest: seq<nat>)                    // pop what was stolen
    | Found(r: Task)                              // tick: bump the ticks
    | Return(r: Task)

  /** History of one thread: since its search began, the places it has looked at while they were
      `empty`, the threads it `took` a task from, and how many tasks its own ring has `lost` to
      others; how many tasks it has returned `since` it last read the length of the global
      queue, and whether its search has popped a task from there since; and how many tasks its
      latest steal is to move, by its `plan`, and has `moved`. */
  datatype Hunt = Hunt(empty: set<Source>, took: set<nat>, lost: nat, since: nat, popped: bool, plan: nat, moved: nat)

  /** `scheduled`, `returned` and `dropped` are history: tasks in the order it happened. */
  datatype State = State(global: seq<Task>, rings: seq<seq<Task>>, pcs: seq<Pc>, ticks: seq<nat>,
                         scheduled: seq<Task>, returned: seq<Task>, dropped: seq<Task>, hunts: seq<Hunt>)

  datatype Step =
    | ScheduleOutside(t: Task)        // from a thread without a ring
    | ScheduleInside(i: nat, t: Task) // from executor thread `i`
    | Tick(i: nat)                    // thread `i` polls `tick`
    | Move(i: nat, order: seq<nat>, length: nat) // `order`: of the shards; `length`: another's len

  predicate Init(s: State) {
    && s.global == [] && Sized(s) && s.hunts == seq(|s.rings|, _ => Hunt({}, {}, 0, 0, false, 0, 0))
    && (forall i :: 0 <= i < |s.rings| ==> s.rings[i] == [] && s.pcs[i] == Idle && s.ticks[i] == 0)
    && s.scheduled == [] && s.returned == [] && s.dropped == []
  }

  predicate Sized(s: State) {
    |s.rings| == |s.pcs| == |s.ticks| == |s.hunts|
  }

  /** Every other thread once. */
  predicate ValidOrder(s: State, i: nat, order: seq<nat>) {
    && (forall x :: x in order ==> x < |s.rings| && x != i)
    && (forall x: nat :: x < |s.rings| && x != i ==> x in order)
    && (forall k, l :: 0 <= k < l < |order| ==> order[k] != order[l])
  }

  /** What `len` may answer of another thread's ring. */
  predicate ValidLength(s: State, pc: Pc, length: nat) {
    && length <= CAPACITY
    && (pc.ReadLen? && pc.src.Shard? && pc.src.j < |s.rings| ==> |s.rings[pc.src.j]| <= length)
  }

  predicate Enabled(s: State, a: Step) {
    && Sized(s)
    && match a
       case ScheduleOutside(_) => true
       case ScheduleInside(i, _) => i < |s.pcs| && s.pcs[i] == Idle
       case Tick(i) => i < |s.pcs| && s.pcs[i] == Idle
       case Move(i, order, length) =>
         i < |s.pcs| && s.pcs[i] != Idle && ValidLength(s, s.pcs[i], length) && ValidOrder(s, i, order)
  }

  function SetPc(s: State, i: nat, pc: Pc): State
    requires i < |s.pcs|
  {
    s.(pcs := s.pcs[i := pc])
  }

  function SetRing(s: State, i: nat, ring: seq<Task>): State
    requires i < |s.rings|
  {
    s.(rings := s.rings[i := ring])
  }

  function Finish(back: After): Pc {
    match back
    case InSearch(r) => Found(r)
    case InShards(rest) => ShardPop(rest)
    case InTick(r) => Return(r)
  }

  /** Removing the front of a steal's source. */
  function TakeFrom(s: State, src: Source): (State, Option<Task>) {
    match src
    case Global => if s.global == [] then (s, None) else (s.(global := s.global[1..]), Some(s.global[0]))
    case Shard(j) =>
      if j < |s.rings| && s.rings[j] != [] then (SetRing(s, j, s.rings[j][1..]), Some(s.rings[j][0])) else (s, None)
  }

  function Go(s: State, i: nat, order: seq<nat>, length: nat): State
    requires Enabled(s, Move(i, order, length))
  {
    match s.pcs[i]
    case Overflow(t) => SetPc(s, i, Idle).(global := s.global + [t])
    case OwnPop =>
      var (s', r) := TakeFrom(s, Shard(i));
      if r.Some? then SetPc(s', i, Found(r.value)) else SetPc(s, i, GlobalPop)
    case GlobalPop =>
      var (s', r) := TakeFrom(s, Global);
      if r.Some? then SetPc(s', i, ReadLen(Global, InSearch(r.value))) else SetPc(s, i, Shards(order))
    case Shards(rest) =>
      if rest == [] then SetPc(s, i, Idle) else SetPc(s, i, ReadLen(Shard(rest[0]), InShards(rest[1..])))
    case ReadLen(src, back) =>
      var n := if src == Global then |s.global| else length;
      SetPc(s, i, if (n + 1) / 2 > 0 then OwnLen(src, (n + 1) / 2, back) else Finish(back))
    case OwnLen(src, want, back) =>
      var room := if |s.rings[i]| <= CAPACITY then CAPACITY - |s.rings[i]| else 0;
      SetPc(s, i, StealPop(src, if want <= room then want else room, back))
    case StealPop(src, k, back) =>
      if k == 0 then SetPc(s, i, Finish(back))
      else
        var (s', t) := TakeFrom(s, src);
        SetPc(s', i, if t.Some? then StealPush(src, k, t.value, back) else Finish(back))
    case StealPush(src, k, t, back) =>
      // the result of the push is discarded: a full ring drops the task
      var s' := SetPc(s, i, StealPop(src, if k > 0 then k - 1 else 0, back));
      if |s.rings[i]| < CAPACITY then SetRing(s', i, s.rings[i] + [t]) else s'.(dropped := s.dropped + [t])
    case ShardPop(rest) =>
      var (s', r) := TakeFrom(s, Shard(i));
      SetPc(s', i, if r.Some? then Found(r.value) else Shards(rest))
    case Found(r) =>
      SetPc(s, i, if s.ticks[i] % 64 == 0 then ReadLen(Global, InTick(r))
          else Return(r)).(ticks := s.ticks[i := s.ticks[i] + 1])
    case Return(r) => SetPc(s, i, Idle).(returned := s.returned + [r])
  }

  function Act(s: State, a: Step): State
    requires Enabled(s, a)
  {
    match a
    case ScheduleOutside(t) => s.(global := s.global + [t], scheduled := s.scheduled + [t])
    case ScheduleInside(i, t) =>
      var s' := s.(scheduled := s.scheduled + [t]);
      if |s.rings[i]| < CAPACITY then SetRing(s', i, s.rings[i] + [t]) else SetPc(s', i, Overflow(t))
    case Tick(i) => SetPc(s, i, OwnPop)
    case Move(i, order, length) => Go(s, i, order, length)
  }

  // ----- history -----

  predicate IsEmpty(s: State, src: Source) {
    match src
    case Global => s.global == []
    case Shard(j) => j < |s.rings| && s.rings[j] == []
  }

  /** The place a thread at `pc` looks at. */
  function LooksAt(pc: Pc, i: nat): Option<Source> {
    match pc
    case OwnPop => Some(Shard(i))
    case ShardPop(_) => Some(Shard(i))
    case GlobalPop => Some(Global)
    case ReadLen(src, _) => Some(src)
    case StealPop(src, k, _) => if k > 0 then Some(src) else None
    case _ => None
  }

  /** Thread `i` itself takes a step from `s` to `s'`. */
  function OwnHunt(h: Hunt, s: State, s': State, i: nat, length: nat): Hunt
    requires i < |s.pcs| && Sized(s) && Sized(s') && |s'.pcs| == |s.pcs|
  {
    var pc, place := s.pcs[i], LooksAt(s.pcs[i], i);
    var room := if |s.rings[i]| <= CAPACITY then CAPACITY - |s.rings[i]| else 0;
    h.(empty := if place.Some? && IsEmpty(s, place.value) then h.empty + {place.value} else h.empty,
       took := if pc.StealPop? && pc.src.Shard? && pc.src.j < |s.rings| && |s'.rings[pc.src.j]| < |s.rings[pc.src.j]|
               then h.took + {pc.src.j} else h.took,
       since := if pc.ReadLen? && pc.src == Global then 0
                else if |s'.returned| > |s.returned| then h.since + 1 else h.since,
       popped := if pc.ReadLen? && pc.src == Global then false
                 else h.popped || (pc.GlobalPop? && |s'.global| < |s.global|),
       plan := if pc.ReadLen? then Half(if pc.src == Global then |s.global| else length)
               else if pc.OwnLen? then Min(h.plan, room) else h.plan,
       moved := if pc.ReadLen? then 0
                else if pc.StealPush? && |s'.rings[i]| > |s.rings[i]| then h.moved + 1 else h.moved)
  }

  /** Half of a length, rounded up. */
  function Half(n: nat): nat {
    n / 2 + n % 2
  }

  function Min(a: nat, b: nat): nat {
    if a <= b then a else b
  }

  /** Keeps the history of thread `j` over one step. */
  function HuntAfter(s: State, a: Step, s': State, j: nat): Hunt
    requires Sized(s) && Sized(s') && |s'.pcs| == |s.pcs| && j < |s.pcs|
  {
    var h := s.hunts[j];
    match a
    case Tick(i) => if i == j then h.(empty := {}, took := {}, lost := 0) else h
    case Move(i, _, length) =>
      if i == j then OwnHunt(h, s, s', j, length)
      else if |s'.rings[j]| < |s.rings[j]| then h.(lost := h.lost + 1)
      else h
    case _ => h
  }

  function Record(s: State, a: Step, s': State): seq<Hunt>
    requires Sized(s) && Sized(s') && |s'.pcs| == |s.pcs|
  {
    seq(|s.pcs|, j requires 0 <= j < |s.pcs| => HuntAfter(s, a, s', j))
  }

  lemma ActKeepsSize(s: State, a: Step)
    requires Enabled(s, a)
    ensures Sized(Act(s, a)) && |Act(s, a).pcs| == |s.pcs| && Act(s, a).hunts == s.hunts
  {
  }

  function Do(s: State, a: Step): (s': State)
    requires Enabled(s, a)
    ensures Sized(s') && |s'.pcs| == |s.pcs|
  {
    ActKeepsSize(s, a);
    var s' := Act(s, a);
    s'.(hunts := Record(s, a, s'))
  }

  ghost predicate Next(s: State, s': State) {
    exists a :: Enabled(s, a) && s' == Do(s, a)
  }

  // ----- where the tasks are -----

  function One(t: Task, x: Task): nat {
    if t == x then 1 else 0
  }

  /** How often `x` occurs in `q`. */
  function In(q: seq<Task>, x: Task): nat {
    if q == [] then 0 else One(q[0], x) + In(q[1..], x)
  }

  lemma {:induction false} InAppend(q: seq<Task>, t: Task, x: Task)
    ensures In(q + [t], x) == In(q, x) + One(t, x)
  {
    if q == [] {
    } else {
      assert (q + [t])[1..] == q[1..] + [t];
      InAppend(q[1..], t, x);
    }
  }

  function Keeps(back: After, x: Task): nat {
    if back.InShards? then 0 else One(back.r, x)
  }

  /** How often task `x` is in the hand of a thread at `pc`. */
  function Hand(pc: Pc, x: Task): nat {
    match pc
    case Overflow(t) => One(t, x)
    case ReadLen(_, back) => Keeps(back, x)
    case OwnLen(_, _, back) => Keeps(back, x)
    case StealPop(_, _, back) => Keeps(back, x)
    case StealPush(_, _, t, back) => One(t, x) + Keeps(back, x)
    case Found(r) => One(r, x)
    case Return(r) => One(r, x)
    case _ => 0
  }

  function Sum(ns: seq<nat>): nat {
    if ns == [] then 0 else ns[0] + Sum(ns[1..])
  }

  function HandCounts(pcs: seq<Pc>, x: Task): seq<nat> {
    seq(|pcs|, i requires 0 <= i < |pcs| => Hand(pcs[i], x))
  }

  function RingCounts(rings: seq<seq<Task>>, x: Task): seq<nat> {
    seq(|rings|, i requires 0 <= i < |rings| => In(rings[i], x))
  }

  function InHands(pcs: seq<Pc>, x: Task): nat {
    Sum(HandCounts(pcs, x))
  }

  function InRings(rings: seq<seq<Task>>, x: Task): nat {
    Sum(RingCounts(rings, x))
  }

  /** Every place task `x` can be, apart from dropped. */
  function Accounted(s: State, x: Task): nat {
    In(s.global, x) + InRings(s.rings, x) + InHands(s.pcs, x) + In(s.returned, x)
  }

  lemma {:induction false} SumUpdate(ns: seq<nat>, i: nat, n: nat)
    requires i < |ns|
    ensures Sum(ns[i := n]) + ns[i] == Sum(ns) + n
  {
    if i > 0 {
      assert ns[i := n][1..] == ns[1..][i - 1 := n];
      SumUpdate(ns[1..], i - 1, n);
    } else {
      assert ns[0 := n][1..] == ns[1..];
    }
  }

  lemma {:induction false} SumZero(ns: seq<nat>)
    requires forall i :: 0 <= i < |ns| ==> ns[i] == 0
    ensures Sum(ns) == 0
  {
    if ns == [] {
    } else {
      SumZero(ns[1..]);
    }
  }

  lemma PcEffect(pcs: seq<Pc>, i: nat, pc: Pc, x: Task)
    requires i < |pcs|
    ensures InHands(pcs[i := pc], x) + Hand(pcs[i], x) == InHands(pcs, x) + Hand(pc, x)
  {
    assert HandCounts(pcs[i := pc], x) == HandCounts(pcs, x)[i := Hand(pc, x)];
    SumUpdate(HandCounts(pcs, x), i, Hand(pc, x));
  }

  lemma RingEffect(rings: seq<seq<Task>>, i: nat, ring: seq<Task>, x: Task)
    requires i < |rings|
    ensures InRings(rings[i := ring], x) + In(rings[i], x) == InRings(rings, x) + In(ring, x)
  {
    assert RingCounts(rings[i := ring], x) == RingCounts(rings, x)[i := In(ring, x)];
    SumUpdate(RingCounts(rings, x), i, In(ring, x));
  }

  lemma TakeEffect(s: State, src: Source, x: Task)
    ensures var (s', t) := TakeFrom(s, src);
            && s' == s.(global := s'.global, rings := s'.rings) && |s'.rings| == |s.rings|
            && (forall j :: 0 <= j < |s.rings| ==> |s'.rings[j]| <= |s.rings[j]|)
            && In(s.global, x) + InRings(s.rings, x) ==
               In(s'.global, x) + InRings(s'.rings, x) + (if t.Some? then One(t.value, x) else 0)
  {
    match src
    case Global =>
    case Shard(j) =>
      if j < |s.rings| && s.rings[j] != [] {
        RingEffect(s.rings, j, s.rings[j][1..], x);
      }
  }

  // ----- invariant -----

  /** A stealing thread has room for every push it has still to make. */
  predicate RoomOk(s: State, i: nat)
    requires i < |s.pcs| == |s.rings|
  {
    && |s.rings[i]| <= CAPACITY
    && (s.pcs[i].StealPop? ==> s.pcs[i].k + |s.rings[i]| <= CAPACITY)
    && (s.pcs[i].StealPush? ==> 0 < s.pcs[i].k && s.pcs[i].k + |s.rings[i]| <= CAPACITY)
  }

  predicate Balanced(s: State, x: Task) {
    In(s.scheduled, x) == Accounted(s, x)
  }

  ghost predicate Inv(s: State) {
    && Sized(s)
    && (forall i {:trigger RoomOk(s, i)} :: 0 <= i < |s.pcs| ==> RoomOk(s, i))
    && (forall x {:trigger Balanced(s, x)} :: Balanced(s, x))
    && s.dropped == []
  }

  /** A step of thread `i` changes no other's program counter or ticks, and lengthens no other's ring. */
  predicate LeavesOthers(s: State, s': State, i: nat) {
    && Sized(s) && Sized(s') && |s'.pcs| == |s.pcs|
    && forall j :: 0 <= j < |s.pcs| && j != i ==>
         s'.pcs[j] == s.pcs[j] && s'.ticks[j] == s.ticks[j] && |s'.rings[j]| <= |s.rings[j]|
  }

  lemma PopLeavesOthers(s: State, i: nat, order: seq<nat>, length: nat)
    requires Enabled(s, Move(i, order, length))
    requires s.pcs[i].OwnPop? || s.pcs[i].GlobalPop? || s.pcs[i].ShardPop? || s.pcs[i].StealPop?
    ensures LeavesOthers(s, Go(s, i, order, length), i)
  {
  }

  lemma MoveOthers(s: State, i: nat, order: seq<nat>, length: nat)
    requires Enabled(s, Move(i, order, length))
    ensures LeavesOthers(s, Go(s, i, order, length), i)
  {
    if s.pcs[i].OwnPop? || s.pcs[i].GlobalPop? || s.pcs[i].ShardPop? || s.pcs[i].StealPop? {
      PopLeavesOthers(s, i, order, length);
    }
  }

  lemma MoveOwnRoom(s: State, i: nat, order: seq<nat>, length: nat)
    requires Enabled(s, Move(i, order, length)) && RoomOk(s, i) && s.dropped == []
    ensures var s' := Go(s, i, order, length);
            Sized(s') && i < |s'.pcs| && RoomOk(s', i) && s'.dropped == []
  {
  }

  lemma MoveKeepsRoom(s: State, i: nat, order: seq<nat>, length: nat)
    requires Inv(s) && Enabled(s, Move(i, order, length))
    ensures var s' := Go(s, i, order, length);
            Sized(s') && s'.dropped == [] && forall j :: 0 <= j < |s'.pcs| ==> RoomOk(s', j)
  {
    assert RoomOk(s, i);
    MoveOthers(s, i, order, length);
    MoveOwnRoom(s, i, order, length);
    forall j | 0 <= j < |Go(s, i, order, length).pcs| ensures RoomOk(Go(s, i, order, length), j) {
      assert RoomOk(s, j);
    }
  }

  lemma PopKeepsBalance(s: State, i: nat, order: seq<nat>, length: nat, x: Task)
    requires Sized(s) && Enabled(s, Move(i, order, length)) && Balanced(s, x)
    requires s.pcs[i].OwnPop? || s.pcs[i].ShardPop? || s.pcs[i].GlobalPop?
    ensures Balanced(Go(s, i, order, length), x)
  {
    PcEffect(s.pcs, i, Go(s, i, order, length).pcs[i], x);
    TakeEffect(s, if s.pcs[i].GlobalPop? then Global else Shard(i), x);
  }

  /** What a steal's pop does, whichever its source. */
  lemma StealPops(s: State, i: nat, order: seq<nat>, length: nat)
    requires Enabled(s, Move(i, order, length)) && s.pcs[i].StealPop? && s.pcs[i].k > 0
    ensures var (s1, t) := TakeFrom(s, s.pcs[i].src);
            && s1.pcs == s.pcs && s1.returned == s.returned && s1.scheduled == s.scheduled
            && Go(s, i, order, length) == SetPc(s1, i, Go(s, i, order, length).pcs[i])
            && Go(s, i, order, length).pcs[i] ==
                 if t.Some? then StealPush(s.pcs[i].src, s.pcs[i].k, t.value, s.pcs[i].back) else Finish(s.pcs[i].back)
  {
  }

  lemma FinishKeeps(back: After, x: Task)
    ensures Hand(Finish(back), x) == Keeps(back, x)
  {
  }

  lemma StealKeepsBalance(s: State, i: nat, order: seq<nat>, length: nat, x: Task)
    requires Sized(s) && Enabled(s, Move(i, order, length)) && Balanced(s, x)
    requires s.pcs[i].StealPop?
    ensures Balanced(Go(s, i, order, length), x)
  {
    PcEffect(s.pcs, i, Go(s, i, order, length).pcs[i], x);
    FinishKeeps(s.pcs[i].back, x);
    if s.pcs[i].k > 0 {
      StealPops(s, i, order, length);
      TakeEffect(s, s.pcs[i].src, x);
    }
  }

  lemma PutKeepsBalance(s: State, i: nat, order: seq<nat>, length: nat, x: Task)
    requires Sized(s) && Enabled(s, Move(i, order, length)) && RoomOk(s, i) && Balanced(s, x)
    requires s.pcs[i].StealPush? || s.pcs[i].Overflow? || s.pcs[i].Return?
    ensures Balanced(Go(s, i, order, length), x)
  {
    PcEffect(s.pcs, i, Go(s, i, order, length).pcs[i], x);
    match s.pcs[i] {
      case StealPush(_, _, t, _) =>
        InAppend(s.rings[i], t, x);
        RingEffect(s.rings, i, s.rings[i] + [t], x);
      case Overflow(t) => InAppend(s.global, t, x);
      case Return(r) => InAppend(s.returned, r, x);
    }
  }

  lemma LocalKeepsBalance(s: State, i: nat, order: seq<nat>, length: nat, x: Task)
    requires Sized(s) && Enabled(s, Move(i, order, length)) && Balanced(s, x)
    requires s.pcs[i].Shards? || s.pcs[i].ReadLen? || s.pcs[i].OwnLen? || s.pcs[i].Found?
    ensures Balanced(Go(s, i, order, length), x)
  {
    PcEffect(s.pcs, i, Go(s, i, order, length).pcs[i], x);
  }

  lemma MoveKeepsBalance(s: State, i: nat, order: seq<nat>, length: nat, x: Task)
    requires Sized(s) && Enabled(s, Move(i, order, length)) && RoomOk(s, i) && Balanced(s, x)
    ensures Balanced(Go(s, i, order, length), x)
  {
    var pc := s.pcs[i];
    if pc.OwnPop? || pc.ShardPop? || pc.GlobalPop? {
      PopKeepsBalance(s, i, order, length, x);
    } else if pc.StealPop? {
      StealKeepsBalance(s, i, order, length, x);
    } else if pc.StealPush? || pc.Overflow? || pc.Return? {
      PutKeepsBalance(s, i, order, length, x);
    } else {
      LocalKeepsBalance(s, i, order, length, x);
    }
  }

  lemma ActKeepsInv(s: State, a: Step)
    requires Inv(s) && Enabled(s, a)
    ensures Inv(Act(s, a))
  {
    var s' := Act(s, a);
    if a.Move? {
      MoveKeepsRoom(s, a.i, a.order, a.length);
      forall x ensures Balanced(s', x) {
        assert Balanced(s, x) && RoomOk(s, a.i);
        MoveKeepsBalance(s, a.i, a.order, a.length, x);
      }
    } else {
      forall j | 0 <= j < |s'.pcs| ensures RoomOk(s', j) {
        assert RoomOk(s, j);
      }
      forall x ensures Balanced(s', x) {
        assert Balanced(s, x);
        if a.ScheduleOutside? {
          InAppend(s.global, a.t, x);
          InAppend(s.scheduled, a.t, x);
        } else if a.ScheduleInside? {
          InAppend(s.scheduled, a.t, x);
          InAppend(s.rings[a.i], a.t, x);
          RingEffect(s.rings, a.i, s.rings[a.i] + [a.t], x);
          PcEffect(s.pcs, a.i, Overflow(a.t), x);
        } else if a.Tick? {
          PcEffect(s.pcs, a.i, OwnPop, x);
        }
      }
    }
  }

  lemma StepKeepsInv(s: State, a: Step)
    requires Inv(s) && Enabled(s, a)
    ensures Inv(Do(s, a))
  {
    ActKeepsInv(s, a);
    ActKeepsSize(s, a);
    var s1, s' := Act(s, a), Do(s, a);
    forall i | 0 <= i < |s'.pcs| ensures RoomOk(s', i) {
      assert RoomOk(s1, i);
    }
    forall x ensures Balanced(s', x) {
      assert Balanced(s1, x);
    }
  }

  lemma InitInv(s: State)
    requires Init(s)
    ensures Inv(s)
  {
    forall x ensures Balanced(s, x) {
      SumZero(HandCounts(s.pcs, x));
      SumZero(RingCounts(s.rings, x));
    }
  }

  lemma RunInv(ss: seq<State>, n: nat)
    requires Run(Init, Next, ss) && n < |ss|
    ensures Inv(ss[n])
  {
    forall s | Init(s) ensures Inv(s) {
      InitInv(s);
    }
    forall s, s' | Inv(s) && Next(s, s') ensures Inv(s') {
      var a :| Enabled(s, a) && s' == Do(s, a);
      StepKeepsInv(s, a);
    }
    InductiveHolds(Init, Next, Inv, ss, n);
  }

  /** Tasks are conserved. Over every run, however threads schedule, search and steal, each
      task has been scheduled exactly as often as it is in the global queue, in the rings,
      in a thread's hand and returned; none is dropped. */
  lemma TasksConserved(ss: seq<State>, n: nat, x: Task)
    requires Run(Init, Next, ss) && n < |ss|
    ensures In(ss[n].scheduled, x) ==
              In(ss[n].global, x) + InRings(ss[n].rings, x) + InHands(ss[n].pcs, x) + In(ss[n].returned, x)
    ensures ss[n].dropped == []
  {
    RunInv(ss, n);
    assert Balanced(ss[n], x);
  }

  /** The push whose result `steal` discards always succeeds: the ring has room for it and
      for all the pushes still to come, whatever other threads take meanwhile. */
  lemma StolenTaskFits(ss: seq<State>, n: nat, i: nat)
    requires Run(Init, Next, ss) && n < |ss| && i < |ss[n].pcs| && ss[n].pcs[i].StealPush?
    ensures i < |ss[n].rings| && |ss[n].rings[i]| + ss[n].pcs[i].k <= CAPACITY && ss[n].pcs[i].k > 0
  {
    RunInv(ss, n);
    assert RoomOk(ss[n], i);
  }

  // ----- a search looks everywhere -----

  /** The search of thread `i` has seen its own ring and the global queue empty, and each other
      thread is still to come, being looked at, seen empty, or has had a task taken from it. */
  ghost predicate Covered(s: State, i: nat, rest: seq<nat>, now: set<nat>)
    requires Sized(s) && i < |s.pcs|
  {
    && {Shard(i), Global} <= s.hunts[i].empty
    && (forall x :: x in rest ==> x < |s.rings| && x != i)
    && forall j: nat :: j < |s.rings| && j != i ==>
         j in rest || j in now || Shard(j) in s.hunts[i].empty || j in s.hunts[i].took
  }

  /** What the search of thread `i` took is still in its ring, or was taken from it by others. */
  predicate Kept(s: State, i: nat)
    requires Sized(s) && i < |s.pcs|
  {
    s.hunts[i].took != {} ==> s.rings[i] != [] || s.hunts[i].lost > 0
  }

  ghost predicate SearchOk(s: State, i: nat)
    requires Sized(s) && i < |s.pcs|
  {
    match s.pcs[i]
    case OwnPop => s.hunts[i].took == {}
    case GlobalPop => s.hunts[i].took == {} && Shard(i) in s.hunts[i].empty && s.rings[i] == []
    case Shards(rest) => Covered(s, i, rest, {}) && s.rings[i] == [] && Kept(s, i)
    case ReadLen(src, InShards(rest)) =>
      src.Shard? && src.j < |s.rings| && src.j != i && Covered(s, i, rest, {src.j}) && s.rings[i] == [] && Kept(s, i)
    case OwnLen(src, want, InShards(rest)) =>
      && src.Shard? && src.j < |s.rings| && src.j != i && Covered(s, i, rest, {src.j}) && s.rings[i] == [] && Kept(s, i)
      && want > 0
    case StealPop(src, k, InShards(rest)) =>
      && src.Shard? && src.j < |s.rings| && src.j != i && Covered(s, i, rest, {src.j}) && Kept(s, i)
      && (k > 0 || src.j in s.hunts[i].took)
    case StealPush(src, k, _, InShards(rest)) =>
      src.Shard? && src.j < |s.rings| && src.j != i && Covered(s, i, rest, {}) && src.j in s.hunts[i].took
    case ShardPop(rest) => Covered(s, i, rest, {}) && Kept(s, i)
    case _ => true
  }

  /** Another thread's step takes at most from the ring, and says so. */
  lemma OthersKeepSearch(s: State, a: Step, i: nat)
    requires Sized(s) && Enabled(s, a) && i < |s.pcs| && SearchOk(s, i)
    requires (a.Move? || a.Tick? || a.ScheduleInside?) ==> a.i != i
    ensures i < |Do(s, a).pcs| && SearchOk(Do(s, a), i)
  {
    OthersFrame(s, a, i);
  }

  /** What another thread's step leaves of thread `i`. */
  lemma OthersFrame(s: State, a: Step, i: nat)
    requires Sized(s) && Enabled(s, a) && i < |s.pcs|
    requires (a.Move? || a.Tick? || a.ScheduleInside?) ==> a.i != i
    ensures var s' := Do(s, a);
            && |s'.pcs| == |s.pcs| && |s'.rings| == |s.rings| && s'.pcs[i] == s.pcs[i] && s'.ticks[i] == s.ticks[i]
            && |s'.rings[i]| <= |s.rings[i]| && s'.hunts[i] == s.hunts[i].(lost := s'.hunts[i].lost)
            && s'.hunts[i].lost >= s.hunts[i].lost && (|s'.rings[i]| < |s.rings[i]| ==> s'.hunts[i].lost > 0)
  {
    ActKeepsSize(s, a);
    if a.Move? {
      MoveOthers(s, a.i, a.order, a.length);
    }
  }

  /** The steps of a search that pop. */
  lemma PopKeepsSearch(s: State, i: nat, order: seq<nat>, length: nat)
    requires Sized(s) && Enabled(s, Move(i, order, length)) && SearchOk(s, i)
    requires s.pcs[i].OwnPop? || s.pcs[i].GlobalPop? || s.pcs[i].ShardPop?
    ensures i < |Do(s, Move(i, order, length)).pcs| && SearchOk(Do(s, Move(i, order, length)), i)
  {
    ActKeepsSize(s, Move(i, order, length));
  }

  lemma InTail(q: seq<nat>, j: nat)
    requires q != []
    ensures j in q <==> j == q[0] || j in q[1..]
  {
    assert q == [q[0]] + q[1..];
  }

  /** Going on to the next shard. */
  lemma ShardsKeepsSearch(s: State, i: nat, order: seq<nat>, length: nat)
    requires Sized(s) && Enabled(s, Move(i, order, length)) && SearchOk(s, i)
    requires s.pcs[i].Shards?
    ensures i < |Do(s, Move(i, order, length)).pcs| && SearchOk(Do(s, Move(i, order, length)), i)
  {
    ActKeepsSize(s, Move(i, order, length));
    var rest := s.pcs[i].rest;
    if rest != [] {
      assert rest[0] in rest;
      forall j: nat ensures j in rest <==> j == rest[0] || j in rest[1..] {
        InTail(rest, j);
      }
    }
  }

  /** The steps of a search's steal, up to its first pop. */
  lemma LenKeepsSearch(s: State, i: nat, order: seq<nat>, length: nat)
    requires Sized(s) && Enabled(s, Move(i, order, length)) && SearchOk(s, i)
    requires s.pcs[i].ReadLen? || s.pcs[i].OwnLen?
    ensures i < |Do(s, Move(i, order, length)).pcs| && SearchOk(Do(s, Move(i, order, length)), i)
  {
    ActKeepsSize(s, Move(i, order, length));
  }

  lemma StealKeepsSearch(s: State, i: nat, order: seq<nat>, length: nat)
    requires Sized(s) && Enabled(s, Move(i, order, length)) && SearchOk(s, i) && RoomOk(s, i)
    requires s.pcs[i].StealPop? || s.pcs[i].StealPush?
    ensures i < |Do(s, Move(i, order, length)).pcs| && SearchOk(Do(s, Move(i, order, length)), i)
  {
    ActKeepsSize(s, Move(i, order, length));
  }

  /** The other steps are not of a search, or end it with a task. */
  lemma OtherKeepsSearch(s: State, i: nat, order: seq<nat>, length: nat)
    requires Sized(s) && Enabled(s, Move(i, order, length)) && SearchOk(s, i)
    requires s.pcs[i].Overflow? || s.pcs[i].Found? || s.pcs[i].Return?
    ensures i < |Do(s, Move(i, order, length)).pcs| && SearchOk(Do(s, Move(i, order, length)), i)
  {
    ActKeepsSize(s, Move(i, order, length));
  }

  lemma OwnKeepsSearch(s: State, a: Step, i: nat)
    requires Sized(s) && Enabled(s, a) && i < |s.pcs| && SearchOk(s, i) && RoomOk(s, i)
    requires (a.Move? || a.Tick? || a.ScheduleInside?) && a.i == i
    ensures i < |Do(s, a).pcs| && SearchOk(Do(s, a), i)
  {
    ActKeepsSize(s, a);
    if a.Move? {
      var pc := s.pcs[i];
      if pc.OwnPop? || pc.GlobalPop? || pc.ShardPop? {
        PopKeepsSearch(s, i, a.order, a.length);
      } else if pc.Shards? {
        ShardsKeepsSearch(s, i, a.order, a.length);
      } else if pc.ReadLen? || pc.OwnLen? {
        LenKeepsSearch(s, i, a.order, a.length);
      } else if pc.StealPop? || pc.StealPush? {
        StealKeepsSearch(s, i, a.order, a.length);
      } else {
        OtherKeepsSearch(s, i, a.order, a.length);
      }
    }
  }

  // ----- the global queue is not forgotten, and steals move what they plan -----

  /** Tasks returned since the last multiple of 64 ticks. */
  function SinceTick(ticks: nat): nat {
    (ticks + 63) % 64
  }

  predicate SinceOk(s: State, i: nat)
    requires Sized(s) && i < |s.pcs|
  {
    var since, past := s.hunts[i].since, SinceTick(s.ticks[i]);
    match s.pcs[i]
    case Return(_) => since <= past
    case ReadLen(src, InTick(_)) => src == Global && since <= 64
    case OwnLen(_, _, InTick(_)) => since <= past
    case StealPop(_, _, InTick(_)) => since <= past
    case StealPush(_, _, _, InTick(_)) => since <= past
    case _ => since <= past + 1
  }

  /** Between popping a task from the global queue and reading its length a search does nothing. */
  predicate PoppedOk(s: State, i: nat)
    requires Sized(s) && i < |s.pcs|
  {
    s.hunts[i].popped ==> s.pcs[i].ReadLen? && s.pcs[i].src == Global && s.pcs[i].back.InSearch?
  }

  predicate PlanOk(s: State, i: nat)
    requires Sized(s) && i < |s.pcs|
  {
    var h := s.hunts[i];
    match s.pcs[i]
    case ReadLen(src, back) => src == Global || back.InShards?
    case OwnLen(src, want, back) => (src == Global || back.InShards?) && h.plan == want && h.moved == 0
    case StealPop(src, k, back) => (src == Global || back.InShards?) && h.moved + k == h.plan
    case StealPush(src, k, _, back) => (src == Global || back.InShards?) && h.moved + k == h.plan && k > 0
    case _ => true
  }

  lemma TickSince(ticks: nat)
    ensures ticks % 64 != 0 ==> SinceTick(ticks + 1) == SinceTick(ticks) + 1
    ensures SinceTick(ticks) <= 63
  {
  }

  lemma OwnKeepsSince(s: State, a: Step, i: nat)
    requires Sized(s) && Enabled(s, a) && i < |s.pcs| && SinceOk(s, i)
    requires (a.Move? || a.Tick? || a.ScheduleInside?) && a.i == i
    ensures i < |Do(s, a).pcs| && SinceOk(Do(s, a), i)
  {
    ActKeepsSize(s, a);
    TickSince(s.ticks[i]);
  }

  lemma HalfIs(n: nat)
    ensures Half(n) == (n + 1) / 2
  {
  }

  lemma OwnKeepsPlan(s: State, a: Step, i: nat)
    requires Sized(s) && Enabled(s, a) && i < |s.pcs| && PlanOk(s, i) && RoomOk(s, i)
    requires (a.Move? || a.Tick? || a.ScheduleInside?) && a.i == i
    ensures i < |Do(s, a).pcs| && PlanOk(Do(s, a), i)
  {
    ActKeepsSize(s, a);
    if a.Move? && s.pcs[i].ReadLen? {
      HalfIs(if s.pcs[i].src == Global then |s.global| else a.length);
    }
  }

  lemma OwnKeepsPopped(s: State, a: Step, i: nat)
    requires Sized(s) && Enabled(s, a) && i < |s.pcs| && PoppedOk(s, i)
    requires (a.Move? || a.Tick? || a.ScheduleInside?) && a.i == i
    ensures i < |Do(s, a).pcs| && PoppedOk(Do(s, a), i)
  {
    ActKeepsSize(s, a);
  }

  ghost predicate HuntOk(s: State, i: nat)
    requires Sized(s) && i < |s.pcs|
  {
    SearchOk(s, i) && SinceOk(s, i) && PlanOk(s, i) && PoppedOk(s, i)
  }

  ghost predicate InvHunts(s: State) {
    Inv(s) && forall i {:trigger HuntOk(s, i)} :: 0 <= i < |s.pcs| ==> HuntOk(s, i)
  }

  lemma StepKeepsHunts(s: State, a: Step)
    requires InvHunts(s) && Enabled(s, a)
    ensures InvHunts(Do(s, a))
  {
    StepKeepsInv(s, a);
    ActKeepsSize(s, a);
    forall i | 0 <= i < |Do(s, a).pcs| ensures HuntOk(Do(s, a), i) {
      assert HuntOk(s, i) && RoomOk(s, i);
      if (a.Move? || a.Tick? || a.ScheduleInside?) && a.i == i {
        OwnKeepsSearch(s, a, i);
        OwnKeepsSince(s, a, i);
        OwnKeepsPlan(s, a, i);
        OwnKeepsPopped(s, a, i);
      } else {
        OthersKeepSearch(s, a, i);
        OthersFrame(s, a, i);
      }
    }
  }

  lemma InitHunts(s: State)
    requires Init(s)
    ensures InvHunts(s)
  {
    InitInv(s);
  }

  lemma RunHunts(ss: seq<State>, n: nat)
    requires Run(Init, Next, ss) && n < |ss|
    ensures InvHunts(ss[n])
  {
    forall s | Init(s) ensures InvHunts(s) {
      InitHunts(s);
    }
    forall s, s' | InvHunts(s) && Next(s, s') ensures InvHunts(s') {
      var a :| Enabled(s, a) && s' == Do(s, a);
      StepKeepsHunts(s, a);
    }
    InductiveHolds(Init, Next, InvHunts, ss, n);
  }

  /** Thread `i` comes to rest with neither a task returned nor one put in the global queue. */
  predicate EmptyHanded(s: State, s': State, i: nat) {
    && i < |s.pcs| == |s'.pcs| && s.pcs[i] != Idle && s'.pcs[i] == Idle
    && s'.returned == s.returned && s'.global == s.global
  }

  /** Its search has seen its own ring and the global queue empty, and every other ring empty too,
      but for those whose tasks it took and then lost to other threads. */
  ghost predicate LookedEverywhere(h: Hunt, i: nat, threads: nat) {
    && {Shard(i), Global} <= h.empty
    && forall j: nat :: j < threads && j != i ==> Shard(j) in h.empty || (j in h.took && h.lost > 0)
  }

  ghost predicate SearchesAll(s: State, s': State) {
    forall i: nat :: EmptyHanded(s, s', i) ==> i < |s'.hunts| && LookedEverywhere(s'.hunts[i], i, |s'.rings|)
  }

  /** A search comes back empty-handed only after looking everywhere: over every run, its own
      ring, the global queue and every other ring was empty at a moment when it looked, unless
      other threads took from its ring what it had just stolen. */
  lemma SearchLooksEverywhere(ss: seq<State>, n: nat)
    requires Run(Init, Next, ss) && 0 < n < |ss|
    ensures SearchesAll(ss[n - 1], ss[n])
  {
    RunHunts(ss, n - 1);
    forall s, s' | InvHunts(s) && Next(s, s') ensures SearchesAll(s, s') {
      var a :| Enabled(s, a) && s' == Do(s, a);
      forall i: nat | EmptyHanded(s, s', i) ensures i < |s'.hunts| && LookedEverywhere(s'.hunts[i], i, |s'.rings|) {
        assert HuntOk(s, i);
        GivesUp(s, a, i);
      }
    }
    EveryStep(Init, Next, InvHunts, SearchesAll, ss, n);
  }

  lemma GivesUp(s: State, a: Step, i: nat)
    requires Sized(s) && Enabled(s, a) && i < |s.pcs| && SearchOk(s, i) && EmptyHanded(s, Do(s, a), i)
    ensures i < |Do(s, a).hunts| && LookedEverywhere(Do(s, a).hunts[i], i, |Do(s, a).rings|)
  {
    ActKeepsSize(s, a);
    if !(a.Move? && a.i == i) {
      if (a.Tick? || a.ScheduleInside?) && a.i == i {
        assert false;
      } else {
        OthersFrame(s, a, i);
      }
    } else {
      OnlyShardsGivesUp(s, i, a.order, a.length);
    }
  }

  lemma OnlyShardsGivesUp(s: State, i: nat, order: seq<nat>, length: nat)
    requires Sized(s) && Enabled(s, Move(i, order, length)) && EmptyHanded(s, Go(s, i, order, length), i)
    ensures s.pcs[i] == Shards([]) && Go(s, i, order, length).rings == s.rings
  {
  }

  // ----- a search that is robbed -----

  const FRESH := Hunt({}, {}, 0, 0, false, 0, 0)

  function Last(ss: seq<State>): State
    requires |ss| > 0
  {
    ss[|ss| - 1]
  }

  predicate RingLeft(s: State) {
    |s.rings| > 0 && s.rings[0] != []
  }

  /** Three threads; from state 2 on, in which none is searching, ring 0 is never empty. */
  ghost predicate Filled(ss: seq<State>) {
    && Run(Init, Next, ss) && |ss| > 2 && ss[2].pcs == [Idle, Idle, Idle]
    && forall k :: 0 <= k < |ss| ==> Sized(ss[k]) && |ss[k].pcs| == 3 && (k >= 2 ==> RingLeft(ss[k]))
  }

  lemma Extend(ss: seq<State>, a: Step) returns (ss': seq<State>)
    requires Filled(ss) && Enabled(Last(ss), a) && RingLeft(Act(Last(ss), a))
    ensures Filled(ss') && ss' == ss + [Do(Last(ss), a)]
  {
    ActKeepsSize(Last(ss), a);
    assert Next(Last(ss), Do(Last(ss), a));
    ss' := ss + [Do(Last(ss), a)];
  }

  /** The place thread `i` is looking at, if it is empty. */
  function Seen(s: State, i: nat): set<Source>
    requires i < |s.pcs|
  {
    var place := LooksAt(s.pcs[i], i);
    if place.Some? && IsEmpty(s, place.value) then {place.value} else {}
  }

  /** A move that changes nothing but where thread `i` is. */
  lemma Turn(ss: seq<State>, i: nat, order: seq<nat>, length: nat, pc: Pc) returns (ss': seq<State>)
    requires Filled(ss) && Enabled(Last(ss), Move(i, order, length))
    requires Go(Last(ss), i, order, length) == SetPc(Last(ss), i, pc)
    ensures Filled(ss') && |ss'| > |ss|
    ensures var s, s' := Last(ss), Last(ss');
            && s' == s.(pcs := s.pcs[i := pc], hunts := s.hunts[i := s'.hunts[i]])
            && s'.hunts[i].lost == s.hunts[i].lost
            && s'.hunts[i].empty == s.hunts[i].empty + Seen(s, i)
  {
    ss' := Extend(ss, Move(i, order, length));
    var s := Last(ss);
    assert Last(ss').hunts == s.hunts[i := OwnHunt(s.hunts[i], s, SetPc(s, i, pc), i, length)];
  }

  /** Thread `i` begins a search with its own ring and the global queue empty. */
  lemma LooksAround(ss: seq<State>, i: nat, order: seq<nat>) returns (ss': seq<State>)
    requires Filled(ss) && i < 3 && ValidOrder(Last(ss), i, order)
    requires var s := Last(ss); s.pcs[i] == Idle && s.rings[i] == [] && s.global == []
    ensures Filled(ss') && |ss'| > |ss|
    ensures var s, s' := Last(ss), Last(ss');
            && s' == s.(pcs := s.pcs[i := Shards(order)], hunts := s.hunts[i := s'.hunts[i]])
            && s'.hunts[i].empty == {Shard(i), Global} && s'.hunts[i].lost == 0
  {
    var s := Last(ss);
    ss' := Extend(ss, Tick(i));
    assert Last(ss').hunts == s.hunts[i := s.hunts[i].(empty := {}, took := {}, lost := 0)];
    ss' := Turn(ss', i, order, 0, GlobalPop);
    ss' := Turn(ss', i, order, 0, Shards(order));
  }

  /** It goes on to shard `j`, whose length it reads as `length`, at most 2 and not 0. */
  lemma GoesTo(ss: seq<State>, i: nat, j: nat, rest: seq<nat>, order: seq<nat>, length: nat)
      returns (ss': seq<State>)
    requires Filled(ss) && i < 3 && j < 3 && 0 < |Last(ss).rings[j]| <= length <= 2 && ValidOrder(Last(ss), i, order)
    requires var s := Last(ss); s.pcs[i] == Shards([j] + rest) && s.rings[i] == []
    ensures Filled(ss') && |ss'| > |ss|
    ensures var s, s' := Last(ss), Last(ss');
            && s' == s.(pcs := s.pcs[i := StealPop(Shard(j), 1, InShards(rest))], hunts := s.hunts[i := s'.hunts[i]])
            && s'.hunts[i].empty == s.hunts[i].empty && s'.hunts[i].lost == s.hunts[i].lost
  {
    var back := InShards(rest);
    assert ([j] + rest)[1..] == rest;
    ss' := Turn(ss, i, order, 0, ReadLen(Shard(j), back));
    ss' := Turn(ss', i, order, length, OwnLen(Shard(j), 1, back));
    ss' := Turn(ss', i, order, 0, StealPop(Shard(j), 1, back));
  }

  /** It takes the front of ring `j`. */
  lemma TakesOne(ss: seq<State>, i: nat, j: nat, rest: seq<nat>, order: seq<nat>) returns (ss': seq<State>)
    requires Filled(ss) && i < 3 && j < 3 && i != j && ValidOrder(Last(ss), i, order)
    requires var s := Last(ss); s.pcs[i] == StealPop(Shard(j), 1, InShards(rest)) && s.rings[j] != []
    requires j == 0 ==> |Last(ss).rings[j]| > 1
    ensures Filled(ss') && |ss'| > |ss|
    ensures var s, s' := Last(ss), Last(ss');
            && s' == s.(rings := s.rings[j := s.rings[j][1..]], hunts := s'.hunts,
                        pcs := s.pcs[i := StealPush(Shard(j), 1, s.rings[j][0], InShards(rest))])
            && forall k :: 0 <= k < 3 ==> s'.hunts[k].empty == s.hunts[k].empty
  {
    ss' := Extend(ss, Move(i, order, 0));
  }

  /** It puts it into its own ring and ends the steal. */
  lemma PutsOne(ss: seq<State>, i: nat, j: nat, t: Task, rest: seq<nat>, order: seq<nat>) returns (ss': seq<State>)
    requires Filled(ss) && 0 < i < 3 && ValidOrder(Last(ss), i, order)
    requires var s := Last(ss); s.pcs[i] == StealPush(Shard(j), 1, t, InShards(rest)) && s.rings[i] == []
    ensures Filled(ss') && |ss'| > |ss|
    ensures var s, s' := Last(ss), Last(ss');
            && s' == s.(rings := s.rings[i := [t]], pcs := s.pcs[i := ShardPop(rest)], hunts := s'.hunts)
            && forall k :: 0 <= k < 3 ==> s'.hunts[k].empty == s.hunts[k].empty
  {
    ss' := Extend(ss, Move(i, order, 0));
    assert Last(ss).rings[i] + [t] == [t];
    ss' := Turn(ss', i, order, 0, ShardPop(rest));
  }

  /** It finds its own ring empty, and then that of the last shard, `j`. */
  lemma FindsNothing(ss: seq<State>, i: nat, j: nat, order: seq<nat>) returns (ss': seq<State>)
    requires Filled(ss) && i < 3 && j < 3 && ValidOrder(Last(ss), i, order)
    requires var s := Last(ss); s.pcs[i] == ShardPop([j]) && s.rings[i] == [] && s.rings[j] == []
    ensures Filled(ss') && |ss'| > |ss|
    ensures var s, s' := Last(ss), Last(ss');
            && s' == s.(pcs := s.pcs[i := ShardPop([])], hunts := s.hunts[i := s'.hunts[i]])
            && s'.hunts[i].empty == s.hunts[i].empty + {Shard(i), Shard(j)}
  {
    ss' := Turn(ss, i, order, 0, Shards([j]));
    assert [j][1..] == [];
    ss' := Turn(ss', i, order, 0, ReadLen(Shard(j), InShards([])));
    ss' := Turn(ss', i, order, 0, ShardPop([]));
  }

  /** And gives up. */
  lemma GivesUpAt(ss: seq<State>, i: nat, order: seq<nat>) returns (ss': seq<State>)
    requires Filled(ss) && i < 3 && ValidOrder(Last(ss), i, order) && Last(ss).pcs[i] == Shards([])
    ensures Filled(ss') && |ss'| > |ss| && EmptyHanded(ss'[|ss'| - 2], ss'[|ss'| - 1], i)
    ensures Last(ss').hunts[i].empty == Last(ss).hunts[i].empty
  {
    ss' := Extend(ss, Move(i, order, 0));
    assert ss'[|ss'| - 2] == Last(ss);
  }

  /** Thread 0 puts 7 and 8 into its ring. */
  lemma RingFilled() returns (ss: seq<State>)
    ensures Filled(ss) && |ss| == 3
    ensures var s := ss[2]; s.rings == [[7, 8], [], []] && s.global == []
  {
    var s0 := State([], [[], [], []], [Idle, Idle, Idle], [0, 0, 0], [], [], [], [FRESH, FRESH, FRESH]);
    var s1, s2 := Do(s0, ScheduleInside(0, 7)), Do(Do(s0, ScheduleInside(0, 7)), ScheduleInside(0, 8));
    assert s0.rings[0] + [7] == [7] && [7] + [8] == [7, 8];
    assert s1.rings == [[7], [], []] && s2.rings == [[7, 8], [], []];
    assert Next(s0, s1) && Next(s1, s2);
    ss := [s0, s1, s2];
  }

  /** Thread 1 goes round the shards and comes to ring 0. */
  lemma FirstVisit() returns (ss: seq<State>)
    ensures Filled(ss)
    ensures var s := Last(ss);
            && s.rings == [[7, 8], [], []] && s.global == []
            && s.pcs == [Idle, StealPop(Shard(0), 1, InShards([2])), Idle] && s.hunts[1].empty == {Shard(1), Global}
  {
    ss := RingFilled();
    ss := LooksAround(ss, 1, [0, 2]);
    assert [0, 2] == [0] + [2];
    ss := GoesTo(ss, 1, 0, [2], [0, 2], 2);
  }

  /** It steals 7 from it. */
  lemma FirstSteal() returns (ss: seq<State>)
    ensures Filled(ss)
    ensures var s := Last(ss);
            && s.rings == [[8], [7], []] && s.global == [] && s.pcs == [Idle, ShardPop([2]), Idle]
            && s.hunts[1].empty == {Shard(1), Global}
  {
    ss := FirstVisit();
    ss := TakesOne(ss, 1, 0, [2], [0, 2]);
    ss := PutsOne(ss, 1, 0, 7, [2], [0, 2]);
  }

  /** Thread 2 steals it from ring 1. */
  lemma SecondSteal() returns (ss: seq<State>)
    ensures Filled(ss)
    ensures var s := Last(ss);
            && |s.rings| == 3 && s.rings[1] == [] && s.rings[2] == [] && |s.pcs| == 3 && s.pcs[1] == ShardPop([2])
            && s.hunts[1].empty == {Shard(1), Global}
  {
    ss := FirstSteal();
    ss := LooksAround(ss, 2, [1, 0]);
    assert [1, 0] == [1] + [0];
    ss := GoesTo(ss, 2, 1, [0], [1, 0], 1);
    ss := TakesOne(ss, 2, 1, [0], [1, 0]);
  }

  /** Thread 1 finds its own ring empty, and ring 2, the last, too. */
  lemma LastVisit() returns (ss: seq<State>)
    ensures Filled(ss)
    ensures var s := Last(ss);
            |s.pcs| == 3 && s.pcs[1] == Shards([]) && Shard(0) !in s.hunts[1].empty && ValidOrder(s, 1, [0, 2])
  {
    ss := SecondSteal();
    ss := FindsNothing(ss, 1, 2, [0, 2]);
    ss := Turn(ss, 1, [0, 2], 0, Shards([]));
  }

  /** A search may come back empty-handed although a ring it looked at was never empty: thread
      1 steals 7 from ring 0, which keeps 8 throughout, and thread 2 takes 7 from ring 1 before
      thread 1 pops it. */
  lemma SearchRobbed() returns (ss: seq<State>)
    ensures Run(Init, Next, ss) && |ss| > 3 && ss[2].pcs == [Idle, Idle, Idle]
    ensures EmptyHanded(ss[|ss| - 2], ss[|ss| - 1], 1)
    ensures forall k :: 2 <= k < |ss| ==> |ss[k].rings| == 3 && ss[k].rings[0] != []
    ensures |Last(ss).hunts| == 3 && Shard(0) !in Last(ss).hunts[1].empty
  {
    ss := LastVisit();
    ss := GivesUpAt(ss, 1, [0, 2]);
  }

  /** A thread reads the length of the global queue at least once in any 64 tasks it returns. */
  lemma GlobalNotForgotten(ss: seq<State>, n: nat, i: nat)
    requires Run(Init, Next, ss) && n < |ss| && i < |ss[n].pcs|
    ensures i < |ss[n].hunts| && ss[n].hunts[i].since <= 64
  {
    RunHunts(ss, n);
    assert HuntOk(ss[n], i);
    TickSince(ss[n].ticks[i]);
  }

  /** A search that pops a task from the global queue reads its length, to steal from it,
      before it returns the task. */
  lemma GlobalPopSteals(ss: seq<State>, n: nat, i: nat)
    requires Run(Init, Next, ss) && n < |ss| && i < |ss[n].pcs|
    requires ss[n].pcs[i] == Idle || ss[n].pcs[i].Return?
    ensures i < |ss[n].hunts| && !ss[n].hunts[i].popped
  {
    RunHunts(ss, n);
    assert HuntOk(ss[n], i);
  }

  predicate Stealing(pc: Pc) {
    pc.ReadLen? || pc.OwnLen? || pc.StealPop? || pc.StealPush?
  }

  /** A steal ends when it has moved all it planned, or has found its source empty. */
  ghost predicate StealsAll(s: State, s': State) {
    forall i: nat :: i < |s.pcs| == |s'.pcs| == |s'.hunts| && Stealing(s.pcs[i]) && !Stealing(s'.pcs[i]) ==>
      s'.hunts[i].moved == s'.hunts[i].plan || (s.pcs[i].StealPop? && IsEmpty(s, s.pcs[i].src))
  }

  /** What it plans is half the length it read, rounded up, or what fits into its ring. */
  lemma StealMovesHalf(ss: seq<State>, n: nat)
    requires Run(Init, Next, ss) && 0 < n < |ss|
    ensures StealsAll(ss[n - 1], ss[n])
  {
    RunHunts(ss, n - 1);
    forall s, s' | InvHunts(s) && Next(s, s') ensures StealsAll(s, s') {
      var a :| Enabled(s, a) && s' == Do(s, a);
      forall i: nat | i < |s.pcs| == |s'.pcs| == |s'.hunts| && Stealing(s.pcs[i]) && !Stealing(s'.pcs[i])
        ensures s'.hunts[i].moved == s'.hunts[i].plan || (s.pcs[i].StealPop? && IsEmpty(s, s.pcs[i].src))
      {
        assert HuntOk(s, i) && RoomOk(s, i);
        StealEnds(s, a, i);
      }
    }
    EveryStep(Init, Next, InvHunts, StealsAll, ss, n);
  }

  lemma StealEnds(s: State, a: Step, i: nat)
    requires Sized(s) && Enabled(s, a) && i < |s.pcs| && SearchOk(s, i) && PlanOk(s, i) && RoomOk(s, i)
    requires i < |Do(s, a).pcs| && i < |Do(s, a).hunts| && Stealing(s.pcs[i]) && !Stealing(Do(s, a).pcs[i])
    ensures var s' := Do(s, a);
            s'.hunts[i].moved == s'.hunts[i].plan || (s.pcs[i].StealPop? && IsEmpty(s, s.pcs[i].src))
  {
    ActKeepsSize(s, a);
    if a.Move? && a.i == i {
      if s.pcs[i].ReadLen? {
        HalfIs(if s.pcs[i].src == Global then |s.global| else a.length);
      }
    } else if !((a.Tick? || a.ScheduleInside?) && a.i == i) {
      OthersFrame(s, a, i);
    }
  }
}
