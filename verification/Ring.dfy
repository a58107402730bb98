/** The work-stealing ring `Local<T>` of src/executor.rs under every interleaving of one
    owner, which pushes, and any number of poppers, which read a slot and then claim it
    with a compare-and-swap. Counters are machine words; `claimed`, `pushed` and the
    unbounded positions kept beside the words are history. */
module Ring {
  import opened Options
  import opened Runs
  import opened Words

  /** A task's identity. */
  type Task = int

  /** Program counter of the owner. `at` is the number of claims when `head` was loaded;
      `stealing`: the push is one of `steal`'s. */
  datatype OwnerPc =
    | Free
    | PushHead(v: Task, stealing: bool)
    | PushTail(v: Task, stealing: bool, head: nat, at: nat)
    | PushWrite(v: Task, head: nat, tail: nat)
    | PushStore(v: Task, tail: nat)
    | Full(v: Task, stealing: bool, at: nat)   // the push returned its value
    | LenTail(head: nat, at: nat)

  datatype PopPc =
    | PopHead
    | PopTail(head: nat, at: nat)
    | PopRead(head: nat, at: nat)
    | PopCas(head: nat, at: nat, value: Task)
    | Popped(value: Task)
    | Empty(at: nat)

  /** `room`: pushes `steal` may still make after its one call of `len`. */
  datatype State = State(k: nat, head: nat, tail: nat, buf: seq<Task>, owner: OwnerPc, pops: map<nat, PopPc>,
                         pushed: seq<Task>, claimed: nat, popped: seq<Task>, room: nat)

  datatype Step =
    | PushBegin(v: Task, stealing: bool)
    | LenBegin
    | OwnerStep
    | PopBegin(p: nat)
    | PopStep(p: nat)
    | PopEnd(p: nat)

  predicate Init(s: State) {
    && s.k <= 63 && |s.buf| == Capacity(s)
    && s == State(s.k, 0, 0, s.buf, Free, map[], [], 0, [], 0)
  }

  /** The popper's position and the current one are exactly a positive multiple of 2^64
      claims apart, so its stale word looks current. */
  predicate WrappedAround(s: State, at: nat) {
    at < s.claimed && (s.claimed - at) % WORD == 0
  }

  /** A popper is assumed not to stall across exactly a multiple of 2^64 claims. */
  predicate Enabled(s: State, a: Step) {
    |s.buf| == Capacity(s) &&
    match a
    case PushBegin(_, stealing) => s.owner.Free? && (stealing ==> s.room > 0)
    case LenBegin => s.owner.Free?
    case OwnerStep => !s.owner.Free?
    case PopBegin(p) => p !in s.pops
    case PopStep(p) =>
      && p in s.pops && !s.pops[p].Popped? && !s.pops[p].Empty?
      && (s.pops[p].PopCas? ==> !WrappedAround(s, s.pops[p].at))
    case PopEnd(p) => p in s.pops && (s.pops[p].Popped? || s.pops[p].Empty?)
  }

  function Capacity(s: State): nat { Pow2(s.k) }

  /** One step of `push` or of the owner's `len`. */
  function Own(s: State): State
    requires Enabled(s, OwnerStep)
  {
    match s.owner
    case PushHead(v, st) => s.(owner := PushTail(v, st, s.head, s.claimed))
    case PushTail(v, st, h, at) =>
      if WrappingSub(s.tail, h) < |s.buf| then s.(owner := PushWrite(v, h, s.tail))
      else s.(owner := Full(v, st, at))
    case PushWrite(v, h, t) => s.(buf := s.buf[Slot(t, s.k) := v], owner := PushStore(v, t))
    case PushStore(v, t) => s.(tail := WrappingInc(t), pushed := s.pushed + [v], owner := Free)
    case Full(_, _, _) => s.(owner := Free)
    case LenTail(h, _) =>
      var length := WrappingSub(s.tail, h);
      s.(owner := Free, room := if length <= |s.buf| then |s.buf| - length else 0)
  }

  /** One step of `pop`. */
  function Pop(s: State, p: nat): State
    requires Enabled(s, PopStep(p))
  {
    match s.pops[p]
    case PopHead => s.(pops := s.pops[p := PopTail(s.head, s.claimed)])
    case PopTail(h, at) => s.(pops := s.pops[p := if h == s.tail then Empty(at) else PopRead(h, at)])
    case PopRead(h, at) => s.(pops := s.pops[p := PopCas(h, at, s.buf[Slot(h, s.k)])])
    case PopCas(h, _, value) =>
      if s.head == h then
        s.(head := WrappingInc(h), claimed := s.claimed + 1, popped := s.popped + [value],
            pops := s.pops[p := Popped(value)])
      else s.(pops := s.pops[p := PopTail(s.head, s.claimed)])
  }

  function Do(s: State, a: Step): State
    requires Enabled(s, a)
  {
    match a
    case PushBegin(v, stealing) => s.(owner := PushHead(v, stealing), room := if stealing then s.room - 1 else 0)
    case LenBegin => s.(owner := LenTail(s.head, s.claimed), room := 0)
    case OwnerStep => Own(s)
    case PopBegin(p) => s.(pops := s.pops[p := PopHead])
    case PopStep(p) => Pop(s, p)
    case PopEnd(p) => s.(pops := s.pops - {p})
  }

  ghost predicate Next(s: State, s': State) {
    exists a :: Enabled(s, a) && s' == Do(s, a)
  }

  // ----- invariant -----

  /** The queue the ring stands for. */
  function Queue(s: State): seq<Task>
    requires s.claimed <= |s.pushed|
  {
    s.pushed[s.claimed..]
  }

  predicate CountersOk(s: State) {
    && s.k <= 63 && |s.buf| == Capacity(s)
    && s.head == s.claimed % WORD && s.tail == |s.pushed| % WORD
    && s.claimed <= |s.pushed| <= s.claimed + Capacity(s)
    && s.popped == s.pushed[..s.claimed]
  }

  /** Slot `i % capacity` holds the `i`-th pushed value while it is in the queue. */
  predicate Stored(s: State, i: nat)
    requires |s.buf| == Capacity(s)
  {
    s.claimed <= i < |s.pushed| ==> s.buf[i % Capacity(s)] == s.pushed[i]
  }

  ghost predicate SlotsOk(s: State) {
    |s.buf| == Capacity(s) && forall i: nat {:trigger Stored(s, i)} :: Stored(s, i)
  }

  predicate OwnerOk(s: State)
    requires |s.buf| == Capacity(s)
  {
    match s.owner
    case Free => |s.pushed| - s.claimed + s.room <= Capacity(s)
    case PushHead(_, st) => if st then |s.pushed| - s.claimed + s.room < Capacity(s) else s.room == 0
    case PushTail(_, st, h, at) =>
      && at <= s.claimed && h == at % WORD && |s.pushed| <= at + Capacity(s)
      && (if st then |s.pushed| - at + s.room < Capacity(s) else s.room == 0)
    case PushWrite(_, h, t) => t == s.tail && |s.pushed| - s.claimed + s.room < Capacity(s)
    case PushStore(v, t) =>
      && t == s.tail && |s.pushed| - s.claimed + s.room < Capacity(s)
      && s.buf[|s.pushed| % Capacity(s)] == v
    case Full(_, st, at) => !st && s.room == 0 && at <= s.claimed && |s.pushed| == at + Capacity(s)
    case LenTail(h, at) => at <= s.claimed && h == at % WORD && |s.pushed| <= at + Capacity(s) && s.room == 0
  }

  predicate PopOk(s: State, p: nat)
    requires p in s.pops
  {
    match s.pops[p]
    case PopHead => true
    case PopTail(h, at) => at <= s.claimed && h == at % WORD
    case PopRead(h, at) => at <= s.claimed && h == at % WORD && at < |s.pushed|
    case PopCas(h, at, value) =>
      && at <= s.claimed && h == at % WORD && at < |s.pushed|
      && (at == s.claimed ==> value == s.pushed[at])
    case Popped(value) => value in s.popped
    case Empty(at) => at <= s.claimed
  }

  ghost predicate PopsOk(s: State) {
    forall p {:trigger PopOk(s, p)} :: p in s.pops ==> PopOk(s, p)
  }

  ghost predicate Inv(s: State) {
    CountersOk(s) && SlotsOk(s) && OwnerOk(s) && PopsOk(s)
  }

  lemma OwnerStepKeepsSlots(s: State)
    requires CountersOk(s) && SlotsOk(s) && OwnerOk(s) && Enabled(s, OwnerStep)
    ensures SlotsOk(Own(s))
  {
    var s' := Own(s);
    SlotOfWrapped(|s.pushed|, s.k);
    forall i: nat ensures Stored(s', i) {
      assert Stored(s, i);
      if s.owner.PushWrite? && s.claimed <= i < |s.pushed| {
        SlotsDistinct(i, |s.pushed|, Capacity(s));
      }
    }
  }

  lemma OwnerStepKeepsOwner(s: State)
    requires CountersOk(s) && OwnerOk(s) && Enabled(s, OwnerStep)
    ensures CountersOk(Own(s)) && OwnerOk(Own(s))
  {
    Pow2Fits(s.k);
    match s.owner {
      case PushTail(_, _, _, at) => SubOfWrapped(|s.pushed|, at);
      case LenTail(_, at) => SubOfWrapped(|s.pushed|, at);
      case PushWrite(_, _, _) => SlotOfWrapped(|s.pushed|, s.k);
      case PushStore(_, _) => IncOfWrapped(|s.pushed|);
      case _ =>
    }
  }

  lemma OwnerStepKeepsInv(s: State)
    requires Inv(s) && Enabled(s, OwnerStep)
    ensures Inv(Own(s))
  {
    OwnerStepKeepsSlots(s);
    OwnerStepKeepsOwner(s);
    forall p | p in Own(s).pops ensures PopOk(Own(s), p) {
      assert PopOk(s, p);
    }
  }

  lemma PopStepKeepsInv(s: State, p: nat)
    requires Inv(s) && Enabled(s, PopStep(p))
    ensures Inv(Pop(s, p))
    // a claim takes the value at the front of the queue
    ensures s.pops[p].PopCas? && Pop(s, p).claimed != s.claimed ==>
              s.claimed < |s.pushed| && Pop(s, p).pops[p] == Popped(s.pushed[s.claimed])
  {
    var s' := Pop(s, p);
    assert PopOk(s, p);
    if s.pops[p].PopRead? {
      var at := s.pops[p].at;
      SlotOfWrapped(at, s.k);
      assert Stored(s, at);
    }
    if s.pops[p].PopCas? && s.head == s.pops[p].head {
      SameWord(s.claimed, s.pops[p].at);
      IncOfWrapped(s.claimed);
      assert s'.popped == s.pushed[..s.claimed] + [s.pushed[s.claimed]] == s.pushed[..s'.claimed];
    }
    forall q | q in s'.pops ensures PopOk(s', q) {
      assert q in s.pops ==> PopOk(s, q);
    }
    forall i: nat ensures Stored(s', i) {
      assert Stored(s, i);
    }
  }

  /** Equal words stand for positions a multiple of 2^64 apart. */
  lemma SameWord(a: nat, b: nat)
    requires b <= a && a % WORD == b % WORD
    ensures (a - b) % WORD == 0
  {
    assert a - b == (a / WORD - b / WORD) * WORD;
    DivModUnique(a - b, WORD, a / WORD - b / WORD, 0);
  }

  lemma StepKeepsInv(s: State, a: Step)
    requires Inv(s) && Enabled(s, a)
    ensures Inv(Do(s, a))
  {
    match a {
      case OwnerStep => OwnerStepKeepsInv(s);
      case PopStep(p) => PopStepKeepsInv(s, p);
      case _ =>
        var s' := Do(s, a);
        forall q | q in s'.pops ensures PopOk(s', q) {
          assert q in s.pops ==> PopOk(s, q);
        }
        forall i: nat ensures Stored(s', i) {
          assert Stored(s, i);
        }
    }
  }

  lemma RunInv(ss: seq<State>, i: nat)
    requires Run(Init, Next, ss) && i < |ss|
    ensures Inv(ss[i])
  {
    forall s | Init(s) ensures Inv(s) {
      DivModUnique(0, WORD, 0, 0);
    }
    forall s, s' | Inv(s) && Next(s, s') ensures Inv(s') {
      var a :| Enabled(s, a) && s' == Do(s, a);
      StepKeepsInv(s, a);
    }
    InductiveHolds(Init, Next, Inv, ss, i);
  }

  // ----- theorems -----

  /** The value of the push in progress. */
  function Pushing(o: OwnerPc): Option<Task> {
    match o
    case PushHead(v, _) => Some(v)
    case PushTail(v, _, _, _) => Some(v)
    case PushWrite(v, _, _) => Some(v)
    case PushStore(v, _) => Some(v)
    case Full(v, _, _) => Some(v)
    case _ => None
  }

  /** Only popper `p` may come to hold a value. */
  ghost predicate OnlyPops(s: State, s': State, p: Option<nat>) {
    forall q :: q in s'.pops && s'.pops[q].Popped? && p != Some(q) ==> q in s.pops && s.pops[q] == s'.pops[q]
  }

  /** A step of the queue that answers no operation, or gives a push its value back. */
  ghost predicate QuietStep(s: State, s': State)
    requires s.claimed <= |s.pushed| && s'.claimed <= |s'.pushed|
  {
    && Queue(s') == Queue(s) && OnlyPops(s, s', None)
    && (Pushing(s.owner).Some? ==> s.owner.Full? || Pushing(s'.owner) == Pushing(s.owner))
  }

  /** A push ends: its value is at the back. */
  ghost predicate PushStep(s: State, s': State)
    requires s.claimed <= |s.pushed| && s'.claimed <= |s'.pushed|
  {
    && Pushing(s.owner).Some? && !s.owner.Full? && s'.owner.Free?
    && Queue(s') == Queue(s) + [Pushing(s.owner).value] && OnlyPops(s, s', None)
  }

  /** A pop ends: popper `p` has the value that was at the front. */
  ghost predicate ClaimStep(s: State, s': State, p: nat)
    requires s.claimed <= |s.pushed| && s'.claimed <= |s'.pushed|
  {
    && |Queue(s)| > 0 && Queue(s') == Queue(s)[1..] && s'.owner == s.owner
    && p in s.pops && !s.pops[p].Popped? && p in s'.pops && s'.pops[p] == Popped(Queue(s)[0])
    && OnlyPops(s, s', Some(p))
  }

  /** What one step does to the queue. */
  ghost predicate FifoStep(s: State, s': State)
    requires s.claimed <= |s.pushed| && s'.claimed <= |s'.pushed|
  {
    QuietStep(s, s') || PushStep(s, s') || exists p :: ClaimStep(s, s', p)
  }

  /** The ring refines a FIFO queue: over every run, each step is one of the queue's: a push
      keeps its value until it is at the back or given back, and a pop comes to hold a value
      only by taking it off the front; the values claimed are, in claim order, exactly the
      first values pushed; and a slot read that is followed by a successful compare-and-swap
      was not stale. */
  lemma RefinesFifo(ss: seq<State>, i: nat)
    requires Run(Init, Next, ss) && i < |ss|
    ensures ss[i].claimed <= |ss[i].pushed| && ss[i].popped == ss[i].pushed[..ss[i].claimed]
    ensures |Queue(ss[i])| <= Capacity(ss[i])
    ensures i > 0 ==> ss[i - 1].claimed <= |ss[i - 1].pushed| && FifoStep(ss[i - 1], ss[i])
  {
    RunInv(ss, i);
    if i > 0 {
      RunInv(ss, i - 1);
      var s, s' := ss[i - 1], ss[i];
      var a :| Enabled(s, a) && s' == Do(s, a);
      match a {
        case OwnerStep => OwnIsFifo(s);
        case PopStep(p) => PopIsFifo(s, p);
        case _ => assert QuietStep(s, s');
      }
    }
  }

  lemma OwnIsFifo(s: State)
    requires Inv(s) && Enabled(s, OwnerStep)
    ensures Own(s).claimed <= |Own(s).pushed| && FifoStep(s, Own(s))
  {
    assert if s.owner.PushStore? then PushStep(s, Own(s)) else QuietStep(s, Own(s));
  }

  lemma PopIsFifo(s: State, p: nat)
    requires Inv(s) && Enabled(s, PopStep(p))
    ensures Pop(s, p).claimed <= |Pop(s, p).pushed| && FifoStep(s, Pop(s, p))
  {
    var s' := Pop(s, p);
    PopStepKeepsInv(s, p);
    assert if s'.claimed == s.claimed then QuietStep(s, s') else ClaimStep(s, s', p);
  }

  /** `push` gives its value back only when the ring was full at the moment it loaded
      `head`, and never to `steal`: the room `steal` computes from one call of `len`
      bounds the free slots whatever the poppers do meanwhile. */
  lemma FullIsExact(ss: seq<State>, i: nat)
    requires Run(Init, Next, ss) && i < |ss| && ss[i].owner.Full?
    ensures !ss[i].owner.stealing
    ensures |ss[i].pushed| - ss[i].owner.at == Capacity(ss[i])
  {
    RunInv(ss, i);
  }

  /** `len`, called by the owner, answers how many values there were when it loaded `head`;
      `steal` takes the rest of the capacity for its room. */
  lemma LenIsExact(ss: seq<State>, i: nat)
    requires Run(Init, Next, ss) && 0 < i < |ss| && ss[i - 1].owner.LenTail? && ss[i].owner != ss[i - 1].owner
    ensures ss[i].owner.Free? && ss[i - 1].owner.at <= ss[i].claimed
    ensures ss[i].room == Capacity(ss[i]) - (|ss[i].pushed| - ss[i - 1].owner.at)
  {
    RunInv(ss, i - 1);
    var s := ss[i - 1];
    assert Next(s, ss[i]);
    var a :| Enabled(s, a) && ss[i] == Do(s, a);
    Pow2Fits(s.k);
    SubOfWrapped(|s.pushed|, s.owner.at);
  }

  /** A popper comes to report the ring empty, however it gets there, only at a moment when
      the queue is empty, unless it has stalled across 2^64 - capacity claims. */
  lemma EmptyIsExact(ss: seq<State>, i: nat, p: nat)
    requires Run(Init, Next, ss) && 0 < i < |ss|
    requires p in ss[i].pops && ss[i].pops[p].Empty? && !(p in ss[i - 1].pops && ss[i - 1].pops[p].Empty?)
    ensures ss[i].claimed == |ss[i].pushed| || ss[i].claimed - ss[i].pops[p].at >= WORD - Capacity(ss[i])
  {
    RunInv(ss, i - 1);
    var s := ss[i - 1];
    assert Next(s, ss[i]);
    var a :| Enabled(s, a) && ss[i] == Do(s, a);
    if a == PopStep(p) {
      PopFindsEmpty(s, p);
    }
  }

  lemma PopFindsEmpty(s: State, p: nat)
    requires Inv(s) && Enabled(s, PopStep(p)) && Pop(s, p).pops[p].Empty?
    ensures Pop(s, p).claimed == |s.pushed| || s.claimed - Pop(s, p).pops[p].at >= WORD - Capacity(s)
    ensures Pop(s, p).claimed == s.claimed && Pop(s, p).pushed == s.pushed
  {
    var at := s.pops[p].at;
    assert PopOk(s, p);
    SameWord(|s.pushed|, at);
    if |s.pushed| - at < WORD {
      SmallMultiple(|s.pushed| - at);
    }
  }

  lemma SmallMultiple(d: nat)
    requires d < WORD && d % WORD == 0
    ensures d == 0
  {
  }

  /** Without the stalling assumption: in any consistent state, a successful
      compare-and-swap claims the popper's own position if and only if the popper is not
      a positive multiple of 2^64 claims behind. */
  lemma ClaimIsCurrentIff(s: State, p: nat)
    requires Inv(s) && p in s.pops && s.pops[p].PopCas? && s.head == s.pops[p].head
    ensures s.pops[p].at == s.claimed <==> !WrappedAround(s, s.pops[p].at)
  {
    assert PopOk(s, p);
    SameWord(s.claimed, s.pops[p].at);
  }
}
