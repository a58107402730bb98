/** The executor's ring in place, one call at a time (src/executor.rs, `Local`): a buffer of
    a power-of-two number of slots between two wrapping counters. */
module LocalQueue {
  import opened Options
  import opened Words
  import opened Queues

  type Task = nat

  class Local {
    const k: nat            // the capacity's exponent
    const buffer: array<Task>
    var head: nat
    var tail: nat

    ghost predicate Valid()
      reads this
    {
      k <= 63 && buffer.Length == Pow2(k) && head < WORD && tail < WORD && WrappingSub(tail, head) <= Pow2(k)
    }

    /** The values in the ring, front first. */
    function Contents(): (q: seq<Task>)
      requires Valid()
      reads this, buffer
      ensures |q| == WrappingSub(tail, head)
    {
      View(buffer[..], head, WrappingSub(tail, head), k)
    }

    /** `Local::new`: the capacity is `n` rounded up to a power of two. */
    constructor (n: nat)
      requires n <= Pow2(63)
      ensures Valid() && Contents() == [] && fresh(buffer)
      ensures n <= Pow2(k) && (k > 0 ==> Pow2(k - 1) < n)
    {
      var e := NextPowerOfTwo(n);
      if e > 63 {
        Pow2Grows(63, e - 1);
      }
      k := e;
      buffer := new Task[Pow2(e)];
      head, tail := 0, 0;
    }

    method Push(value: Task) returns (pushed: bool)
      requires Valid()
      modifies this`tail, buffer
      ensures Valid()
      ensures pushed <==> |old(Contents())| < Pow2(k)
      ensures Contents() == if pushed then old(Contents()) + [value] else old(Contents())
    {
      if WrappingSub(tail, head) < buffer.Length {
        ViewPush(buffer[..], head, tail, value, k);
        buffer[Slot(tail, k)] := value;
        tail := WrappingInc(tail);
        return true;
      }
      return false;
    }

    method Pop() returns (r: Option<Task>)
      requires Valid()
      modifies this`head
      ensures Valid()
      ensures old(Contents()) == [] ==> r == None && Contents() == []
      ensures old(Contents()) != [] ==> r == Some(old(Contents())[0]) && Contents() == old(Contents())[1..]
    {
      if head == tail {
        return None;
      }
      ViewPop(buffer[..], head, tail, k);
      r := Some(buffer[Slot(head, k)]);
      head := WrappingInc(head);
    }

    /** For the owner the clamp to the capacity never applies. */
    method Len() returns (n: nat)
      requires Valid()
      ensures n == |Contents()| <= Pow2(k)
    {
      return WrappingSub(tail, head);
    }

    /** `steal` from the global queue, whose length was read as `length`. */
    method Steal(length: nat, src: Queue<Task>)
      requires Valid() && src.Valid()
      modifies this`tail, buffer, src
      ensures Valid() && src.Valid()
      ensures (Contents(), src.queue) == Stolen(old(Contents()), old(src.queue), length, Pow2(k))
    {
      var count := (length + 1) / 2;
      if count > 0 {
        var len := Len();
        count := if count <= buffer.Length - len then count else buffer.Length - len;
        ghost var mine, theirs := Contents(), src.queue;
        var i := 0;
        while i < count
          invariant 0 <= i <= count && i <= |theirs| && Valid() && src.Valid()
          invariant Contents() == mine + theirs[..i] && src.queue == theirs[i..]
          invariant count <= Pow2(k) - |mine|
        {
          var moved := StealOne(src);
          if !moved {
            break;
          }
          i := i + 1;
        }
        assert i == if count <= |theirs| then count else |theirs|;
      } else {
        assert Contents() + src.queue[..0] == Contents();
      }
    }

    /** One round of `steal`; false: the source had nothing. */
    method StealOne(src: Queue<Task>) returns (moved: bool)
      requires Valid() && src.Valid() && |Contents()| < Pow2(k)
      modifies this`tail, buffer, src
      ensures Valid() && src.Valid() && moved == (old(src.queue) != [])
      ensures if moved then Contents() == old(Contents()) + [old(src.queue)[0]] && src.queue == old(src.queue)[1..]
              else Contents() == old(Contents()) && src.queue == []
    {
      var t := src.Pop();
      if t.None? {
        return false;
      }
      moved := Push(t.value);
    }
  }

  /** What `steal` moves: half the source's length rounded up, no more than fits, no more
      than there is. */
  function Stolen(mine: seq<Task>, theirs: seq<Task>, length: nat, capacity: nat): (seq<Task>, seq<Task>)
    requires |mine| <= capacity
  {
    var half := (length + 1) / 2;
    var fits := if half <= capacity - |mine| then half else capacity - |mine|;
    var n := if fits <= |theirs| then fits else |theirs|;
    (mine + theirs[..n], theirs[n..])
  }

  /** A steal loses nothing and keeps the order. It moves half the length read, rounded up, or
      less only if the ring is full or the source empty afterwards; so it moves something
      whenever the source was read as non-empty, still is, and there is room. */
  lemma StealConserves(mine: seq<Task>, theirs: seq<Task>, length: nat, capacity: nat)
    requires |mine| <= capacity
    ensures var (mine', theirs') := Stolen(mine, theirs, length, capacity);
            && mine' + theirs' == mine + theirs
            && mine <= mine' && |mine'| <= capacity && |mine'| - |mine| <= (length + 1) / 2
            && (2 * (|mine'| - |mine|) < length ==> |mine'| == capacity || theirs' == [])
            && (|mine'| == |mine| <==> length == 0 || theirs == [] || |mine| == capacity)
  {
    var (mine', theirs') := Stolen(mine, theirs, length, capacity);
    assert mine' + theirs' == mine + theirs;
  }

  /** The `n` values of a ring from counter `head` on. */
  function View(buf: seq<Task>, head: nat, n: nat, k: nat): (q: seq<Task>)
    requires |buf| == Pow2(k)
    ensures |q| == n
  {
    seq(n, i requires 0 <= i => buf[Slot((head + i) % WORD, k)])
  }

  lemma SlotAt(head: nat, i: nat, k: nat)
    requires k <= 63
    ensures Slot((head + i) % WORD, k) == (head + i) % Pow2(k)
  {
    SlotOfWrapped(head + i, k);
  }

  lemma ViewAt(buf: seq<Task>, head: nat, n: nat, k: nat, i: nat)
    requires k <= 63 && |buf| == Pow2(k) && i < n
    ensures View(buf, head, n, k)[i] == buf[(head + i) % Pow2(k)]
  {
    SlotAt(head, i, k);
  }

  lemma TailArithmetic(head: nat, tail: nat, c: nat)
    requires head < WORD && tail < WORD && WrappingSub(tail, head) < c && 2 * c <= WORD
    ensures (head + WrappingSub(tail, head)) % WORD == tail
    ensures WrappingSub(WrappingInc(tail), head) == WrappingSub(tail, head) + 1
  {
    SubCases(tail, head);
    AddCases(head, WrappingSub(tail, head));
    AddCases(tail, 1);
    SubCases(WrappingInc(tail), head);
  }

  lemma HeadArithmetic(head: nat, tail: nat)
    requires head < WORD && tail < WORD && head != tail
    ensures WrappingSub(tail, WrappingInc(head)) == WrappingSub(tail, head) - 1
  {
    SubCases(tail, head);
    AddCases(head, 1);
    SubCases(tail, WrappingInc(head));
  }

  lemma NextAt(head: nat, i: nat)
    requires head < WORD
    ensures (WrappingInc(head) + i) % WORD == (head + (i + 1)) % WORD
  {
    AddCases(head, 1);
    if head + 1 == WORD {
      var q, r := i / WORD, i % WORD;
      DivModUnique(WORD + i, WORD, q + 1, r);
    }
  }

  lemma ViewPush(buf: seq<Task>, head: nat, tail: nat, value: Task, k: nat)
    requires k <= 63 && |buf| == Pow2(k) && head < WORD && tail < WORD && WrappingSub(tail, head) < Pow2(k)
    ensures WrappingSub(WrappingInc(tail), head) == WrappingSub(tail, head) + 1
    ensures View(buf[Slot(tail, k) := value], head, WrappingSub(tail, head) + 1, k)
         == View(buf, head, WrappingSub(tail, head), k) + [value]
  {
    Pow2Fits(k);
    TailArithmetic(head, tail, Pow2(k));
    SlotAt(head, WrappingSub(tail, head), k);
    ViewExtend(buf, head, WrappingSub(tail, head), Slot(tail, k), value, k);
  }

  lemma ViewExtend(buf: seq<Task>, head: nat, n: nat, slot: nat, value: Task, k: nat)
    requires k <= 63 && |buf| == Pow2(k) && n < Pow2(k) && slot == (head + n) % Pow2(k)
    ensures View(buf[slot := value], head, n + 1, k) == View(buf, head, n, k) + [value]
  {
    var left, right := View(buf[slot := value], head, n + 1, k), View(buf, head, n, k) + [value];
    forall i: nat | i <= n ensures left[i] == right[i] {
      ViewExtendAt(buf, head, n, slot, value, k, i);
    }
  }

  lemma ViewExtendAt(buf: seq<Task>, head: nat, n: nat, slot: nat, value: Task, k: nat, i: nat)
    requires k <= 63 && |buf| == Pow2(k) && n < Pow2(k) && slot == (head + n) % Pow2(k) && i <= n
    ensures View(buf[slot := value], head, n + 1, k)[i] == if i < n then View(buf, head, n, k)[i] else value
  {
    ViewAt(buf[slot := value], head, n + 1, k, i);
    if i < n {
      ViewAt(buf, head, n, k, i);
      SlotsDistinct(head + i, head + n, Pow2(k));
    }
  }

  lemma ViewPop(buf: seq<Task>, head: nat, tail: nat, k: nat)
    requires k <= 63 && |buf| == Pow2(k) && head < WORD && tail < WORD && head != tail
    ensures WrappingSub(tail, WrappingInc(head)) == WrappingSub(tail, head) - 1
    ensures var n := WrappingSub(tail, head);
            && View(buf, WrappingInc(head), n - 1, k) == View(buf, head, n, k)[1..]
            && View(buf, head, n, k)[0] == buf[Slot(head, k)]
  {
    HeadArithmetic(head, tail);
    ViewDrop(buf, head, WrappingSub(tail, head), k);
  }

  lemma ViewDrop(buf: seq<Task>, head: nat, n: nat, k: nat)
    requires |buf| == Pow2(k) && head < WORD && n > 0
    ensures View(buf, WrappingInc(head), n - 1, k) == View(buf, head, n, k)[1..]
    ensures View(buf, head, n, k)[0] == buf[Slot(head, k)]
  {
    var left, right := View(buf, WrappingInc(head), n - 1, k), View(buf, head, n, k);
    forall i: nat | i < n - 1 ensures left[i] == right[i + 1] {
      NextAt(head, i);
    }
    AddCases(head, 0);
  }

  lemma {:induction false} Pow2Grows(a: nat, b: nat)
    requires a <= b
    ensures Pow2(a) <= Pow2(b)
    decreases b
  {
    if a == b {
    } else {
      Pow2Grows(a, b - 1);
    }
  }
}
