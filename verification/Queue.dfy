/** The locked FIFO queue of src/queue.rs, one call at a time. */
module Queues {
  import opened Options

  const USIZE_MAX: nat := 0xffff_ffff_ffff_ffff

  class Queue<T> {
    const capacity: nat
    var queue: seq<T>
    var length: nat

    ghost predicate Valid()
      reads this
    {
      length == |queue| <= capacity
    }

    constructor Bound(n: nat)
      ensures Valid() && queue == [] && capacity == n
    {
      capacity, queue, length := n, [], 0;
    }

    constructor Unbound()
      ensures Valid() && queue == [] && capacity == USIZE_MAX
    {
      capacity, queue, length := USIZE_MAX, [], 0;
    }

    method Pop() returns (r: Option<T>)
      requires Valid()
      modifies this
      ensures Valid()
      ensures old(queue) == [] ==> r == None && queue == []
      ensures old(queue) != [] ==> r == Some(old(queue)[0]) && queue == old(queue)[1..]
    {
      if length == 0 {
        return None;
      }
      length := length - 1;
      r := Some(queue[0]);
      queue := queue[1..];
    }

    /** False: the queue was full and is unchanged. */
    method Push(value: T) returns (pushed: bool)
      requires Valid()
      modifies this
      ensures Valid()
      ensures pushed <==> |old(queue)| < capacity
      ensures queue == if pushed then old(queue) + [value] else old(queue)
    {
      if capacity == length {
        return false;
      }
      length := length + 1;
      queue := queue + [value];
      return true;
    }

    method Len() returns (n: nat)
      requires Valid()
      ensures n == |queue|
    {
      return length;
    }
  }
}
