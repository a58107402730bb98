/** Timers and the operations queued in front of them (src/io/reactor.rs). */
module TimerOps {
  import opened Options

  type Waker = nat

  /** Timers are ordered by deadline, then by id. */
  datatype Key = Key(when: nat, id: nat)

  type Timers = map<Key, Waker>

  datatype Op = Insert(key: Key, waker: Waker) | Remove(key: Key)

  const DEFAULT_TIME_OP_SIZE: nat := 1000

  function ApplyOp(m: Timers, op: Op): Timers {
    match op
    case Insert(key, waker) => m[key := waker]
    case Remove(key) => m - {key}
  }

  function Apply(m: Timers, ops: seq<Op>): Timers
    decreases |ops|
  {
    if ops == [] then m else Apply(ApplyOp(m, ops[0]), ops[1..])
  }

  /** The timers that `split_off(&(now, 0))` leaves behind: those due strictly before `now`. */
  function Ready(m: Timers, now: nat): Timers {
    map k | k in m && k.when < now :: m[k]
  }

  function Later(m: Timers, now: nat): Timers {
    map k | k in m && k.when >= now :: m[k]
  }

  /** `first` is the deadline of the first timer, if there is one. */
  ghost predicate Earliest(m: Timers, first: Option<nat>) {
    match first
    case None => m == map[]
    case Some(w) => (exists k :: k in m && k.when == w) && forall k :: k in m ==> w <= k.when
  }

  lemma {:induction false} ApplyAppend(m: Timers, ops: seq<Op>, op: Op)
    ensures Apply(m, ops + [op]) == ApplyOp(Apply(m, ops), op)
    decreases |ops|
  {
    if ops == [] {
      assert (ops + [op])[1..] == [];
    } else {
      assert (ops + [op])[1..] == ops[1..] + [op];
      ApplyAppend(ApplyOp(m, ops[0]), ops[1..], op);
    }
  }

  /** Removing entries commutes with pending operations none of which inserts one of them. */
  lemma {:induction false} RemovalCommutes(m: Timers, ops: seq<Op>, gone: set<Key>)
    requires forall i :: 0 <= i < |ops| && ops[i].Insert? ==> ops[i].key !in gone
    ensures Apply(m - gone, ops) == Apply(m, ops) - gone
    decreases |ops|
  {
    if ops == [] {
    } else {
      assert ApplyOp(m - gone, ops[0]) == ApplyOp(m, ops[0]) - gone;
      RemovalCommutes(ApplyOp(m, ops[0]), ops[1..], gone);
    }
  }

  lemma LaterIsRemoval(m: Timers, now: nat)
    ensures Later(m, now) == m - Ready(m, now).Keys
  {
  }

  /** Where an entry of the map after all pending operations comes from. */
  lemma {:induction false} ApplyOrigin(m: Timers, ops: seq<Op>, key: Key)
    requires key in Apply(m, ops)
    ensures key in m || exists i :: 0 <= i < |ops| && ops[i].Insert? && ops[i].key == key
    decreases |ops|
  {
    if ops == [] {
    } else {
      ApplyOrigin(ApplyOp(m, ops[0]), ops[1..], key);
      if key !in m && !(ops[0].Insert? && ops[0].key == key) {
        var i :| 0 <= i < |ops| - 1 && ops[1..][i].Insert? && ops[1..][i].key == key;
        assert ops[i + 1].Insert? && ops[i + 1].key == key;
      }
    }
  }
}
