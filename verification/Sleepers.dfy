/** The list of sleeping tickers (src/executor.rs, `Sleepers`): its operations on values,
    and the class that performs them in place. */
module Sleepers {
  import opened Options

  /** A waker's identity: `will_wake` is equality. */
  type Waker = nat

  type Entry = (nat, Waker)

  datatype List = List(count: int, wakers: seq<Entry>, idGen: nat)

  /** The first entry at or after `from` with this id, or the length. */
  function FirstAt(ws: seq<Entry>, id: nat, from: nat := 0): (i: nat)
    requires from <= |ws|
    ensures from <= i <= |ws| && (i < |ws| ==> ws[i].0 == id)
    ensures forall j :: from <= j < i ==> ws[j].0 != id
    decreases |ws| - from
  {
    if from == |ws| || ws[from].0 == id then from else FirstAt(ws, id, from + 1)
  }

  /** The last entry before `to` with this id, or the length. */
  function LastBefore(ws: seq<Entry>, id: nat, to: nat): (i: nat)
    requires to <= |ws|
    ensures i == |ws| || (i < to && ws[i].0 == id)
    ensures forall j :: (if i == |ws| then 0 else i + 1) <= j < to ==> ws[j].0 != id
  {
    if to == 0 then |ws| else if ws[to - 1].0 == id then to - 1 else LastBefore(ws, id, to - 1)
  }

  predicate IsNotified(l: List) {
    l.count == 0 || l.count > |l.wakers|
  }

  /** `Sleepers::notify`: the entry whose waker is handed out, if any. */
  function Notify(l: List): (List, Option<Entry>) {
    if |l.wakers| == l.count && |l.wakers| > 0 then
      (l.(wakers := l.wakers[..|l.wakers| - 1]), Some(l.wakers[|l.wakers| - 1]))
    else (l, None)
  }

  function Update(l: List, id: nat, w: Waker): (List, bool) {
    var i := FirstAt(l.wakers, id);
    if i < |l.wakers| then (l.(wakers := l.wakers[i := (id, w)]), false)
    else (l.(wakers := l.wakers + [(id, w)]), true)
  }

  function Remove(l: List, id: nat): List {
    var i := LastBefore(l.wakers, id, |l.wakers|);
    l.(count := l.count - 1, wakers := if i < |l.wakers| then l.wakers[..i] + l.wakers[i + 1..] else l.wakers)
  }

  function Insert(l: List, w: Waker): (List, nat) {
    (List(l.count + 1, l.wakers + [(l.idGen, w)], l.idGen + 1), l.idGen)
  }

  /** The list in place, behind the executor's mutex. */
  class SleeperList {
    var count: int
    var wakers: seq<Entry>
    var idGen: nat

    function Value(): List
      reads this
    {
      List(count, wakers, idGen)
    }

    constructor ()
      ensures Value() == List(0, [], 1)
    {
      count, wakers, idGen := 0, [], 1;
    }

    method NotifyOne() returns (waker: Option<Waker>)
      modifies this
      ensures var (l, e) := Notify(old(Value())); Value() == l && waker == if e.Some? then Some(e.value.1) else None
    {
      waker := None;
      if |wakers| == count {
        if |wakers| > 0 {
          waker := Some(wakers[|wakers| - 1].1);
          wakers := wakers[..|wakers| - 1];
        }
      }
    }

    method UpdateEntry(id: nat, waker: Waker) returns (inserted: bool)
      modifies this
      ensures (Value(), inserted) == Update(old(Value()), id, waker)
    {
      var i := 0;
      while i < |wakers|
        invariant 0 <= i <= |wakers| && Value() == old(Value())
        invariant FirstAt(wakers, id) == FirstAt(wakers, id, i)
      {
        if wakers[i].0 == id {
          if wakers[i].1 != waker {
            wakers := wakers[i := (wakers[i].0, waker)];
          }
          assert wakers == old(wakers)[i := (id, waker)];
          return false;
        }
        i := i + 1;
      }
      wakers := wakers + [(id, waker)];
      return true;
    }

    method RemoveEntry(id: nat)
      modifies this
      ensures Value() == Remove(old(Value()), id)
    {
      count := count - 1;
      var i := |wakers|;
      while i > 0
        invariant 0 <= i <= |wakers| && Value() == old(Value()).(count := old(count) - 1)
        invariant LastBefore(wakers, id, |wakers|) == LastBefore(wakers, id, i)
      {
        i := i - 1;
        if wakers[i].0 == id {
          wakers := wakers[..i] + wakers[i + 1..];
          return;
        }
      }
    }

    method InsertEntry(waker: Waker) returns (id: nat)
      modifies this
      ensures (Value(), id) == Insert(old(Value()), waker)
    {
      id := idGen;
      idGen := idGen + 1;
      count := count + 1;
      wakers := wakers + [(id, waker)];
    }
  }

  // ----- the ids on the list -----

  function Ids(ws: seq<Entry>): set<nat> {
    set i | 0 <= i < |ws| :: ws[i].0
  }

  predicate DistinctIds(ws: seq<Entry>) {
    forall i, j :: 0 <= i < j < |ws| ==> ws[i].0 != ws[j].0
  }

  lemma {:induction false} DistinctSize(ws: seq<Entry>)
    requires DistinctIds(ws)
    ensures |Ids(ws)| == |ws|
  {
    if ws == [] {
    } else {
      var n := |ws| - 1;
      DistinctSize(ws[..n]);
      assert Ids(ws) == Ids(ws[..n]) + {ws[n].0} by {
        forall x | x in Ids(ws) ensures x in Ids(ws[..n]) + {ws[n].0} {
          var i :| 0 <= i < |ws| && ws[i].0 == x;
          assert i < n ==> ws[..n][i].0 == x;
        }
        forall x | x in Ids(ws[..n]) ensures x in Ids(ws) {
          var i :| 0 <= i < n && ws[..n][i].0 == x;
          assert ws[i].0 == x;
        }
      }
      assert ws[n].0 !in Ids(ws[..n]);
    }
  }

  /** What each operation does to the ids of a list that has no id twice. */
  lemma NotifyIds(l: List)
    requires DistinctIds(l.wakers)
    ensures var (l', e) := Notify(l);
            && DistinctIds(l'.wakers)
            && l'.count == l.count && l'.idGen == l.idGen
            && (e.Some? <==> l.count == |l.wakers| > 0)
            && (e.Some? ==> e.value.0 in Ids(l.wakers))
            && Ids(l'.wakers) == Ids(l.wakers) - (if e.Some? then {e.value.0} else {})
            && (e.Some? ==> e.value in l.wakers)
  {
    var (l', e) := Notify(l);
    if e.Some? {
      var n := |l.wakers| - 1;
      forall x | x in Ids(l.wakers) && x != e.value.0 ensures x in Ids(l'.wakers) {
        var i :| 0 <= i < |l.wakers| && l.wakers[i].0 == x;
        assert l'.wakers[i].0 == x;
      }
      assert l.wakers[n].0 in Ids(l.wakers);
    }
  }

  lemma UpdateIds(l: List, id: nat, w: Waker)
    requires DistinctIds(l.wakers)
    ensures var (l', inserted) := Update(l, id, w);
            && DistinctIds(l'.wakers)
            && l'.count == l.count && l'.idGen == l.idGen
            && inserted == (id !in Ids(l.wakers))
            && Ids(l'.wakers) == Ids(l.wakers) + {id}
            && (id, w) in l'.wakers
  {
    var (l', inserted) := Update(l, id, w);
    var k := FirstAt(l.wakers, id);
    assert l'.wakers[k] == (id, w);
    forall x | x in Ids(l.wakers) ensures x in Ids(l'.wakers) {
      var i :| 0 <= i < |l.wakers| && l.wakers[i].0 == x;
      assert l'.wakers[i].0 == x;
    }
    assert id in Ids(l'.wakers);
    if k < |l.wakers| {
      assert l.wakers[k].0 in Ids(l.wakers);
    }
  }

  lemma RemoveIds(l: List, id: nat)
    requires DistinctIds(l.wakers)
    ensures var l' := Remove(l, id);
            && DistinctIds(l'.wakers)
            && l'.count == l.count - 1 && l'.idGen == l.idGen
            && Ids(l'.wakers) == Ids(l.wakers) - {id}
  {
    var k := LastBefore(l.wakers, id, |l.wakers|);
    if k < |l.wakers| {
      CutIds(l.wakers, k);
    } else {
      assert id !in Ids(l.wakers);
    }
  }

  lemma CutIds(ws: seq<Entry>, k: nat)
    requires DistinctIds(ws) && k < |ws|
    ensures DistinctIds(ws[..k] + ws[k + 1..]) && Ids(ws[..k] + ws[k + 1..]) == Ids(ws) - {ws[k].0}
  {
    var cut := ws[..k] + ws[k + 1..];
    assert forall i :: 0 <= i < |cut| ==> cut[i] == ws[if i < k then i else i + 1];
    forall x | x in Ids(ws) - {ws[k].0} ensures x in Ids(cut) {
      var i :| 0 <= i < |ws| && ws[i].0 == x;
      assert cut[if i < k then i else i - 1].0 == x;
    }
    forall x | x in Ids(cut) ensures x in Ids(ws) - {ws[k].0} {
      var i :| 0 <= i < |cut| && cut[i].0 == x;
      assert ws[if i < k then i else i + 1].0 == x;
    }
  }

  lemma InsertIds(l: List, w: Waker)
    requires DistinctIds(l.wakers) && l.idGen !in Ids(l.wakers)
    ensures var (l', id) := Insert(l, w);
            && DistinctIds(l'.wakers) && Ids(l'.wakers) == Ids(l.wakers) + {id}
            && id !in Ids(l.wakers) && id < l'.idGen
            && (id, w) in l'.wakers
            && l'.count - |l'.wakers| == l.count - |l.wakers|
  {
    var (l', id) := Insert(l, w);
    forall x | x in Ids(l.wakers) ensures x in Ids(l'.wakers) {
      var i :| 0 <= i < |l.wakers| && l.wakers[i].0 == x;
      assert l'.wakers[i].0 == x;
    }
    assert l'.wakers[|l.wakers|].0 == id;
  }

  // ----- the entries on the list: what each operation leaves as it was -----

  lemma NotifyEntries(l: List)
    requires DistinctIds(l.wakers)
    ensures var (l', e) := Notify(l); forall x: Entry :: x in l'.wakers <==> x in l.wakers && Some(x) != e
  {
    var (l', e) := Notify(l);
    forall x: Entry | x in l.wakers && Some(x) != e ensures x in l'.wakers {
      var i :| 0 <= i < |l.wakers| && l.wakers[i] == x;
      assert e.Some? ==> i != |l.wakers| - 1 && l'.wakers[i] == x;
    }
  }

  lemma UpdateEntries(l: List, id: nat, w: Waker)
    requires DistinctIds(l.wakers)
    ensures forall x: Entry :: x in Update(l, id, w).0.wakers <==> (x in l.wakers && x.0 != id) || x == (id, w)
  {
    var ws, ws', k := l.wakers, Update(l, id, w).0.wakers, FirstAt(l.wakers, id);
    assert ws'[k] == (id, w);
    forall x: Entry | x in ws && x.0 != id ensures x in ws' {
      var i :| 0 <= i < |ws| && ws[i] == x;
      assert ws'[i] == x;
    }
    forall x: Entry | x in ws' ensures (x in ws && x.0 != id) || x == (id, w) {
      var i :| 0 <= i < |ws'| && ws'[i] == x;
      assert i != k ==> ws[i] == x && x.0 != id;
    }
  }

  lemma RemoveEntries(l: List, id: nat)
    requires DistinctIds(l.wakers)
    ensures forall x: Entry :: x in Remove(l, id).wakers <==> x in l.wakers && x.0 != id
  {
    var k := LastBefore(l.wakers, id, |l.wakers|);
    if k < |l.wakers| {
      CutEntries(l.wakers, k);
    } else {
      forall x: Entry | x in l.wakers ensures x.0 != id {
        var i :| 0 <= i < |l.wakers| && l.wakers[i] == x;
      }
    }
  }

  lemma CutEntries(ws: seq<Entry>, k: nat)
    requires DistinctIds(ws) && k < |ws|
    ensures forall x: Entry :: x in ws[..k] + ws[k + 1..] <==> x in ws && x.0 != ws[k].0
  {
    var cut := ws[..k] + ws[k + 1..];
    assert forall i :: 0 <= i < |cut| ==> cut[i] == ws[if i < k then i else i + 1];
    forall x: Entry | x in ws && x.0 != ws[k].0 ensures x in cut {
      var i :| 0 <= i < |ws| && ws[i] == x;
      assert cut[if i < k then i else i - 1] == x;
    }
    forall x: Entry | x in cut ensures x in ws && x.0 != ws[k].0 {
      var i :| 0 <= i < |cut| && cut[i] == x;
    }
  }

  lemma InsertEntries(l: List, w: Waker)
    ensures var (l', id) := Insert(l, w); forall x: Entry :: x in l'.wakers <==> x in l.wakers || x == (id, w)
  {
  }
}
