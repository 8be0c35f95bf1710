/**
 The kernel's priority list (PRIL): every wait queue of the kernel is kept in
 descending priority order, first-come first-served among equal priorities.
 Objects on a list (threads, pulses) are named by their identity; a table gives
 their current priority.
 */
module Pril {
  import opened Base

  /** The priority of an object; an object without an entry counts as priority 0. */
  function P(prio: map<Id, nat>, t: Id): nat {
    if t in prio then prio[t] else 0
  }

  ghost predicate Sorted(q: seq<Id>, prio: map<Id, nat>) {
    forall i, j :: 0 <= i < j < |q| ==> P(prio, q[i]) >= P(prio, q[j])
  }

  ghost predicate Distinct(q: seq<Id>) {
    forall i, j :: 0 <= i < j < |q| ==> q[i] != q[j]
  }

  /** `pril_add`: behind every object of the same or a higher priority. */
  function Insert(q: seq<Id>, prio: map<Id, nat>, t: Id): (r: seq<Id>)
    ensures |r| == |q| + 1
    ensures r[0] == if q == [] || P(prio, q[0]) < P(prio, t) then t else q[0]
    ensures forall x :: x in r <==> x in q || x == t
  {
    if q == [] then [t]
    else if P(prio, q[0]) < P(prio, t) then [t] + q
    else [q[0]] + Insert(q[1..], prio, t)
  }

  /** `pril_rem`: takes an object off the list. */
  function Remove(q: seq<Id>, t: Id): (r: seq<Id>)
    ensures if t in q then |r| == |q| - 1 else r == q
  {
    if q == [] then []
    else if q[0] == t then q[1..]
    else [q[0]] + Remove(q[1..], t)
  }

  /** Where `Insert` puts the new object: the list is split, not reordered, in front of
      the first object of a lower priority. */
  lemma {:induction false} InsertAt(q: seq<Id>, prio: map<Id, nat>, t: Id, k: nat)
    requires k <= |q| && forall i :: 0 <= i < k ==> P(prio, q[i]) >= P(prio, t)
    requires k == |q| || P(prio, q[k]) < P(prio, t)
    ensures Insert(q, prio, t) == q[..k] + [t] + q[k..]
  {
    if k > 0 {
      var tail := q[1..];
      InsertAt(tail, prio, t, k - 1);
      assert q[..k] == [q[0]] + tail[..k - 1];
      assert q[k..] == tail[k - 1..];
    }
  }

  /** In a sorted list that place is behind everything of the same or a higher priority. */
  lemma InsertSplits(q: seq<Id>, prio: map<Id, nat>, t: Id) returns (k: nat)
    requires Sorted(q, prio)
    ensures k <= |q| && Insert(q, prio, t) == q[..k] + [t] + q[k..]
    ensures forall i :: 0 <= i < k ==> P(prio, q[i]) >= P(prio, t)
    ensures forall i :: k <= i < |q| ==> P(prio, q[i]) < P(prio, t)
  {
    k := 0;
    while k < |q| && P(prio, q[k]) >= P(prio, t)
      invariant k <= |q| && forall i :: 0 <= i < k ==> P(prio, q[i]) >= P(prio, t)
    {
      k := k + 1;
    }
    InsertAt(q, prio, t, k);
  }

  /** `q'` is `q` with `t` come in behind exactly the objects of the same or a higher priority,
      all others in the order they had. */
  ghost predicate Placed(q: seq<Id>, q': seq<Id>, prio: map<Id, nat>, t: Id) {
    exists k :: 0 <= k <= |q| && q' == q[..k] + [t] + q[k..]
             && (forall i :: 0 <= i < k ==> P(prio, q[i]) >= P(prio, t))
             && (forall i :: k <= i < |q| ==> P(prio, q[i]) < P(prio, t))
  }

  lemma InsertJoins(q: seq<Id>, prio: map<Id, nat>, t: Id)
    requires Sorted(q, prio)
    ensures Placed(q, Insert(q, prio, t), prio, t)
  {
    var k := InsertSplits(q, prio, t);
  }

  /** A list stays a duplicate-free, sorted list when a new object is added. */
  lemma InsertKeeps(q: seq<Id>, prio: map<Id, nat>, t: Id)
    requires Distinct(q) && t !in q && Sorted(q, prio)
    ensures Distinct(Insert(q, prio, t))
    ensures Sorted(Insert(q, prio, t), prio)
  {
    var k := InsertSplits(q, prio, t);
    var r := q[..k] + [t] + q[k..];
    hide Insert, P;
    forall i, j | 0 <= i < j < |r|
      ensures r[i] != r[j] && P(prio, r[i]) >= P(prio, r[j])
    {
      var i', j' := if i < k then i else i - 1, if j < k then j else j - 1;
      assert i != k ==> r[i] == q[i'];
      assert j != k ==> r[j] == q[j'];
    }
  }

  lemma {:induction false} RemoveSplits(q: seq<Id>, t: Id) returns (k: nat)
    requires t in q
    ensures k < |q| && q[k] == t && Remove(q, t) == q[..k] + q[k + 1..]
  {
    if q[0] == t {
      k := 0;
    } else {
      var tail := q[1..];
      var k' := RemoveSplits(tail, t);
      k := k' + 1;
      assert q[..k] == [q[0]] + tail[..k'];
      assert q[k + 1..] == tail[k' + 1..];
    }
  }

  /** `Remove` by index: everything behind the removed place moves up by one. */
  lemma RemoveIndex(q: seq<Id>, t: Id) returns (k: nat)
    requires t in q
    ensures k < |q| == |Remove(q, t)| + 1 && q[k] == t
    ensures forall i :: 0 <= i < k ==> Remove(q, t)[i] == q[i]
    ensures forall i :: k <= i < |Remove(q, t)| ==> Remove(q, t)[i] == q[i + 1]
  {
    k := RemoveSplits(q, t);
  }

  lemma RemoveMembers(q: seq<Id>, t: Id)
    requires Distinct(q)
    ensures forall x :: x in Remove(q, t) <==> x in q && x != t
  {
    if t in q {
      var k := RemoveIndex(q, t);
      var r := Remove(q, t);
      hide Remove;
      forall x | x in r ensures x in q && x != t {
        var i :| 0 <= i < |r| && r[i] == x;
        assert x == if i < k then q[i] else q[i + 1];
      }
      forall x | x in q && x != t ensures x in r {
        var i :| 0 <= i < |q| && q[i] == x;
        assert x == if i < k then r[i] else r[i - 1];
      }
    }
  }

  lemma RemoveOrder(q: seq<Id>, prio: map<Id, nat>, t: Id)
    requires Distinct(q) && t in q
    ensures Distinct(Remove(q, t))
    ensures Sorted(q, prio) ==> Sorted(Remove(q, t), prio)
  {
    var k := RemoveIndex(q, t);
    hide Remove, P;
  }

  lemma RemoveKeeps(q: seq<Id>, prio: map<Id, nat>, t: Id)
    requires Distinct(q)
    ensures Distinct(Remove(q, t))
    ensures Sorted(q, prio) ==> Sorted(Remove(q, t), prio)
    ensures forall x :: x in Remove(q, t) <==> x in q && x != t
  {
    hide Distinct, Sorted, Remove;
    RemoveMembers(q, t);
    if t in q {
      RemoveOrder(q, prio, t);
    }
  }

  /** What is left behind the head. */
  lemma TailKeeps(q: seq<Id>, prio: map<Id, nat>)
    requires q != [] && Distinct(q) && Sorted(q, prio)
    ensures Distinct(q[1..]) && Sorted(q[1..], prio)
    ensures forall x :: x in q[1..] <==> x in q && x != q[0]
  {
    assert forall i :: 0 <= i < |q| - 1 ==> q[1..][i] == q[i + 1];
    forall x | x in q && x != q[0] ensures x in q[1..] {
      var i :| 0 <= i < |q| && q[i] == x;
      assert q[1..][i - 1] == x;
    }
  }

  /** A change of priority as `adjust_priority` makes it for a queued object: off the list,
      new priority, back on the list. */
  function Reposition(q: seq<Id>, prio: map<Id, nat>, t: Id, p: nat): seq<Id> {
    Insert(Remove(q, t), prio[t := p], t)
  }

  lemma RepositionKeeps(q: seq<Id>, prio: map<Id, nat>, t: Id, p: nat)
    requires Distinct(q) && Sorted(q, prio) && t in q
    ensures Distinct(Reposition(q, prio, t, p)) && Sorted(Reposition(q, prio, t, p), prio[t := p])
    ensures forall x :: x in Reposition(q, prio, t, p) <==> x in q
  {
    RemoveKeeps(q, prio, t);
    UpdatePrio(prio, t, p);
    hide Remove, Insert, P;
    SortedFrame(Remove(q, t), prio, prio[t := p]);
    InsertKeeps(Remove(q, t), prio[t := p], t);
  }

  /** `q'` is `q` without `t`, all others in the order they had. */
  ghost predicate Left(q: seq<Id>, q': seq<Id>, t: Id) {
    exists k :: 0 <= k < |q| && q[k] == t && q' == q[..k] + q[k + 1..]
  }

  /** `t` has gone from its place in `q`, if it had one, to the one its new priority gives it. */
  ghost predicate Moved(q: seq<Id>, q': seq<Id>, prio: map<Id, nat>, t: Id) {
    if t in q then exists r :: Left(q, r, t) && Placed(r, q', prio, t) else q' == q
  }

  lemma RepositionMoves(q: seq<Id>, prio: map<Id, nat>, t: Id, p: nat)
    requires Distinct(q) && Sorted(q, prio)
    ensures Moved(q, if t in q then Reposition(q, prio, t, p) else q, prio[t := p], t)
  {
    if t in q {
      var r := Remove(q, t);
      var k := RemoveSplits(q, t);
      assert Left(q, r, t);
      RemoveKeeps(q, prio, t);
      UpdatePrio(prio, t, p);
      hide Remove, Insert, P;
      SortedFrame(r, prio, prio[t := p]);
      InsertJoins(r, prio[t := p], t);
    }
  }

  lemma UpdatePrio(prio: map<Id, nat>, t: Id, p: nat)
    ensures forall u :: P(prio[t := p], u) == if u == t then p else P(prio, u)
  {
    var prio' := prio[t := p];
    forall u ensures P(prio', u) == if u == t then p else P(prio, u) {
    }
  }

  /** Objects that are not on the list do not disturb its order. */
  lemma SortedFrame(q: seq<Id>, prio: map<Id, nat>, prio': map<Id, nat>)
    requires Sorted(q, prio) && forall x :: x in q ==> P(prio, x) == P(prio', x)
    ensures Sorted(q, prio')
  {
    assert forall i :: 0 <= i < |q| ==> q[i] in q;
  }

  /** The walk of `pril_add` along the list. */
  method Add(q: seq<Id>, prio: map<Id, nat>, t: Id) returns (r: seq<Id>)
    ensures r == Insert(q, prio, t)
  {
    var i := 0;
    while i < |q| && P(prio, q[i]) >= P(prio, t)
      invariant 0 <= i <= |q|
      invariant forall j :: 0 <= j < i ==> P(prio, q[j]) >= P(prio, t)
    {
      i := i + 1;
    }
    InsertAt(q, prio, t, i);
    r := q[..i] + [t] + q[i..];
  }
}
