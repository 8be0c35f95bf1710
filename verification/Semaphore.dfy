/**
 Counting semaphores: what is posted is granted once, to the waiter of highest priority.
 */
module Semaphore {
  import opened Base
  import opened Pril

  datatype State = State(count: nat, waiting: seq<Id>, prio: map<Id, nat>)

  datatype Event =
    | Wait(t: Id, try: bool, refused: bool)   // refused: immediate timeout or cancellation
    | Post
    | GiveUp(t: Id)                           // a waiter is made ready by a timeout or a signal
    | Reprioritise(t: Id, p: nat)

  ghost predicate Inv(s: State) {
    && Distinct(s.waiting) && Sorted(s.waiting, s.prio)
    && (s.waiting != [] ==> s.count == 0)
  }

  /** A thread waits at most once at a time. */
  predicate Enabled(s: State, e: Event) {
    match e
    case Wait(t, _, _) => t !in s.waiting
    case _ => true
  }

  function Apply(s: State, e: Event): State {
    match e
    case Wait(t, try, refused) =>
      if s.count > 0 then s.(count := s.count - 1)
      else if try || refused then s
      else s.(waiting := Insert(s.waiting, s.prio, t))
    case Post =>
      if s.waiting != [] then s.(waiting := s.waiting[1..]) else s.(count := s.count + 1)
    case GiveUp(t) => s.(waiting := Remove(s.waiting, t))
    case Reprioritise(t, p) =>
      s.(prio := s.prio[t := p], waiting := if t in s.waiting then Reposition(s.waiting, s.prio, t, p) else s.waiting)
  }

  /** The thread that a step lets through. */
  function Granted(s: State, e: Event): Option<Id> {
    match e
    case Wait(t, _, _) => if s.count > 0 then Some(t) else None
    case Post => if s.waiting != [] then Some(s.waiting[0]) else None
    case _ => None
  }

  lemma StepKeeps(s: State, e: Event)
    requires Inv(s) && Enabled(s, e)
    ensures Inv(Apply(s, e))
  {
    match e
    case Wait(t, _, _) => InsertKeeps(s.waiting, s.prio, t);
    case Post =>
      if s.waiting != [] {
        TailKeeps(s.waiting, s.prio);
      }
    case GiveUp(t) =>
      if t in s.waiting {
        RemoveOrder(s.waiting, s.prio, t);
      }
    case Reprioritise(t, p) =>
      if t in s.waiting {
        RepositionKeeps(s.waiting, s.prio, t, p);
      } else {
        SortedFrame(s.waiting, s.prio, s.prio[t := p]);
      }
  }

  ghost predicate Run(states: seq<State>, events: seq<Event>) {
    && |states| == |events| + 1
    && states[0].waiting == []
    && forall i :: 0 <= i < |events| ==> Enabled(states[i], events[i]) && states[i + 1] == Apply(states[i], events[i])
  }

  function Grants(states: seq<State>, events: seq<Event>, n: nat): nat
    requires n <= |events| <= |states|
  {
    if n == 0 then 0 else Grants(states, events, n - 1) + if Granted(states[n - 1], events[n - 1]).Some? then 1 else 0
  }

  function Posts(events: seq<Event>, n: nat): nat
    requires n <= |events|
  {
    if n == 0 then 0 else Posts(events, n - 1) + if events[n - 1].Post? then 1 else 0
  }

  /** Conservation: what was there and what was posted is either still there or was granted;
      and nobody waits while something is there. */
  lemma {:induction false} PostsAreGrants(states: seq<State>, events: seq<Event>, n: nat)
    requires Run(states, events) && n <= |events|
    ensures Inv(states[n])
    ensures states[0].count + Posts(events, n) == states[n].count + Grants(states, events, n)
  {
    if n > 0 {
      PostsAreGrants(states, events, n - 1);
      StepKeeps(states[n - 1], events[n - 1]);
    }
  }

  /** A post goes to the waiter of highest priority, and among equals to the one that has
      waited longest. */
  lemma PostGrantsHighest(s: State, t: Id)
    requires Inv(s) && t in s.waiting
    ensures Granted(s, Post).Some? && P(s.prio, t) <= P(s.prio, Granted(s, Post).value)
    ensures Granted(s, Post).value !in Apply(s, Post).waiting
    ensures t != Granted(s, Post).value ==> t in Apply(s, Post).waiting
  {
    var i :| 0 <= i < |s.waiting| && s.waiting[i] == t;
    assert i > 0 ==> s.waiting[1..][i - 1] == t;
  }

  /** Two threads of equal priority stay in the order in which they came. */
  lemma LaterWaitsBehind(s: State, t: Id, u: Id)
    requires Inv(s) && s.count == 0 && t !in s.waiting && u in s.waiting && P(s.prio, u) >= P(s.prio, t)
    ensures var q := Apply(s, Wait(t, false, false)).waiting;
            exists i, j :: 0 <= i < j < |q| && q[i] == u && q[j] == t
  {
    var k := InsertSplits(s.waiting, s.prio, t);
    var q := s.waiting[..k] + [t] + s.waiting[k..];
    var i :| 0 <= i < |s.waiting| && s.waiting[i] == u;
    assert i < k && q[i] == u && q[k] == t;
  }

  /** A wait takes what is there; with nothing there it queues the caller behind exactly the
      waiters of its own or a higher priority, unless it may not block: then nothing happens. */
  lemma WaitAnswers(s: State, t: Id, try: bool, refused: bool)
    requires Inv(s) && t !in s.waiting
    ensures var s' := Apply(s, Wait(t, try, refused));
            && s'.prio == s.prio
            && if s.count > 0 then s'.count == s.count - 1 && s'.waiting == []
               else if try || refused then s' == s
               else s'.count == 0 && t in s'.waiting && Placed(s.waiting, s'.waiting, s.prio, t)
  {
    InsertJoins(s.waiting, s.prio, t);
  }

  /** A waiter that gives up, or whose priority changes, disturbs nobody else's order. */
  lemma WaiterMoves(s: State, t: Id, p: nat)
    requires Inv(s)
    ensures var s' := Apply(s, GiveUp(t));
            s'.count == s.count && if t in s.waiting then Left(s.waiting, s'.waiting, t) else s' == s
    ensures var s' := Apply(s, Reprioritise(t, p));
            s'.count == s.count && P(s'.prio, t) == p && Moved(s.waiting, s'.waiting, s'.prio, t)
  {
    if t in s.waiting {
      var k := RemoveSplits(s.waiting, t);
    }
    RepositionMoves(s.waiting, s.prio, t, p);
  }

  class Semaphore {
    var count: nat
    var waiting: seq<Id>
    var prio: map<Id, nat>

    function View(): State
      reads this
    {
      State(count, waiting, prio)
    }

    constructor (initial: nat)
      ensures View() == State(initial, [], map[])
    {
      count, waiting, prio := initial, [], map[];
    }

    /** `ker_sync_sem_wait`; `granted` unless the caller blocks or is sent back. */
    method WaitFor(t: Id, try: bool, refused: bool) returns (granted: bool)
      modifies this
      ensures View() == Apply(old(View()), Wait(t, try, refused))
      ensures granted <==> old(count) > 0
      ensures count == if granted then old(count) - 1 else 0
      ensures granted || try || refused ==> waiting == old(waiting)
      ensures !granted && !try && !refused && Inv(old(View())) ==> Placed(old(waiting), waiting, prio, t)
    {
      if Inv(View()) {
        InsertJoins(waiting, prio, t);
      }
      if count > 0 {
        count := count - 1;
        return true;
      }
      if !try && !refused {
        waiting := Add(waiting, prio, t);
      }
      granted := false;
    }

    /** `ker_sync_sem_post` */
    method PostOne() returns (woken: Option<Id>)
      modifies this
      ensures View() == Apply(old(View()), Post)
      ensures woken == Granted(old(View()), Post)
      ensures if woken.Some? then old(waiting) == [woken.value] + waiting && count == old(count)
              else old(waiting) == waiting == [] && count == old(count) + 1
    {
      if waiting != [] {
        woken := Some(waiting[0]);
        waiting := waiting[1..];
      } else {
        woken := None;
        count := count + 1;
      }
    }

    /** `force_ready` on a waiter: it leaves the queue, and no other waiter loses its place. */
    method Leave(t: Id)
      requires Inv(View())
      modifies this
      ensures View() == Apply(old(View()), GiveUp(t))
      ensures Inv(View()) && count == old(count) && t !in waiting
      ensures forall u :: u != t ==> (u in waiting <==> u in old(waiting))
    {
      StepKeeps(View(), GiveUp(t));
      RemoveMembers(waiting, t);
      waiting := Remove(waiting, t);
    }
  }
}
