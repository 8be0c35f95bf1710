/**
 Priority inheritance on a blocking mutex lock: the walk along the graph of mutex
 holders and message servers that raises every thread the blocked thread depends on.
 */
module Inheritance {
  import opened Base
  import opened Pril

  /** What a thread is blocked on. A send- or reply-blocked thread is blocked on a
      connection; only the connection's channel matters here. */
  datatype Block = Ready | OnMutex(m: Id) | OnSend(ch: Id) | OnReply(ch: Id)

  /** The part of the kernel's tables that a lock call leaves alone. */
  datatype Net = Net(
    threads: set<Id>,
    server: map<Id, Id>,            // args.ms.server of a reply-blocked thread
    fixed: set<Id>,                 // channels without message-driven priority
    vector: map<Id, seq<Id>>,       // channel -> the threads of its process
    lastChid: map<Id, Id>)          // the channel a thread last received on

  datatype State = State(
    net: Net,
    block: map<Id, Block>,
    prio: map<Id, nat>,
    waiting: map<Id, seq<Id>>,      // mutex -> its wait queue
    owner: map<Id, Id>)             // args.mu.owner: the holder a queue head has recorded

  function BlockOf(block: map<Id, Block>, t: Id): Block {
    if t in block then block[t] else Ready
  }

  function Queue(waiting: map<Id, seq<Id>>, m: Id): seq<Id> {
    if m in waiting then waiting[m] else []
  }

  /** The recorded holder of a mutex: kept on the head of its queue. */
  function Holder(waiting: map<Id, seq<Id>>, owner: map<Id, Id>, m: Id): Option<Id> {
    if Queue(waiting, m) == [] then None else Lookup(owner, Queue(waiting, m)[0])
  }

  /** The thread that `t` waits for, if its wait passes priority on. */
  function Target(s: State, t: Id): Option<Id> {
    match BlockOf(s.block, t)
    case OnMutex(m) => Holder(s.waiting, s.owner, m)
    case OnReply(ch) => if ch in s.net.fixed then None else Lookup(s.net.server, t)
    case _ => None
  }

  /** The threads of the process that owns channel `ch`, in vector order. */
  function Vector(net: Net, ch: Id): seq<Id> {
    if ch in net.vector then net.vector[ch] else []
  }

  ghost predicate WfNet(net: Net) {
    && (forall t :: t in net.server ==> net.server[t] in net.threads)
    && (forall ch, t :: t in Vector(net, ch) ==> t in net.threads)
  }

  ghost predicate WfQueues(block: map<Id, Block>, prio: map<Id, nat>, waiting: map<Id, seq<Id>>) {
    && (forall m :: Distinct(Queue(waiting, m)) && Sorted(Queue(waiting, m), prio))
    && (forall t, m :: t in Queue(waiting, m) <==> BlockOf(block, t) == OnMutex(m))
  }

  /** Only the head of a queue records a holder, and the holder is a thread. */
  ghost predicate WfOwners(net: Net, waiting: map<Id, seq<Id>>, owner: map<Id, Id>) {
    && (forall t, m :: t in Queue(waiting, m) && t in owner ==> t == Queue(waiting, m)[0])
    && (forall t :: t in owner ==> owner[t] in net.threads)
  }

  ghost predicate Wf(s: State) {
    WfNet(s.net) && WfQueues(s.block, s.prio, s.waiting) && WfOwners(s.net, s.waiting, s.owner)
  }

  /** Every wait edge leads to a thread of at least the waiter's priority. */
  ghost predicate Ordered(s: State) {
    forall t :: Target(s, t).Some? ==> P(s.prio, t) <= P(s.prio, Target(s, t).value)
  }

  function SetOwner(owner: map<Id, Id>, t: Id, o: Option<Id>): map<Id, Id> {
    if o.Some? then owner[t := o.value] else owner - {t}
  }

  /** `adjust_priority`: a thread blocked on a mutex is moved in the wait queue, and the
      recorded holder moves to the new head. */
  function Adjust(s: State, t: Id, p: nat): State {
    if P(s.prio, t) == p then s
    else if BlockOf(s.block, t).OnMutex? then
      var m := BlockOf(s.block, t).m;
      var q := Queue(s.waiting, m);
      var q' := Reposition(q, s.prio, t, p);
      s.(prio := s.prio[t := p],
         waiting := s.waiting[m := q'],
         owner := if q == [] then s.owner else SetOwner(s.owner - {q[0]}, q'[0], Lookup(s.owner, q[0])))
    else s.(prio := s.prio[t := p])
  }

  /** Same wait graph, possibly different priorities. */
  ghost predicate SameGraph(s: State, s': State) {
    && s'.net == s.net && s'.block == s.block
    && forall m :: Holder(s'.waiting, s'.owner, m) == Holder(s.waiting, s.owner, m)
  }

  lemma SameTargets(s: State, s': State)
    requires SameGraph(s, s')
    ensures forall t :: Target(s', t) == Target(s, t)
  {
  }

  lemma AdjustQueues(s: State, t: Id, p: nat, m: Id)
    requires WfQueues(s.block, s.prio, s.waiting) && BlockOf(s.block, t) == OnMutex(m)
    ensures var q := Queue(s.waiting, m); var q' := Reposition(q, s.prio, t, p);
            && t in q && (forall x :: x in q' <==> x in q)
            && WfQueues(s.block, s.prio[t := p], s.waiting[m := q'])
  {
    var q := Queue(s.waiting, m);
    assert t in q;
    RepositionKeeps(q, s.prio, t, p);
    var w := s.waiting[m := Reposition(q, s.prio, t, p)];
    forall n ensures Distinct(Queue(w, n)) && Sorted(Queue(w, n), s.prio[t := p])
             ensures forall x :: x in Queue(w, n) <==> x in Queue(s.waiting, n)
    {
      if n != m {
        assert Queue(w, n) == Queue(s.waiting, n) && t !in Queue(s.waiting, n);
        SortedFrame(Queue(w, n), s.prio, s.prio[t := p]);
      }
    }
  }

  /** Reordering one queue and moving its record to the new head changes no holder. */
  lemma MoveOwner(net: Net, block: map<Id, Block>, prio: map<Id, nat>, waiting: map<Id, seq<Id>>, owner: map<Id, Id>,
                  m: Id, q': seq<Id>)
    requires WfQueues(block, prio, waiting) && WfOwners(net, waiting, owner)
    requires Queue(waiting, m) != [] && q' != [] && forall x :: x in q' <==> x in Queue(waiting, m)
    ensures var q := Queue(waiting, m);
            var o' := SetOwner(owner - {q[0]}, q'[0], Lookup(owner, q[0]));
            && WfOwners(net, waiting[m := q'], o')
            && forall n :: Holder(waiting[m := q'], o', n) == Holder(waiting, owner, n)
  {
    var q := Queue(waiting, m);
    var w' := waiting[m := q'];
    var o' := SetOwner(owner - {q[0]}, q'[0], Lookup(owner, q[0]));
    assert q[0] in q && q'[0] in q && Queue(w', m) == q';
    assert forall x :: x in q && x in owner ==> x == q[0];
    forall n | n != m
      ensures Queue(w', n) == Queue(waiting, n)
      ensures forall x :: x in Queue(waiting, n) ==> x !in q
    {
      forall x | x in Queue(waiting, n) ensures x !in q {
        assert BlockOf(block, x) == OnMutex(n);
      }
    }
    assert forall x :: x !in q ==> Lookup(o', x) == Lookup(owner, x);
  }

  lemma AdjustKeeps(s: State, t: Id, p: nat)
    requires Wf(s)
    ensures Wf(Adjust(s, t, p)) && SameGraph(s, Adjust(s, t, p))
    ensures forall u :: P(Adjust(s, t, p).prio, u) == if u == t then p else P(s.prio, u)
  {
    if P(s.prio, t) != p {
      if BlockOf(s.block, t).OnMutex? {
        var m := BlockOf(s.block, t).m;
        AdjustQueues(s, t, p, m);
        MoveOwner(s.net, s.block, s.prio, s.waiting, s.owner, m, Reposition(Queue(s.waiting, m), s.prio, t, p));
      } else {
        forall m ensures Sorted(Queue(s.waiting, m), s.prio[t := p]) {
          assert t !in Queue(s.waiting, m);
          SortedFrame(Queue(s.waiting, m), s.prio, s.prio[t := p]);
        }
      }
    }
  }

  /** `s'` differs from `s` only in that the threads of `up` now stand at priority `p`. */
  ghost predicate Boosted(s: State, s': State, p: nat, up: set<Id>) {
    && Wf(s) && Wf(s') && SameGraph(s, s')
    && forall u :: P(s'.prio, u) == if u in up then p else P(s.prio, u)
  }

  lemma BoostedTrans(s: State, s1: State, s2: State, p: nat, up: set<Id>, up': set<Id>)
    requires Boosted(s, s1, p, up) && Boosted(s1, s2, p, up')
    ensures Boosted(s, s2, p, up + up')
  {
    hide Wf, P, Holder;
  }

  lemma AdjustBoosts(s: State, t: Id, p: nat)
    requires Wf(s)
    ensures Boosted(s, Adjust(s, t, p), p, {t})
  {
    AdjustKeeps(s, t, p);
  }

  /** The loop of the send case: raise the server threads of the channel, in vector order. */
  function FanOut(s: State, p: nat, ch: Id, v: seq<Id>): State
    decreases |v|
  {
    if v == [] then s
    else if P(s.prio, v[0]) < p && Lookup(s.net.lastChid, v[0]) == Some(ch) then
      FanOut(Adjust(s, v[0], p), p, ch, v[1..])
    else FanOut(s, p, ch, v[1..])
  }

  ghost function Slow(s: State, p: nat, ch: Id, v: seq<Id>): set<Id> {
    set f | f in v && P(s.prio, f) < p && Lookup(s.net.lastChid, f) == Some(ch)
  }

  lemma SlowStep(s: State, s1: State, p: nat, ch: Id, v: seq<Id>)
    requires v != [] && P(s.prio, v[0]) < p && Lookup(s.net.lastChid, v[0]) == Some(ch)
    requires s1.net == s.net && forall u :: P(s1.prio, u) == if u in {v[0]} then p else P(s.prio, u)
    ensures Slow(s, p, ch, v) == {v[0]} + Slow(s1, p, ch, v[1..])
  {
    hide P;
    assert forall f :: f in v <==> f == v[0] || f in v[1..];
  }

  lemma {:induction false} FanOutBoosts(s: State, p: nat, ch: Id, v: seq<Id>)
    requires Wf(s)
    ensures Boosted(s, FanOut(s, p, ch, v), p, Slow(s, p, ch, v))
    decreases |v|
  {
    hide Wf, Adjust, P;
    if v != [] {
      if P(s.prio, v[0]) < p && Lookup(s.net.lastChid, v[0]) == Some(ch) {
        var s1 := Adjust(s, v[0], p);
        AdjustBoosts(s, v[0], p);
        FanOutBoosts(s1, p, ch, v[1..]);
        BoostedTrans(s, s1, FanOut(s1, p, ch, v[1..]), p, {v[0]}, Slow(s1, p, ch, v[1..]));
        SlowStep(s, s1, p, ch, v);
      } else {
        FanOutBoosts(s, p, ch, v[1..]);
        assert Slow(s, p, ch, v) == Slow(s, p, ch, v[1..]);
      }
    }
  }

  ghost function Below(s: State, p: nat): set<Id> {
    set t | t in s.net.threads && P(s.prio, t) < p
  }

  lemma BelowShrinks(s: State, s': State, p: nat, t: Id)
    requires Boosted(s, s', p, {t}) && t in s.net.threads && P(s.prio, t) < p
    ensures |Below(s', p)| < |Below(s, p)|
  {
    assert Below(s', p) == Below(s, p) - {t};
  }

  /** A blocker's next hop: nobody, or a thread of the table. */
  predicate IsHop(s: State, thp: Option<Id>) {
    thp.Some? ==> thp.value in s.net.threads
  }

  lemma TargetIsHop(s: State, t: Id)
    requires Wf(s)
    ensures IsHop(s, Target(s, t))
  {
  }

  /** The walk of `sync_mutex_lock` for a blocker of priority `p`, standing at `thp`. It ends
      on every wait graph, cyclic ones included: each round raises a thread below `p`. */
  ghost function Walk(s: State, p: nat, thp: Option<Id>): State
    requires Wf(s) && IsHop(s, thp)
    decreases |Below(s, p)|
  {
    if thp == None || p <= P(s.prio, thp.value) then s
    else
      var t := thp.value;
      var s1 := Adjust(s, t, p);
      AdjustBoosts(s, t, p);
      BelowShrinks(s, s1, p, t);
      if BlockOf(s.block, t).OnSend? then
        var ch := BlockOf(s.block, t).ch;
        if ch in s.net.fixed then s1 else FanOut(s1, p, ch, Vector(s1.net, ch))
      else
        TargetIsHop(s1, t);
        Walk(s1, p, Target(s1, t))
  }

  // ---------------------------------------------------------------- what the walk does

  /** The threads the walk raises along wait edges, read off the state before the walk. */
  ghost function Chain(s: State, p: nat, thp: Option<Id>, seen: set<Id>): set<Id>
    requires Wf(s) && IsHop(s, thp)
    decreases s.net.threads - seen
  {
    if thp == None || p <= P(s.prio, thp.value) || thp.value in seen then {}
    else
      var t := thp.value;
      TargetIsHop(s, t);
      {t} + Chain(s, p, Target(s, t), seen + {t})
  }

  /** The server threads raised when the chain ends in a send-blocked thread. */
  ghost function Fan(s: State, p: nat, thp: Option<Id>, seen: set<Id>): set<Id>
    requires Wf(s) && IsHop(s, thp)
    decreases s.net.threads - seen
  {
    if thp == None || p <= P(s.prio, thp.value) || thp.value in seen then {}
    else
      var t := thp.value;
      if BlockOf(s.block, t).OnSend? then
        var ch := BlockOf(s.block, t).ch;
        if ch in s.net.fixed then {} else Slow(s, p, ch, Vector(s.net, ch)) - seen - {t}
      else
        TargetIsHop(s, t);
        Fan(s, p, Target(s, t), seen + {t})
  }

  lemma SendBoosts(s: State, s1: State, p: nat, t: Id, seen: set<Id>)
    requires Boosted(s, s1, p, seen) && t in s.net.threads && t !in seen && P(s.prio, t) < p
    requires BlockOf(s.block, t).OnSend?
    ensures Boosted(s, Walk(s1, p, Some(t)), p, seen + Chain(s, p, Some(t), seen) + Fan(s, p, Some(t), seen))
  {
    var s2 := Adjust(s1, t, p);
    AdjustBoosts(s1, t, p);
    BoostedTrans(s, s1, s2, p, seen, {t});
    var ch := BlockOf(s.block, t).ch;
    var v := Vector(s2.net, ch);
    assert Target(s, t) == None;
    assert Chain(s, p, Some(t), seen) == {t};
    if ch !in s.net.fixed {
      FanOutBoosts(s2, p, ch, v);
      BoostedTrans(s, s2, FanOut(s2, p, ch, v), p, seen + {t}, Slow(s2, p, ch, v));
      assert Slow(s2, p, ch, v) == Slow(s, p, ch, v) - seen - {t};
    }
  }

  lemma WalkUnfolds(s: State, s1: State, p: nat, t: Id, seen: set<Id>)
    requires Boosted(s, s1, p, seen) && t in s.net.threads && t !in seen && P(s.prio, t) < p
    requires !BlockOf(s.block, t).OnSend?
    ensures var s2 := Adjust(s1, t, p);
            && Boosted(s, s2, p, seen + {t}) && IsHop(s, Target(s, t)) && IsHop(s2, Target(s, t))
            && Walk(s1, p, Some(t)) == Walk(s2, p, Target(s, t))
            && seen + Chain(s, p, Some(t), seen) + Fan(s, p, Some(t), seen)
               == seen + {t} + Chain(s, p, Target(s, t), seen + {t}) + Fan(s, p, Target(s, t), seen + {t})
  {
    var s2 := Adjust(s1, t, p);
    AdjustBoosts(s1, t, p);
    BoostedTrans(s, s1, s2, p, seen, {t});
    SameTargets(s, s2);
    TargetIsHop(s, t);
  }

  /** The walk changes no wait edge, and raises exactly the threads of `Chain` and `Fan`, to `p`. */
  lemma {:induction false} WalkBoosts(s: State, s1: State, p: nat, thp: Option<Id>, seen: set<Id>)
    requires Boosted(s, s1, p, seen) && IsHop(s, thp)
    requires seen <= s.net.threads && forall u :: u in seen ==> P(s.prio, u) < p
    ensures Boosted(s, Walk(s1, p, thp), p, seen + Chain(s, p, thp, seen) + Fan(s, p, thp, seen))
    decreases s.net.threads - seen
  {
    if thp.Some? && P(s1.prio, thp.value) < p {
      var t := thp.value;
      if BlockOf(s.block, t).OnSend? {
        SendBoosts(s, s1, p, t, seen);
      } else {
        WalkUnfolds(s, s1, p, t, seen);
        WalkBoosts(s, Adjust(s1, t, p), p, Target(s, t), seen + {t});
      }
    }
  }

  /** A raised thread waits only for threads that are raised too or already high enough. */
  lemma {:induction false} ChainClosed(s: State, p: nat, thp: Option<Id>, seen: set<Id>, t: Id)
    requires Wf(s) && IsHop(s, thp) && t in Chain(s, p, thp, seen) && Target(s, t).Some?
    ensures P(s.prio, Target(s, t).value) >= p || Target(s, t).value in seen + Chain(s, p, thp, seen)
    decreases s.net.threads - seen
  {
    var u := thp.value;
    TargetIsHop(s, u);
    if t != u {
      ChainClosed(s, p, Target(s, u), seen + {u}, t);
    }
  }

  // ---------------------------------------------------------------- the blocking lock

  /** `act` joins the queue of `m`; a head it overtakes loses its record. */
  function Enqueue(s: State, act: Id, m: Id): State {
    var q := Queue(s.waiting, m);
    s.(block := s.block[act := OnMutex(m)],
       owner := s.owner - {act} - (if q != [] && P(s.prio, act) > P(s.prio, q[0]) then {q[0]} else {}),
       waiting := s.waiting[m := Insert(q, s.prio, act)])
  }

  predicate BecomesHead(s: State, act: Id, m: Id) {
    Queue(s.waiting, m) == [] || P(s.prio, act) > P(s.prio, Queue(s.waiting, m)[0])
  }

  /** The wait graph with the new edge, before any priority is raised. */
  function Blocked(s: State, act: Id, m: Id, holder: Option<Id>, inherit: bool): State {
    var s1 := Enqueue(s, act, m);
    if inherit && BecomesHead(s, act, m) then s1.(owner := SetOwner(s1.owner, act, holder)) else s1
  }

  ghost predicate MayBlock(s: State, act: Id, holder: Option<Id>) {
    Wf(s) && act in s.net.threads && BlockOf(s.block, act) == Ready && IsHop(s, holder)
  }

  /** The caller is the new head exactly when nobody of its priority or more waits. */
  lemma HeadChanges(s: State, act: Id, m: Id)
    requires WfQueues(s.block, s.prio, s.waiting) && BlockOf(s.block, act) == Ready
    ensures Insert(Queue(s.waiting, m), s.prio, act) != []
    ensures Insert(Queue(s.waiting, m), s.prio, act)[0] == act <==> BecomesHead(s, act, m)
  {
    EnqueueQueues(s, act, m);
  }

  lemma EnqueueQueues(s: State, act: Id, m: Id)
    requires WfQueues(s.block, s.prio, s.waiting) && BlockOf(s.block, act) == Ready
    ensures var s1 := Enqueue(s, act, m);
            && WfQueues(s1.block, s1.prio, s1.waiting)
            && Queue(s1.waiting, m) == Insert(Queue(s.waiting, m), s.prio, act)
            && act !in Queue(s.waiting, m)
            && forall n :: n != m ==> Queue(s1.waiting, n) == Queue(s.waiting, n) && act !in Queue(s.waiting, n)
  {
    var q := Queue(s.waiting, m);
    var s1 := Enqueue(s, act, m);
    assert act !in q;
    InsertKeeps(q, s.prio, act);
    forall n ensures n != m ==> Queue(s1.waiting, n) == Queue(s.waiting, n) && act !in Queue(s.waiting, n) {
      assert act in Queue(s.waiting, n) <==> BlockOf(s.block, act) == OnMutex(n);
    }
    hide Sorted, Distinct, P;
    forall n ensures Distinct(Queue(s1.waiting, n)) && Sorted(Queue(s1.waiting, n), s.prio) {
      assert Distinct(Queue(s.waiting, n)) && Sorted(Queue(s.waiting, n), s.prio);
      assert Queue(s1.waiting, n) == if n == m then Insert(q, s.prio, act) else Queue(s.waiting, n);
    }
    forall t, n ensures t in Queue(s1.waiting, n) <==> BlockOf(s1.block, t) == OnMutex(n) {
      assert t in Queue(s.waiting, n) <==> BlockOf(s.block, t) == OnMutex(n);
    }
  }

  /** The holder recorded for `m` once `act` waits for it. */
  function NewHolder(s: State, act: Id, m: Id, holder: Option<Id>, inherit: bool): Option<Id> {
    if BecomesHead(s, act, m) then (if inherit then holder else None) else Holder(s.waiting, s.owner, m)
  }

  /** Records outside the queue of `m` are untouched, and inside it only the head has one. */
  lemma BlockedRecords(s: State, act: Id, m: Id, holder: Option<Id>, inherit: bool)
    requires MayBlock(s, act, holder)
    ensures var s1 := Blocked(s, act, m, holder, inherit); var q1 := Queue(s1.waiting, m);
            && q1 == Insert(Queue(s.waiting, m), s.prio, act)
            && Lookup(s1.owner, q1[0]) == NewHolder(s, act, m, holder, inherit)
            && (forall x :: x in q1 && x in s1.owner ==> x == q1[0])
            && (forall x :: x !in q1 ==> Lookup(s1.owner, x) == Lookup(s.owner, x))
  {
    var q := Queue(s.waiting, m);
    EnqueueQueues(s, act, m);
    HeadChanges(s, act, m);
    assert q != [] ==> q[0] in q;
    assert forall x :: x in q && x in s.owner ==> x == q[0];
    HeadStays(q, s.prio, act);
    hide Wf, WfQueues, Insert, P;
  }

  lemma HeadStays(q: seq<Id>, prio: map<Id, nat>, t: Id)
    ensures var r := Insert(q, prio, t);
            r != [] && r[0] == (if q == [] || P(prio, t) > P(prio, q[0]) then t else q[0])
  {
  }

  lemma BlockedKeeps(s: State, act: Id, m: Id, holder: Option<Id>, inherit: bool)
    requires MayBlock(s, act, holder)
    ensures var s1 := Blocked(s, act, m, holder, inherit);
            && Wf(s1)
            && forall n :: Holder(s1.waiting, s1.owner, n)
                           == if n == m then NewHolder(s, act, m, holder, inherit) else Holder(s.waiting, s.owner, n)
  {
    var s1 := Blocked(s, act, m, holder, inherit);
    EnqueueQueues(s, act, m);
    BlockedRecords(s, act, m, holder, inherit);
    forall n, x | n != m && x in Queue(s1.waiting, n)
      ensures x !in Queue(s1.waiting, m) && Lookup(s1.owner, x) == Lookup(s.owner, x)
    {
      assert BlockOf(s1.block, x) == OnMutex(n);
    }
    RecordsAreThreads(s, act, m, holder, inherit);
    forall n | n != m ensures Holder(s1.waiting, s1.owner, n) == Holder(s.waiting, s.owner, n) {
      if Queue(s1.waiting, n) != [] {
        assert Queue(s1.waiting, n)[0] in Queue(s1.waiting, n);
      }
    }
    forall t, n | t in Queue(s1.waiting, n) && t in s1.owner ensures t == Queue(s1.waiting, n)[0] {
      if n != m {
        assert Lookup(s1.owner, t) == Lookup(s.owner, t);
      }
    }
  }

  lemma RecordsAreThreads(s: State, act: Id, m: Id, holder: Option<Id>, inherit: bool)
    requires MayBlock(s, act, holder)
    ensures forall t :: t in Blocked(s, act, m, holder, inherit).owner ==>
              Blocked(s, act, m, holder, inherit).owner[t] in s.net.threads
  {
  }

  /** The tail of `sync_mutex_lock` for a thread that must wait: join the queue, record the
      holder, and walk. `holder` is the thread the owner word names, if it exists;
      `inherit` is false for a PRIO_NONE mutex. */
  ghost function LockBlock(s: State, act: Id, m: Id, holder: Option<Id>, inherit: bool): State
    requires MayBlock(s, act, holder)
  {
    var s1 := Blocked(s, act, m, holder, inherit);
    BlockedKeeps(s, act, m, holder, inherit);
    if inherit && BecomesHead(s, act, m) then Walk(s1, P(s.prio, act), holder) else s1
  }

  /** The one place where the walk does not go on: server threads raised because the chain
      ended in a sender. The order survives exactly if none of them waits for a thread that
      stays below. */
  ghost predicate FanSafe(s: State, p: nat, holder: Option<Id>)
    requires Wf(s) && IsHop(s, holder)
  {
    forall f :: f in Fan(s, p, holder, {}) && Target(s, f).Some? ==>
      P(s.prio, Target(s, f).value) >= p || Target(s, f).value in Chain(s, p, holder, {}) + Fan(s, p, holder, {})
  }

  lemma OrderAfterBoost(s: State, s': State, p: nat, m: Id, chain: set<Id>, fan: set<Id>)
    requires Boosted(s, s', p, chain + fan)
    requires forall t :: Target(s, t).Some? && t in chain ==>
               P(s.prio, Target(s, t).value) >= p || Target(s, t).value in chain + fan
    requires forall t :: Target(s, t).Some? && t !in chain ==>
               P(s.prio, t) <= P(s.prio, Target(s, t).value)
               || (P(s.prio, t) <= p && (P(s.prio, Target(s, t).value) >= p || Target(s, t).value in chain))
    requires forall t :: t in chain + fan ==> P(s.prio, t) < p
    ensures Ordered(s') <==>
            forall f :: f in fan && Target(s, f).Some? ==>
              P(s.prio, Target(s, f).value) >= p || Target(s, f).value in chain + fan
  {
    SameTargets(s, s');
    if Ordered(s') {
      forall f | f in fan && Target(s, f).Some?
        ensures P(s.prio, Target(s, f).value) >= p || Target(s, f).value in chain + fan
      {
        assert Target(s', f).Some?;
      }
    }
  }

  lemma {:induction false} RaisedWereBelow(s: State, p: nat, thp: Option<Id>, seen: set<Id>)
    requires Wf(s) && IsHop(s, thp)
    ensures forall t :: t in Chain(s, p, thp, seen) + Fan(s, p, thp, seen) ==> P(s.prio, t) < p
    decreases s.net.threads - seen
  {
    if thp.Some? && P(s.prio, thp.value) < p && thp.value !in seen {
      TargetIsHop(s, thp.value);
      RaisedWereBelow(s, p, Target(s, thp.value), seen + {thp.value});
    }
  }

  lemma WalkRestoresOrder(s: State, p: nat, m: Id, holder: Option<Id>)
    requires Wf(s) && IsHop(s, holder) && Holder(s.waiting, s.owner, m) == holder
    requires forall t :: Target(s, t).Some? ==>
               P(s.prio, t) <= P(s.prio, Target(s, t).value) || (BlockOf(s.block, t) == OnMutex(m) && P(s.prio, t) <= p)
    ensures Wf(Walk(s, p, holder))
    ensures Ordered(Walk(s, p, holder)) <==> FanSafe(s, p, holder)
  {
    WalkBoosts(s, s, p, holder, {});
    var s' := Walk(s, p, holder);
    var chain, fan := Chain(s, p, holder, {}), Fan(s, p, holder, {});
    assert {} + chain + fan == chain + fan;
    RaisedWereBelow(s, p, holder, {});
    forall t | Target(s, t).Some? && t in chain
      ensures P(s.prio, Target(s, t).value) >= p || Target(s, t).value in chain + fan
    {
      ChainClosed(s, p, holder, {}, t);
    }
    assert holder.Some? && P(s.prio, holder.value) < p ==> holder.value in chain;
    OrderAfterBoost(s, s', p, m, chain, fan);
  }

  /** Whatever the wait graph, a blocking lock that starts from an ordered graph ends in an
      ordered graph, the new edge included, exactly when the send case is safe. In
      particular neither the early exit of the walk nor skipping the walk (the caller is
      not the head waiter, or the mutex does not inherit) loses the order. */
  lemma LockRestoresOrder(s: State, act: Id, m: Id, holder: Option<Id>, inherit: bool)
    requires MayBlock(s, act, holder) && Ordered(s)
    ensures Wf(LockBlock(s, act, m, holder, inherit))
    ensures Wf(Blocked(s, act, m, holder, inherit))
    ensures Ordered(LockBlock(s, act, m, holder, inherit)) <==>
            !inherit || !BecomesHead(s, act, m) || FanSafe(Blocked(s, act, m, holder, inherit), P(s.prio, act), holder)
  {
    var p := P(s.prio, act);
    var s1 := Blocked(s, act, m, holder, inherit);
    BlockedKeeps(s, act, m, holder, inherit);
    forall t | Target(s1, t).Some?
      ensures P(s.prio, t) <= P(s.prio, Target(s1, t).value)
              || (inherit && BecomesHead(s, act, m) && BlockOf(s1.block, t) == OnMutex(m) && P(s.prio, t) <= p)
    {
      BlockedEdges(s, act, m, holder, inherit, t);
    }
    if inherit && BecomesHead(s, act, m) {
      WalkRestoresOrder(s1, p, m, holder);
    }
  }

  /** The threads a blocking lock raises: nobody if the caller is not the new head or the mutex
      does not inherit, else those of the walk. */
  ghost function RaisedBy(s: State, act: Id, m: Id, holder: Option<Id>, inherit: bool): set<Id>
    requires MayBlock(s, act, holder)
  {
    var s1, p := Blocked(s, act, m, holder, inherit), P(s.prio, act);
    BlockedKeeps(s, act, m, holder, inherit);
    if inherit && BecomesHead(s, act, m) then Chain(s1, p, holder, {}) + Fan(s1, p, holder, {}) else {}
  }

  /** What a blocking lock does: the caller waits for `m` and is on its queue; nobody else's wait
      and no other queue's members change; the recorded holders are those before, but for `m` if
      the caller becomes its head; and exactly the threads of the walk run at the caller's
      priority. */
  ghost predicate LockAnswer(s: State, s': State, act: Id, m: Id, holder: Option<Id>, inherit: bool)
    requires MayBlock(s, act, holder)
  {
    && (forall u :: BlockOf(s'.block, u) == if u == act then OnMutex(m) else BlockOf(s.block, u))
    && (forall x, n :: x in Queue(s'.waiting, n) <==> x in Queue(s.waiting, n) || (x == act && n == m))
    && (forall n :: Holder(s'.waiting, s'.owner, n) ==
                    if n != m || !BecomesHead(s, act, m) then Holder(s.waiting, s.owner, n)
                    else if inherit then holder else None)
    && (forall u :: P(s'.prio, u) == if u in RaisedBy(s, act, m, holder, inherit) then P(s.prio, act) else P(s.prio, u))
  }

  lemma BlockedWaits(s: State, act: Id, m: Id, holder: Option<Id>, inherit: bool)
    requires MayBlock(s, act, holder)
    ensures var s1 := Blocked(s, act, m, holder, inherit);
            && s1.net == s.net && s1.prio == s.prio && s1.block == s.block[act := OnMutex(m)]
            && (forall x, n :: x in Queue(s1.waiting, n) <==> x in Queue(s.waiting, n) || (x == act && n == m))
            && Placed(Queue(s.waiting, m), Queue(s1.waiting, m), s.prio, act)
  {
    EnqueueQueues(s, act, m);
    InsertJoins(Queue(s.waiting, m), s.prio, act);
    hide WfNet, WfQueues, WfOwners, Placed;
  }

  lemma MembersByBlock(s: State, s': State)
    requires Wf(s) && Wf(s') && s'.block == s.block
    ensures forall x, n :: x in Queue(s'.waiting, n) <==> x in Queue(s.waiting, n)
  {
    forall x, n ensures x in Queue(s'.waiting, n) <==> x in Queue(s.waiting, n) {
      assert x in Queue(s'.waiting, n) <==> BlockOf(s'.block, x) == OnMutex(n);
      assert x in Queue(s.waiting, n) <==> BlockOf(s.block, x) == OnMutex(n);
    }
  }

  /** Whatever keeps the wait graph of the blocked state and raises those threads. */
  lemma AnswerOf(s: State, s': State, act: Id, m: Id, holder: Option<Id>, inherit: bool)
    requires MayBlock(s, act, holder)
    requires SameGraph(Blocked(s, act, m, holder, inherit), s')
    requires forall x, n :: x in Queue(s'.waiting, n) <==> x in Queue(Blocked(s, act, m, holder, inherit).waiting, n)
    requires forall u :: P(s'.prio, u) == if u in RaisedBy(s, act, m, holder, inherit) then P(s.prio, act)
                                          else P(s.prio, u)
    ensures LockAnswer(s, s', act, m, holder, inherit)
  {
    hide MayBlock, Blocked, P, Queue, Holder, RaisedBy, Placed;
    BlockedKeeps(s, act, m, holder, inherit);
    BlockedWaits(s, act, m, holder, inherit);
  }

  lemma WalkAnswers(s: State, act: Id, m: Id, holder: Option<Id>)
    requires MayBlock(s, act, holder) && BecomesHead(s, act, m)
    ensures LockAnswer(s, LockBlock(s, act, m, holder, true), act, m, holder, true)
  {
    hide Wf, Blocked, P, Queue, Holder, Chain, Fan, LockAnswer, BecomesHead, Placed;
    var s1, p := Blocked(s, act, m, holder, true), P(s.prio, act);
    BlockedKeeps(s, act, m, holder, true);
    BlockedWaits(s, act, m, holder, true);
    assert {} + Chain(s1, p, holder, {}) + Fan(s1, p, holder, {}) == RaisedBy(s, act, m, holder, true);
    WalkBoosts(s1, s1, p, holder, {});
    hide Walk;
    MembersByBlock(s1, Walk(s1, p, holder));
    AnswerOf(s, Walk(s1, p, holder), act, m, holder, true);
  }

  lemma LockAnswers(s: State, act: Id, m: Id, holder: Option<Id>, inherit: bool)
    requires MayBlock(s, act, holder)
    ensures LockAnswer(s, LockBlock(s, act, m, holder, inherit), act, m, holder, inherit)
    ensures !inherit || !BecomesHead(s, act, m) ==>
              Placed(Queue(s.waiting, m), Queue(LockBlock(s, act, m, holder, inherit).waiting, m), s.prio, act)
  {
    hide MayBlock, Blocked, P, Queue, Holder, LockAnswer, Placed, BecomesHead;
    if inherit && BecomesHead(s, act, m) {
      WalkAnswers(s, act, m, holder);
    } else {
      BlockedWaits(s, act, m, holder, inherit);
      AnswerOf(s, Blocked(s, act, m, holder, inherit), act, m, holder, inherit);
    }
  }

  lemma HeadHighest(q: seq<Id>, prio: map<Id, nat>, t: Id)
    requires Sorted(q, prio) && t in q
    ensures P(prio, t) <= P(prio, q[0])
  {
  }

  lemma BlockedEdges(s: State, act: Id, m: Id, holder: Option<Id>, inherit: bool, t: Id)
    requires MayBlock(s, act, holder) && Ordered(s) && Target(Blocked(s, act, m, holder, inherit), t).Some?
    ensures var s1 := Blocked(s, act, m, holder, inherit);
            P(s.prio, t) <= P(s.prio, Target(s1, t).value)
            || (inherit && BecomesHead(s, act, m) && BlockOf(s1.block, t) == OnMutex(m)
                && P(s.prio, t) <= P(s.prio, act))
  {
    var q := Queue(s.waiting, m);
    var s1 := Blocked(s, act, m, holder, inherit);
    BlockedKeeps(s, act, m, holder, inherit);
    if BlockOf(s1.block, t) == OnMutex(m) {
      assert t == act || t in q;
      if t in q {
        HeadHighest(q, s.prio, t);
      }
      hide Wf, Sorted, Distinct, Insert, P;
      if !BecomesHead(s, act, m) {
        assert q[0] in q && BlockOf(s.block, q[0]) == OnMutex(m);
        assert Target(s, q[0]) == Target(s1, t);
      }
    } else {
      assert t != act && Target(s1, t) == Target(s, t);
    }
  }

  // ---------------------------------------------------------------- least boost

  /** A priority table that keeps every wait edge in order, send edges included. */
  ghost predicate Consistent(s: State, q: map<Id, nat>) {
    && (forall t :: Target(s, t).Some? ==> P(q, t) <= P(q, Target(s, t).value))
    && (forall t, f :: BoostsBySend(s, t, f) ==> P(q, t) <= P(q, f))
  }

  /** `t` is queued as a sender on a floating-priority channel that `f` serves. */
  predicate BoostsBySend(s: State, t: Id, f: Id) {
    && BlockOf(s.block, t).OnSend?
    && var ch := BlockOf(s.block, t).ch;
    && ch !in s.net.fixed && f in Vector(s.net, ch) && Lookup(s.net.lastChid, f) == Some(ch)
  }

  lemma {:induction false} RaisedNeedBoost(s: State, p: nat, thp: Option<Id>, seen: set<Id>, q: map<Id, nat>)
    requires Wf(s) && IsHop(s, thp) && Consistent(s, q) && (thp.Some? ==> P(q, thp.value) >= p)
    ensures forall u :: u in Chain(s, p, thp, seen) + Fan(s, p, thp, seen) ==> P(q, u) >= p
    decreases s.net.threads - seen
  {
    if thp.Some? && P(s.prio, thp.value) < p && thp.value !in seen {
      TargetIsHop(s, thp.value);
      RaisedNeedBoost(s, p, Target(s, thp.value), seen + {thp.value}, q);
      forall f | f in Fan(s, p, thp, seen) && BlockOf(s.block, thp.value).OnSend? ensures P(q, f) >= p {
        assert BoostsBySend(s, thp.value, f);
      }
    }
  }

  /** No thread is raised further than the order demands: any consistent table that lowers
      no priority lies above the outcome of the lock. */
  lemma LockBoostsLeast(s: State, act: Id, m: Id, holder: Option<Id>, inherit: bool, q: map<Id, nat>, t: Id)
    requires MayBlock(s, act, holder) && Wf(Blocked(s, act, m, holder, inherit))
    requires Consistent(Blocked(s, act, m, holder, inherit), q)
    requires forall u :: P(q, u) >= P(s.prio, u)
    ensures P(s.prio, t) <= P(LockBlock(s, act, m, holder, inherit).prio, t) <= P(q, t)
  {
    var p := P(s.prio, act);
    var s1 := Blocked(s, act, m, holder, inherit);
    BlockedKeeps(s, act, m, holder, inherit);
    if inherit && BecomesHead(s, act, m) {
      assert BlockOf(s1.block, act) == OnMutex(m);
      assert Target(s1, act) == holder;
      RaisedNeedBoost(s1, p, holder, {}, q);
      RaisedWereBelow(s1, p, holder, {});
      WalkBoosts(s1, s1, p, holder, {});
    }
  }

  /** Thread 1 (priority 10) is about to block on a mutex held by 2, which is queued as a
      sender on channel 7, served by 3; 3 waits itself for a mutex held by 4. */
  function NestedServer(): State {
    State(
      Net({1, 2, 3, 4}, map[], {}, map[7 := [3]], map[3 := 7]),
      map[2 := OnSend(7), 3 := OnMutex(9)],
      map[1 := 10, 2 := 5, 3 := 5, 4 := 5],
      map[9 := [3]],
      map[3 := 4])
  }

  lemma NestedServerQueues()
    ensures var s := NestedServer(); WfQueues(s.block, s.prio, s.waiting)
  {
    var s := NestedServer();
    assert forall m :: Queue(s.waiting, m) == if m == 9 then [3] else [];
  }

  lemma NestedServerOwners()
    ensures var s := NestedServer(); WfNet(s.net) && WfOwners(s.net, s.waiting, s.owner)
  {
    var s := NestedServer();
    assert forall m :: Queue(s.waiting, m) == if m == 9 then [3] else [];
  }

  lemma NestedServerIsWf()
    ensures MayBlock(NestedServer(), 1, Some(2)) && Ordered(NestedServer())
  {
    NestedServerQueues();
    NestedServerOwners();
    hide WfNet, WfQueues, WfOwners;
    var s := NestedServer();
    assert Queue(s.waiting, 9) == [3];
    assert forall t :: Target(s, t).Some? ==> t == 3;
  }

  /** The send case can break the order: 3 is raised to 10, and 4, for which it waits,
      stays at 5. */
  lemma SendCaseBreaksOrder()
    ensures MayBlock(NestedServer(), 1, Some(2)) && Ordered(NestedServer())
    ensures !Ordered(LockBlock(NestedServer(), 1, 8, Some(2), true))
  {
    NestedServerIsWf();
    NestedServerBlocked();
    LockRestoresOrder(NestedServer(), 1, 8, Some(2), true);
    assert BecomesHead(NestedServer(), 1, 8) && P(NestedServer().prio, 1) == 10;
    NestedServerFan(Blocked(NestedServer(), 1, 8, Some(2), true));
  }

  lemma NestedServerBlocked()
    ensures var s1 := Blocked(NestedServer(), 1, 8, Some(2), true);
            && s1.net == NestedServer().net && s1.prio == NestedServer().prio
            && BlockOf(s1.block, 2) == OnSend(7) && Target(s1, 3) == Some(4) && Target(s1, 2) == None
            && BecomesHead(NestedServer(), 1, 8)
  {
    var s := NestedServer();
    assert Queue(s.waiting, 8) == [] && BecomesHead(s, 1, 8);
    var s1 := Blocked(s, 1, 8, Some(2), true);
    assert s1.block == s.block[1 := OnMutex(8)];
    assert BlockOf(s1.block, 3) == OnMutex(9) && Queue(s1.waiting, 9) == [3];
  }

  lemma NestedServerFan(s1: State)
    requires Wf(s1) && s1.net == NestedServer().net && s1.prio == NestedServer().prio
    requires BlockOf(s1.block, 2) == OnSend(7) && Target(s1, 3) == Some(4) && Target(s1, 2) == None
    ensures !FanSafe(s1, 10, Some(2))
  {
    assert Vector(s1.net, 7) == [3];
    assert 3 in Slow(s1, 10, 7, [3]);
    var fan, chain := Fan(s1, 10, Some(2), {}), Chain(s1, 10, Some(2), {});
    assert fan == Slow(s1, 10, 7, [3]) - {} - {2};
    assert Chain(s1, 10, None, {} + {2}) == {};
    assert 3 in fan && 4 !in chain + fan;
  }
}

/**
 The same calls in the form of the code: the kernel's tables as fields that the methods
 change in place, with the loops of the source.
 */
module InheritanceKernel {
  import opened Base
  import opened Pril
  import opened Inheritance

  class Kernel {
    const net: Net
    var block: map<Id, Block>
    var prio: map<Id, nat>
    var waiting: map<Id, seq<Id>>
    var owner: map<Id, Id>

    constructor (net: Net)
      ensures this.net == net && View() == State(net, map[], map[], map[], map[])
    {
      this.net := net;
      block, prio, waiting, owner := map[], map[], map[], map[];
    }

    function View(): State
      reads this
    {
      State(net, block, prio, waiting, owner)
    }

    /** `adjust_priority` */
    method AdjustPriority(t: Id, p: nat)
      modifies this`prio, this`waiting, this`owner
      ensures View() == Adjust(old(View()), t, p)
    {
      if P(prio, t) == p {
        return;
      }
      if BlockOf(block, t).OnMutex? {
        var m := BlockOf(block, t).m;
        var q := Queue(waiting, m);
        var record := None;
        if |q| > 0 {
          record := Lookup(owner, q[0]);
          owner := owner - {q[0]};
        }
        var rest := Remove(q, t);
        prio := prio[t := p];
        var q' := Add(rest, prio, t);
        waiting := waiting[m := q'];
        if |q| > 0 {
          owner := SetOwner(owner, q'[0], record);
        }
      } else {
        prio := prio[t := p];
      }
    }

    /** The loop of the send case over the threads of the server process. */
    method BoostServers(p: nat, ch: Id)
      modifies this`prio, this`waiting, this`owner
      ensures View() == FanOut(old(View()), p, ch, Vector(net, ch))
    {
      var v := Vector(net, ch);
      var i := 0;
      while i < |v|
        invariant 0 <= i <= |v|
        invariant block == old(block)
        invariant FanOut(View(), p, ch, v[i..]) == FanOut(old(View()), p, ch, v)
      {
        assert v[i..][1..] == v[i + 1..];
        if P(prio, v[i]) < p && Lookup(net.lastChid, v[i]) == Some(ch) {
          AdjustPriority(v[i], p);
        }
        i := i + 1;
      }
    }

    /** The inheritance loop; it ends on cyclic wait graphs too. */
    method Inherit(p: nat, start: Option<Id>)
      requires Wf(View()) && IsHop(View(), start)
      modifies this`prio, this`waiting, this`owner
      ensures View() == Walk(old(View()), p, start)
    {
      var thp := start;
      while thp.Some? && p > P(prio, thp.value)
        invariant Wf(View()) && IsHop(View(), thp) && block == old(block)
        invariant Walk(View(), p, thp) == Walk(old(View()), p, start)
        decreases |Below(View(), p)|
      {
        var t := thp.value;
        AdjustBoosts(View(), t, p);
        BelowShrinks(View(), Adjust(View(), t, p), p, t);
        AdjustPriority(t, p);
        TargetIsHop(View(), t);
        match BlockOf(block, t) {
          case OnSend(ch) =>
            if ch !in net.fixed {
              BoostServers(p, ch);
            }
            return;
          case OnReply(ch) =>
            if ch in net.fixed {
              return;
            }
            thp := Lookup(net.server, t);
          case OnMutex(m) =>
            thp := Holder(waiting, owner, m);
          case Ready =>
            return;
        }
      }
    }

    /** The blocking tail of `sync_mutex_lock`. */
    method BlockOnMutex(act: Id, m: Id, holder: Option<Id>, inherit: bool)
      requires MayBlock(View(), act, holder)
      modifies this
      ensures View() == LockBlock(old(View()), act, m, holder, inherit)
      ensures LockAnswer(old(View()), View(), act, m, holder, inherit)
    {
      LockAnswers(View(), act, m, holder, inherit);
      hide WfNet, WfQueues, WfOwners, Enqueue, Walk, Insert, P, LockAnswer;
      BlockedKeeps(View(), act, m, holder, inherit);
      HeadChanges(View(), act, m);
      var head := JoinQueue(act, m);
      if inherit && head == act {
        owner := SetOwner(owner, act, holder);
        Inherit(P(prio, act), holder);
      }
    }

    /** The caller joins the queue and the new head is read back. */
    method JoinQueue(act: Id, m: Id) returns (head: Id)
      modifies this
      ensures View() == Enqueue(old(View()), act, m) && prio == old(prio)
      ensures Insert(Queue(old(waiting), m), old(prio), act) != []
      ensures head == Insert(Queue(old(waiting), m), old(prio), act)[0]
    {
      var q := Queue(waiting, m);
      block := block[act := OnMutex(m)];
      owner := owner - {act};
      if |q| > 0 && P(prio, act) > P(prio, q[0]) {
        owner := owner - {q[0]};
      }
      var q' := Add(q, prio, act);
      waiting := waiting[m := q'];
      head := q'[0];
      assert owner == Enqueue(old(View()), act, m).owner;
    }
  }
}
