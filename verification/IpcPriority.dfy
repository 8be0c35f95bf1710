/**
 Priority through a channel: servers run at least at the priority of what is queued for them.
 */
module IpcPriority {
  import opened Base
  import opened Pril
  import opened Ipc

  /** The priority at which a queued message or pulse asks to be handled. */
  function EntryPrio(prio: map<Id, nat>, pulses: map<Id, Pulse>, x: Id): nat {
    if x in pulses then pulses[x].priority else P(prio, x)
  }

  /** `f` is a thread of the channel's process that last received on the channel. */
  predicate Serves(s: State, f: Id, ch: Id) {
    f in Vector(s.net, ch) && Lookup(s.lastChid, f) == Some(ch)
  }

  /** No server of the channel runs below an entry of its send queue. */
  ghost predicate NoInversion(s: State, ch: Id) {
    forall f, x :: Serves(s, f, ch) && x in Q(s.sendq, ch) ==> P(s.prio, f) >= EntryPrio(s.prio, s.pulses, x)
  }

  /** ... for every channel with message-driven priority. */
  ghost predicate AllOrdered(s: State) {
    forall ch :: ch !in s.net.fixed ==> NoInversion(s, ch)
  }

  /** A waiting receiver has noted its channel. */
  ghost predicate RecvNoted(st: map<Id, TState>, lastChid: map<Id, Id>) {
    forall t :: StOf(st, t).ReceiveOn? ==> Lookup(lastChid, t) == Some(StOf(st, t).ch)
  }

  /** A pulse never stands in a queue below its priority. */
  ghost predicate PulsesKeyed(pulses: map<Id, Pulse>, prio: map<Id, nat>) {
    forall x :: x in pulses ==> P(prio, x) >= pulses[x].priority
  }

  ghost predicate Noted(s: State) {
    RecvNoted(s.st, s.lastChid) && PulsesKeyed(s.pulses, s.prio)
  }

  /** Servers that a queued send at priority `p` on channel `ch` raises. */
  predicate IsBoosted(s: State, p: nat, ch: Id, f: Id) {
    ch !in s.net.fixed && Serves(s, f, ch) && P(s.prio, f) < p
  }

  /** A raised server that is itself queued as a client must find all servers of that other
      channel at the new priority. */
  ghost predicate NestedSafe(s: State, p: nat, ch: Id) {
    forall f, n, g :: IsBoosted(s, p, ch, f) && n !in s.net.fixed && f in Q(s.sendq, n) && Serves(s, g, n) ==>
      P(s.prio, g) >= p || IsBoosted(s, p, ch, g)
  }

  lemma BoostEffect(s: State, p: nat, ch: Id)
    requires Inv(s)
    ensures var s' := BoostServers(s, p, ch);
            && s'.net == s.net
            && (forall f, n :: Serves(s', f, n) <==> Serves(s, f, n))
            && (forall x, n :: x in Q(s'.sendq, n) <==> x in Q(s.sendq, n))
            && (forall u :: P(s'.prio, u) == if IsBoosted(s, p, ch, u) then p else P(s.prio, u))
            && (forall x :: EntryPrio(s'.prio, s'.pulses, x) ==
                            if IsBoosted(s, p, ch, x) then p else EntryPrio(s.prio, s.pulses, x))
  {
    BoostServersKeeps(s, p, ch);
    BoostedAreThreads(s, p, ch);
    hide Inv, Q, BoostServers, P;
  }

  lemma BoostedAreThreads(s: State, p: nat, ch: Id)
    requires Inv(s)
    ensures forall f :: IsBoosted(s, p, ch, f) ==> f !in s.pulses
  {
    hide RecvAgree, ReplyAgree, SendAgree, RecvOrder, NoIdle;
  }

  /** Boosting the servers of `ch` to `p` settles every entry of priority `p` there, and
      disturbs no other channel exactly when nested senders are safe. */
  lemma BoostOrder(s: State, p: nat, ch: Id)
    requires Inv(s) && forall n, f, x :: n !in s.net.fixed && Serves(s, f, n) && x in Q(s.sendq, n) ==>
               P(s.prio, f) >= EntryPrio(s.prio, s.pulses, x) || (n == ch && EntryPrio(s.prio, s.pulses, x) == p)
    ensures AllOrdered(BoostServers(s, p, ch)) <==> NestedSafe(s, p, ch)
  {
    BoostEffect(s, p, ch);
    var s' := BoostServers(s, p, ch);
    hide Inv, Q, BoostServers, Serves, P, EntryPrio;
    if NestedSafe(s, p, ch) {
      forall n | n !in s.net.fixed ensures NoInversion(s', n) {
        forall f, x | Serves(s', f, n) && x in Q(s'.sendq, n)
          ensures P(s'.prio, f) >= EntryPrio(s'.prio, s'.pulses, x)
        {
          assert Serves(s, f, n) && x in Q(s.sendq, n);
        }
      }
    }
    if AllOrdered(s') {
      forall f, n, g | IsBoosted(s, p, ch, f) && n !in s.net.fixed && f in Q(s.sendq, n) && Serves(s, g, n)
        ensures P(s.prio, g) >= p || IsBoosted(s, p, ch, g)
      {
        assert NoInversion(s', n);
        assert Serves(s', g, n) && f in Q(s'.sendq, n);
      }
    }
  }

  /** All pairs of a server other than `t` and a queued entry are in order. */
  ghost predicate OthersOrdered(s: State, t: Id) {
    forall n, f, x :: n !in s.net.fixed && f != t && Serves(s, f, n) && x in Q(s.sendq, n) ==>
      P(s.prio, f) >= EntryPrio(s.prio, s.pulses, x)
  }

  /** The entries `q` of channel `ch` ask for no more than `p`, if `t` has to answer for them. */
  predicate Settles(s: State, t: Id, ch: Id, q: seq<Id>, p: nat) {
    ch !in s.net.fixed && t in Vector(s.net, ch) ==>
      forall y :: y in q ==> EntryPrio(s.prio, s.pulses, y) <= p
  }

  /** A thread that works for channel `ch` only and is not queued itself ends a call at
      priority `p`, with at least the entries of `q` above `p` still queued. */
  lemma SettleOrder(s: State, s': State, t: Id, ch: Id, q: seq<Id>, p: nat)
    requires OthersOrdered(s, t)
    requires s'.net == s.net && s'.lastChid == s.lastChid && Lookup(s.lastChid, t) == Some(ch)
    requires forall n :: t !in Q(s'.sendq, n)
    requires ch !in s.net.fixed ==> P(s'.prio, t) == p
    requires forall f :: f != t ==> P(s'.prio, f) == P(s.prio, f)
    requires forall n, x :: x in Q(s'.sendq, n) ==> x in Q(s.sendq, n)
    requires forall n, x :: x in Q(s'.sendq, n) ==> SamePulse(s, s', x)
    requires forall y :: y in Q(s'.sendq, ch) ==> y in q
    requires forall y :: y in q && y !in Q(s'.sendq, ch) ==> EntryPrio(s.prio, s.pulses, y) <= p
    ensures AllOrdered(s') <==> Settles(s, t, ch, q, p)
  {
    hide Q, P;
    assert forall f, n :: Serves(s', f, n) <==> Serves(s, f, n);
    forall x, n | x in Q(s'.sendq, n)
      ensures EntryPrio(s'.prio, s'.pulses, x) == EntryPrio(s.prio, s.pulses, x)
    {
      assert SamePulse(s, s', x);
    }
    if Settles(s, t, ch, q, p) {
      forall n | n !in s.net.fixed ensures NoInversion(s', n) {
      }
    }
    if AllOrdered(s') && ch !in s.net.fixed && t in Vector(s.net, ch) {
      assert Serves(s', t, ch);
      assert NoInversion(s', ch);
    }
  }

  predicate SamePulse(s: State, s': State, x: Id) {
    && (x in s'.pulses <==> x in s.pulses)
    && (x in s.pulses && x in s'.pulses ==> s'.pulses[x] == s.pulses[x])
  }

  /** A shorter send queue and a change of thread states keep the order. */
  lemma ShrinkOrder(s: State, s': State, t: Id)
    requires s'.net == s.net && s'.prio == s.prio && s'.lastChid == s.lastChid
    requires forall x, n :: x in Q(s'.sendq, n) ==> x in Q(s.sendq, n)
    requires forall x, n :: x in Q(s'.sendq, n) ==> (x in s'.pulses <==> x in s.pulses)
    requires forall x :: x in s'.pulses && x in s.pulses ==> s'.pulses[x] == s.pulses[x]
    ensures AllOrdered(s) ==> AllOrdered(s')
    ensures OthersOrdered(s, t) ==> OthersOrdered(s', t)
  {
    hide Q, P;
    assert forall f, n :: Serves(s', f, n) <==> Serves(s, f, n);
    assert forall x, n :: x in Q(s'.sendq, n) ==> EntryPrio(s'.prio, s'.pulses, x) == EntryPrio(s.prio, s.pulses, x);
    if AllOrdered(s) {
      forall n | n !in s.net.fixed ensures NoInversion(s', n) {
        assert NoInversion(s, n);
      }
    }
  }

  /** Whether the send goes to the queue. */
  predicate Queues(s: State, c: Id, refused: bool) {
    && c in s.net.chan && !refused
    && (Q(s.recvq, s.net.chan[c]) == [] || Q(s.recvq, s.net.chan[c])[0] in s.pulseOnly)
  }

  /** The entry `x` of priority `p` joins the queue of `ch`, then the servers are boosted. */
  lemma JoinOrder(s: State, s1: State, x: Id, p: nat, ch: Id)
    requires AllOrdered(s) && Inv(s1) && s1.net == s.net && s1.lastChid == s.lastChid
    requires forall y, n :: y in Q(s1.sendq, n) <==> y in Q(s.sendq, n) || (y == x && n == ch)
    requires forall y :: y != x ==> P(s1.prio, y) == P(s.prio, y) && SamePulse(s, s1, y)
    requires EntryPrio(s1.prio, s1.pulses, x) == p
    requires P(s1.prio, x) == P(s.prio, x) || forall n :: !Serves(s, x, n)
    requires (forall n :: !Serves(s, x, n)) || P(s.prio, x) == p
    requires forall n :: x !in Q(s.sendq, n)
    ensures AllOrdered(BoostServers(s1, p, ch)) <==> NestedSafe(s, p, ch)
  {
    hide Inv, Q, P, BoostServers;
    assert forall f, n :: Serves(s1, f, n) <==> Serves(s, f, n);
    assert forall f :: IsBoosted(s1, p, ch, f) <==> IsBoosted(s, p, ch, f);
    assert !IsBoosted(s, p, ch, x);
    forall n, f, y | n !in s1.net.fixed && Serves(s1, f, n) && y in Q(s1.sendq, n)
      ensures P(s1.prio, f) >= EntryPrio(s1.prio, s1.pulses, y) || (n == ch && EntryPrio(s1.prio, s1.pulses, y) == p)
    {
      assert NoInversion(s, n);
      assert Serves(s, f, n);
      assert y != x ==> SamePulse(s, s1, y);
    }
    BoostOrder(s1, p, ch);
    assert NestedSafe(s1, p, ch) <==> NestedSafe(s, p, ch);
  }

  lemma JoinedBy(sendq: map<Id, seq<Id>>, prio: map<Id, nat>, ch: Id, x: Id)
    ensures var sendq' := sendq[ch := Insert(Q(sendq, ch), prio, x)];
            forall y, n :: y in Q(sendq', n) <==> y in Q(sendq, n) || (y == x && n == ch)
  {
  }

  lemma QueueSenderOrder(s: State, t: Id, c: Id, ch: Id)
    requires Inv(s) && AllOrdered(s) && t >= 0 && StOf(s.st, t) == Ready && Lookup(s.net.chan, c) == Some(ch)
    requires Q(s.recvq, ch) == [] || Q(s.recvq, ch)[0] in s.pulseOnly
    ensures AllOrdered(QueueSender(s, t, c, ch)) <==> NestedSafe(s, P(s.prio, t), ch)
  {
    hide Inv, Q, P, Insert, AllOrdered, NestedSafe, BoostServers;
    QueueSenderKeeps(s, t, c, ch);
    NotQueued(s, t);
    JoinedBy(s.sendq, s.prio, ch, t);
    MessageEntry(s.prio, s.pulses, t);
    hide EntryPrio, Serves;
    var s1 := Enqueue(s, t, c, ch);
    JoinOrder(s, s1, t, P(s.prio, t), ch);
  }

  lemma NotQueued(s: State, t: Id)
    requires Inv(s) && t >= 0 && !StOf(s.st, t).SendOn?
    ensures t !in s.pulses && forall n :: t !in Q(s.sendq, n)
  {
    ThreadFacts(s, t);
    forall n ensures t !in Q(s.sendq, n) {
      assert t in Q(s.sendq, n) <==> QueuedAt(s.net.chan, s.st, s.pulses, t, n);
    }
  }

  /** ... for a thread that takes the priority `p` by the rule of the channel. */
  lemma SettleAt(s: State, s': State, t: Id, ch: Id, q: seq<Id>, p: nat)
    requires Inv(s) && OthersOrdered(s, t) && t >= 0 && !StOf(s.st, t).SendOn? && Lookup(s.lastChid, t) == Some(ch)
    requires s'.net == s.net && s'.lastChid == s.lastChid && s'.prio == SetPrio(s, t, p, ch).prio
    requires forall n, x :: x in Q(s'.sendq, n) ==> x in Q(s.sendq, n)
    requires forall n, x :: x in Q(s'.sendq, n) ==> SamePulse(s, s', x)
    requires forall y :: y in Q(s'.sendq, ch) ==> y in q
    requires forall y :: y in q && y !in Q(s'.sendq, ch) ==> EntryPrio(s.prio, s.pulses, y) <= p
    ensures AllOrdered(s') <==> Settles(s, t, ch, q, p)
  {
    assert ch !in s.net.fixed ==> P(s'.prio, t) == p;
    assert forall f :: f != t ==> P(s'.prio, f) == P(s.prio, f);
    hide Inv, P, Q, OthersOrdered, AllOrdered, Settles, EntryPrio, SamePulse;
    NotQueued(s, t);
    SettleOrder(s, s', t, ch, q, p);
  }

  lemma HeadReceiver(s: State, ch: Id)
    requires Inv(s) && Noted(s) && Q(s.recvq, ch) != []
    ensures var r := Q(s.recvq, ch)[0];
            && r >= 0 && StOf(s.st, r) == ReceiveOn(ch) && Lookup(s.lastChid, r) == Some(ch)
            && (r !in s.pulseOnly ==> forall x :: x !in Q(s.sendq, ch))
  {
    var r := Q(s.recvq, ch)[0];
    assert r in Q(s.recvq, ch);
    assert StOf(s.st, r) == ReceiveOn(ch);
  }

  lemma HandshakeOrder(s: State, t: Id, c: Id, ch: Id)
    requires Inv(s) && Noted(s) && AllOrdered(s) && t >= 0 && StOf(s.st, t) == Ready
    requires Lookup(s.net.chan, c) == Some(ch)
    requires Q(s.recvq, ch) != [] && Q(s.recvq, ch)[0] !in s.pulseOnly
    ensures AllOrdered(Handshake(s, t, c, ch))
  {
    hide Inv, Noted, AllOrdered, OthersOrdered, Q, P, EntryPrio;
    var r := Q(s.recvq, ch)[0];
    HandshakeParts(s, t, c, ch);
    hide Handshake, SetPrio;
    HeadReceiver(s, ch);
    OrderedOthers(s, r);
    SettleAt(s, Handshake(s, t, c, ch), r, ch, [], P(s.prio, t));
  }

  lemma HandshakeParts(s: State, t: Id, c: Id, ch: Id)
    requires Q(s.recvq, ch) != []
    ensures Handshake(s, t, c, ch).net == s.net && Handshake(s, t, c, ch).lastChid == s.lastChid
    ensures Handshake(s, t, c, ch).sendq == s.sendq && Handshake(s, t, c, ch).pulses == s.pulses
    ensures Handshake(s, t, c, ch).prio == SetPrio(s, Q(s.recvq, ch)[0], P(s.prio, t), ch).prio
  {
    hide Q, P;
  }

  lemma OrderedOthers(s: State, t: Id)
    requires AllOrdered(s)
    ensures OthersOrdered(s, t)
  {
    forall n, f, x | n !in s.net.fixed && f != t && Serves(s, f, n) && x in Q(s.sendq, n)
      ensures P(s.prio, f) >= EntryPrio(s.prio, s.pulses, x)
    {
      assert NoInversion(s, n);
    }
  }

  /** A send keeps every floating-priority channel free of inversion exactly when no server
      it raises is itself queued where a slower server works. */
  lemma SendKeepsOrder(s: State, t: Id, c: Id, copy: Copy, refused: bool)
    requires Inv(s) && Noted(s) && AllOrdered(s) && t >= 0 && StOf(s.st, t) == Ready
    ensures AllOrdered(Send(s, t, c, copy, refused)) <==>
            (Queues(s, c, refused) ==> NestedSafe(s, P(s.prio, t), s.net.chan[c]))
  {
    hide Inv, Noted, AllOrdered, NestedSafe;
    if c in s.net.chan && !refused {
      var ch := s.net.chan[c];
      if Queues(s, c, refused) {
        QueueSenderOrder(s, t, c, ch);
      } else {
        HandshakeOrder(s, t, c, ch);
        ShrinkOrder(s, ReleaseReceiver(s, ch), t);
      }
    }
  }

  /** A pulse that finds a waiting receiver gives it the pulse's priority. */
  lemma DeliverOrder(s: State, ch: Id, p: nat)
    requires Inv(s) && Noted(s) && AllOrdered(s) && Q(s.recvq, ch) != []
    ensures var r := Q(s.recvq, ch)[0];
            AllOrdered(SetPrio(ReleaseReceiver(s, ch), r, p, ch)) <==> Settles(s, r, ch, Q(s.sendq, ch), p)
  {
    hide Inv, Noted, AllOrdered, OthersOrdered, Q, P, Settles, EntryPrio;
    var r := Q(s.recvq, ch)[0];
    HeadReceiver(s, ch);
    OrderedOthers(s, r);
    var s' := SetPrio(ReleaseReceiver(s, ch), r, p, ch);
    assert s'.net == s.net && s'.lastChid == s.lastChid && s'.sendq == s.sendq && s'.pulses == s.pulses;
    assert s'.prio == SetPrio(s, r, p, ch).prio;
    hide SetPrio;
    SettleAt(s, s', r, ch, Q(s.sendq, ch), p);
  }

  lemma QueuePulseOrder(s: State, ch: Id, x: Id, p: nat, key: nat)
    requires Inv(s) && AllOrdered(s) && x < 0 && x !in s.pulses && key >= p && Q(s.recvq, ch) == []
    ensures AllOrdered(BoostServers(QueuePulse(s, ch, x, p, key), p, ch)) <==> NestedSafe(s, p, ch)
  {
    UpdatePrio(s.prio, x, key);
    hide Inv, Q, P, Insert, AllOrdered, NestedSafe, BoostServers;
    var s1 := QueuePulse(s, ch, x, p, key);
    QueuePulseKeeps(s, ch, x, p, key);
    PulseNotQueued(s, x);
    NoPulseServes(s, x);
    JoinedBy(s.sendq, s.prio[x := key], ch, x);
    PulseEntry(s1.prio, s1.pulses, x);
    hide EntryPrio, Serves;
    JoinOrder(s, s1, x, p, ch);
  }

  lemma NoPulseServes(s: State, x: Id)
    requires Inv(s) && x < 0
    ensures forall n :: !Serves(s, x, n)
  {
    hide RecvAgree, ReplyAgree, SendAgree, RecvOrder, NoIdle;
  }

  lemma PulseNotQueued(s: State, x: Id)
    requires Inv(s) && x < 0 && x !in s.pulses
    ensures forall n :: x !in Q(s.sendq, n)
  {
    forall n ensures x !in Q(s.sendq, n) {
      assert x in Q(s.sendq, n) <==> QueuedAt(s.net.chan, s.st, s.pulses, x, n);
      assert StOf(s.st, x) == Ready;
    }
  }

  lemma MergePulseOrder(s: State, ch: Id, p: nat)
    requires Inv(s) && AllOrdered(s)
    ensures AllOrdered(BoostServers(s, p, ch)) <==> NestedSafe(s, p, ch)
  {
    hide Inv, Q, P;
    forall n, f, y | n !in s.net.fixed && Serves(s, f, n) && y in Q(s.sendq, n)
      ensures P(s.prio, f) >= EntryPrio(s.prio, s.pulses, y)
    {
      assert NoInversion(s, n);
    }
    BoostOrder(s, p, ch);
  }

  /** What the receive loop leaves of a send queue before it stops: leading senders that
      fault are gone. */
  function Skip(q: seq<Id>, pulses: map<Id, Pulse>, bad: set<Id>): seq<Id> {
    if q != [] && q[0] !in pulses && q[0] in bad then Skip(q[1..], pulses, bad) else q
  }

  /** The priority a receiver ends up with when the queue is `q`. */
  function TakenPrio(s: State, t: Id, q: seq<Id>, dstFault: bool): nat {
    if q == [] || (q[0] !in s.pulses && dstFault) then P(s.prio, t) else EntryPrio(s.prio, s.pulses, q[0])
  }

  lemma RemovedFrom(sendq: map<Id, seq<Id>>, ch: Id, x: Id)
    requires Distinct(Q(sendq, ch))
    ensures var sendq' := sendq[ch := Remove(Q(sendq, ch), x)];
            forall y, n :: y in Q(sendq', n) <==> y in Q(sendq, n) && !(n == ch && y == x)
  {
    RemoveMembers(Q(sendq, ch), x);
  }

  /** Two channels do not share a queued entry. */
  lemma QueuedOnce(s: State, x: Id, ch: Id)
    requires Inv(s) && x in Q(s.sendq, ch)
    ensures forall n :: x in Q(s.sendq, n) ==> n == ch
  {
    assert QueuedAt(s.net.chan, s.st, s.pulses, x, ch);
    forall n | x in Q(s.sendq, n) ensures n == ch {
      assert QueuedAt(s.net.chan, s.st, s.pulses, x, n);
    }
  }

  lemma TakePulseParts(s: State, t: Id, ch: Id, x: Id, last: bool)
    requires x in s.pulses
    ensures TakePulse(s, t, ch, x, last).net == s.net
    ensures TakePulse(s, t, ch, x, last).lastChid == s.lastChid
    ensures TakePulse(s, t, ch, x, last).prio == SetPrio(s, t, s.pulses[x].priority, ch).prio
    ensures TakePulse(s, t, ch, x, last).sendq == if last then s.sendq[ch := Remove(Q(s.sendq, ch), x)] else s.sendq
    ensures TakePulse(s, t, ch, x, last).pulses == if last then s.pulses - {x} else s.pulses
  {
    hide Q, Remove, DropClient, P;
    var p := s.pulses[x].priority;
    var s0 := SetPrio(s, t, p, ch);
    assert s0 == s.(prio := s0.prio);
    hide SetPrio;
    DropClientParts(s0, t);
  }

  lemma PulseTakenOrder(s: State, s': State, t: Id, ch: Id, x: Id, p: nat, last: bool)
    requires Inv(s) && OthersOrdered(s, t) && t >= 0 && StOf(s.st, t) == Ready && Lookup(s.lastChid, t) == Some(ch)
    requires x in Q(s.sendq, ch) && EntryPrio(s.prio, s.pulses, x) == p
    requires s'.net == s.net && s'.lastChid == s.lastChid && s'.prio == SetPrio(s, t, p, ch).prio
    requires s'.sendq == if last then s.sendq[ch := Remove(Q(s.sendq, ch), x)] else s.sendq
    requires s'.pulses == if last then s.pulses - {x} else s.pulses
    ensures AllOrdered(s') <==> Settles(s, t, ch, Q(s.sendq, ch), p)
  {
    assert Distinct(Q(s.sendq, ch)) by { hide ReplyAgree, RecvAgree, RecvOrder, NoIdle; }
    hide Inv, P, Q, OthersOrdered, AllOrdered, Settles, Remove, EntryPrio, SetPrio;
    QueuedOnce(s, x, ch);
    RemovedFrom(s.sendq, ch, x);
    if last {
      assert forall n, y :: y in Q(s'.sendq, n) ==> y in Q(s.sendq, n) && y != x;
    }
    SettleAt(s, s', t, ch, Q(s.sendq, ch), p);
  }

  lemma TakePulseOrder(s: State, t: Id, ch: Id, x: Id, last: bool)
    requires Inv(s) && OthersOrdered(s, t) && t >= 0 && StOf(s.st, t) == Ready && Lookup(s.lastChid, t) == Some(ch)
    requires x in s.pulses && x in Q(s.sendq, ch)
    ensures AllOrdered(TakePulse(s, t, ch, x, last)) <==> Settles(s, t, ch, Q(s.sendq, ch), s.pulses[x].priority)
  {
    hide *;
    TakePulseParts(s, t, ch, x, last);
    assert EntryPrio(s.prio, s.pulses, x) == s.pulses[x].priority by { PulseEntry(s.prio, s.pulses, x); }
    PulseTakenOrder(s, TakePulse(s, t, ch, x, last), t, ch, x, s.pulses[x].priority, last);
  }

  lemma MessageEntry(prio: map<Id, nat>, pulses: map<Id, Pulse>, x: Id)
    requires x !in pulses
    ensures EntryPrio(prio, pulses, x) == P(prio, x)
  {
  }

  lemma PulseEntry(prio: map<Id, nat>, pulses: map<Id, Pulse>, x: Id)
    requires x in pulses
    ensures EntryPrio(prio, pulses, x) == pulses[x].priority
  {
  }

  lemma TakeMessageParts(s: State, t: Id, ch: Id, x: Id)
    requires StOf(s.st, x).SendOn?
    ensures TakeMessage(s, t, ch, x).net == s.net
    ensures TakeMessage(s, t, ch, x).lastChid == s.lastChid
    ensures TakeMessage(s, t, ch, x).prio == SetPrio(s, t, P(s.prio, x), ch).prio
    ensures TakeMessage(s, t, ch, x).sendq == s.sendq[ch := Remove(Q(s.sendq, ch), x)]
    ensures TakeMessage(s, t, ch, x).pulses == s.pulses
  {
    hide Q, Remove, DropClient, P;
    DropClientParts(s, t);
  }

  lemma TakeMessageOrder(s: State, t: Id, ch: Id, x: Id)
    requires Inv(s) && OthersOrdered(s, t) && t >= 0 && StOf(s.st, t) == Ready && Lookup(s.lastChid, t) == Some(ch)
    requires x in Q(s.sendq, ch) && x !in s.pulses && StOf(s.st, x).SendOn?
    ensures AllOrdered(TakeMessage(s, t, ch, x)) <==> Settles(s, t, ch, Q(s.sendq, ch), P(s.prio, x))
  {
    assert Distinct(Q(s.sendq, ch)) by { hide ReplyAgree, RecvAgree, RecvOrder, NoIdle; }
    hide Inv, P, Q, OthersOrdered, AllOrdered, Settles, Remove, EntryPrio, SetPrio, TakeMessage;
    RemovedFrom(s.sendq, ch, x);
    TakeMessageParts(s, t, ch, x);
    MessageEntry(s.prio, s.pulses, x);
    SettleAt(s, TakeMessage(s, t, ch, x), t, ch, Q(s.sendq, ch), P(s.prio, x));
  }

  /** A receive that changes neither the send queue nor the receiver's priority. */
  lemma IdleOrder(s: State, s': State, t: Id, ch: Id)
    requires Inv(s) && OthersOrdered(s, t) && t >= 0 && StOf(s.st, t) == Ready && Lookup(s.lastChid, t) == Some(ch)
    requires s'.net == s.net && s'.lastChid == s.lastChid && s'.prio == s.prio && s'.sendq == s.sendq
    requires s'.pulses == s.pulses
    ensures AllOrdered(s') <==> Settles(s, t, ch, Q(s.sendq, ch), P(s.prio, t))
  {
    NotQueued(s, t);
    hide Inv, P, OthersOrdered, AllOrdered, Settles, Q;
    SettleOrder(s, s', t, ch, Q(s.sendq, ch), P(s.prio, t));
  }

  lemma UnblockSenderOrder(s: State, t: Id, x: Id, ch: Id)
    requires Inv(s) && x in Q(s.sendq, ch) && x !in s.pulses
    ensures var s' := UnblockSender(s, x, ch);
            && (OthersOrdered(s, t) ==> OthersOrdered(s', t))
            && (AllOrdered(s) ==> AllOrdered(s'))
  {
    assert Distinct(Q(s.sendq, ch));
    RemovedFrom(s.sendq, ch, x);
    hide Inv, OthersOrdered, AllOrdered, Remove, Q;
    var s' := UnblockSender(s, x, ch);
    ShrinkOrder(s, s', t);
  }

  lemma BadSenderLeaves(s: State, t: Id, ch: Id)
    requires Q(s.sendq, ch) != [] && StOf(s.st, t) == Ready
    ensures var s1 := UnblockSender(s, Q(s.sendq, ch)[0], ch);
            && StOf(s1.st, t) == Ready && Q(s1.sendq, ch) == Q(s.sendq, ch)[1..]
            && s1.net == s.net && s1.prio == s.prio && s1.pulses == s.pulses && s1.lastChid == s.lastChid
  {
  }

  lemma {:induction false} ReceiveAnyOrder(s: State, t: Id, ch: Id, bad: set<Id>, dstFault: bool, last: bool,
                                           timeout: bool)
    requires Inv(s) && OthersOrdered(s, t) && t >= 0 && StOf(s.st, t) == Ready && Lookup(s.lastChid, t) == Some(ch)
    ensures var q := Skip(Q(s.sendq, ch), s.pulses, bad);
            AllOrdered(ReceiveAny(s, t, ch, bad, dstFault, last, timeout)) <==>
            Settles(s, t, ch, q, TakenPrio(s, t, q, dstFault))
    decreases |Q(s.sendq, ch)|
  {
    hide Inv, OthersOrdered, AllOrdered, EntryPrio, P, TakePulse, TakeMessage, Await, DropClient;
    var q := Q(s.sendq, ch);
    if q == [] {
      AwaitOrder(s, t, ch, false, timeout);
    } else {
      var x := q[0];
      HeadIsQueued(s, ch);
      if x in s.pulses {
        TakePulseOrder(s, t, ch, x, last);
        PulseEntry(s.prio, s.pulses, x);
      } else if x in bad {
        UnblockSenderOrder(s, t, x, ch);
        UnblockSenderKeeps(s, x, ch);
        BadSenderLeaves(s, t, ch);
        hide UnblockSender, Q;
        ReceiveAnyOrder(UnblockSender(s, x, ch), t, ch, bad, dstFault, last, timeout);
      } else if dstFault {
        DropClientParts(s, t);
        IdleOrder(s, DropClient(s, t), t, ch);
      } else {
        TakeMessageOrder(s, t, ch, x);
        MessageEntry(s.prio, s.pulses, x);
      }
    }
  }

  /** The receive call settles its channel: what is left in the queue asks for no more than
      the priority the receiver ends up with. */
  predicate ReceiveSettles(s: State, t: Id, ch: Id, pulse: bool, invalid: bool, bad: set<Id>, dstFault: bool) {
    var q := Q(s.sendq, ch);
    if invalid then Settles(s, t, ch, q, P(s.prio, t))
    else if pulse then
      var x := FirstPulse(q, s.pulses);
      Settles(s, t, ch, q, if x.Some? then s.pulses[x.value].priority else P(s.prio, t))
    else
      var rest := Skip(q, s.pulses, bad);
      Settles(s, t, ch, rest, TakenPrio(s, t, rest, dstFault))
  }

  lemma NoteChannel(s: State, t: Id, ch: Id)
    requires Inv(s) && AllOrdered(s)
    ensures var s1 := s.(lastChid := s.lastChid[t := ch]);
            Inv(s1) && OthersOrdered(s1, t) && Lookup(s1.lastChid, t) == Some(ch)
  {
    var s1 := s.(lastChid := s.lastChid[t := ch]);
    assert Inv(s1);
    hide Inv, P, Q;
    OrderedOthers(s, t);
    assert forall f, n :: f != t ==> (Serves(s1, f, n) <==> Serves(s, f, n));
  }

  lemma AwaitOrder(s: State, t: Id, ch: Id, pulse: bool, timeout: bool)
    requires Inv(s) && OthersOrdered(s, t) && t >= 0 && StOf(s.st, t) == Ready && Lookup(s.lastChid, t) == Some(ch)
    ensures AllOrdered(Await(s, t, ch, pulse, timeout)) <==> Settles(s, t, ch, Q(s.sendq, ch), P(s.prio, t))
  {
    hide Inv, P, Q, OthersOrdered, AllOrdered, Settles, DropClient, JoinReceivers;
    DropClientParts(s, t);
    IdleOrder(s, Await(s, t, ch, pulse, timeout), t, ch);
  }

  lemma ReceiveOrder(s: State, t: Id, ch: Id, pulse: bool, invalid: bool, bad: set<Id>, dstFault: bool, last: bool,
                     timeout: bool)
    requires Inv(s) && AllOrdered(s) && t >= 0 && StOf(s.st, t) == Ready
    ensures AllOrdered(Receive(s, t, ch, pulse, invalid, bad, dstFault, last, timeout)) <==>
            ReceiveSettles(s, t, ch, pulse, invalid, bad, dstFault)
  {
    hide Inv, P, Q, OthersOrdered, AllOrdered, Await, TakePulse, ReceiveAny, FirstPulse, Skip;
    NoteChannel(s, t, ch);
    var s1 := s.(lastChid := s.lastChid[t := ch]);
    var q := Q(s.sendq, ch);
    if invalid {
      IdleOrder(s1, s1, t, ch);
    } else if pulse {
      var x := FirstPulse(q, s.pulses);
      if x.Some? {
        TakePulseOrder(s1, t, ch, x.value, last);
      } else {
        AwaitOrder(s1, t, ch, true, timeout);
      }
    } else {
      ReceiveAnyOrder(s1, t, ch, bad, dstFault, last, timeout);
    }
  }

  /** Everything queued where `t` serves asks for at most `p`. */
  ghost predicate Meets(s: State, t: Id, p: nat) {
    forall n, y :: n !in s.net.fixed && Serves(s, t, n) && y in Q(s.sendq, n) && y != t ==>
      EntryPrio(s.prio, s.pulses, y) <= p
  }

  /** Every server of a channel where `t` is queued runs at `p` or more. */
  ghost predicate Served(s: State, t: Id, p: nat) {
    forall n, g :: n !in s.net.fixed && t in Q(s.sendq, n) && Serves(s, g, n) && g != t ==> P(s.prio, g) >= p
  }

  /** A thread's priority changes, wherever it serves and wherever it is queued. */
  lemma AdjustOrder(s: State, s': State, t: Id, p: nat)
    requires AllOrdered(s) && t !in s.pulses
    requires s'.net == s.net && s'.lastChid == s.lastChid && s'.pulses == s.pulses
    requires forall x, n :: x in Q(s'.sendq, n) <==> x in Q(s.sendq, n)
    requires forall u :: P(s'.prio, u) == if u == t then p else P(s.prio, u)
    ensures AllOrdered(s') <==> Meets(s, t, p) && Served(s, t, p)
  {
    hide Q, P;
    assert forall f, n :: Serves(s', f, n) <==> Serves(s, f, n);
    assert forall x :: EntryPrio(s'.prio, s'.pulses, x) == if x == t then p else EntryPrio(s.prio, s.pulses, x);
    hide Serves, EntryPrio;
    if Meets(s, t, p) && Served(s, t, p) {
      forall n | n !in s.net.fixed ensures NoInversion(s', n) {
        assert NoInversion(s, n);
      }
    }
    if AllOrdered(s') {
      AdjustedNeeds(s, s', t, p);
    }
  }

  lemma AdjustedNeeds(s: State, s': State, t: Id, p: nat)
    requires AllOrdered(s') && s'.net == s.net
    requires forall f, n :: Serves(s', f, n) <==> Serves(s, f, n)
    requires forall x, n :: x in Q(s'.sendq, n) <==> x in Q(s.sendq, n)
    requires forall u :: P(s'.prio, u) == if u == t then p else P(s.prio, u)
    requires forall x :: EntryPrio(s'.prio, s'.pulses, x) == if x == t then p else EntryPrio(s.prio, s.pulses, x)
    ensures Meets(s, t, p) && Served(s, t, p)
  {
    hide Q, P, Serves, EntryPrio;
    forall n, y | n !in s.net.fixed && Serves(s, t, n) && y in Q(s.sendq, n) && y != t
      ensures EntryPrio(s.prio, s.pulses, y) <= p
    {
      assert NoInversion(s', n);
    }
    forall n, g | n !in s.net.fixed && t in Q(s.sendq, n) && Serves(s, g, n) && g != t
      ensures P(s.prio, g) >= p
    {
      assert NoInversion(s', n);
    }
  }

  /** Whether `t` starts working for `x`, and with which channel. */
  predicate Adopts(s: State, x: Option<Id>) {
    x.Some? && StOf(s.st, x.value).ReplyOn? && StOf(s.st, x.value).c in s.net.chan
      && s.net.chan[StOf(s.st, x.value).c] !in s.net.fixed
  }

  lemma AdoptParts(s: State, t: Id, x: Id)
    requires StOf(s.st, x).ReplyOn? && StOf(s.st, x).c in s.net.chan
    ensures Adopt(s, t, x).net == s.net && Adopt(s, t, x).lastChid == s.lastChid && Adopt(s, t, x).st == s.st
    ensures Adopt(s, t, x).sendq == s.sendq && Adopt(s, t, x).pulses == s.pulses
    ensures Adopt(s, t, x).prio == FloatPrio(s.net, s.prio, t, P(s.prio, x), s.net.chan[StOf(s.st, x).c])
  {
    hide DropServer, P, FloatPrio;
    DropServerParts(s, x);
  }

  lemma CurrentParts(s: State, t: Id, x: Option<Id>)
    ensures Current(s, t, x).net == s.net && Current(s, t, x).lastChid == s.lastChid && Current(s, t, x).st == s.st
    ensures Current(s, t, x).sendq == s.sendq && Current(s, t, x).pulses == s.pulses
    ensures Adopts(s, x) ==> Current(s, t, x).prio == s.prio[t := P(s.prio, x.value)]
    ensures !Adopts(s, x) ==> Current(s, t, x).prio == s.prio
  {
    hide P, DropClient, Adopt;
    DropClientParts(s, t);
    var s1 := DropClient(s, t);
    if x.Some? && StOf(s1.st, x.value).ReplyOn? && StOf(s1.st, x.value).c in s1.net.chan {
      AdoptParts(s1, t, x.value);
    }
  }

  lemma CurrentOrder(s: State, t: Id, x: Option<Id>)
    requires Inv(s) && AllOrdered(s) && t >= 0 && StOf(s.st, t) == Ready
    ensures AllOrdered(Current(s, t, x)) <==> (Adopts(s, x) ==> Meets(s, t, P(s.prio, x.value)))
  {
    hide Inv, Q, AllOrdered, Meets, Current;
    NotQueued(s, t);
    CurrentParts(s, t, x);
    if Adopts(s, x) {
      AdjustOrder(s, Current(s, t, x), t, P(s.prio, x.value));
    } else {
      ShrinkOrder(s, Current(s, t, x), t);
    }
  }

  lemma ReplyOrder(s: State, x: Id, fault: ReplyFault)
    requires AllOrdered(s)
    ensures AllOrdered(Reply(s, x, fault))
  {
    hide P, Q, AllOrdered, Remove, DropServer, OthersOrdered;
    DropServerParts(s, x);
    ShrinkOrder(s, Reply(s, x, fault), x);
  }

  lemma UnblockOrder(s: State, x: Id)
    requires Inv(s) && AllOrdered(s)
    ensures AllOrdered(Unblock(s, x))
  {
    hide Inv, P, Q, AllOrdered, Remove, UnblockSender;
    match StOf(s.st, x)
    case Ready =>
    case ReceiveOn(ch) => ShrinkOrder(s, Unblock(s, x), x);
    case SendOn(c) =>
      if c in s.net.chan {
        SenderIsQueued(s, x, s.net.chan[c]);
        UnblockSenderOrder(s, x, x, s.net.chan[c]);
      }
    case ReplyOn(_) => ReplyOrder(s, x, NoFault);
  }

  lemma SenderIsQueued(s: State, x: Id, ch: Id)
    requires Inv(s) && StOf(s.st, x).SendOn? && Lookup(s.net.chan, StOf(s.st, x).c) == Some(ch)
    ensures x in Q(s.sendq, ch) && x !in s.pulses
  {
    assert QueuedAt(s.net.chan, s.st, s.pulses, x, ch);
  }

  /** What a caller checks to know that a call leaves no inversion. */
  ghost predicate OrderSafe(s: State, e: Event) {
    match e
    case MsgSend(t, c, _, refused) => Queues(s, c, refused) ==> NestedSafe(s, P(s.prio, t), s.net.chan[c])
    case MsgPulse(ch, x, p, _, _, invalid, refused) =>
      if invalid then true
      else if Q(s.recvq, ch) != [] then Settles(s, Q(s.recvq, ch)[0], ch, Q(s.sendq, ch), p)
      else refused || NestedSafe(s, p, ch)
    case MsgReceive(t, ch, pulse, invalid, bad, dstFault, _, _) =>
      ReceiveSettles(s, t, ch, pulse, invalid, bad, dstFault)
    case MsgReply(_, _) => true
    case MsgError(_) => true
    case MsgCurrent(t, x) => Adopts(s, x) ==> Meets(s, t, P(s.prio, x.value))
    case ForceReady(_) => true
    case AdjustPriority(t, p) => Meets(s, t, p) && Served(s, t, p)
  }

  lemma SendPulseOrder(s: State, ch: Id, x: Id, p: nat, first: bool, merged: bool, invalid: bool, refused: bool)
    requires Inv(s) && Noted(s) && AllOrdered(s) && x < 0 && x !in s.pulses
    ensures AllOrdered(SendPulse(s, ch, x, p, first, merged, invalid, refused)) <==>
            OrderSafe(s, MsgPulse(ch, x, p, first, merged, invalid, refused))
  {
    hide Inv, Noted, AllOrdered, NestedSafe, Settles, BoostServers;
    if !invalid {
      if Q(s.recvq, ch) != [] {
        DeliverOrder(s, ch, p);
      } else if !refused {
        if merged {
          MergePulseOrder(s, ch, p);
        } else {
          QueuePulseOrder(s, ch, x, p, if first then p + 256 else p);
        }
      }
    }
  }

  /** From a state without priority inversion, a call leads to one without exactly when it is
      `OrderSafe`. */
  lemma OrderStep(s: State, e: Event)
    requires Inv(s) && Noted(s) && AllOrdered(s) && Enabled(s, e)
    ensures AllOrdered(Apply(s, e)) <==> OrderSafe(s, e)
  {
    hide Inv, Noted, AllOrdered, Q, P;
    match e
    case MsgSend(t, c, copy, refused) => SendKeepsOrder(s, t, c, copy, refused);
    case MsgPulse(ch, x, p, first, merged, invalid, refused) => SendPulseOrder(s, ch, x, p, first, merged, invalid,
                                                                               refused);
    case MsgReceive(t, ch, pulse, invalid, bad, dstFault, last, timeout) =>
      ReceiveOrder(s, t, ch, pulse, invalid, bad, dstFault, last, timeout);
    case MsgReply(x, fault) => ReplyOrder(s, x, fault);
    case MsgError(x) => ReplyOrder(s, x, NoFault);
    case MsgCurrent(t, x) => CurrentOrder(s, t, x);
    case ForceReady(x) => UnblockOrder(s, x);
    case AdjustPriority(t, p) =>
      AdjustKeeps(s, t, p);
      assert t !in s.pulses by { InvThread(s, t); }
      AdjustOrder(s, Adjust(s, t, p), t, p);
  }

  lemma InvThread(s: State, t: Id)
    requires Inv(s) && t >= 0
    ensures t !in s.pulses
  {
    hide RecvAgree, ReplyAgree, SendAgree, RecvOrder, NoIdle;
  }

  // ---------------------------------------------------------------- what receivers note

  lemma RecvNotedFrame(st: map<Id, TState>, lastChid: map<Id, Id>, t: Id, v: TState)
    requires RecvNoted(st, lastChid) && (v.ReceiveOn? ==> Lookup(lastChid, t) == Some(v.ch))
    ensures RecvNoted(st[t := v], lastChid)
  {
  }

  lemma KeyedFrame(pulses: map<Id, Pulse>, prio: map<Id, nat>, t: Id, p: nat)
    requires PulsesKeyed(pulses, prio) && t !in pulses
    ensures PulsesKeyed(pulses, prio[t := p])
  {
  }

  lemma KeyedJoin(pulses: map<Id, Pulse>, prio: map<Id, nat>, x: Id, ch: Id, p: nat, key: nat)
    requires PulsesKeyed(pulses, prio) && x !in pulses && key >= p
    ensures PulsesKeyed(pulses[x := Pulse(ch, p)], prio[x := key])
  {
  }

  lemma BoostNoted(s: State, p: nat, ch: Id)
    requires Inv(s) && Noted(s)
    ensures Noted(BoostServers(s, p, ch))
  {
    BoostServersKeeps(s, p, ch);
    hide Inv, Q, P, BoostServers, RecvNoted;
  }

  lemma HandshakeNoted(s: State, t: Id, c: Id, ch: Id)
    requires Inv(s) && Noted(s) && Q(s.recvq, ch) != []
    ensures Noted(Handshake(s, t, c, ch))
  {
    hide Inv, Q, P, RecvNoted, PulsesKeyed;
    ReleaseNoted(s, ch, P(s.prio, t));
    RecvNotedFrame(s.st[Q(s.recvq, ch)[0] := Ready], s.lastChid, t, ReplyOn(c));
  }

  lemma QueueSenderNoted(s: State, t: Id, c: Id, ch: Id)
    requires Inv(s) && Noted(s) && t >= 0 && StOf(s.st, t) == Ready && Lookup(s.net.chan, c) == Some(ch)
    requires Q(s.recvq, ch) == [] || Q(s.recvq, ch)[0] in s.pulseOnly
    ensures Noted(QueueSender(s, t, c, ch))
  {
    hide Inv, Q, P, Insert, RecvNoted, PulsesKeyed, BoostServers;
    QueueSenderKeeps(s, t, c, ch);
    RecvNotedFrame(s.st, s.lastChid, t, SendOn(c));
    BoostNoted(Enqueue(s, t, c, ch), P(s.prio, t), ch);
  }

  lemma SendNoted(s: State, t: Id, c: Id, copy: Copy, refused: bool)
    requires Inv(s) && Noted(s) && t >= 0 && StOf(s.st, t) == Ready
    ensures Noted(Send(s, t, c, copy, refused))
  {
    hide Inv, Q, Noted, Handshake, QueueSender, ReleaseReceiver;
    if c in s.net.chan && !refused {
      var ch := s.net.chan[c];
      if Queues(s, c, refused) {
        QueueSenderNoted(s, t, c, ch);
      } else {
        HandshakeNoted(s, t, c, ch);
        ReleaseNoted(s, ch, 0);
      }
    }
  }

  lemma ReleaseNoted(s: State, ch: Id, p: nat)
    requires Inv(s) && Noted(s) && Q(s.recvq, ch) != []
    ensures Noted(ReleaseReceiver(s, ch)) && Noted(SetPrio(ReleaseReceiver(s, ch), Q(s.recvq, ch)[0], p, ch))
  {
    hide Inv, Q, P, PulsesKeyed;
    var r := Q(s.recvq, ch)[0];
    HeadReceiver(s, ch);
    InvThread(s, r);
    RecvNotedFrame(s.st, s.lastChid, r, Ready);
    KeyedFrame(s.pulses, s.prio, r, p);
    hide RecvNoted;
  }

  lemma SendPulseNoted(s: State, ch: Id, x: Id, p: nat, first: bool, merged: bool, invalid: bool, refused: bool)
    requires Inv(s) && Noted(s) && x < 0 && x !in s.pulses
    ensures Noted(SendPulse(s, ch, x, p, first, merged, invalid, refused))
  {
    hide Inv, Q, P, Insert, RecvNoted, PulsesKeyed, BoostServers;
    if !invalid {
      if Q(s.recvq, ch) != [] {
        ReleaseNoted(s, ch, p);
      } else if !refused {
        if merged {
          BoostNoted(s, p, ch);
        } else {
          var key := if first then p + 256 else p;
          QueuePulseKeeps(s, ch, x, p, key);
          KeyedJoin(s.pulses, s.prio, x, ch, p, key);
          BoostNoted(QueuePulse(s, ch, x, p, key), p, ch);
        }
      }
    }
  }

  lemma TakePulseNoted(s: State, t: Id, ch: Id, x: Id, last: bool)
    requires Inv(s) && Noted(s) && t >= 0 && x in s.pulses
    ensures Noted(TakePulse(s, t, ch, x, last))
  {
    hide Inv, Q, Remove, DropClient, RecvNoted;
    InvThread(s, t);
    var p := s.pulses[x].priority;
    var s0 := SetPrio(s, t, p, ch);
    KeyedFrame(s.pulses, s.prio, t, p);
    assert s0 == s.(prio := s0.prio) && PulsesKeyed(s0.pulses, s0.prio);
    hide SetPrio, P;
    DropClientParts(s0, t);
    assert PulsesKeyed(s0.pulses - {x}, s0.prio);
    hide PulsesKeyed;
  }

  lemma TakeMessageNoted(s: State, t: Id, ch: Id, x: Id)
    requires Inv(s) && Noted(s) && t >= 0 && StOf(s.st, x).SendOn?
    ensures Noted(TakeMessage(s, t, ch, x))
  {
    hide Inv, Q, Remove, DropClient, P, RecvNoted, PulsesKeyed;
    InvThread(s, t);
    DropClientParts(s, t);
    KeyedFrame(s.pulses, s.prio, t, P(s.prio, x));
    RecvNotedFrame(s.st, s.lastChid, x, ReplyOn(StOf(s.st, x).c));
  }

  lemma AwaitNoted(s: State, t: Id, ch: Id, pulse: bool, timeout: bool)
    requires Noted(s) && Lookup(s.lastChid, t) == Some(ch)
    ensures Noted(Await(s, t, ch, pulse, timeout))
  {
    hide P, Q, DropClient, JoinReceivers, RecvNoted, PulsesKeyed;
    DropClientParts(s, t);
    RecvNotedFrame(s.st, s.lastChid, t, ReceiveOn(ch));
  }

  lemma UnblockSenderNoted(s: State, x: Id, ch: Id)
    requires Noted(s)
    ensures Noted(UnblockSender(s, x, ch))
  {
    RecvNotedFrame(s.st, s.lastChid, x, Ready);
  }

  lemma {:induction false} ReceiveAnyNoted(s: State, t: Id, ch: Id, bad: set<Id>, dstFault: bool, last: bool,
                                           timeout: bool)
    requires Inv(s) && Noted(s) && t >= 0 && StOf(s.st, t) == Ready && Lookup(s.lastChid, t) == Some(ch)
    ensures Noted(ReceiveAny(s, t, ch, bad, dstFault, last, timeout))
    decreases |Q(s.sendq, ch)|
  {
    hide RecvNoted, PulsesKeyed;
    var q := Q(s.sendq, ch);
    if q == [] {
      AwaitNoted(s, t, ch, false, timeout);
    } else {
      HeadIsQueued(s, ch);
      if q[0] in s.pulses {
        TakePulseNoted(s, t, ch, q[0], last);
      } else if q[0] in bad {
        UnblockSenderKeeps(s, q[0], ch);
        UnblockSenderNoted(s, q[0], ch);
        ReceiveAnyNoted(UnblockSender(s, q[0], ch), t, ch, bad, dstFault, last, timeout);
      } else if !dstFault {
        TakeMessageNoted(s, t, ch, q[0]);
      }
    }
  }

  lemma ReceiveNoted(s: State, t: Id, ch: Id, pulse: bool, invalid: bool, bad: set<Id>, dstFault: bool, last: bool,
                     timeout: bool)
    requires Inv(s) && Noted(s) && t >= 0 && StOf(s.st, t) == Ready
    ensures Noted(Receive(s, t, ch, pulse, invalid, bad, dstFault, last, timeout))
  {
    var s1 := s.(lastChid := s.lastChid[t := ch]);
    assert Inv(s1);
    hide Inv, P, Q, Await, TakePulse, ReceiveAny, FirstPulse, PulsesKeyed;
    assert Noted(s1);
    hide RecvNoted;
    if !invalid {
      if pulse {
        var x := FirstPulse(Q(s.sendq, ch), s.pulses);
        if x.Some? {
          TakePulseNoted(s1, t, ch, x.value, last);
        } else {
          AwaitNoted(s1, t, ch, true, timeout);
        }
      } else {
        ReceiveAnyNoted(s1, t, ch, bad, dstFault, last, timeout);
      }
    }
  }

  lemma CurrentNoted(s: State, t: Id, x: Option<Id>)
    requires Inv(s) && Noted(s) && t >= 0
    ensures Noted(Current(s, t, x))
  {
    hide Inv, P, RecvNoted, PulsesKeyed, Current;
    InvThread(s, t);
    CurrentParts(s, t, x);
    if Adopts(s, x) {
      KeyedFrame(s.pulses, s.prio, t, P(s.prio, x.value));
    }
  }

  lemma ReleaseClientNoted(s: State, x: Id)
    requires Noted(s) && StOf(s.st, x).ReplyOn?
    ensures Noted(ReleaseClient(s, x)) && Noted(ReleaseClient(DropServer(s, x), x))
  {
    hide Q, Remove, DropServer, PulsesKeyed;
    DropServerParts(s, x);
    RecvNotedFrame(s.st, s.lastChid, x, Ready);
    hide RecvNoted;
  }

  lemma UnblockNoted(s: State, x: Id)
    requires Noted(s)
    ensures Noted(Unblock(s, x))
  {
    hide RecvNoted, PulsesKeyed, Q, Remove, ReleaseClient, DropServer;
    RecvNotedFrame(s.st, s.lastChid, x, Ready);
    if StOf(s.st, x).ReplyOn? {
      ReleaseClientNoted(s, x);
    }
  }

  lemma AdjustNoted(s: State, t: Id, p: nat)
    requires Inv(s) && Noted(s) && t >= 0
    ensures Noted(Adjust(s, t, p))
  {
    AdjustKeeps(s, t, p);
    hide Inv, RecvNoted, Q, P, Adjust;
    InvThread(s, t);
  }

  lemma NotedStep(s: State, e: Event)
    requires Inv(s) && Noted(s) && Enabled(s, e)
    ensures Noted(Apply(s, e))
  {
    hide Inv, Noted, Send, SendPulse, Receive, ReleaseClient, DropServer, Current, Unblock, Adjust;
    match e
    case MsgSend(t, c, copy, refused) => SendNoted(s, t, c, copy, refused);
    case MsgPulse(ch, x, p, first, merged, invalid, refused) => SendPulseNoted(s, ch, x, p, first, merged, invalid,
                                                                               refused);
    case MsgReceive(t, ch, pulse, invalid, bad, dstFault, last, timeout) =>
      ReceiveNoted(s, t, ch, pulse, invalid, bad, dstFault, last, timeout);
    case MsgReply(x, fault) =>
      if StOf(s.st, x).ReplyOn? {
        ReleaseClientNoted(s, x);
      }
    case MsgError(x) =>
      if StOf(s.st, x).ReplyOn? {
        ReleaseClientNoted(s, x);
      }
    case MsgCurrent(t, x) => CurrentNoted(s, t, x);
    case ForceReady(x) => UnblockNoted(s, x);
    case AdjustPriority(t, p) => AdjustNoted(s, t, p);
  }
}
