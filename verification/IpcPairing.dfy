/**
 Who works for whom: the client and server links that message passing keeps.
 */
module IpcPairing {
  import opened Base
  import opened Pril
  import opened Ipc

  /** Client and server form a partial matching: a thread's client is exactly the
      reply-blocked thread that names it as server, and a receive-blocked thread has none. */
  ghost predicate Paired(st: map<Id, TState>, client: map<Id, Id>, server: map<Id, Id>) {
    && (forall a, t :: Lookup(client, a) == Some(t) <==> StOf(st, t).ReplyOn? && Lookup(server, t) == Some(a))
    && (forall a :: StOf(st, a).ReceiveOn? ==> a !in client)
  }

  ghost predicate Pairing(s: State) {
    Paired(s.st, s.client, s.server)
  }

  lemma PairFrame(st: map<Id, TState>, client: map<Id, Id>, server: map<Id, Id>, t: Id, v: TState)
    requires Paired(st, client, server) && !StOf(st, t).ReplyOn? && !v.ReplyOn? && (v.ReceiveOn? ==> t !in client)
    ensures Paired(st[t := v], client, server)
  {
    var st' := st[t := v];
    forall a, x ensures Lookup(client, a) == Some(x) <==> StOf(st', x).ReplyOn? && Lookup(server, x) == Some(a) {
      assert Lookup(client, a) == Some(x) <==> StOf(st, x).ReplyOn? && Lookup(server, x) == Some(a);
    }
  }

  lemma PairLeave(st: map<Id, TState>, client: map<Id, Id>, server: map<Id, Id>, t: Id)
    requires Paired(st, client, server) && StOf(st, t).ReplyOn? && t !in server
    ensures Paired(st[t := Ready], client, server)
  {
    var st' := st[t := Ready];
    forall a, x ensures Lookup(client, a) == Some(x) <==> StOf(st', x).ReplyOn? && Lookup(server, x) == Some(a) {
      assert Lookup(client, a) == Some(x) <==> StOf(st, x).ReplyOn? && Lookup(server, x) == Some(a);
    }
  }

  lemma PairJoin(st: map<Id, TState>, client: map<Id, Id>, server: map<Id, Id>, a: Id, t: Id, c: Id)
    requires Paired(st, client, server) && a !in client && !StOf(st, a).ReceiveOn? && a != t
    requires !StOf(st, t).ReplyOn? || t !in server
    ensures Paired(st[t := ReplyOn(c)], client[a := t], server[t := a])
  {
    var st' := st[t := ReplyOn(c)];
    forall b, x
      ensures Lookup(client[a := t], b) == Some(x) <==> StOf(st', x).ReplyOn? && Lookup(server[t := a], x) == Some(b)
    {
      assert Lookup(client, b) == Some(x) <==> StOf(st, x).ReplyOn? && Lookup(server, x) == Some(b);
      assert Lookup(client, a) == None;
    }
  }

  lemma DropClientPairs(s: State, a: Id)
    requires Pairing(s)
    ensures Pairing(DropClient(s, a)) && a !in DropClient(s, a).client
    ensures DropClient(s, a).st == s.st
  {
    if a in s.client {
      var t := s.client[a];
      assert Lookup(s.client, a) == Some(t);
      forall b, x
        ensures Lookup(s.client - {a}, b) == Some(x) <==> StOf(s.st, x).ReplyOn? && Lookup(s.server - {t}, x) == Some(b)
      {
        assert Lookup(s.client, b) == Some(x) <==> StOf(s.st, x).ReplyOn? && Lookup(s.server, x) == Some(b);
        assert Lookup(s.client, a) == Some(x) <==> StOf(s.st, x).ReplyOn? && Lookup(s.server, x) == Some(a);
        assert Lookup(s.client, b) == Some(t) <==> StOf(s.st, t).ReplyOn? && Lookup(s.server, t) == Some(b);
      }
    }
  }

  lemma DropServerPairs(s: State, t: Id)
    requires Pairing(s) && StOf(s.st, t).ReplyOn?
    ensures Pairing(DropServer(s, t)) && t !in DropServer(s, t).server
    ensures DropServer(s, t).st == s.st
  {
    if t in s.server {
      var a := s.server[t];
      assert Lookup(s.server, t) == Some(a);
      assert Lookup(s.client, a) == Some(t);
      DropClientPairs(s, a);
    }
  }

  lemma HandshakePairs(s: State, t: Id, c: Id, ch: Id)
    requires Inv(s) && Pairing(s) && StOf(s.st, t) == Ready && Q(s.recvq, ch) != []
    ensures Pairing(ReleaseReceiver(s, ch)) && Pairing(Handshake(s, t, c, ch))
    ensures var r, s' := Q(s.recvq, ch)[0], Handshake(s, t, c, ch);
            && s'.client == s.client[r := t] && s'.server == s.server[t := r] && r !in s.client
            && StOf(s'.st, t) == ReplyOn(c)
  {
    hide Inv, Paired, Q, P;
    var r := Q(s.recvq, ch)[0];
    ReleaseReceiverKeeps(s, ch);
    ReceiverPairs(s, ch);
    PairFrame(s.st, s.client, s.server, r, Ready);
    PairJoin(s.st[r := Ready], s.client, s.server, r, t, c);
  }

  lemma QueueSenderPairs(s: State, t: Id, c: Id, ch: Id)
    requires Inv(s) && Pairing(s) && t >= 0 && StOf(s.st, t) == Ready && Lookup(s.net.chan, c) == Some(ch)
    requires Q(s.recvq, ch) == [] || Q(s.recvq, ch)[0] in s.pulseOnly
    ensures Pairing(QueueSender(s, t, c, ch))
  {
    hide Inv, Paired, Q, P, Insert, BoostServers;
    QueueSenderKeeps(s, t, c, ch);
    PairFrame(s.st, s.client, s.server, t, SendOn(c));
    var s1 := Enqueue(s, t, c, ch);
    BoostServersKeeps(s1, P(s.prio, t), ch);
  }

  lemma SendPairs(s: State, t: Id, c: Id, copy: Copy, refused: bool)
    requires Inv(s) && Pairing(s) && t >= 0 && StOf(s.st, t) == Ready
    ensures Pairing(Send(s, t, c, copy, refused))
  {
    hide Inv, Paired, Handshake, QueueSender, ReleaseReceiver;
    if c in s.net.chan && !refused {
      var ch := s.net.chan[c];
      var q := Q(s.recvq, ch);
      if q != [] && q[0] !in s.pulseOnly {
        HandshakePairs(s, t, c, ch);
      } else {
        QueueSenderPairs(s, t, c, ch);
      }
    }
  }

  lemma ReceiverPairs(s: State, ch: Id)
    requires Inv(s) && Pairing(s) && Q(s.recvq, ch) != []
    ensures Q(s.recvq, ch)[0] !in s.client
  {
    ReleaseReceiverKeeps(s, ch);
  }

  lemma SendPulsePairs(s: State, ch: Id, x: Id, p: nat, first: bool, merged: bool, invalid: bool, refused: bool)
    requires Inv(s) && Pairing(s) && x < 0 && x !in s.pulses
    ensures Pairing(SendPulse(s, ch, x, p, first, merged, invalid, refused))
  {
    hide Inv, Paired, BoostServers, Insert;
    if Q(s.recvq, ch) != [] {
      ReleaseReceiverKeeps(s, ch);
      PairFrame(s.st, s.client, s.server, Q(s.recvq, ch)[0], Ready);
    } else if merged {
      BoostServersKeeps(s, p, ch);
    } else {
      var key := if first then p + 256 else p;
      QueuePulseKeeps(s, ch, x, p, key);
      BoostServersKeeps(QueuePulse(s, ch, x, p, key), p, ch);
    }
  }

  lemma AwaitPairs(s: State, t: Id, ch: Id, pulse: bool, timeout: bool)
    requires Pairing(s) && StOf(s.st, t) == Ready
    ensures Pairing(Await(s, t, ch, pulse, timeout))
  {
    hide Paired;
    DropClientPairs(s, t);
    var s1 := DropClient(s, t);
    PairFrame(s1.st, s1.client, s1.server, t, ReceiveOn(ch));
  }

  lemma TakePulsePairs(s: State, t: Id, ch: Id, x: Id, last: bool)
    requires Pairing(s) && x in s.pulses
    ensures Pairing(TakePulse(s, t, ch, x, last))
  {
    hide Paired;
    DropClientPairs(SetPrio(s, t, s.pulses[x].priority, ch), t);
  }

  lemma TakeMessagePairs(s: State, t: Id, ch: Id, x: Id)
    requires Pairing(s) && StOf(s.st, t) == Ready && StOf(s.st, x).SendOn?
    ensures Pairing(TakeMessage(s, t, ch, x))
    ensures var s' := TakeMessage(s, t, ch, x);
            && Lookup(s'.client, t) == Some(x) && Lookup(s'.server, x) == Some(t)
            && (t in s.client && s.client[t] != x ==> s.client[t] !in s'.server)
            && (forall a :: a != t ==> Lookup(s'.client, a) == Lookup(s.client, a))
  {
    hide Paired;
    DropClientPairs(s, t);
    var s1 := DropClient(s, t);
    PairJoin(s1.st, s1.client, s1.server, t, x, StOf(s.st, x).c);
  }

  lemma {:induction false} ReceiveAnyPairs(s: State, t: Id, ch: Id, bad: set<Id>, dstFault: bool, last: bool,
                                           timeout: bool)
    requires Pairing(s) && StOf(s.st, t) == Ready
    ensures Pairing(ReceiveAny(s, t, ch, bad, dstFault, last, timeout))
    decreases |Q(s.sendq, ch)|
  {
    hide Paired;
    var q := Q(s.sendq, ch);
    if q == [] {
      AwaitPairs(s, t, ch, false, timeout);
    } else if q[0] in s.pulses {
      TakePulsePairs(s, t, ch, q[0], last);
    } else if StOf(s.st, q[0]).SendOn? {
      if q[0] in bad {
        PairFrame(s.st, s.client, s.server, q[0], Ready);
        ReceiveAnyPairs(UnblockSender(s, q[0], ch), t, ch, bad, dstFault, last, timeout);
      } else if dstFault {
        DropClientPairs(s, t);
      } else {
        TakeMessagePairs(s, t, ch, q[0]);
      }
    }
  }

  lemma ReceivePairs(s: State, t: Id, ch: Id, pulse: bool, invalid: bool, bad: set<Id>, dstFault: bool, last: bool,
                     timeout: bool)
    requires Pairing(s) && StOf(s.st, t) == Ready
    ensures Pairing(Receive(s, t, ch, pulse, invalid, bad, dstFault, last, timeout))
  {
    hide Paired;
    var s1 := s.(lastChid := s.lastChid[t := ch]);
    if pulse {
      var x := FirstPulse(Q(s1.sendq, ch), s1.pulses);
      if x.Some? {
        TakePulsePairs(s1, t, ch, x.value, last);
      } else {
        AwaitPairs(s1, t, ch, true, timeout);
      }
    } else {
      ReceiveAnyPairs(s1, t, ch, bad, dstFault, last, timeout);
    }
  }

  lemma CurrentPairs(s: State, t: Id, x: Option<Id>)
    requires Pairing(s) && StOf(s.st, t) == Ready
    ensures Pairing(Current(s, t, x))
  {
    hide Paired;
    DropClientPairs(s, t);
    var s1 := DropClient(s, t);
    if x.Some? && StOf(s1.st, x.value).ReplyOn? && StOf(s1.st, x.value).c in s1.net.chan {
      DropServerPairs(s1, x.value);
      var s2 := DropServer(s1, x.value);
      assert t !in s2.client;
      PairJoin(s2.st, s2.client, s2.server, t, x.value, StOf(s.st, x.value).c);
      assert s2.st[x.value := ReplyOn(StOf(s.st, x.value).c)] == s2.st;
    }
  }

  lemma ReplyPairs(s: State, x: Id)
    requires Inv(s) && Pairing(s) && StOf(s.st, x).ReplyOn?
    ensures Pairing(ReleaseClient(DropServer(s, x), x))
  {
    hide Paired, Inv;
    DropServerPairs(s, x);
    var s1 := DropServer(s, x);
    PairLeave(s1.st, s1.client, s1.server, x);
  }

  lemma UnblockPairs(s: State, x: Id)
    requires Inv(s) && Pairing(s)
    ensures Pairing(Unblock(s, x))
  {
    hide Paired, Inv;
    if StOf(s.st, x).ReplyOn? {
      ReplyPairs(s, x);
    } else {
      PairFrame(s.st, s.client, s.server, x, Ready);
    }
  }

  /** The early fault exits of a reply leave the pair behind: it survives the step exactly
      when the client had no server. */
  lemma EarlyFaultPairs(s: State, x: Id)
    requires Inv(s) && Pairing(s) && StOf(s.st, x).ReplyOn?
    ensures Pairing(Reply(s, x, Early)) <==> x !in s.server
  {
    if x in s.server {
      var s' := Reply(s, x, Early);
      var a := s.server[x];
      assert Lookup(s.server, x) == Some(a) && Lookup(s.client, a) == Some(x);
      assert StOf(s'.st, x) == Ready && Lookup(s'.client, a) == Some(x);
    } else {
      PairLeave(s.st, s.client, s.server, x);
    }
  }

  predicate DanglingReply(s: State, e: Event) {
    e.MsgReply? && e.fault == Early && StOf(s.st, e.x).ReplyOn? && e.x in s.server
  }

  /** Every call keeps the client/server matching, except exactly an early-faulting reply to
      a client that has a server. */
  lemma PairingStep(s: State, e: Event)
    requires Inv(s) && Pairing(s) && Enabled(s, e)
    ensures Pairing(Apply(s, e)) <==> !DanglingReply(s, e)
  {
    hide Inv, Paired;
    match e
    case MsgSend(t, c, copy, refused) => SendPairs(s, t, c, copy, refused);
    case MsgPulse(ch, x, p, first, merged, invalid, refused) => SendPulsePairs(s, ch, x, p, first, merged, invalid,
                                                                               refused);
    case MsgReceive(t, ch, pulse, invalid, bad, dstFault, last, timeout) =>
      ReceivePairs(s, t, ch, pulse, invalid, bad, dstFault, last, timeout);
    case MsgReply(x, fault) =>
      if StOf(s.st, x).ReplyOn? {
        EarlyFaultPairs(s, x);
        ReplyPairs(s, x);
      }
    case MsgError(x) =>
      if StOf(s.st, x).ReplyOn? {
        ReplyPairs(s, x);
      }
    case MsgCurrent(t, x) => CurrentPairs(s, t, x);
    case ForceReady(x) => UnblockPairs(s, x);
    case AdjustPriority(t, p) =>
      AdjustKeeps(s, t, p);
  }

  // ---------------------------------------------------------------- what even early faults keep

  /** Whoever names a server is that server's client, and a receive-blocked thread has no
      client. Unlike the matching above, this says nothing about who names nobody. */
  ghost predicate Linked(st: map<Id, TState>, client: map<Id, Id>, server: map<Id, Id>) {
    && (forall t :: t in server ==> Lookup(client, server[t]) == Some(t))
    && (forall a :: StOf(st, a).ReceiveOn? ==> a !in client)
  }

  ghost predicate Linking(s: State) {
    Linked(s.st, s.client, s.server)
  }

  lemma LinkFrame(st: map<Id, TState>, client: map<Id, Id>, server: map<Id, Id>, t: Id, v: TState)
    requires Linked(st, client, server) && (v.ReceiveOn? ==> t !in client)
    ensures Linked(st[t := v], client, server)
  {
  }

  lemma LinkJoin(st: map<Id, TState>, client: map<Id, Id>, server: map<Id, Id>, a: Id, t: Id, v: TState)
    requires Linked(st, client, server) && a !in client && !StOf(st, a).ReceiveOn? && !v.ReceiveOn?
    ensures Linked(st[t := v], client[a := t], server[t := a])
  {
  }

  lemma DropClientLinks(s: State, a: Id)
    requires Linking(s)
    ensures Linking(DropClient(s, a)) && a !in DropClient(s, a).client
    ensures DropClient(s, a).st == s.st
  {
  }

  lemma DropServerLinks(s: State, t: Id)
    requires Linking(s)
    ensures Linking(DropServer(s, t)) && DropServer(s, t).st == s.st
    ensures forall a :: a !in s.client ==> a !in DropServer(s, t).client
  {
  }

  lemma HandshakeLinks(s: State, t: Id, c: Id, ch: Id)
    requires Inv(s) && Linking(s) && Q(s.recvq, ch) != []
    ensures Linking(ReleaseReceiver(s, ch)) && Linking(Handshake(s, t, c, ch))
  {
    ReleaseReceiverKeeps(s, ch);
    hide Inv, Q, P, FloatPrio;
    var r := Q(s.recvq, ch)[0];
    LinkFrame(s.st, s.client, s.server, r, Ready);
    assert r !in s.client;
    LinkJoin(s.st[r := Ready], s.client, s.server, r, t, ReplyOn(c));
    hide Linked;
  }

  lemma SendLinks(s: State, t: Id, c: Id, copy: Copy, refused: bool)
    requires Inv(s) && Linking(s) && t >= 0 && StOf(s.st, t) == Ready
    ensures Linking(Send(s, t, c, copy, refused))
  {
    hide Inv, Linked, Handshake, QueueSender, ReleaseReceiver, Q;
    if c in s.net.chan && !refused {
      var ch := s.net.chan[c];
      if Q(s.recvq, ch) != [] && Q(s.recvq, ch)[0] !in s.pulseOnly {
        HandshakeLinks(s, t, c, ch);
      } else {
        QueueSenderLinks(s, t, c, ch);
      }
    }
  }

  lemma QueueSenderLinks(s: State, t: Id, c: Id, ch: Id)
    requires Inv(s) && Linking(s) && t >= 0 && StOf(s.st, t) == Ready && Lookup(s.net.chan, c) == Some(ch)
    requires Q(s.recvq, ch) == [] || Q(s.recvq, ch)[0] in s.pulseOnly
    ensures Linking(QueueSender(s, t, c, ch))
  {
    hide Inv, Linked, Q, P, Insert, BoostServers;
    QueueSenderKeeps(s, t, c, ch);
    LinkFrame(s.st, s.client, s.server, t, SendOn(c));
    BoostServersKeeps(Enqueue(s, t, c, ch), P(s.prio, t), ch);
  }

  lemma SendPulseLinks(s: State, ch: Id, x: Id, p: nat, first: bool, merged: bool, invalid: bool, refused: bool)
    requires Inv(s) && Linking(s) && x < 0 && x !in s.pulses
    ensures Linking(SendPulse(s, ch, x, p, first, merged, invalid, refused))
  {
    hide Inv, Linked, BoostServers, Insert, P;
    if Q(s.recvq, ch) != [] {
      LinkFrame(s.st, s.client, s.server, Q(s.recvq, ch)[0], Ready);
    } else if merged {
      BoostServersKeeps(s, p, ch);
    } else {
      var key := if first then p + 256 else p;
      QueuePulseKeeps(s, ch, x, p, key);
      BoostServersKeeps(QueuePulse(s, ch, x, p, key), p, ch);
    }
  }

  lemma AwaitLinks(s: State, t: Id, ch: Id, pulse: bool, timeout: bool)
    requires Linking(s)
    ensures Linking(Await(s, t, ch, pulse, timeout))
  {
    hide Linked, JoinReceivers, Q;
    DropClientLinks(s, t);
    var s1 := DropClient(s, t);
    LinkFrame(s1.st, s1.client, s1.server, t, ReceiveOn(ch));
  }

  lemma TakePulseLinks(s: State, t: Id, ch: Id, x: Id, last: bool)
    requires Linking(s) && x in s.pulses
    ensures Linking(TakePulse(s, t, ch, x, last))
  {
    hide Linked, Q, P;
    DropClientLinks(SetPrio(s, t, s.pulses[x].priority, ch), t);
  }

  lemma TakeMessageLinks(s: State, t: Id, ch: Id, x: Id)
    requires Linking(s) && StOf(s.st, t) == Ready && StOf(s.st, x).SendOn?
    ensures Linking(TakeMessage(s, t, ch, x))
  {
    hide Linked, Q, P;
    DropClientLinks(s, t);
    var s1 := DropClient(s, t);
    LinkJoin(s1.st, s1.client, s1.server, t, x, ReplyOn(StOf(s.st, x).c));
  }

  lemma {:induction false} ReceiveAnyLinks(s: State, t: Id, ch: Id, bad: set<Id>, dstFault: bool, last: bool,
                                           timeout: bool)
    requires Linking(s) && StOf(s.st, t) == Ready
    ensures Linking(ReceiveAny(s, t, ch, bad, dstFault, last, timeout))
    decreases |Q(s.sendq, ch)|
  {
    hide Linked;
    var q := Q(s.sendq, ch);
    if q == [] {
      AwaitLinks(s, t, ch, false, timeout);
    } else if q[0] in s.pulses {
      TakePulseLinks(s, t, ch, q[0], last);
    } else if StOf(s.st, q[0]).SendOn? {
      if q[0] in bad {
        LinkFrame(s.st, s.client, s.server, q[0], Ready);
        ReceiveAnyLinks(UnblockSender(s, q[0], ch), t, ch, bad, dstFault, last, timeout);
      } else if dstFault {
        DropClientLinks(s, t);
      } else {
        TakeMessageLinks(s, t, ch, q[0]);
      }
    }
  }

  lemma ReceiveLinks(s: State, t: Id, ch: Id, pulse: bool, invalid: bool, bad: set<Id>, dstFault: bool, last: bool,
                     timeout: bool)
    requires Linking(s) && StOf(s.st, t) == Ready
    ensures Linking(Receive(s, t, ch, pulse, invalid, bad, dstFault, last, timeout))
  {
    hide Linked;
    var s1 := s.(lastChid := s.lastChid[t := ch]);
    if pulse {
      var x := FirstPulse(Q(s1.sendq, ch), s1.pulses);
      if x.Some? {
        TakePulseLinks(s1, t, ch, x.value, last);
      } else {
        AwaitLinks(s1, t, ch, true, timeout);
      }
    } else {
      ReceiveAnyLinks(s1, t, ch, bad, dstFault, last, timeout);
    }
  }

  lemma CurrentLinks(s: State, t: Id, x: Option<Id>)
    requires Linking(s) && StOf(s.st, t) == Ready
    ensures Linking(Current(s, t, x))
  {
    hide Linked;
    DropClientLinks(s, t);
    var s1 := DropClient(s, t);
    if x.Some? && StOf(s1.st, x.value).ReplyOn? && StOf(s1.st, x.value).c in s1.net.chan {
      DropServerLinks(s1, x.value);
      var s2 := DropServer(s1, x.value);
      LinkJoin(s2.st, s2.client, s2.server, t, x.value, StOf(s.st, x.value));
      assert s2.st[x.value := StOf(s.st, x.value)] == s2.st;
    }
  }

  lemma ReplyLinks(s: State, x: Id, fault: ReplyFault)
    requires Linking(s)
    ensures Linking(Reply(s, x, fault))
  {
    hide Linked, Q, Remove;
    DropServerLinks(s, x);
    LinkFrame(s.st, s.client, s.server, x, Ready);
    var s1 := DropServer(s, x);
    LinkFrame(s1.st, s1.client, s1.server, x, Ready);
  }

  lemma UnblockLinks(s: State, x: Id)
    requires Linking(s)
    ensures Linking(Unblock(s, x))
  {
    hide Linked, Q, Remove;
    if StOf(s.st, x).ReplyOn? {
      ReplyLinks(s, x, NoFault);
    } else {
      LinkFrame(s.st, s.client, s.server, x, Ready);
    }
  }

  /** Every call, an early-faulting reply included, keeps each named server's client link, so
      a forced unblock never finds the link missing. */
  lemma LinkingStep(s: State, e: Event)
    requires Inv(s) && Linking(s) && Enabled(s, e)
    ensures Linking(Apply(s, e))
  {
    hide Inv, Linked, Send, SendPulse, Receive, Reply, Current, Unblock, Adjust;
    match e
    case MsgSend(t, c, copy, refused) => SendLinks(s, t, c, copy, refused);
    case MsgPulse(ch, x, p, first, merged, invalid, refused) => SendPulseLinks(s, ch, x, p, first, merged, invalid,
                                                                               refused);
    case MsgReceive(t, ch, pulse, invalid, bad, dstFault, last, timeout) =>
      ReceiveLinks(s, t, ch, pulse, invalid, bad, dstFault, last, timeout);
    case MsgReply(x, fault) => ReplyLinks(s, x, fault);
    case MsgError(x) => ReplyLinks(s, x, NoFault);
    case MsgCurrent(t, x) => CurrentLinks(s, t, x);
    case ForceReady(x) => UnblockLinks(s, x);
    case AdjustPriority(t, p) => AdjustKeeps(s, t, p);
  }
}
