/**
 Priority on one channel, whatever happens on the others: as long as its messages and pulses
 are sent, received and answered in the ordinary way, and nobody changes the priority of a
 client that is queued there, no server of the channel runs below a queued entry.
 */
module IpcChannelOrder {
  import opened Base
  import opened Pril
  import opened Ipc
  import opened IpcPriority
  import opened IpcRuns

  /** Calls of ordinary traffic, seen from channel `ch`: no pulse is put before the messages,
      no receive is for pulses only or fails on the receiver's side, and no priority is changed
      by hand. On other channels only the last of these is asked for. */
  predicate Plain(e: Event, ch: Id) {
    match e
    case MsgSend(_, _, _, _) => true
    case MsgPulse(n, _, _, first, _, _, _) => n != ch || !first
    case MsgReceive(_, n, pulse, invalid, _, dstFault, _, _) => n != ch || (!pulse && !invalid && !dstFault)
    case MsgReply(_, _) => true
    case MsgError(_) => true
    case MsgCurrent(_, _) => false
    case ForceReady(_) => true
    case AdjustPriority(_, _) => false
  }

  /** The step leaves the priority of every client queued on `ch` alone. */
  ghost predicate Steady(s: State, s': State, ch: Id) {
    forall x :: x in Q(s.sendq, ch) ==> P(s'.prio, x) == P(s.prio, x)
  }

  /** Servers stand at or above every entry, pulses stand at their own priority, and receivers
      take messages. */
  ghost predicate InOrder(s: State, ch: Id) {
    && (forall f, x :: Serves(s, f, ch) && x in Q(s.sendq, ch) ==> P(s.prio, f) >= P(s.prio, x))
    && (forall x :: x in Q(s.sendq, ch) && x in s.pulses ==> P(s.prio, x) == s.pulses[x].priority)
    && (forall r :: r in Q(s.recvq, ch) ==> r !in s.pulseOnly)
  }

  lemma InOrderMeans(s: State, ch: Id)
    requires InOrder(s, ch)
    ensures NoInversion(s, ch)
  {
  }

  /** A step that adds no entry and no server to the channel, and lowers no server. */
  ghost predicate Undisturbed(s: State, s': State, ch: Id) {
    && (forall f :: Serves(s', f, ch) ==> Serves(s, f, ch) && P(s'.prio, f) >= P(s.prio, f))
    && (forall x :: x in Q(s'.sendq, ch) ==>
          x in Q(s.sendq, ch) && P(s'.prio, x) == P(s.prio, x) && SamePulse(s, s', x))
    && (forall r :: r in Q(s'.recvq, ch) ==> r !in s'.pulseOnly)
  }

  lemma UndisturbedKeeps(s: State, s': State, ch: Id)
    requires InOrder(s, ch) && Undisturbed(s, s', ch)
    ensures InOrder(s', ch)
  {
    hide Q, P, Serves;
  }

  // ---------------------------------------------------------------- send and pulse

  /** An entry `t` of priority `p` has joined channel `n`, whose servers have been raised to it. */
  lemma JoinedOrder(s: State, s': State, t: Id, p: nat, n: Id, ch: Id)
    requires InOrder(s, ch) && Steady(s, s', ch) && ch !in s.net.fixed
    requires s'.net == s.net && s'.lastChid == s.lastChid && s'.recvq == s.recvq && s'.pulseOnly == s.pulseOnly
    requires forall x :: x in Q(s'.sendq, ch) <==> x in Q(s.sendq, ch) || (x == t && n == ch)
    requires forall f :: Serves(s, f, ch) && f != t ==>
               P(s'.prio, f) == if IsBoosted(s, p, n, f) then p else P(s.prio, f)
    requires Serves(s, t, ch) ==> P(s'.prio, t) == P(s.prio, t)
    requires n == ch ==> P(s'.prio, t) == p && (t in s'.pulses ==> s'.pulses[t].priority == p)
    requires forall x :: x in Q(s.sendq, ch) ==> SamePulse(s, s', x)
    ensures InOrder(s', ch)
  {
    hide Q, P;
    assert forall f :: Serves(s', f, ch) <==> Serves(s, f, ch);
  }

  lemma QueuedSend(s: State, t: Id, c: Id, n: Id, ch: Id)
    requires Inv(s) && t >= 0 && StOf(s.st, t) == Ready && Lookup(s.net.chan, c) == Some(n)
    requires Q(s.recvq, n) == [] || Q(s.recvq, n)[0] in s.pulseOnly
    requires InOrder(s, ch) && ch !in s.net.fixed && Steady(s, QueueSender(s, t, c, n), ch)
    ensures InOrder(QueueSender(s, t, c, n), ch)
  {
    hide Inv, InOrder, Steady, Q, P, Insert, BoostServers;
    var s1, p := Enqueue(s, t, c, n), P(s.prio, t);
    QueueSenderKeeps(s, t, c, n);
    NotQueued(s, t);
    JoinedBy(s.sendq, s.prio, n, t);
    BoostEffect(s1, p, n);
    BoostServersKeeps(s1, p, n);
    assert forall u :: IsBoosted(s1, p, n, u) <==> IsBoosted(s, p, n, u);
    JoinedOrder(s, BoostServers(s1, p, n), t, p, n, ch);
  }

  /** The head receiver `r` of channel `n` has been released, perhaps at another priority. */
  ghost predicate Released(s: State, s': State, r: Id, n: Id) {
    && s'.net == s.net && s'.lastChid == s.lastChid && s'.sendq == s.sendq && s'.pulses == s.pulses
    && (forall f :: f != r ==> P(s'.prio, f) == P(s.prio, f))
    && (forall m, x :: x in Q(s'.recvq, m) ==> x in Q(s.recvq, m))
    && s'.pulseOnly <= s.pulseOnly
  }

  lemma Delivered(s: State, s': State, n: Id, ch: Id)
    requires Inv(s) && Noted(s) && InOrder(s, ch) && Q(s.recvq, n) != [] && Released(s, s', Q(s.recvq, n)[0], n)
    ensures InOrder(s', ch)
  {
    hide Inv, Q, P, Noted, Vector, EntryPrio;
    var r := Q(s.recvq, n)[0];
    HeadReceiver(s, n);
    NotQueued(s, r);
    assert r in Q(s.recvq, n);
    hide StOf;
    if n == ch {
      assert r !in s.pulseOnly;
    } else {
      assert forall f :: Serves(s', f, ch) ==> f != r && Serves(s, f, ch);
      hide Serves;
      UndisturbedKeeps(s, s', ch);
    }
  }

  lemma Releases(s: State, n: Id, p: nat)
    requires Q(s.recvq, n) != []
    ensures var r := Q(s.recvq, n)[0];
            && Released(s, ReleaseReceiver(s, n), r, n)
            && Released(s, SetPrio(ReleaseReceiver(s, n), r, p, n), r, n)
  {
  }

  lemma HandshakeReleases(s: State, t: Id, c: Id, n: Id)
    requires Q(s.recvq, n) != []
    ensures Released(s, Handshake(s, t, c, n), Q(s.recvq, n)[0], n)
  {
    Releases(s, n, P(s.prio, t));
    hide Q, P, FloatPrio;
  }

  lemma PlainSend(s: State, t: Id, c: Id, copy: Copy, refused: bool, ch: Id)
    requires Inv(s) && Noted(s) && t >= 0 && StOf(s.st, t) == Ready && ch !in s.net.fixed
    requires InOrder(s, ch) && Steady(s, Send(s, t, c, copy, refused), ch)
    ensures InOrder(Send(s, t, c, copy, refused), ch)
  {
    hide Inv, Noted, InOrder, QueueSender, Handshake, ReleaseReceiver, Released, P, Q;
    if c in s.net.chan && !refused {
      var n := s.net.chan[c];
      if Queues(s, c, refused) {
        QueuedSend(s, t, c, n, ch);
      } else {
        HandshakeReleases(s, t, c, n);
        Releases(s, n, 0);
        Delivered(s, if copy == Done then Handshake(s, t, c, n) else ReleaseReceiver(s, n), n, ch);
      }
    }
  }

  lemma PlainPulse(s: State, n: Id, x: Id, p: nat, first: bool, merged: bool, invalid: bool, refused: bool, ch: Id)
    requires Inv(s) && Noted(s) && x < 0 && x !in s.pulses && ch !in s.net.fixed && (n != ch || !first)
    requires InOrder(s, ch) && Steady(s, SendPulse(s, n, x, p, first, merged, invalid, refused), ch)
    ensures InOrder(SendPulse(s, n, x, p, first, merged, invalid, refused), ch)
  {
    hide Inv, Noted, InOrder, Steady, BoostServers, P, QueuePulse, ReleaseReceiver, SetPrio, Released;
    if !invalid {
      if Q(s.recvq, n) != [] {
        Releases(s, n, p);
        Delivered(s, SetPrio(ReleaseReceiver(s, n), Q(s.recvq, n)[0], p, n), n, ch);
      } else if !refused {
        if merged {
          MergedPulse(s, p, n, ch);
        } else {
          QueuedPulse(s, n, x, p, if first then p + 256 else p, ch);
        }
      }
    }
  }

  lemma MergedPulse(s: State, p: nat, n: Id, ch: Id)
    requires Inv(s) && InOrder(s, ch) && Steady(s, BoostServers(s, p, n), ch)
    ensures InOrder(BoostServers(s, p, n), ch)
  {
    hide Inv, Q, P, BoostServers, EntryPrio, Vector;
    BoostEffect(s, p, n);
    BoostServersKeeps(s, p, n);
    var s' := BoostServers(s, p, n);
    hide Serves;
    UndisturbedKeeps(s, s', ch);
  }

  lemma QueuedPulse(s: State, n: Id, x: Id, p: nat, key: nat, ch: Id)
    requires Inv(s) && x < 0 && x !in s.pulses && Q(s.recvq, n) == [] && ch !in s.net.fixed && (n == ch ==> key == p)
    requires InOrder(s, ch) && Steady(s, BoostServers(QueuePulse(s, n, x, p, key), p, n), ch)
    ensures InOrder(BoostServers(QueuePulse(s, n, x, p, key), p, n), ch)
  {
    UpdatePrio(s.prio, x, key);
    assert P(s.prio[x := key], x) == key;
    hide Inv, InOrder, Steady, Q, P, Insert, BoostServers;
    var s1 := QueuePulse(s, n, x, p, key);
    QueuePulseKeeps(s, n, x, p, key);
    PulseNotQueued(s, x);
    NoPulseServes(s, x);
    NoPulseServes(s1, x);
    JoinedBy(s.sendq, s.prio[x := key], n, x);
    BoostEffect(s1, p, n);
    BoostServersKeeps(s1, p, n);
    assert forall u :: u != x ==> (IsBoosted(s1, p, n, u) <==> IsBoosted(s, p, n, u));
    assert !IsBoosted(s1, p, n, x);
    JoinedOrder(s, BoostServers(s1, p, n), x, p, n, ch);
  }

  // ---------------------------------------------------------------- receive

  /** In order but for the server `t`. */
  ghost predicate RestInOrder(s: State, t: Id, ch: Id) {
    && (forall f, x :: f != t && Serves(s, f, ch) && x in Q(s.sendq, ch) ==> P(s.prio, f) >= P(s.prio, x))
    && (forall x :: x in Q(s.sendq, ch) && x in s.pulses ==> P(s.prio, x) == s.pulses[x].priority)
    && (forall r :: r in Q(s.recvq, ch) ==> r !in s.pulseOnly)
  }

  /** The server `t` has taken the head of the queue and its priority. */
  lemma TookHead(s: State, s': State, t: Id, ch: Id)
    requires RestInOrder(s, t, ch) && Q(s.sendq, ch) != [] && t !in Q(s.sendq, ch)
    requires forall x :: x in Q(s.sendq, ch) ==> P(s.prio, x) <= P(s.prio, Q(s.sendq, ch)[0])
    requires s'.net == s.net && s'.lastChid == s.lastChid && s'.recvq == s.recvq && s'.pulseOnly == s.pulseOnly
    requires P(s'.prio, t) == P(s.prio, Q(s.sendq, ch)[0])
    requires forall f :: f != t ==> P(s'.prio, f) == P(s.prio, f)
    requires forall x :: x in Q(s'.sendq, ch) ==> x in Q(s.sendq, ch) && SamePulse(s, s', x)
    ensures InOrder(s', ch)
  {
    hide Q, P;
    assert forall f :: Serves(s', f, ch) <==> Serves(s, f, ch);
  }

  lemma HeadFacts(s: State, t: Id, ch: Id)
    requires Inv(s) && t >= 0 && StOf(s.st, t) == Ready && Q(s.sendq, ch) != []
    ensures t !in Q(s.sendq, ch) && Distinct(Q(s.sendq, ch))
    ensures forall x :: x in Q(s.sendq, ch) ==> P(s.prio, x) <= P(s.prio, Q(s.sendq, ch)[0])
  {
    NotQueued(s, t);
    assert Sorted(Q(s.sendq, ch), s.prio) && Distinct(Q(s.sendq, ch));
    hide Inv, Q, P, Distinct;
  }

  lemma PlainTakePulse(s: State, t: Id, ch: Id, last: bool)
    requires Inv(s) && t >= 0 && StOf(s.st, t) == Ready && ch !in s.net.fixed && RestInOrder(s, t, ch)
    requires Q(s.sendq, ch) != [] && Q(s.sendq, ch)[0] in s.pulses
    ensures InOrder(TakePulse(s, t, ch, Q(s.sendq, ch)[0], last), ch)
  {
    var x := Q(s.sendq, ch)[0];
    var s' := TakePulse(s, t, ch, x, last);
    UpdatePrio(s.prio, t, s.pulses[x].priority);
    assert x in Q(s.sendq, ch);
    hide Inv, Q, P, Remove, TakePulse;
    HeadFacts(s, t, ch);
    TakePulseParts(s, t, ch, x, last);
    TakePulseReceivers(s, t, ch, x, last);
    RemovedFrom(s.sendq, ch, x);
    TookHead(s, s', t, ch);
  }

  lemma TakePulseReceivers(s: State, t: Id, ch: Id, x: Id, last: bool)
    requires x in s.pulses
    ensures TakePulse(s, t, ch, x, last).recvq == s.recvq && TakePulse(s, t, ch, x, last).pulseOnly == s.pulseOnly
  {
    hide Q, Remove, DropClient, P;
    var s0 := SetPrio(s, t, s.pulses[x].priority, ch);
    assert s0 == s.(prio := s0.prio);
    hide SetPrio;
    DropClientParts(s0, t);
  }

  lemma PlainTakeMessage(s: State, t: Id, ch: Id)
    requires Inv(s) && t >= 0 && StOf(s.st, t) == Ready && ch !in s.net.fixed && RestInOrder(s, t, ch)
    requires Q(s.sendq, ch) != [] && StOf(s.st, Q(s.sendq, ch)[0]).SendOn?
    ensures InOrder(TakeMessage(s, t, ch, Q(s.sendq, ch)[0]), ch)
  {
    var x := Q(s.sendq, ch)[0];
    var s' := TakeMessage(s, t, ch, x);
    UpdatePrio(s.prio, t, P(s.prio, x));
    hide Inv, Q, P, Remove, TakeMessage;
    HeadFacts(s, t, ch);
    TakeMessageParts(s, t, ch, x);
    TakeMessageReceivers(s, t, ch, x);
    RemovedFrom(s.sendq, ch, x);
    TookHead(s, s', t, ch);
  }

  lemma TakeMessageReceivers(s: State, t: Id, ch: Id, x: Id)
    requires StOf(s.st, x).SendOn?
    ensures TakeMessage(s, t, ch, x).recvq == s.recvq && TakeMessage(s, t, ch, x).pulseOnly == s.pulseOnly
  {
    hide Q, Remove, DropClient, P;
    DropClientParts(s, t);
  }

  lemma PlainAwait(s: State, t: Id, ch: Id, timeout: bool)
    requires Inv(s) && RestInOrder(s, t, ch) && Q(s.sendq, ch) == [] && StOf(s.st, t) == Ready
    ensures InOrder(Await(s, t, ch, false, timeout), ch)
  {
    assert t !in s.pulseOnly;
    hide Inv, P, DropClient;
    DropClientParts(s, t);
  }

  lemma SenderGone(s: State, t: Id, ch: Id, x: Id)
    requires RestInOrder(s, t, ch) && Distinct(Q(s.sendq, ch))
    ensures RestInOrder(UnblockSender(s, x, ch), t, ch)
  {
    RemovedFrom(s.sendq, ch, x);
    hide Q, P, Remove;
    assert forall f :: Serves(UnblockSender(s, x, ch), f, ch) <==> Serves(s, f, ch);
  }

  lemma {:induction false} PlainReceiveAny(s: State, t: Id, ch: Id, bad: set<Id>, last: bool, timeout: bool)
    requires Inv(s) && t >= 0 && StOf(s.st, t) == Ready && ch !in s.net.fixed && RestInOrder(s, t, ch)
    ensures InOrder(ReceiveAny(s, t, ch, bad, false, last, timeout), ch)
    decreases |Q(s.sendq, ch)|
  {
    hide Inv, RestInOrder, InOrder, TakePulse, TakeMessage, Await, P;
    var q := Q(s.sendq, ch);
    if q == [] {
      PlainAwait(s, t, ch, timeout);
    } else {
      HeadIsQueued(s, ch);
      if q[0] in s.pulses {
        PlainTakePulse(s, t, ch, last);
      } else if q[0] in bad {
        HeadFacts(s, t, ch);
        SenderGone(s, t, ch, q[0]);
        UnblockSenderKeeps(s, q[0], ch);
        PlainReceiveAny(UnblockSender(s, q[0], ch), t, ch, bad, last, timeout);
      } else {
        PlainTakeMessage(s, t, ch);
      }
    }
  }

  /** What a receive on another channel leaves as it is. */
  ghost predicate Aside(s: State, s': State, t: Id, ch: Id) {
    && s'.net == s.net && s'.lastChid == s.lastChid
    && Q(s'.sendq, ch) == Q(s.sendq, ch) && Q(s'.recvq, ch) == Q(s.recvq, ch)
    && s'.pulseOnly <= s.pulseOnly + {t}
    && (forall u :: u != t ==> P(s'.prio, u) == P(s.prio, u))
    && (forall x :: x in Q(s.sendq, ch) ==> SamePulse(s, s', x))
  }

  lemma AwaitAside(s: State, t: Id, n: Id, pulse: bool, timeout: bool, ch: Id)
    requires n != ch
    ensures Aside(s, Await(s, t, n, pulse, timeout), t, ch)
  {
    hide P, DropClient, JoinReceivers;
    DropClientParts(s, t);
  }

  lemma TakePulseAside(s: State, t: Id, n: Id, x: Id, last: bool, ch: Id)
    requires Inv(s) && n != ch && x in s.pulses && x in Q(s.sendq, n)
    ensures Aside(s, TakePulse(s, t, n, x, last), t, ch)
  {
    UpdatePrio(s.prio, t, s.pulses[x].priority);
    hide Inv, P, Remove, TakePulse;
    QueuedOnce(s, x, n);
    TakePulseParts(s, t, n, x, last);
    TakePulseReceivers(s, t, n, x, last);
  }

  lemma TakeMessageAside(s: State, t: Id, n: Id, x: Id, ch: Id)
    requires n != ch && StOf(s.st, x).SendOn?
    ensures Aside(s, TakeMessage(s, t, n, x), t, ch)
  {
    UpdatePrio(s.prio, t, P(s.prio, x));
    hide P, Remove, TakeMessage;
    TakeMessageParts(s, t, n, x);
    TakeMessageReceivers(s, t, n, x);
  }

  lemma AsideTwice(s: State, s1: State, s': State, t: Id, ch: Id)
    requires Aside(s, s1, t, ch) && Aside(s1, s', t, ch)
    ensures Aside(s, s', t, ch)
  {
    hide P, Q;
  }

  lemma {:induction false} ReceiveAnyAside(s: State, t: Id, n: Id, bad: set<Id>, dstFault: bool, last: bool,
                                           timeout: bool, ch: Id)
    requires Inv(s) && n != ch
    ensures Aside(s, ReceiveAny(s, t, n, bad, dstFault, last, timeout), t, ch)
    decreases |Q(s.sendq, n)|
  {
    hide Inv, Aside, TakePulse, TakeMessage, Await, P, DropClient;
    var q := Q(s.sendq, n);
    if q == [] {
      AwaitAside(s, t, n, false, timeout, ch);
    } else {
      HeadIsQueued(s, n);
      if q[0] in s.pulses {
        TakePulseAside(s, t, n, q[0], last, ch);
      } else if q[0] in bad {
        UnblockSenderKeeps(s, q[0], n);
        UnblockSenderAside(s, t, q[0], n, ch);
        ReceiveAnyAside(UnblockSender(s, q[0], n), t, n, bad, dstFault, last, timeout, ch);
        AsideTwice(s, UnblockSender(s, q[0], n), ReceiveAny(s, t, n, bad, dstFault, last, timeout), t, ch);
      } else if dstFault {
        DropClientAside(s, t, ch);
      } else {
        TakeMessageAside(s, t, n, q[0], ch);
      }
    }
  }

  lemma UnblockSenderAside(s: State, t: Id, x: Id, n: Id, ch: Id)
    requires n != ch
    ensures Aside(s, UnblockSender(s, x, n), t, ch)
  {
    hide P, Remove;
  }

  lemma DropClientAside(s: State, t: Id, ch: Id)
    ensures Aside(s, DropClient(s, t), t, ch)
  {
    hide P, Q;
  }

  lemma ReceiveAside(s: State, t: Id, n: Id, pulse: bool, invalid: bool, bad: set<Id>, dstFault: bool, last: bool,
                     timeout: bool, ch: Id)
    requires Inv(s) && n != ch
    ensures Aside(s.(lastChid := s.lastChid[t := n]),
                  Receive(s, t, n, pulse, invalid, bad, dstFault, last, timeout), t, ch)
  {
    var s1 := s.(lastChid := s.lastChid[t := n]);
    assert Inv(s1);
    hide Inv, P, Await, TakePulse, ReceiveAny, FirstPulse;
    if pulse {
      var x := FirstPulse(Q(s1.sendq, n), s1.pulses);
      if x.Some? {
        TakePulseAside(s1, t, n, x.value, last, ch);
      } else {
        AwaitAside(s1, t, n, true, timeout, ch);
      }
    } else {
      ReceiveAnyAside(s1, t, n, bad, dstFault, last, timeout, ch);
    }
  }

  /** A thread that receives elsewhere is no server of `ch` any more. */
  lemma AsideKeeps(s: State, s': State, t: Id, n: Id, ch: Id)
    requires Inv(s) && t >= 0 && StOf(s.st, t) == Ready && n != ch && InOrder(s, ch)
    requires Aside(s.(lastChid := s.lastChid[t := n]), s', t, ch)
    ensures InOrder(s', ch)
  {
    assert t !in Q(s.recvq, ch);
    hide Inv, Q, P;
    NotQueued(s, t);
    assert forall f :: Serves(s', f, ch) ==> f != t && Serves(s, f, ch);
    hide Serves;
    UndisturbedKeeps(s, s', ch);
  }

  lemma PlainReceive(s: State, t: Id, n: Id, pulse: bool, invalid: bool, bad: set<Id>, dstFault: bool, last: bool,
                     timeout: bool, ch: Id)
    requires Inv(s) && t >= 0 && StOf(s.st, t) == Ready && ch !in s.net.fixed && InOrder(s, ch)
    requires n != ch || (!pulse && !invalid && !dstFault)
    ensures InOrder(Receive(s, t, n, pulse, invalid, bad, dstFault, last, timeout), ch)
  {
    if n != ch {
      hide Inv, InOrder, P, Q, Receive;
      ReceiveAside(s, t, n, pulse, invalid, bad, dstFault, last, timeout, ch);
      AsideKeeps(s, Receive(s, t, n, pulse, invalid, bad, dstFault, last, timeout), t, n, ch);
    } else {
      var s1 := s.(lastChid := s.lastChid[t := n]);
      assert Inv(s1);
      hide Inv, P, Q, ReceiveAny;
      assert forall f :: f != t ==> (Serves(s1, f, ch) <==> Serves(s, f, ch));
      assert RestInOrder(s1, t, ch);
      PlainReceiveAny(s1, t, ch, bad, last, timeout);
    }
  }

  // ---------------------------------------------------------------- reply and unblock

  lemma ReplyParts(s: State, x: Id, fault: ReplyFault)
    ensures var s' := Reply(s, x, fault);
            s' == s.(st := s'.st, client := s'.client, server := s'.server, replyq := s'.replyq)
  {
    hide Q, Remove, DropServer;
    DropServerParts(s, x);
  }

  lemma PlainReply(s: State, x: Id, fault: ReplyFault, ch: Id)
    requires InOrder(s, ch)
    ensures InOrder(Reply(s, x, fault), ch)
  {
    hide P, Q, Reply;
    ReplyParts(s, x, fault);
    var s' := Reply(s, x, fault);
    assert forall f :: Serves(s', f, ch) <==> Serves(s, f, ch);
  }

  lemma PlainUnblockReceiver(s: State, x: Id, n: Id, ch: Id)
    requires Inv(s) && InOrder(s, ch) && StOf(s.st, x) == ReceiveOn(n)
    ensures InOrder(Unblock(s, x), ch)
  {
    assert Distinct(Q(s.recvq, n));
    hide Inv, P;
    RemoveMembers(Q(s.recvq, n), x);
    var s' := Unblock(s, x);
    assert forall f :: Serves(s', f, ch) <==> Serves(s, f, ch);
    hide Remove;
  }

  lemma PlainUnblockSender(s: State, x: Id, n: Id, ch: Id)
    requires InOrder(s, ch) && Distinct(Q(s.sendq, n))
    ensures InOrder(UnblockSender(s, x, n), ch)
  {
    RemovedFrom(s.sendq, n, x);
    hide P, Q, Remove;
    var s' := UnblockSender(s, x, n);
    assert forall f :: Serves(s', f, ch) <==> Serves(s, f, ch);
  }

  lemma PlainUnblock(s: State, x: Id, ch: Id)
    requires Inv(s) && InOrder(s, ch)
    ensures InOrder(Unblock(s, x), ch)
  {
    assert forall n :: Distinct(Q(s.sendq, n));
    hide Inv, InOrder, P, Q, Remove, UnblockSender, DropServer, ReleaseClient;
    match StOf(s.st, x)
    case Ready =>
    case ReceiveOn(n) => PlainUnblockReceiver(s, x, n, ch);
    case SendOn(c) =>
      if c in s.net.chan {
        PlainUnblockSender(s, x, s.net.chan[c], ch);
      }
    case ReplyOn(c) => PlainReply(s, x, NoFault, ch);
  }

  // ---------------------------------------------------------------- steps and runs

  lemma {:induction false} ReceiveAnyNet(s: State, t: Id, ch: Id, bad: set<Id>, dstFault: bool, last: bool,
                                         timeout: bool)
    ensures ReceiveAny(s, t, ch, bad, dstFault, last, timeout).net == s.net
    decreases |Q(s.sendq, ch)|
  {
    hide TakePulse, TakeMessage, DropClient, P;
    var q := Q(s.sendq, ch);
    DropClientParts(s, t);
    if q != [] && q[0] in s.pulses {
      TakePulseParts(s, t, ch, q[0], last);
    } else if q != [] && StOf(s.st, q[0]).SendOn? {
      TakeMessageParts(s, t, ch, q[0]);
      if q[0] in bad {
        ReceiveAnyNet(UnblockSender(s, q[0], ch), t, ch, bad, dstFault, last, timeout);
      }
    }
  }

  lemma ReceiveNet(s: State, t: Id, ch: Id, pulse: bool, invalid: bool, bad: set<Id>, dstFault: bool, last: bool,
                   timeout: bool)
    ensures Receive(s, t, ch, pulse, invalid, bad, dstFault, last, timeout).net == s.net
  {
    hide Q, TakePulse, ReceiveAny, DropClient, P, FirstPulse;
    var s1 := s.(lastChid := s.lastChid[t := ch]);
    DropClientParts(s1, t);
    if pulse {
      var x := FirstPulse(Q(s1.sendq, ch), s1.pulses);
      if x.Some? {
        TakePulseParts(s1, t, ch, x.value, last);
      }
    } else {
      ReceiveAnyNet(s1, t, ch, bad, dstFault, last, timeout);
    }
  }

  lemma SendNet(s: State, t: Id, c: Id, copy: Copy, refused: bool)
    requires Inv(s) && t >= 0 && StOf(s.st, t) == Ready
    ensures Send(s, t, c, copy, refused).net == s.net
  {
    hide Inv, Q, P, BoostServers, Insert, Handshake, ReleaseReceiver, Reordered;
    if c in s.net.chan && !refused {
      var n := s.net.chan[c];
      if Queues(s, c, refused) {
        QueueSenderKeeps(s, t, c, n);
        BoostNet(Enqueue(s, t, c, n), P(s.prio, t), n);
      } else {
        Releases(s, n, 0);
        HandshakeParts(s, t, c, n);
      }
    }
  }

  lemma BoostNet(s: State, p: nat, ch: Id)
    requires Inv(s)
    ensures BoostServers(s, p, ch).net == s.net
  {
    BoostServersKeeps(s, p, ch);
    hide Inv, P, Q, BoostServers;
  }

  lemma SendPulseNet(s: State, ch: Id, x: Id, p: nat, first: bool, merged: bool, invalid: bool, refused: bool)
    requires Inv(s) && x < 0 && x !in s.pulses
    ensures SendPulse(s, ch, x, p, first, merged, invalid, refused).net == s.net
  {
    hide Inv, P, Q, BoostServers, Insert, FloatPrio, Reordered;
    if Q(s.recvq, ch) == [] {
      var key := if first then p + 256 else p;
      QueuePulseKeeps(s, ch, x, p, key);
      assert QueuePulse(s, ch, x, p, key).net == s.net;
      hide QueuePulse;
      BoostNet(if merged then s else QueuePulse(s, ch, x, p, key), p, ch);
    }
  }

  lemma UnblockNet(s: State, x: Id)
    ensures Unblock(s, x).net == s.net
  {
    hide Q, Remove, DropServer, ReleaseClient;
    if StOf(s.st, x).ReplyOn? {
      ReplyParts(s, x, NoFault);
    }
  }

  /** Message passing changes no connection and no channel. */
  lemma NetStays(s: State, e: Event)
    requires Inv(s) && Enabled(s, e)
    ensures Apply(s, e).net == s.net
  {
    hide Inv, Send, SendPulse, Receive, Reply, Current, Unblock, Adjust;
    match e
    case MsgSend(t, c, copy, refused) => SendNet(s, t, c, copy, refused);
    case MsgPulse(ch, x, p, first, merged, invalid, refused) => SendPulseNet(s, ch, x, p, first, merged, invalid,
                                                                             refused);
    case MsgReceive(t, ch, pulse, invalid, bad, dstFault, last, timeout) =>
      ReceiveNet(s, t, ch, pulse, invalid, bad, dstFault, last, timeout);
    case MsgReply(x, fault) => ReplyParts(s, x, fault);
    case MsgError(x) => ReplyParts(s, x, NoFault);
    case MsgCurrent(t, x) => CurrentParts(s, t, x);
    case ForceReady(x) => UnblockNet(s, x);
    case AdjustPriority(t, p) => AdjustKeeps(s, t, p);
  }

  lemma PlainStep(s: State, e: Event, ch: Id)
    requires Inv(s) && Noted(s) && Enabled(s, e) && ch !in s.net.fixed && InOrder(s, ch)
    requires Plain(e, ch) && Steady(s, Apply(s, e), ch)
    ensures InOrder(Apply(s, e), ch)
  {
    hide Inv, Noted, InOrder, Steady, Send, SendPulse, Receive, Reply, Unblock;
    match e
    case MsgSend(t, c, copy, refused) => PlainSend(s, t, c, copy, refused, ch);
    case MsgPulse(n, x, p, first, merged, invalid, refused) => PlainPulse(s, n, x, p, first, merged, invalid,
                                                                          refused, ch);
    case MsgReceive(t, n, pulse, invalid, bad, dstFault, last, timeout) =>
      PlainReceive(s, t, n, pulse, invalid, bad, dstFault, last, timeout, ch);
    case MsgReply(x, fault) => PlainReply(s, x, fault, ch);
    case MsgError(x) => PlainReply(s, x, NoFault, ch);
    case ForceReady(x) => PlainUnblock(s, x, ch);
  }

  /** In every run of ordinary traffic on a floating-priority channel in which queued clients
      keep their priority, no server of the channel ever runs below an entry of its queue. */
  lemma {:induction false} PlainRunsOrder(states: seq<State>, events: seq<Event>, ch: Id, i: nat)
    requires Run(states, events) && i < |states| && ch !in states[0].net.fixed
    requires forall j :: 0 <= j < i ==> Plain(events[j], ch) && Steady(states[j], states[j + 1], ch)
    ensures NoInversion(states[i], ch)
    ensures InOrder(states[i], ch) && states[i].net == states[0].net
  {
    if i > 0 {
      PlainRunsOrder(states, events, ch, i - 1);
      RunsAgree(states, events, i - 1);
      var s, e := states[i - 1], events[i - 1];
      PlainStep(s, e, ch);
      NetStays(s, e);
      InOrderMeans(states[i], ch);
    }
  }
}
