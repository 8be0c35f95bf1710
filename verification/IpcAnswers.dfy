/**
 What the message-passing calls answer: where a call leaves its caller and its partner, which
 queues it changes and how, and which priority passes. The statements speak of thread states,
 queues, links and priorities only.
 */
module IpcAnswers {
  import opened Base
  import opened Pril
  import opened Ipc
  import opened IpcPriority
  import opened IpcRuns

  /** Every thread outside `who` is where it was. */
  ghost predicate OthersStay(st: map<Id, TState>, st': map<Id, TState>, who: set<Id>) {
    forall u :: u !in who ==> StOf(st', u) == StOf(st, u)
  }

  /** The queue of `ch` is now `q`; the other channels' queues are as they were. */
  ghost predicate Becomes(m: map<Id, seq<Id>>, m': map<Id, seq<Id>>, ch: Id, q: seq<Id>) {
    Q(m', ch) == q && forall n :: n != ch ==> Q(m', n) == Q(m, n)
  }

  /** Unless the channel has fixed priority, `r` runs at priority `p`; nobody else changes. */
  ghost predicate Floats(s: State, s': State, r: Id, p: nat, ch: Id) {
    forall u :: P(s'.prio, u) == if u == r && ch !in s.net.fixed then p else P(s.prio, u)
  }

  /** `r` works for `t` now; all other links are as they were. */
  ghost predicate LinksUp(s: State, s': State, r: Id, t: Id) {
    && (forall u :: Lookup(s'.client, u) == if u == r then Some(t) else Lookup(s.client, u))
    && (forall u :: Lookup(s'.server, u) == if u == t then Some(r) else Lookup(s.server, u))
  }

  // ---------------------------------------------------------------- send

  /** The head of the receive queue is released from its receive. */
  ghost predicate Released(s: State, s': State, ch: Id)
    requires Q(s.recvq, ch) != []
  {
    var r := Q(s.recvq, ch)[0];
    StOf(s'.st, r) == Ready && Becomes(s.recvq, s'.recvq, ch, Q(s.recvq, ch)[1..]) && s'.pulseOnly == s.pulseOnly - {r}
  }

  /** The receiver has the message of `t` and the priority that goes with it; `t` waits for the
      reply on connection `c`. */
  ghost predicate Delivers(s: State, s': State, t: Id, c: Id, ch: Id)
    requires Q(s.recvq, ch) != []
  {
    var r := Q(s.recvq, ch)[0];
    && StOf(s'.st, t) == ReplyOn(c) && Released(s, s', ch) && OthersStay(s.st, s'.st, {t, r})
    && Becomes(s.replyq, s'.replyq, ch, [t] + Q(s.replyq, ch)) && s'.sendq == s.sendq
    && LinksUp(s, s', r, t) && Floats(s, s', r, P(s.prio, t), ch) && s'.pulses == s.pulses
  }

  /** The receiver has faulted: it is ready, without a message; the sender goes on. */
  ghost predicate FaultsReceiver(s: State, s': State, ch: Id)
    requires Q(s.recvq, ch) != []
  {
    && Released(s, s', ch) && OthersStay(s.st, s'.st, {Q(s.recvq, ch)[0]})
    && s'.sendq == s.sendq && s'.replyq == s.replyq && s'.client == s.client && s'.server == s.server
    && s'.prio == s.prio && s'.pulses == s.pulses
  }

  /** `t` waits in the send queue, and the servers of the channel run at least at its priority. */
  ghost predicate QueuesUp(s: State, s': State, t: Id, c: Id, ch: Id) {
    && StOf(s'.st, t) == SendOn(c) && OthersStay(s.st, s'.st, {t})
    && (forall x, n :: x in Q(s'.sendq, n) <==> x in Q(s.sendq, n) || (x == t && n == ch))
    && s'.recvq == s.recvq && s'.replyq == s.replyq && s'.client == s.client && s'.server == s.server
    && s'.pulses == s.pulses && s'.pulseOnly == s.pulseOnly
    && (forall u :: P(s'.prio, u) == if IsBoosted(s, P(s.prio, t), ch, u) then P(s.prio, t) else P(s.prio, u))
  }

  lemma HandshakeFields(s: State, t: Id, c: Id, ch: Id)
    requires Q(s.recvq, ch) != []
    ensures var r, s' := Q(s.recvq, ch)[0], Handshake(s, t, c, ch);
            && s'.st == s.st[r := Ready][t := ReplyOn(c)] && s'.recvq == s.recvq[ch := Q(s.recvq, ch)[1..]]
            && s'.replyq == s.replyq[ch := [t] + Q(s.replyq, ch)] && s'.pulseOnly == s.pulseOnly - {r}
            && s'.client == s.client[r := t] && s'.server == s.server[t := r] && s'.sendq == s.sendq
            && s'.pulses == s.pulses && s'.prio == FloatPrio(s.net, s.prio, r, P(s.prio, t), ch)
  {
    hide Q, P, FloatPrio;
  }

  lemma PrioFloats(s: State, s': State, r: Id, p: nat, ch: Id)
    requires s'.prio == FloatPrio(s.net, s.prio, r, p, ch)
    ensures Floats(s, s', r, p, ch)
  {
    UpdatePrio(s.prio, r, p);
    hide P;
  }

  lemma HandshakeDelivers(s: State, t: Id, c: Id, ch: Id)
    requires Inv(s) && StOf(s.st, t) == Ready && Q(s.recvq, ch) != []
    ensures Delivers(s, Handshake(s, t, c, ch), t, c, ch)
  {
    hide Inv, Handshake, P, FloatPrio, Floats;
    ReleaseReceiverKeeps(s, ch);
    HandshakeFields(s, t, c, ch);
    PrioFloats(s, Handshake(s, t, c, ch), Q(s.recvq, ch)[0], P(s.prio, t), ch);
  }

  lemma ReleaseFaults(s: State, ch: Id)
    requires Q(s.recvq, ch) != []
    ensures FaultsReceiver(s, ReleaseReceiver(s, ch), ch)
  {
  }

  lemma EnqueueFields(s: State, t: Id, c: Id, ch: Id)
    ensures var s1 := Enqueue(s, t, c, ch);
            && s1 == s.(st := s.st[t := SendOn(c)], sendq := s1.sendq)
            && OthersStay(s.st, s1.st, {t}) && StOf(s1.st, t) == SendOn(c)
            && forall x, n :: x in Q(s1.sendq, n) <==> x in Q(s.sendq, n) || (x == t && n == ch)
  {
  }

  lemma SenderQueues(s: State, t: Id, c: Id, ch: Id)
    requires Inv(s) && t >= 0 && StOf(s.st, t) == Ready && Lookup(s.net.chan, c) == Some(ch)
    requires Q(s.recvq, ch) == [] || Q(s.recvq, ch)[0] in s.pulseOnly
    ensures QueuesUp(s, QueueSender(s, t, c, ch), t, c, ch)
  {
    hide Inv, P, BoostServers, Enqueue, Q, OthersStay;
    QueueSenderKeeps(s, t, c, ch);
    EnqueueFields(s, t, c, ch);
    BoostServersKeeps(Enqueue(s, t, c, ch), P(s.prio, t), ch);
  }

  /** An ordinary receiver waits at the head of the channel's receive queue. */
  predicate ReceiverWaits(s: State, ch: Id) {
    Q(s.recvq, ch) != [] && Q(s.recvq, ch)[0] !in s.pulseOnly
  }

  ghost predicate SendAnswer(s: State, s': State, t: Id, c: Id, copy: Copy, refused: bool) {
    if c !in s.net.chan || refused then s' == s
    else
      var ch := s.net.chan[c];
      if !ReceiverWaits(s, ch) then QueuesUp(s, s', t, c, ch)
      else
        match copy
        case Done => Delivers(s, s', t, c, ch)
        case SrcFault => s' == s
        case DstFault => FaultsReceiver(s, s', ch)
  }

  /** A send that meets a waiting receiver delivers; with a fault of the sender nothing happens,
      with a fault of the receiver that one is let go; without a receiver the sender queues. */
  lemma SendAnswers(s: State, t: Id, c: Id, copy: Copy, refused: bool)
    requires Inv(s) && t >= 0 && StOf(s.st, t) == Ready
    ensures SendAnswer(s, Send(s, t, c, copy, refused), t, c, copy, refused)
  {
    hide Inv, Handshake, QueueSender, ReleaseReceiver, Delivers, FaultsReceiver, QueuesUp, Q;
    if c in s.net.chan && !refused {
      var ch := s.net.chan[c];
      if !ReceiverWaits(s, ch) {
        SenderQueues(s, t, c, ch);
      } else {
        HandshakeDelivers(s, t, c, ch);
        ReleaseFaults(s, ch);
      }
    }
  }

  lemma {:induction false} BoostLeavesQueues(s: State, p: nat, ch: Id, v: seq<Id>)
    requires forall f :: f in v && P(s.prio, f) < p && Lookup(s.lastChid, f) == Some(ch) ==> !StOf(s.st, f).SendOn?
    ensures Boost(s, p, ch, v).sendq == s.sendq
    decreases |v|
  {
    if v != [] {
      var raise := P(s.prio, v[0]) < p && Lookup(s.lastChid, v[0]) == Some(ch);
      var s1 := if raise then Adjust(s, v[0], p) else s;
      assert v[0] in v;
      if raise {
        UpdatePrio(s.prio, v[0], p);
      }
      BoostLeavesQueues(s1, p, ch, v[1..]);
    }
  }

  /** The place of a queued sender: behind exactly the entries of its own or a higher rank, the
      others where they were, unless a server that is itself queued somewhere is raised. */
  lemma SenderTakesPlace(s: State, t: Id, c: Id, copy: Copy)
    requires Inv(s) && t >= 0 && StOf(s.st, t) == Ready && c in s.net.chan && !ReceiverWaits(s, s.net.chan[c])
    requires forall f :: IsBoosted(s, P(s.prio, t), s.net.chan[c], f) ==> !StOf(s.st, f).SendOn?
    ensures var ch, s' := s.net.chan[c], Send(s, t, c, copy, false);
            Placed(Q(s.sendq, ch), Q(s'.sendq, ch), s.prio, t) && Becomes(s.sendq, s'.sendq, ch, Q(s'.sendq, ch))
  {
    var ch := s.net.chan[c];
    assert Sorted(Q(s.sendq, ch), s.prio);
    hide Inv;
    InsertJoins(Q(s.sendq, ch), s.prio, t);
    var s1 := Enqueue(s, t, c, ch);
    hide P, Placed, Insert, Sorted;
    if ch !in s.net.fixed {
      forall f | f in Vector(s.net, ch) && P(s.prio, f) < P(s.prio, t) && Lookup(s.lastChid, f) == Some(ch)
        ensures !StOf(s1.st, f).SendOn?
      {
        assert IsBoosted(s, P(s.prio, t), ch, f);
      }
      BoostLeavesQueues(s1, P(s.prio, t), ch, Vector(s.net, ch));
    }
    hide Boost;
    assert Send(s, t, c, copy, false) == BoostServers(s1, P(s.prio, t), ch);
  }

  // ---------------------------------------------------------------- pulses

  /** The pulse `x` is queued with its rank, or merged into an equal one; the servers of the
      channel run at least at its priority. */
  ghost predicate PulseWaits(s: State, s': State, ch: Id, x: Id, p: nat, first: bool, merged: bool) {
    && s'.st == s.st && s'.recvq == s.recvq && s'.replyq == s.replyq && s'.pulseOnly == s.pulseOnly
    && s'.client == s.client && s'.server == s.server
    && s'.pulses == (if merged then s.pulses else s.pulses[x := Pulse(ch, p)])
    && (forall y, n :: y in Q(s'.sendq, n) <==> y in Q(s.sendq, n) || (!merged && y == x && n == ch))
    && (!merged ==> P(s'.prio, x) == if first then p + 256 else p)
    && (forall u :: u != x ==> P(s'.prio, u) == if IsBoosted(s, p, ch, u) then p else P(s.prio, u))
  }

  /** The receiver is ready, at the pulse's priority, and nothing is queued. */
  ghost predicate PulseArrives(s: State, s': State, ch: Id, p: nat)
    requires Q(s.recvq, ch) != []
  {
    && Released(s, s', ch) && OthersStay(s.st, s'.st, {Q(s.recvq, ch)[0]})
    && Floats(s, s', Q(s.recvq, ch)[0], p, ch) && s'.sendq == s.sendq && s'.replyq == s.replyq
    && s'.client == s.client && s'.server == s.server && s'.pulses == s.pulses
  }

  ghost predicate PulseAnswer(s: State, s': State, e: Event)
    requires e.MsgPulse?
  {
    if e.invalid then s' == s
    else if Q(s.recvq, e.ch) != [] then PulseArrives(s, s', e.ch, e.p)
    else if e.refused then s' == s
    else PulseWaits(s, s', e.ch, e.x, e.p, e.first, e.merged)
  }

  lemma QueuePulseFields(s: State, ch: Id, x: Id, p: nat, key: nat)
    ensures var s1 := QueuePulse(s, ch, x, p, key);
            && s1 == s.(prio := s.prio[x := key], pulses := s.pulses[x := Pulse(ch, p)], sendq := s1.sendq)
            && (forall u :: P(s1.prio, u) == if u == x then key else P(s.prio, u))
            && forall y, n :: y in Q(s1.sendq, n) <==> y in Q(s.sendq, n) || (y == x && n == ch)
  {
    UpdatePrio(s.prio, x, key);
  }

  lemma PulseQueues(s: State, ch: Id, x: Id, p: nat, first: bool)
    requires Inv(s) && x < 0 && x !in s.pulses && Q(s.recvq, ch) == []
    ensures PulseWaits(s, SendPulse(s, ch, x, p, first, false, false, false), ch, x, p, first, false)
  {
    hide Inv, P, BoostServers, QueuePulse, Q;
    var key := if first then p + 256 else p;
    var s1 := QueuePulse(s, ch, x, p, key);
    NoPulseServes(s, x);
    QueuePulseKeeps(s, ch, x, p, key);
    QueuePulseFields(s, ch, x, p, key);
    BoostServersKeeps(s1, p, ch);
  }

  /** The place of a queued pulse: behind exactly the entries of its own or a higher rank, unless
      a server that is itself queued somewhere is raised. */
  lemma PulseTakesPlace(s: State, ch: Id, x: Id, p: nat, first: bool)
    requires Inv(s) && x < 0 && x !in s.pulses && Q(s.recvq, ch) == []
    requires forall f :: IsBoosted(s, p, ch, f) ==> !StOf(s.st, f).SendOn?
    ensures var s' := SendPulse(s, ch, x, p, first, false, false, false);
            && Placed(Q(s.sendq, ch), Q(s'.sendq, ch), s.prio[x := if first then p + 256 else p], x)
            && Becomes(s.sendq, s'.sendq, ch, Q(s'.sendq, ch))
  {
    var key := if first then p + 256 else p;
    var s1 := QueuePulse(s, ch, x, p, key);
    PulseNotQueued(s, x);
    NoPulseServes(s, x);
    assert Sorted(Q(s.sendq, ch), s.prio);
    UpdatePrio(s.prio, x, key);
    hide Inv, P;
    SortedFrame(Q(s.sendq, ch), s.prio, s.prio[x := key]);
    InsertJoins(Q(s.sendq, ch), s.prio[x := key], x);
    hide Placed, Insert, Sorted;
    if ch !in s.net.fixed {
      forall f | f in Vector(s.net, ch) && P(s1.prio, f) < p && Lookup(s.lastChid, f) == Some(ch)
        ensures !StOf(s1.st, f).SendOn?
      {
        assert Serves(s, f, ch);
        assert IsBoosted(s, p, ch, f);
      }
      BoostLeavesQueues(s1, p, ch, Vector(s.net, ch));
    }
    hide Boost;
  }

  lemma PulseMerges(s: State, ch: Id, x: Id, p: nat, first: bool)
    requires Inv(s) && Q(s.recvq, ch) == []
    ensures PulseWaits(s, SendPulse(s, ch, x, p, first, true, false, false), ch, x, p, first, true)
  {
    hide Inv, P, BoostServers, Q;
    BoostServersKeeps(s, p, ch);
  }

  lemma ReceiverGetsPulse(s: State, ch: Id, x: Id, p: nat, first: bool, merged: bool, refused: bool)
    requires Q(s.recvq, ch) != []
    ensures PulseArrives(s, SendPulse(s, ch, x, p, first, merged, false, refused), ch, p)
  {
    var r := Q(s.recvq, ch)[0];
    var s1 := ReleaseReceiver(s, ch);
    ReleaseFaults(s, ch);
    hide P, FloatPrio, Floats;
    PrioFloats(s, SetPrio(s1, r, p, ch), r, p, ch);
  }

  /** A pulse goes to the first receiver of either kind; without one it is queued or merged. */
  lemma PulseAnswers(s: State, e: Event)
    requires Inv(s) && Enabled(s, e) && e.MsgPulse?
    ensures PulseAnswer(s, Apply(s, e), e)
  {
    hide Inv, BoostServers, QueuePulse, PulseWaits, PulseArrives, Q, SetPrio, ReleaseReceiver;
    if !e.invalid {
      if Q(s.recvq, e.ch) != [] {
        ReceiverGetsPulse(s, e.ch, e.x, e.p, e.first, e.merged, e.refused);
      } else if !e.refused {
        if e.merged {
          PulseMerges(s, e.ch, e.x, e.p, e.first);
        } else {
          PulseQueues(s, e.ch, e.x, e.p, e.first);
        }
      }
    }
  }

  // ---------------------------------------------------------------- receive

  /** `t` has stopped working for its client, if it had one. */
  ghost predicate Unlinks(s: State, s': State, t: Id) {
    && (forall u :: Lookup(s'.client, u) == if u == t then None else Lookup(s.client, u))
    && (forall u :: Lookup(s'.server, u) == if Lookup(s.client, t) == Some(u) then None else Lookup(s.server, u))
  }

  /** The place of a new receiver: ordinary ones first, pulse-only ones behind all of those. */
  ghost predicate Stands(q: seq<Id>, q': seq<Id>, t: Id, pulseOnly: set<Id>, pulse: bool) {
    exists k :: && 0 <= k <= |q| && q' == q[..k] + [t] + q[k..] && (!pulse ==> k == 0)
             && (forall j :: 0 <= j < k ==> q[j] !in pulseOnly)
             && (pulse && k < |q| ==> q[k] in pulseOnly)
  }

  /** `t` is blocked in its receive, or has timed out; either way it works for nobody. */
  ghost predicate Waits(s: State, s': State, t: Id, ch: Id, pulse: bool, timeout: bool) {
    && Unlinks(s, s', t) && s'.replyq == s.replyq && s'.prio == s.prio && s'.pulses == s.pulses
    && if timeout then StOf(s'.st, t) == Ready && s'.recvq == s.recvq && s'.pulseOnly == s.pulseOnly
       else && StOf(s'.st, t) == ReceiveOn(ch) && Becomes(s.recvq, s'.recvq, ch, Q(s'.recvq, ch))
            && Stands(Q(s.recvq, ch), Q(s'.recvq, ch), t, s.pulseOnly, pulse)
            && s'.pulseOnly == if pulse then s.pulseOnly + {t} else s.pulseOnly
  }

  /** `t` has taken the pulse `x` and its priority; `x` is gone if that was its last occurrence. */
  ghost predicate TakesPulse(s: State, s': State, t: Id, ch: Id, x: Id, last: bool)
    requires x in s.pulses
  {
    && Unlinks(s, s', t) && StOf(s'.st, t) == Ready && Floats(s, s', t, s.pulses[x].priority, ch)
    && s'.recvq == s.recvq && s'.replyq == s.replyq && s'.pulseOnly == s.pulseOnly
    && s'.pulses == if last then s.pulses - {x} else s.pulses
  }

  /** `t` has taken the message of `x`, and works for `x` at its priority. */
  ghost predicate TakesMessage(s: State, s': State, t: Id, ch: Id, x: Id) {
    && StOf(s.st, x).SendOn? && StOf(s'.st, x) == ReplyOn(StOf(s.st, x).c) && StOf(s'.st, t) == Ready
    && Lookup(s'.client, t) == Some(x) && Lookup(s'.server, x) == Some(t) && Floats(s, s', t, P(s.prio, x), ch)
    && (forall u :: u != t ==> Lookup(s'.client, u) == Lookup(s.client, u))
    && (forall u :: u != x ==>
          Lookup(s'.server, u) == if Lookup(s.client, t) == Some(u) then None else Lookup(s.server, u))
    && Becomes(s.replyq, s'.replyq, ch, [x] + Q(s.replyq, ch))
    && s'.recvq == s.recvq && s'.pulseOnly == s.pulseOnly && s'.pulses == s.pulses
  }

  /** What an ordinary receive makes of the queue `rest` of entries that do not fault. */
  ghost predicate ReceiveAnswer(s: State, s': State, t: Id, ch: Id, rest: seq<Id>, dstFault: bool, last: bool,
                                timeout: bool) {
    if rest == [] then Waits(s, s', t, ch, false, timeout) && Q(s'.sendq, ch) == []
    else if rest[0] in s.pulses then
      TakesPulse(s, s', t, ch, rest[0], last) && Q(s'.sendq, ch) == if last then rest[1..] else rest
    else if dstFault then
      && Unlinks(s, s', t) && StOf(s'.st, t) == Ready && Q(s'.sendq, ch) == rest && s'.prio == s.prio
      && s'.recvq == s.recvq && s'.replyq == s.replyq && s'.pulseOnly == s.pulseOnly && s'.pulses == s.pulses
    else TakesMessage(s, s', t, ch, rest[0]) && Q(s'.sendq, ch) == rest[1..]
  }

  lemma {:induction false} JoinAt(q: seq<Id>, t: Id, pulseOnly: set<Id>, pulse: bool, k: nat)
    requires k <= |q| && (!pulse ==> k == 0) && forall j :: 0 <= j < k ==> q[j] !in pulseOnly
    requires pulse && k < |q| ==> q[k] in pulseOnly
    ensures JoinReceivers(q, t, pulseOnly, pulse) == q[..k] + [t] + q[k..]
  {
    if k > 0 {
      JoinAt(q[1..], t, pulseOnly, pulse, k - 1);
      assert q[..k] == [q[0]] + q[1..][..k - 1];
      assert q[1..][k - 1..] == q[k..];
    }
  }

  lemma {:induction false} JoinStands(q: seq<Id>, t: Id, pulseOnly: set<Id>, pulse: bool)
    ensures Stands(q, JoinReceivers(q, t, pulseOnly, pulse), t, pulseOnly, pulse)
  {
    var k := 0;
    while pulse && k < |q| && q[k] !in pulseOnly
      invariant 0 <= k <= |q| && (!pulse ==> k == 0)
      invariant forall j :: 0 <= j < k ==> q[j] !in pulseOnly
    {
      k := k + 1;
    }
    JoinAt(q, t, pulseOnly, pulse, k);
  }

  lemma DropUnlinks(s: State, t: Id)
    ensures Unlinks(s, DropClient(s, t), t)
  {
  }

  lemma AwaitWaits(s: State, t: Id, ch: Id, pulse: bool, timeout: bool)
    requires StOf(s.st, t) == Ready
    ensures var s' := Await(s, t, ch, pulse, timeout);
            Waits(s, s', t, ch, pulse, timeout) && s'.sendq == s.sendq && OthersStay(s.st, s'.st, {t})
  {
    DropUnlinks(s, t);
    DropClientParts(s, t);
    JoinStands(Q(s.recvq, ch), t, s.pulseOnly, pulse);
    hide DropClient, JoinReceivers, Stands;
  }

  lemma TakePulseFields(s: State, t: Id, ch: Id, x: Id, last: bool)
    requires x in s.pulses
    ensures var s1, s' := DropClient(s, t), TakePulse(s, t, ch, x, last);
            && s'.client == s1.client && s'.server == s1.server && s'.st == s.st && s'.recvq == s.recvq
            && s'.replyq == s.replyq && s'.pulseOnly == s.pulseOnly
            && s'.pulses == (if last then s.pulses - {x} else s.pulses)
            && s'.sendq == (if last then s.sendq[ch := Remove(Q(s.sendq, ch), x)] else s.sendq)
            && s'.prio == FloatPrio(s.net, s.prio, t, s.pulses[x].priority, ch)
  {
    hide Q, P, FloatPrio, Remove;
  }

  lemma PulseIsTaken(s: State, t: Id, ch: Id, x: Id, last: bool)
    requires StOf(s.st, t) == Ready && x in s.pulses
    ensures var s' := TakePulse(s, t, ch, x, last);
            && TakesPulse(s, s', t, ch, x, last) && s'.st == s.st
            && Becomes(s.sendq, s'.sendq, ch, if last then Remove(Q(s.sendq, ch), x) else Q(s.sendq, ch))
  {
    hide DropClient, FloatPrio, P, Floats, Remove, TakePulse;
    DropUnlinks(s, t);
    TakePulseFields(s, t, ch, x, last);
    PrioFloats(s, TakePulse(s, t, ch, x, last), t, s.pulses[x].priority, ch);
  }

  lemma TakeMessageFields(s: State, t: Id, ch: Id, x: Id)
    requires StOf(s.st, x).SendOn?
    ensures var s1, s' := DropClient(s, t), TakeMessage(s, t, ch, x);
            && s'.st == s.st[x := ReplyOn(StOf(s.st, x).c)] && s'.recvq == s.recvq
            && s'.replyq == s.replyq[ch := [x] + Q(s.replyq, ch)] && s'.pulseOnly == s.pulseOnly
            && s'.client == s1.client[t := x] && s'.server == s1.server[x := t]
            && s'.sendq == s.sendq[ch := Remove(Q(s.sendq, ch), x)]
            && s'.pulses == s.pulses && s'.prio == FloatPrio(s.net, s.prio, t, P(s.prio, x), ch)
  {
    hide Q, P, FloatPrio, Remove, DropClient;
    DropClientParts(s, t);
  }

  lemma MessageIsTakenBy(s: State, t: Id, ch: Id, x: Id)
    requires StOf(s.st, t) == Ready && StOf(s.st, x).SendOn?
    ensures var s' := TakeMessage(s, t, ch, x);
            && TakesMessage(s, s', t, ch, x) && OthersStay(s.st, s'.st, {x})
            && Becomes(s.sendq, s'.sendq, ch, Remove(Q(s.sendq, ch), x))
  {
    hide P, FloatPrio, Remove, TakeMessage, Floats, DropClient;
    TakeMessageFields(s, t, ch, x);
    DropUnlinks(s, t);
    PrioFloats(s, TakeMessage(s, t, ch, x), t, P(s.prio, x), ch);
  }

  /** Who is where after an ordinary receive on the queue `q` that skips all but `rest`: skipped
      senders are ready, the first of the rest may have been taken, nobody else has moved. */
  ghost predicate SkipsTo(s: State, s': State, t: Id, q: seq<Id>, rest: seq<Id>) {
    && (forall x :: x in q && x !in rest ==> StOf(s'.st, x) == Ready)
    && (forall u :: u != t && (u !in q || (u in rest && u != rest[0])) ==> StOf(s'.st, u) == StOf(s.st, u))
  }

  ghost predicate ReceiveOutcome(s: State, s': State, t: Id, ch: Id, bad: set<Id>, dstFault: bool, last: bool,
                                 timeout: bool) {
    var q := Q(s.sendq, ch);
    var rest := Skip(q, s.pulses, bad);
    && ReceiveAnswer(s, s', t, ch, rest, dstFault, last, timeout) && SkipsTo(s, s', t, q, rest)
    && Becomes(s.sendq, s'.sendq, ch, Q(s'.sendq, ch))
  }

  lemma FirstWaits(s: State, t: Id, ch: Id, bad: set<Id>, dstFault: bool, last: bool, timeout: bool)
    requires StOf(s.st, t) == Ready && Q(s.sendq, ch) == []
    ensures ReceiveOutcome(s, ReceiveAny(s, t, ch, bad, dstFault, last, timeout), t, ch, bad, dstFault, last, timeout)
  {
    hide Await, Waits;
    AwaitWaits(s, t, ch, false, timeout);
  }

  lemma FirstIsPulse(s: State, t: Id, ch: Id, bad: set<Id>, dstFault: bool, last: bool, timeout: bool)
    requires StOf(s.st, t) == Ready && Q(s.sendq, ch) != [] && Q(s.sendq, ch)[0] in s.pulses
    ensures ReceiveOutcome(s, ReceiveAny(s, t, ch, bad, dstFault, last, timeout), t, ch, bad, dstFault, last, timeout)
  {
    hide TakePulse, TakesPulse;
    PulseIsTaken(s, t, ch, Q(s.sendq, ch)[0], last);
  }

  lemma FirstIsMessage(s: State, t: Id, ch: Id, bad: set<Id>, dstFault: bool, last: bool, timeout: bool)
    requires StOf(s.st, t) == Ready && Q(s.sendq, ch) != []
    requires var x := Q(s.sendq, ch)[0]; x !in s.pulses && x !in bad && StOf(s.st, x).SendOn?
    ensures ReceiveOutcome(s, ReceiveAny(s, t, ch, bad, dstFault, last, timeout), t, ch, bad, dstFault, last, timeout)
  {
    hide TakeMessage, TakesMessage, DropClient, Unlinks;
    var x := Q(s.sendq, ch)[0];
    if dstFault {
      DropUnlinks(s, t);
      DropClientParts(s, t);
    } else {
      MessageIsTakenBy(s, t, ch, x);
    }
  }

  lemma FirstAnswers(s: State, t: Id, ch: Id, bad: set<Id>, dstFault: bool, last: bool, timeout: bool)
    requires Inv(s) && StOf(s.st, t) == Ready
    requires var q := Q(s.sendq, ch); q == [] || q[0] in s.pulses || q[0] !in bad
    ensures ReceiveOutcome(s, ReceiveAny(s, t, ch, bad, dstFault, last, timeout), t, ch, bad, dstFault, last, timeout)
  {
    hide Inv, ReceiveOutcome, ReceiveAny;
    if Q(s.sendq, ch) == [] {
      FirstWaits(s, t, ch, bad, dstFault, last, timeout);
    } else {
      HeadIsQueued(s, ch);
      if Q(s.sendq, ch)[0] in s.pulses {
        FirstIsPulse(s, t, ch, bad, dstFault, last, timeout);
      } else {
        FirstIsMessage(s, t, ch, bad, dstFault, last, timeout);
      }
    }
  }

  lemma AnswerFrame(s: State, s1: State, s': State, t: Id, ch: Id, rest: seq<Id>, dstFault: bool, last: bool,
                    timeout: bool)
    requires s1 == s.(st := s1.st, sendq := s1.sendq)
    requires rest != [] ==> StOf(s1.st, rest[0]) == StOf(s.st, rest[0])
    requires ReceiveAnswer(s1, s', t, ch, rest, dstFault, last, timeout)
    ensures ReceiveAnswer(s, s', t, ch, rest, dstFault, last, timeout)
  {
    hide P, Lookup, Stands, StOf, Q;
  }

  lemma SkipsFurther(s: State, s1: State, s': State, t: Id, q: seq<Id>, rest: seq<Id>)
    requires q != [] && q[0] != t && q[0] !in q[1..] && (forall x :: x in rest ==> x in q[1..])
    requires s1.st == s.st[q[0] := Ready] && SkipsTo(s1, s', t, q[1..], rest)
    ensures SkipsTo(s, s', t, q, rest)
  {
    assert forall u :: u in q <==> u == q[0] || u in q[1..];
    assert StOf(s'.st, q[0]) == Ready;
  }

  /** A faulting sender in front changes nothing but that it is ready. */
  lemma SkippedAnswers(s: State, s': State, t: Id, ch: Id, bad: set<Id>, dstFault: bool, last: bool, timeout: bool)
    requires Inv(s) && Q(s.sendq, ch) != [] && Q(s.sendq, ch)[0] in bad && Q(s.sendq, ch)[0] !in s.pulses
    requires StOf(s.st, t) == Ready
    requires ReceiveOutcome(UnblockSender(s, Q(s.sendq, ch)[0], ch), s', t, ch, bad, dstFault, last, timeout)
    ensures ReceiveOutcome(s, s', t, ch, bad, dstFault, last, timeout)
  {
    hide Inv, ReceiveAnswer, SkipsTo;
    var q := Q(s.sendq, ch);
    var s1 := UnblockSender(s, q[0], ch);
    var rest := Skip(q, s.pulses, bad);
    HeadIsQueued(s, ch);
    NotInTail(s, ch);
    var k := SkipIsTail(q[1..], s.pulses, bad);
    assert Q(s1.sendq, ch) == q[1..] && rest == Skip(q[1..], s.pulses, bad);
    hide Skip;
    assert forall x :: x in rest ==> x in q[1..];
    SkipsFurther(s, s1, s', t, q, rest);
    AnswerFrame(s, s1, s', t, ch, rest, dstFault, last, timeout);
  }

  /** An ordinary receive skips the senders that fault and takes what comes first of the rest;
      if nothing is left, it waits. */
  lemma {:induction false} ReceiveAnyAnswers(s: State, t: Id, ch: Id, bad: set<Id>, dstFault: bool, last: bool,
                                             timeout: bool)
    requires Inv(s) && t >= 0 && StOf(s.st, t) == Ready
    ensures ReceiveOutcome(s, ReceiveAny(s, t, ch, bad, dstFault, last, timeout), t, ch, bad, dstFault, last, timeout)
    decreases |Q(s.sendq, ch)|
  {
    hide Inv, ReceiveOutcome;
    var q := Q(s.sendq, ch);
    if q != [] && q[0] !in s.pulses && q[0] in bad {
      HeadIsQueued(s, ch);
      UnblockSenderKeeps(s, q[0], ch);
      ReceiveAnyAnswers(UnblockSender(s, q[0], ch), t, ch, bad, dstFault, last, timeout);
      SkippedAnswers(s, ReceiveAny(s, t, ch, bad, dstFault, last, timeout), t, ch, bad, dstFault, last, timeout);
    } else {
      FirstAnswers(s, t, ch, bad, dstFault, last, timeout);
    }
  }

  /** `x` is a pulse of the queue, and no pulse stands before it. */
  ghost predicate IsFirstPulse(q: seq<Id>, pulses: map<Id, Pulse>, x: Id) {
    x in pulses && exists k :: 0 <= k < |q| && q[k] == x && forall j :: 0 <= j < k ==> q[j] !in pulses
  }

  lemma {:induction false} FirstPulseIsFirst(q: seq<Id>, pulses: map<Id, Pulse>)
    ensures FirstPulse(q, pulses).Some? ==> IsFirstPulse(q, pulses, FirstPulse(q, pulses).value)
    ensures FirstPulse(q, pulses) == None <==> forall x :: x in q ==> x !in pulses
  {
    if q != [] && q[0] !in pulses {
      var tail := q[1..];
      FirstPulseIsFirst(tail, pulses);
      var r := FirstPulse(tail, pulses);
      if r.Some? {
        var k :| 0 <= k < |tail| && tail[k] == r.value && forall j :: 0 <= j < k ==> tail[j] !in pulses;
        forall j | 0 <= j < k + 1 ensures q[j] !in pulses {
          assert j > 0 ==> q[j] == tail[j - 1];
        }
        assert q[k + 1] == r.value;
      }
    }
  }

  /** No pulse of the queue ranks above the one a pulse-only receive takes. */
  lemma FirstPulseIsHighest(s: State, ch: Id, x: Id)
    requires Inv(s) && IsFirstPulse(Q(s.sendq, ch), s.pulses, x)
    ensures forall y :: y in Q(s.sendq, ch) && y in s.pulses ==> P(s.prio, y) <= P(s.prio, x)
  {
    var q := Q(s.sendq, ch);
    assert Sorted(q, s.prio);
    hide Inv;
    var k :| 0 <= k < |q| && q[k] == x && forall j :: 0 <= j < k ==> q[j] !in s.pulses;
    forall y | y in q && y in s.pulses ensures P(s.prio, y) <= P(s.prio, x) {
      var i :| 0 <= i < |q| && q[i] == y;
      assert i >= k;
    }
  }

  /** A pulse-only receive takes the first pulse of the queue, and waits if there is none. */
  ghost predicate PulseOutcome(s: State, s': State, t: Id, ch: Id, last: bool, timeout: bool) {
    var q := Q(s.sendq, ch);
    && OthersStay(s.st, s'.st, {t}) && Becomes(s.sendq, s'.sendq, ch, Q(s'.sendq, ch))
    && if forall x :: x in q ==> x !in s.pulses then Waits(s, s', t, ch, true, timeout) && s'.sendq == s.sendq
       else exists x :: && IsFirstPulse(q, s.pulses, x) && TakesPulse(s, s', t, ch, x, last)
                        && if last then Left(q, Q(s'.sendq, ch), x) else s'.sendq == s.sendq
  }

  lemma PulseOnlyTakes(s: State, t: Id, ch: Id, x: Id, last: bool, timeout: bool)
    requires StOf(s.st, t) == Ready && IsFirstPulse(Q(s.sendq, ch), s.pulses, x) && x in Q(s.sendq, ch)
    ensures PulseOutcome(s, TakePulse(s, t, ch, x, last), t, ch, last, timeout)
  {
    var q := Q(s.sendq, ch);
    var k := RemoveSplits(q, x);
    hide IsFirstPulse, Waits, TakesPulse, Remove, TakePulse;
    assert Left(q, Remove(q, x), x);
    hide Left;
    PulseIsTaken(s, t, ch, x, last);
    TakePulseParts(s, t, ch, x, last);
  }

  lemma PulseOnlyAnswers(s: State, t: Id, ch: Id, last: bool, timeout: bool)
    requires StOf(s.st, t) == Ready
    ensures var x := FirstPulse(Q(s.sendq, ch), s.pulses);
            PulseOutcome(s, if x.Some? then TakePulse(s, t, ch, x.value, last) else Await(s, t, ch, true, timeout),
                         t, ch, last, timeout)
  {
    hide FirstPulse, IsFirstPulse, Waits, TakesPulse, Await, TakePulse;
    var q := Q(s.sendq, ch);
    var x := FirstPulse(q, s.pulses);
    FirstPulseIsFirst(q, s.pulses);
    if x.Some? {
      PulseOnlyTakes(s, t, ch, x.value, last, timeout);
      hide PulseOutcome;
    } else {
      AwaitWaits(s, t, ch, true, timeout);
    }
  }

  /** The caller has noted the channel id; what else a receive does is said of that state. */
  ghost predicate ReceiveGives(s: State, s': State, e: Event)
    requires e.MsgReceive?
  {
    var s1 := s.(lastChid := s.lastChid[e.t := e.ch]);
    if e.invalid then s' == s1
    else if e.pulse then PulseOutcome(s1, s', e.t, e.ch, e.last, e.timeout)
    else ReceiveOutcome(s1, s', e.t, e.ch, e.bad, e.dstFault, e.last, e.timeout)
  }

  lemma ReceiveAnswers(s: State, e: Event)
    requires Inv(s) && Enabled(s, e) && e.MsgReceive?
    ensures ReceiveGives(s, Apply(s, e), e)
  {
    var s1 := s.(lastChid := s.lastChid[e.t := e.ch]);
    assert Inv(s1) by { hide RecvAgree, ReplyAgree, SendAgree, RecvOrder, Sane, NoIdle; }
    hide Inv, PulseOutcome, ReceiveOutcome, FirstPulse, TakePulse, Await, ReceiveAny;
    PulseOnlyAnswers(s1, e.t, e.ch, e.last, e.timeout);
    ReceiveAnyAnswers(s1, e.t, e.ch, e.bad, e.dstFault, e.last, e.timeout);
  }

  /** Nothing on the channel's send queue that the call may take. */
  ghost predicate NothingFor(s: State, e: Event)
    requires e.MsgReceive?
  {
    var q := Q(s.sendq, e.ch);
    if e.pulse then forall x :: x in q ==> x !in s.pulses
    else forall i :: 0 <= i < |q| ==> q[i] !in s.pulses && q[i] in e.bad
  }

  /** A receive with nothing to take blocks: the caller is on the receive queue, marked exactly if
      it takes pulses only, and works for nobody; with a timeout it goes on and waits nowhere. */
  lemma ReceiveBlocks(s: State, e: Event)
    requires Inv(s) && Enabled(s, e) && e.MsgReceive? && !e.invalid && NothingFor(s, e)
    ensures var s' := Apply(s, e);
            && e.t !in s'.client && (e.pulse || Q(s.sendq, e.ch) == [] ==> Q(s'.sendq, e.ch) == Q(s.sendq, e.ch))
            && if e.timeout then StOf(s'.st, e.t) == Ready && s'.recvq == s.recvq && e.t !in s'.pulseOnly
               else && StOf(s'.st, e.t) == ReceiveOn(e.ch) && e.t in Q(s'.recvq, e.ch)
                    && (e.t in s'.pulseOnly <==> e.pulse)
  {
    hide Inv, Apply, Waits, TakesPulse, TakesMessage, Becomes, SkipsTo, OthersStay, Unlinks, Q;
    var s1 := s.(lastChid := s.lastChid[e.t := e.ch]);
    ReceiveAnswers(s, e);
    Unmarked(s, e.t);
    if !e.pulse {
      AllSkipped(Q(s.sendq, e.ch), s.pulses, e.bad);
    }
    hide Skip;
    WaitsMeans(s1, Apply(s, e), e.t, e.ch, e.pulse, e.timeout);
  }

  lemma {:induction false} AllSkipped(q: seq<Id>, pulses: map<Id, Pulse>, bad: set<Id>)
    requires forall i :: 0 <= i < |q| ==> q[i] !in pulses && q[i] in bad
    ensures Skip(q, pulses, bad) == []
  {
    if q != [] {
      assert forall i :: 0 <= i < |q| - 1 ==> q[1..][i] == q[i + 1];
      AllSkipped(q[1..], pulses, bad);
    }
  }

  lemma Unmarked(s: State, t: Id)
    requires Inv(s) && StOf(s.st, t) == Ready
    ensures t !in s.pulseOnly
  {
    hide RecvAgree, ReplyAgree, SendAgree, Sane, NoIdle;
  }

  lemma WaitsMeans(s: State, s': State, t: Id, ch: Id, pulse: bool, timeout: bool)
    requires Waits(s, s', t, ch, pulse, timeout) && t !in s.pulseOnly
    ensures t !in s'.client
    ensures if timeout then StOf(s'.st, t) == Ready && s'.recvq == s.recvq && t !in s'.pulseOnly
            else StOf(s'.st, t) == ReceiveOn(ch) && t in Q(s'.recvq, ch) && (t in s'.pulseOnly <==> pulse)
  {
    assert Lookup(s'.client, t) == None;
    if !timeout {
      StandsInside(Q(s.recvq, ch), Q(s'.recvq, ch), t, s.pulseOnly, pulse);
    }
  }

  lemma StandsInside(q: seq<Id>, q': seq<Id>, t: Id, pulseOnly: set<Id>, pulse: bool)
    requires Stands(q, q', t, pulseOnly, pulse)
    ensures t in q'
  {
  }

  // ---------------------------------------------------------------- reply, error, current and forced unblock

  /** `x` is no longer served. */
  ghost predicate Dissolves(s: State, s': State, x: Id) {
    && (forall u :: Lookup(s'.server, u) == if u == x then None else Lookup(s.server, u))
    && (forall u :: Lookup(s'.client, u) == if Lookup(s.server, x) == Some(u) then None else Lookup(s.client, u))
  }

  /** `x` is ready and off the reply queue of `ch`, from which nobody else has moved. */
  ghost predicate Answered(s: State, s': State, x: Id, ch: Id) {
    && StOf(s'.st, x) == Ready && OthersStay(s.st, s'.st, {x})
    && Left(Q(s.replyq, ch), Q(s'.replyq, ch), x) && Becomes(s.replyq, s'.replyq, ch, Q(s'.replyq, ch))
    && s'.sendq == s.sendq && s'.recvq == s.recvq && s'.pulseOnly == s.pulseOnly
    && s'.prio == s.prio && s'.pulses == s.pulses
  }

  /** A reply to a thread that waits for one lets it go; the pair is dissolved unless the reply
      faults early. A reply to any other thread does nothing. */
  ghost predicate ReplyAnswer(s: State, s': State, x: Id, fault: ReplyFault) {
    match StOf(s.st, x)
    case ReplyOn(c) =>
      && c in s.net.chan && Answered(s, s', x, s.net.chan[c])
      && if fault == Early then s'.client == s.client && s'.server == s.server else Dissolves(s, s', x)
    case _ => s' == s
  }

  lemma DropDissolves(s: State, x: Id)
    ensures Dissolves(s, DropServer(s, x), x)
  {
  }

  lemma ReleaseAnswers(s: State, s0: State, x: Id)
    requires Inv(s) && StOf(s.st, x).ReplyOn? && s0 == s.(client := s0.client, server := s0.server)
    ensures var c, s' := StOf(s.st, x).c, ReleaseClient(s0, x);
            && c in s.net.chan && Answered(s, s', x, s.net.chan[c])
            && s'.client == s0.client && s'.server == s0.server
  {
    var c := StOf(s.st, x).c;
    var ch := s.net.chan[c];
    assert ReplyBlockedAt(s.net.chan, StOf(s.st, x), ch);
    assert x in Q(s.replyq, ch);
    hide Inv;
    var k := RemoveSplits(Q(s.replyq, ch), x);
    hide Remove;
  }

  lemma ReplyAnswers(s: State, x: Id, fault: ReplyFault)
    requires Inv(s)
    ensures ReplyAnswer(s, Reply(s, x, fault), x, fault)
  {
    hide Inv, ReleaseClient, DropServer, Answered;
    if StOf(s.st, x).ReplyOn? {
      var s0 := if fault == Early then s else DropServer(s, x);
      DropServerParts(s, x);
      DropDissolves(s, x);
      ReleaseAnswers(s, s0, x);
    }
  }

  /** A forced unblock lets a thread go from wherever it waits; a reply-blocked one is no longer
      served. */
  ghost predicate UnblockAnswer(s: State, s': State, x: Id) {
    match StOf(s.st, x)
    case Ready => s' == s
    case ReplyOn(c) => c in s.net.chan && Answered(s, s', x, s.net.chan[c]) && Dissolves(s, s', x)
    case SendOn(c) =>
      && c in s.net.chan && s' == s.(st := s'.st, sendq := s'.sendq)
      && StOf(s'.st, x) == Ready && OthersStay(s.st, s'.st, {x}) && var ch := s.net.chan[c];
      Left(Q(s.sendq, ch), Q(s'.sendq, ch), x) && Becomes(s.sendq, s'.sendq, ch, Q(s'.sendq, ch))
    case ReceiveOn(ch) =>
      && s' == s.(st := s'.st, recvq := s'.recvq, pulseOnly := s.pulseOnly - {x})
      && StOf(s'.st, x) == Ready && OthersStay(s.st, s'.st, {x})
      && Left(Q(s.recvq, ch), Q(s'.recvq, ch), x) && Becomes(s.recvq, s'.recvq, ch, Q(s'.recvq, ch))
  }

  lemma Connected(s: State, x: Id)
    requires Inv(s)
    ensures StOf(s.st, x).SendOn? || StOf(s.st, x).ReplyOn? ==> StOf(s.st, x).c in s.net.chan
  {
    hide RecvAgree, ReplyAgree, SendAgree, RecvOrder, NoIdle;
  }

  lemma SenderUnblocks(s: State, x: Id, c: Id)
    requires Inv(s) && StOf(s.st, x) == SendOn(c)
    ensures UnblockAnswer(s, Unblock(s, x), x)
  {
    hide Inv, Answered, Dissolves;
    Connected(s, x);
    var ch := s.net.chan[c];
    SenderIsQueued(s, x, ch);
    var k := RemoveSplits(Q(s.sendq, ch), x);
    hide Remove;
  }

  lemma ReceiverUnblocks(s: State, x: Id, ch: Id)
    requires Inv(s) && StOf(s.st, x) == ReceiveOn(ch)
    ensures UnblockAnswer(s, Unblock(s, x), x)
  {
    hide Inv, Answered, Dissolves;
    Places(s, x, ch);
    var k := RemoveSplits(Q(s.recvq, ch), x);
    hide Remove;
  }

  lemma UnblockAnswers(s: State, x: Id)
    requires Inv(s)
    ensures UnblockAnswer(s, Unblock(s, x), x)
  {
    hide Inv, ReleaseClient, DropServer, Answered, Dissolves;
    match StOf(s.st, x)
    case Ready =>
    case ReplyOn(c) =>
      DropServerParts(s, x);
      DropDissolves(s, x);
      ReleaseAnswers(s, DropServer(s, x), x);
      DissolvesFrame(s, DropServer(s, x), Unblock(s, x), x);
    case SendOn(c) => SenderUnblocks(s, x, c);
    case ReceiveOn(ch) => ReceiverUnblocks(s, x, ch);
  }

  lemma DissolvesFrame(s: State, s1: State, s': State, x: Id)
    requires Dissolves(s, s1, x) && s'.client == s1.client && s'.server == s1.server
    ensures Dissolves(s, s', x)
  {
  }

  /** The caller works for the reply-blocked `x`, at its priority if the channel floats, and `x`
      is served by nobody else; or, without such a client, for nobody. */
  ghost predicate CurrentAnswer(s: State, s': State, t: Id, x: Option<Id>) {
    && s' == s.(client := s'.client, server := s'.server, prio := s'.prio)
    && if x.Some? && StOf(s.st, x.value).ReplyOn? then
         && StOf(s.st, x.value).c in s.net.chan
         && Floats(s, s', t, P(s.prio, x.value), s.net.chan[StOf(s.st, x.value).c])
         && Lookup(s'.client, t) == x && Lookup(s'.server, x.value) == Some(t)
         && (forall u :: u != t ==> Lookup(s'.client, u) in {Lookup(s.client, u), None})
         && (forall u :: u != t && Lookup(s.server, x.value) != Some(u) ==>
               Lookup(s'.client, u) == Lookup(s.client, u))
         && (forall u :: u != x.value ==>
               Lookup(s'.server, u) == if Lookup(s.client, t) == Some(u) then None else Lookup(s.server, u))
       else Unlinks(s, s', t) && s'.prio == s.prio
  }

  lemma CurrentFields(s: State, t: Id, x: Id)
    requires StOf(s.st, x).ReplyOn? && StOf(s.st, x).c in s.net.chan
    ensures var s2, s' := DropServer(DropClient(s, t), x), Current(s, t, Some(x));
            && s' == s.(client := s2.client[t := x], server := s2.server[x := t], prio := s'.prio)
            && s'.prio == FloatPrio(s.net, s.prio, t, P(s.prio, x), s.net.chan[StOf(s.st, x).c])
  {
    DropClientParts(s, t);
    DropServerParts(DropClient(s, t), x);
    hide DropClient, DropServer, FloatPrio, P;
  }

  lemma CurrentAdopts(s: State, t: Id, x: Id)
    requires StOf(s.st, x).ReplyOn? && StOf(s.st, x).c in s.net.chan
    ensures CurrentAnswer(s, Current(s, t, Some(x)), t, Some(x))
  {
    hide Current, DropClient, DropServer, FloatPrio, P, Floats, StOf;
    CurrentFields(s, t, x);
    DropUnlinks(s, t);
    DropDissolves(DropClient(s, t), x);
    PrioFloats(s, Current(s, t, Some(x)), t, P(s.prio, x), s.net.chan[StOf(s.st, x).c]);
  }

  lemma CurrentAnswers(s: State, t: Id, x: Option<Id>)
    requires Inv(s)
    ensures CurrentAnswer(s, Current(s, t, x), t, x)
  {
    hide Inv, Current, CurrentAnswer;
    if x.Some? && StOf(s.st, x.value).ReplyOn? {
      Connected(s, x.value);
      CurrentAdopts(s, t, x.value);
    } else {
      CurrentDrops(s, t, x);
    }
  }

  lemma CurrentDrops(s: State, t: Id, x: Option<Id>)
    requires x == None || !StOf(s.st, x.value).ReplyOn?
    ensures CurrentAnswer(s, Current(s, t, x), t, x)
  {
    DropUnlinks(s, t);
    DropClientParts(s, t);
    hide DropClient, P;
  }

  /** On every send queue `t` has gone to the place its priority gives it. */
  ghost predicate Repositions(s: State, s': State, t: Id) {
    forall n :: Moved(Q(s.sendq, n), Q(s'.sendq, n), s'.prio, t)
  }

  /** A change of priority moves a send-blocked thread to its new place in its queue and does
      nothing else. */
  lemma AdjustAnswers(s: State, t: Id, p: nat)
    requires Inv(s) && t >= 0 && P(s.prio, t) != p
    ensures var s' := Adjust(s, t, p);
            && s' == s.(prio := s'.prio, sendq := s'.sendq)
            && (forall u :: P(s'.prio, u) == if u == t then p else P(s.prio, u))
            && Repositions(s, s', t)
  {
    UpdatePrio(s.prio, t, p);
    AdjustRepositions(s, t, p);
    hide Inv, P, Repositions, Q, Reposition;
  }

  lemma AdjustRepositions(s: State, t: Id, p: nat)
    requires Inv(s) && t >= 0 && P(s.prio, t) != p
    ensures Repositions(s, Adjust(s, t, p), t)
  {
    hide Inv, P, Moved, Q, Adjust;
    forall n ensures Moved(Q(s.sendq, n), Q(Adjust(s, t, p).sendq, n), Adjust(s, t, p).prio, t) {
      AdjustMoves(s, t, p, n);
    }
  }

  lemma QueueFacts(s: State, t: Id, n: Id)
    requires Inv(s) && t >= 0
    ensures Distinct(Q(s.sendq, n)) && Sorted(Q(s.sendq, n), s.prio)
    ensures t in Q(s.sendq, n) <==> StOf(s.st, t).SendOn? && Lookup(s.net.chan, StOf(s.st, t).c) == Some(n)
  {
    hide RecvAgree, ReplyAgree, RecvOrder, NoIdle, Sorted, Distinct, P;
    assert t in Q(s.sendq, n) <==> QueuedAt(s.net.chan, s.st, s.pulses, t, n);
    assert t !in s.pulses;
  }

  lemma AdjustMoves(s: State, t: Id, p: nat, n: Id)
    requires Inv(s) && t >= 0 && P(s.prio, t) != p
    ensures Moved(Q(s.sendq, n), Q(Adjust(s, t, p).sendq, n), Adjust(s, t, p).prio, t)
  {
    hide Inv, P, Sorted, Distinct, Moved, Reposition, Q;
    QueueFacts(s, t, n);
    RepositionMoves(Q(s.sendq, n), s.prio, t, p);
    AdjustedQueue(s, t, p, n);
    hide Adjust;
  }

  lemma AdjustSender(s: State, t: Id, p: nat, ch: Id)
    requires P(s.prio, t) != p && StOf(s.st, t).SendOn? && Lookup(s.net.chan, StOf(s.st, t).c) == Some(ch)
    ensures Adjust(s, t, p) ==
            s.(prio := s.prio[t := p], sendq := s.sendq[ch := Reposition(Q(s.sendq, ch), s.prio, t, p)])
  {
    hide P, Reposition, Q;
  }

  lemma AdjustedQueue(s: State, t: Id, p: nat, n: Id)
    requires P(s.prio, t) != p
    ensures Adjust(s, t, p).prio == s.prio[t := p]
    ensures Q(Adjust(s, t, p).sendq, n) ==
            if StOf(s.st, t).SendOn? && Lookup(s.net.chan, StOf(s.st, t).c) == Some(n)
            then Reposition(Q(s.sendq, n), s.prio, t, p) else Q(s.sendq, n)
  {
    hide P, Reposition;
    if StOf(s.st, t).SendOn? && Lookup(s.net.chan, StOf(s.st, t).c).Some? {
      hide Adjust;
      AdjustSender(s, t, p, s.net.chan[StOf(s.st, t).c]);
    }
  }
}
