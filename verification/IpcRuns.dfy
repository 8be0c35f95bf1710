/**
 Message passing over whole runs: what holds after any number of calls, in any order, from a
 system where nobody is blocked.
 */
module IpcRuns {
  import opened Base
  import opened Pril
  import opened Ipc
  import opened IpcPairing
  import opened IpcPriority

  /** Nobody is blocked, nothing is queued, nobody works for anybody. */
  ghost predicate Start(s: State) {
    && s.st == map[] && s.pulses == map[] && s.pulseOnly == {}
    && s.sendq == map[] && s.recvq == map[] && s.replyq == map[]
    && s.client == map[] && s.server == map[]
    && (forall ch, t :: t in Vector(s.net, ch) ==> t >= 0)
  }

  ghost predicate Run(states: seq<State>, events: seq<Event>) {
    && |states| == |events| + 1
    && Start(states[0])
    && forall i :: 0 <= i < |events| ==> Enabled(states[i], events[i]) && states[i + 1] == Apply(states[i], events[i])
  }

  lemma StartHolds(s: State)
    requires Start(s)
    ensures Inv(s) && Noted(s) && Pairing(s) && AllOrdered(s)
  {
  }

  /** In every state of every run the queues agree with what the threads are blocked on, no
      receiver idles beside a message, and waiting receivers have noted their channel. */
  lemma {:induction false} RunsAgree(states: seq<State>, events: seq<Event>, i: nat)
    requires Run(states, events) && i < |states|
    ensures Inv(states[i]) && Noted(states[i])
  {
    if i == 0 {
      StartHolds(states[0]);
    } else {
      RunsAgree(states, events, i - 1);
      StepKeeps(states[i - 1], events[i - 1]);
      NotedStep(states[i - 1], events[i - 1]);
    }
  }

  /** Clients and servers stay matched until the first reply that faults early. */
  lemma {:induction false} RunsPair(states: seq<State>, events: seq<Event>, i: nat)
    requires Run(states, events) && i < |states|
    requires forall j :: 0 <= j < i ==> !DanglingReply(states[j], events[j])
    ensures Pairing(states[i])
  {
    if i == 0 {
      StartHolds(states[0]);
    } else {
      RunsPair(states, events, i - 1);
      RunsAgree(states, events, i - 1);
      PairingStep(states[i - 1], events[i - 1]);
    }
  }

  /** In every state of every run, early faults included, whoever names a server is that
      server's client, so no two threads name the same server, and a thread that waits in a
      receive works for nobody. */
  lemma {:induction false} RunsLink(states: seq<State>, events: seq<Event>, i: nat)
    requires Run(states, events) && i < |states|
    ensures Linking(states[i])
    ensures var server := states[i].server;
            forall t, u :: t in server && u in server && server[t] == server[u] ==> t == u
  {
    if i > 0 {
      RunsLink(states, events, i - 1);
      RunsAgree(states, events, i - 1);
      LinkingStep(states[i - 1], events[i - 1]);
    }
  }

  /** A run is free of priority inversion exactly as long as each of its calls is `OrderSafe`. */
  lemma {:induction false} RunsOrder(states: seq<State>, events: seq<Event>, i: nat)
    requires Run(states, events) && i < |states|
    ensures (forall j :: 0 <= j <= i ==> AllOrdered(states[j])) <==>
            (forall j :: 0 <= j < i ==> OrderSafe(states[j], events[j]))
  {
    assert |states| == |events| + 1;
    StartHolds(states[0]);
    hide Run, AllOrdered, OrderSafe, Inv, Noted, Start, Apply, Enabled, Pairing;
    if i > 0 {
      RunsOrder(states, events, i - 1);
      RunsOrderNext(states, events, i - 1);
    }
  }

  lemma RunsOrderNext(states: seq<State>, events: seq<Event>, i: nat)
    requires Run(states, events) && i < |events|
    ensures AllOrdered(states[i]) ==> (AllOrdered(states[i + 1]) <==> OrderSafe(states[i], events[i]))
  {
    hide AllOrdered, OrderSafe, Inv, Noted, Start, Apply, Enabled;
    RunsAgree(states, events, i);
    assert states[i + 1] == Apply(states[i], events[i]) && Enabled(states[i], events[i]);
    if AllOrdered(states[i]) {
      OrderStep(states[i], events[i]);
    }
  }

  // ---------------------------------------------------------------- one place at a time

  /** A thread is on at most one queue of one channel. */
  lemma OnOneQueue(s: State, t: Id, a: Id, b: Id)
    requires Inv(s)
    ensures !(t in Q(s.sendq, a) && t in Q(s.recvq, b))
    ensures !(t in Q(s.sendq, a) && t in Q(s.replyq, b))
    ensures !(t in Q(s.recvq, a) && t in Q(s.replyq, b))
    ensures t in Q(s.sendq, a) && t in Q(s.sendq, b) ==> a == b
    ensures t in Q(s.recvq, a) && t in Q(s.recvq, b) ==> a == b
    ensures t in Q(s.replyq, a) && t in Q(s.replyq, b) ==> a == b
  {
    Places(s, t, a);
    Places(s, t, b);
    hide Inv, Q;
  }

  lemma Places(s: State, t: Id, ch: Id)
    requires Inv(s)
    ensures t in Q(s.sendq, ch) <==> QueuedAt(s.net.chan, s.st, s.pulses, t, ch)
    ensures t in Q(s.recvq, ch) <==> StOf(s.st, t) == ReceiveOn(ch)
    ensures t in Q(s.replyq, ch) <==> ReplyBlockedAt(s.net.chan, StOf(s.st, t), ch)
    ensures t in s.pulses ==> StOf(s.st, t) == Ready
  {
  }

  // ---------------------------------------------------------------- the life of a call

  /** How a thread's state may change in one call of anybody. */
  predicate Follows(a: TState, b: TState) {
    match a
    case Ready => true
    case SendOn(c) => b == a || b == ReplyOn(c) || b == Ready
    case ReplyOn(_) => b == a || b == Ready
    case ReceiveOn(_) => b == a || b == Ready
  }

  function Caller(e: Event): Option<Id> {
    match e
    case MsgSend(t, _, _, _) => Some(t)
    case MsgReceive(t, _, _, _, _, _, _, _) => Some(t)
    case _ => None
  }

  /** A step from `st` to `st'` in which only `who` may block. */
  ghost predicate LifeGoesOn(st: map<Id, TState>, st': map<Id, TState>, who: Option<Id>) {
    && (forall u :: Follows(StOf(st, u), StOf(st', u)))
    && (forall u :: StOf(st, u) == Ready && StOf(st', u) != Ready ==> who == Some(u))
  }

  lemma LifeUpdate(st: map<Id, TState>, st': map<Id, TState>, who: Option<Id>, t: Id, v: TState)
    requires LifeGoesOn(st, st', who)
    requires Follows(StOf(st, t), v) && (StOf(st, t) == Ready && v != Ready ==> who == Some(t))
    ensures LifeGoesOn(st, st'[t := v], who)
  {
    var st'' := st'[t := v];
    forall u ensures Follows(StOf(st, u), StOf(st'', u)) {
      assert Follows(StOf(st, u), StOf(st', u));
    }
  }

  lemma QueueSenderLife(s: State, t: Id, c: Id, ch: Id)
    requires Inv(s) && t >= 0 && StOf(s.st, t) == Ready && Lookup(s.net.chan, c) == Some(ch)
    requires Q(s.recvq, ch) == [] || Q(s.recvq, ch)[0] in s.pulseOnly
    ensures LifeGoesOn(s.st, QueueSender(s, t, c, ch).st, Some(t))
  {
    hide Inv, Q, P, Insert, BoostServers, LifeGoesOn;
    LifeStays(s.st, Some(t));
    QueueSenderKeeps(s, t, c, ch);
    BoostServersKeeps(Enqueue(s, t, c, ch), P(s.prio, t), ch);
    LifeUpdate(s.st, s.st, Some(t), t, SendOn(c));
  }

  lemma HandshakeLife(s: State, t: Id, c: Id, ch: Id)
    requires Inv(s) && StOf(s.st, t) == Ready && Q(s.recvq, ch) != []
    ensures LifeGoesOn(s.st, ReleaseReceiver(s, ch).st, Some(t))
    ensures LifeGoesOn(s.st, Handshake(s, t, c, ch).st, Some(t))
  {
    hide Inv, Q, P, LifeGoesOn, FloatPrio;
    var r := Q(s.recvq, ch)[0];
    LifeStays(s.st, Some(t));
    ReleaseReceiverKeeps(s, ch);
    LifeUpdate(s.st, s.st, Some(t), r, Ready);
    LifeUpdate(s.st, s.st[r := Ready], Some(t), t, ReplyOn(c));
  }

  lemma SendLife(s: State, t: Id, c: Id, copy: Copy, refused: bool)
    requires Inv(s) && t >= 0 && StOf(s.st, t) == Ready
    ensures LifeGoesOn(s.st, Send(s, t, c, copy, refused).st, Some(t))
  {
    hide Inv, Q, LifeGoesOn, QueueSender, Handshake, ReleaseReceiver;
    LifeStays(s.st, Some(t));
    if c in s.net.chan && !refused {
      var ch := s.net.chan[c];
      if Queues(s, c, refused) {
        QueueSenderLife(s, t, c, ch);
      } else {
        HandshakeLife(s, t, c, ch);
      }
    }
  }

  lemma SendPulseLife(s: State, ch: Id, x: Id, p: nat, first: bool, merged: bool, invalid: bool, refused: bool)
    requires Inv(s) && x < 0 && x !in s.pulses
    ensures LifeGoesOn(s.st, SendPulse(s, ch, x, p, first, merged, invalid, refused).st, None)
  {
    hide Inv, LifeGoesOn, BoostServers, Insert;
    LifeStays(s.st, None);
    if Q(s.recvq, ch) != [] {
      ReleaseReceiverKeeps(s, ch);
      LifeUpdate(s.st, s.st, None, Q(s.recvq, ch)[0], Ready);
    } else if merged {
      BoostServersKeeps(s, p, ch);
    } else {
      var key := if first then p + 256 else p;
      QueuePulseKeeps(s, ch, x, p, key);
      BoostServersKeeps(QueuePulse(s, ch, x, p, key), p, ch);
    }
  }

  lemma LifeStays(st: map<Id, TState>, who: Option<Id>)
    ensures LifeGoesOn(st, st, who)
  {
  }

  lemma AwaitLife(st: map<Id, TState>, s: State, t: Id, ch: Id, pulse: bool, timeout: bool)
    requires LifeGoesOn(st, s.st, Some(t)) && StOf(st, t) == Ready
    ensures LifeGoesOn(st, Await(s, t, ch, pulse, timeout).st, Some(t))
  {
    hide Q, LifeGoesOn, DropClient, JoinReceivers;
    DropClientParts(s, t);
    LifeUpdate(st, s.st, Some(t), t, ReceiveOn(ch));
  }

  lemma TakePulseLife(s: State, t: Id, ch: Id, x: Id, last: bool)
    requires x in s.pulses
    ensures TakePulse(s, t, ch, x, last).st == s.st
  {
    hide Q, DropClient, P;
    var s0 := SetPrio(s, t, s.pulses[x].priority, ch);
    assert s0 == s.(prio := s0.prio);
    hide SetPrio;
    DropClientParts(s0, t);
  }

  lemma TakeMessageLife(st: map<Id, TState>, s: State, t: Id, ch: Id, x: Id)
    requires LifeGoesOn(st, s.st, Some(t)) && StOf(s.st, x).SendOn? && StOf(st, x) == StOf(s.st, x)
    ensures LifeGoesOn(st, TakeMessage(s, t, ch, x).st, Some(t))
  {
    hide Q, LifeGoesOn, DropClient, P, Remove;
    DropClientParts(s, t);
    LifeUpdate(st, s.st, Some(t), x, ReplyOn(StOf(s.st, x).c));
  }

  /** During the retry loop nobody but the caller and the faulting senders has changed. */
  lemma {:induction false} ReceiveAnyLife(st: map<Id, TState>, s: State, t: Id, ch: Id, bad: set<Id>,
                                          dstFault: bool, last: bool, timeout: bool)
    requires LifeGoesOn(st, s.st, Some(t)) && StOf(st, t) == Ready && StOf(s.st, t) == Ready
    requires forall u :: StOf(s.st, u).SendOn? ==> StOf(st, u) == StOf(s.st, u)
    ensures LifeGoesOn(st, ReceiveAny(s, t, ch, bad, dstFault, last, timeout).st, Some(t))
    decreases |Q(s.sendq, ch)|
  {
    hide LifeGoesOn, TakePulse, TakeMessage, Await;
    var q := Q(s.sendq, ch);
    if q == [] {
      AwaitLife(st, s, t, ch, false, timeout);
    } else if q[0] in s.pulses {
      TakePulseLife(s, t, ch, q[0], last);
    } else if StOf(s.st, q[0]).SendOn? {
      if q[0] in bad {
        LifeUpdate(st, s.st, Some(t), q[0], Ready);
        ReceiveAnyLife(st, UnblockSender(s, q[0], ch), t, ch, bad, dstFault, last, timeout);
      } else if !dstFault {
        TakeMessageLife(st, s, t, ch, q[0]);
      }
    }
  }

  lemma ReceiveLife(s: State, t: Id, ch: Id, pulse: bool, invalid: bool, bad: set<Id>, dstFault: bool, last: bool,
                    timeout: bool)
    requires StOf(s.st, t) == Ready
    ensures LifeGoesOn(s.st, Receive(s, t, ch, pulse, invalid, bad, dstFault, last, timeout).st, Some(t))
  {
    hide LifeGoesOn, TakePulse, ReceiveAny, Await, FirstPulse, Q;
    LifeStays(s.st, Some(t));
    var s1 := s.(lastChid := s.lastChid[t := ch]);
    if !invalid {
      if pulse {
        var x := FirstPulse(Q(s.sendq, ch), s.pulses);
        if x.Some? {
          TakePulseLife(s1, t, ch, x.value, last);
        } else {
          AwaitLife(s.st, s1, t, ch, true, timeout);
        }
      } else {
        ReceiveAnyLife(s.st, s1, t, ch, bad, dstFault, last, timeout);
      }
    }
  }

  /** A blocked send is received at most once and ends once; a thread blocks by its own call
      only; nobody is moved from one blocked state to an unrelated one. */
  lemma CallsLive(s: State, e: Event)
    requires Inv(s) && Enabled(s, e)
    ensures LifeGoesOn(s.st, Apply(s, e).st, Caller(e))
  {
    hide LifeGoesOn, Inv, Send, SendPulse, Receive, Reply, Current, Unblock, Adjust;
    match e
    case MsgSend(t, c, copy, refused) => SendLife(s, t, c, copy, refused);
    case MsgPulse(ch, x, p, first, merged, invalid, refused) => SendPulseLife(s, ch, x, p, first, merged, invalid,
                                                                              refused);
    case MsgReceive(t, ch, pulse, invalid, bad, dstFault, last, timeout) =>
      ReceiveLife(s, t, ch, pulse, invalid, bad, dstFault, last, timeout);
    case MsgReply(x, fault) => ReplyLife(s, x, fault);
    case MsgError(x) => ReplyLife(s, x, NoFault);
    case MsgCurrent(t, x) =>
      LifeStays(s.st, None);
      CurrentParts(s, t, x);
    case ForceReady(x) => UnblockLife(s, x);
    case AdjustPriority(t, p) =>
      LifeStays(s.st, None);
      AdjustKeeps(s, t, p);
  }

  lemma ReplyLife(s: State, x: Id, fault: ReplyFault)
    ensures LifeGoesOn(s.st, Reply(s, x, fault).st, None)
  {
    hide LifeGoesOn, Q, Remove, DropServer;
    LifeStays(s.st, None);
    DropServerParts(s, x);
    LifeUpdate(s.st, s.st, None, x, Ready);
  }

  lemma UnblockLife(s: State, x: Id)
    ensures LifeGoesOn(s.st, Unblock(s, x).st, None)
  {
    hide LifeGoesOn, Q, Remove, DropServer;
    LifeStays(s.st, None);
    DropServerParts(s, x);
    LifeUpdate(s.st, s.st, None, x, Ready);
  }

  /** Without a call of its own a thread only goes forward: from send-blocked to reply-blocked
      on the same connection to ready, and ready it stays. */
  predicate Forward(a: TState, b: TState) {
    if a == Ready then b == Ready else Follows(a, b)
  }

  /** Over every stretch of every run in which a thread makes no call of its own. */
  lemma {:induction false} CallsRunForward(states: seq<State>, events: seq<Event>, t: Id, i: nat, j: nat)
    requires Run(states, events) && i <= j < |states|
    requires forall k :: i <= k < j ==> Caller(events[k]) != Some(t)
    ensures Forward(StOf(states[i].st, t), StOf(states[j].st, t))
    decreases j - i
  {
    hide Inv, Noted, Apply, Enabled, Start, StOf;
    if i < j {
      CallsRunForward(states, events, t, i, j - 1);
      RunsAgree(states, events, j - 1);
      assert states[j] == Apply(states[j - 1], events[j - 1]) && Enabled(states[j - 1], events[j - 1]);
      CallsLive(states[j - 1], events[j - 1]);
      assert Follows(StOf(states[j - 1].st, t), StOf(states[j].st, t));
    }
  }

  /** A blocked send ends before its thread is blocked in anything else: between two states of
      a run in which a thread is blocked differently, other than by its message having been
      received, the thread has been ready. */
  lemma CallsEnd(states: seq<State>, events: seq<Event>, t: Id, i: nat, j: nat)
    requires Run(states, events) && i <= j < |states|
    requires StOf(states[i].st, t) != Ready && !Follows(StOf(states[i].st, t), StOf(states[j].st, t))
    ensures exists k :: i < k < j && StOf(states[k].st, t) == Ready
  {
    if forall k :: i < k < j ==> StOf(states[k].st, t) != Ready {
      forall k | i <= k < j ensures Caller(events[k]) != Some(t) {
        assert Enabled(states[k], events[k]);
      }
      CallsRunForward(states, events, t, i, j);
    }
  }

  // ---------------------------------------------------------------- what a receive takes

  lemma {:induction false} SkipIsTail(q: seq<Id>, pulses: map<Id, Pulse>, bad: set<Id>) returns (k: nat)
    ensures k <= |q| && Skip(q, pulses, bad) == q[k..]
    ensures forall i :: 0 <= i < k ==> q[i] in bad && q[i] !in pulses
    ensures k < |q| ==> q[k] in pulses || q[k] !in bad
  {
    if q != [] && q[0] !in pulses && q[0] in bad {
      var j := SkipIsTail(q[1..], pulses, bad);
      k := j + 1;
      assert q[1..][j..] == q[k..];
      forall i | 0 <= i < k ensures q[i] in bad && q[i] !in pulses {
        if i > 0 {
          assert q[i] == q[1..][i - 1];
        }
      }
      if k < |q| {
        assert q[k] == q[1..][j];
      }
    } else {
      k := 0;
    }
  }

  /** Whatever stands first in what is left of the queue, nothing left stands higher. */
  lemma HeadIsHighest(s: State, ch: Id, bad: set<Id>)
    requires Inv(s)
    ensures var rest := Skip(Q(s.sendq, ch), s.pulses, bad);
            forall y :: y in rest ==> P(s.prio, y) <= P(s.prio, rest[0])
  {
    var q := Q(s.sendq, ch);
    var k := SkipIsTail(q, s.pulses, bad);
    assert Sorted(q, s.prio);
    hide Inv, P, Q, Skip;
    forall y | y in q[k..] ensures P(s.prio, y) <= P(s.prio, q[k..][0]) {
      var i :| 0 <= i < |q[k..]| && q[k..][i] == y;
      assert q[k..][0] == q[k] && q[k + i] == y;
    }
  }

  /** An ordinary receive that ends with a message, or with a pulse that was not moved ahead
      of its priority, or with an empty queue, leaves no inversion on its channel. */
  lemma PlainReceiveSettles(s: State, t: Id, ch: Id, bad: set<Id>)
    requires Inv(s) && Noted(s)
    requires var rest := Skip(Q(s.sendq, ch), s.pulses, bad);
             rest == [] || rest[0] !in s.pulses || P(s.prio, rest[0]) == s.pulses[rest[0]].priority
    ensures ReceiveSettles(s, t, ch, false, false, bad, false)
  {
    HeadIsHighest(s, ch, bad);
    hide Inv, P, Q, Skip;
    var rest := Skip(Q(s.sendq, ch), s.pulses, bad);
    forall y | y in rest ensures EntryPrio(s.prio, s.pulses, y) <= TakenPrio(s, t, rest, false) {
    }
  }

  /** An ordinary receive hands over the first message that does not fault; the receiver then
      works for its sender. */
  lemma {:induction false} ReceivesFirstGood(s: State, t: Id, ch: Id, bad: set<Id>, last: bool, timeout: bool)
    requires Inv(s) && t >= 0 && StOf(s.st, t) == Ready
    requires var rest := Skip(Q(s.sendq, ch), s.pulses, bad); rest != [] && rest[0] !in s.pulses
    ensures var x := Skip(Q(s.sendq, ch), s.pulses, bad)[0];
            var s' := ReceiveAny(s, t, ch, bad, false, last, timeout);
            && StOf(s.st, x).SendOn? && StOf(s'.st, x) == ReplyOn(StOf(s.st, x).c)
            && Lookup(s'.client, t) == Some(x) && Lookup(s'.server, x) == Some(t)
            && StOf(s'.st, t) == Ready
            && (ch !in s.net.fixed ==> P(s'.prio, t) == P(s.prio, x))
    decreases |Q(s.sendq, ch)|
  {
    var q := Q(s.sendq, ch);
    HeadIsQueued(s, ch);
    if q[0] in bad {
      UnblockSenderKeeps(s, q[0], ch);
      assert Q(UnblockSender(s, q[0], ch).sendq, ch) == q[1..];
      NotInTail(s, ch);
      ReceivesFirstGood(UnblockSender(s, q[0], ch), t, ch, bad, last, timeout);
      var k := SkipIsTail(q[1..], s.pulses, bad);
    } else {
      MessageTaken(s, t, ch, q[0]);
    }
  }

  lemma NotInTail(s: State, ch: Id)
    requires Inv(s) && Q(s.sendq, ch) != []
    ensures Q(s.sendq, ch)[0] !in Q(s.sendq, ch)[1..]
  {
  }

  lemma MessageTaken(s: State, t: Id, ch: Id, x: Id)
    requires StOf(s.st, t) == Ready && StOf(s.st, x).SendOn?
    ensures var s' := TakeMessage(s, t, ch, x);
            && StOf(s'.st, x) == ReplyOn(StOf(s.st, x).c) && StOf(s'.st, t) == Ready
            && Lookup(s'.client, t) == Some(x) && Lookup(s'.server, x) == Some(t)
            && (ch !in s.net.fixed ==> P(s'.prio, t) == P(s.prio, x))
  {
    hide Q, Remove, DropClient;
    DropClientParts(s, t);
  }

  /** Thread 1, the only server of channel 7, and its client 2 both run at priority 5. */
  function ServerAndClient(): State {
    State(Net(map[100 := 7], {}, map[7 := [1]]), map[], map[1 := 5, 2 := 5], map[], map[], map[], map[], map[],
          map[], {}, map[1 := 7])
  }

  function MessageQueued(): State {
    ServerAndClient().(st := map[2 := SendOn(100)], sendq := map[7 := [2]])
  }

  /** The client has sent, then a pulse of priority 1 has been put before its message. */
  function PulseAhead(): State {
    var s := MessageQueued();
    s.(prio := s.prio[-1 := 257], pulses := map[-1 := Pulse(7, 1)], sendq := map[7 := [-1, 2]])
  }

  lemma PulseAheadIsReached()
    ensures Start(ServerAndClient())
    ensures Apply(ServerAndClient(), MsgSend(2, 100, Done, false)) == MessageQueued()
    ensures Apply(MessageQueued(), MsgPulse(7, -1, 1, true, false, false, false)) == PulseAhead()
  {
    var s0, s1 := ServerAndClient(), MessageQueued();
    assert Insert([], s0.prio, 2) == [2];
    assert Boost(s1, 5, 7, [1]) == s1;
    var prio := s0.prio[-1 := 257];
    assert Insert([2], prio, -1) == [-1, 2];
    assert Boost(PulseAhead(), 1, 7, [1]) == PulseAhead();
  }

  lemma PulseAheadUnsafe()
    ensures AllOrdered(PulseAhead())
    ensures !ReceiveSettles(PulseAhead(), 1, 7, false, false, {}, false)
  {
    var s := PulseAhead();
    assert forall ch :: ch != 7 ==> Q(s.sendq, ch) == [];
    assert Skip(Q(s.sendq, 7), s.pulses, {}) == [-1, 2];
    assert 2 in [-1, 2] && EntryPrio(s.prio, s.pulses, 2) == 5;
  }

  /** A pulse put before every message can pull its receiver below a waiting sender: there is
      a run of three calls that ends in an inversion. */
  lemma FirstPulseInverts() returns (states: seq<State>, events: seq<Event>)
    ensures Run(states, events) && |events| == 3
    ensures AllOrdered(states[2]) && !AllOrdered(states[3])
  {
    PulseAheadIsReached();
    PulseAheadUnsafe();
    hide Apply, Inv, AllOrdered, Noted, ReceiveSettles, Start;
    var e2 := MsgReceive(1, 7, false, false, {}, false, true, false);
    events := [MsgSend(2, 100, Done, false), MsgPulse(7, -1, 1, true, false, false, false), e2];
    states := [ServerAndClient(), MessageQueued(), PulseAhead(), Apply(PulseAhead(), e2)];
    RunsAgree(states, events, 2);
    OrderStep(PulseAhead(), e2);
  }

  /** A reply that faults early leaves its server with a client that no longer waits: there is
      a run of a send, a receive and a reply that ends with a dangling pair. */
  lemma EarlyReplyDangles() returns (states: seq<State>, events: seq<Event>)
    ensures Run(states, events) && |events| == 3 && events[2].MsgReply?
    ensures Pairing(states[2]) && !Pairing(states[3])
  {
    MessageIsTaken();
    PulseAheadIsReached();
    hide Inv, Pairing, Start, Apply, MessageQueued, ServerAndClient, MessageTakenState;
    var s2, e2 := MessageTakenState(), MsgReply(2, Early);
    events := [MsgSend(2, 100, Done, false), MsgReceive(1, 7, false, false, {}, false, true, false), e2];
    states := [ServerAndClient(), MessageQueued(), s2, Apply(s2, e2)];
    RunsAgree(states, events, 2);
    RunsPair(states, events, 2);
    PairingStep(s2, e2);
  }

  function MessageTakenState(): State {
    MessageQueued().(st := map[2 := ReplyOn(100)], sendq := map[7 := []], replyq := map[7 := [2]],
                     client := map[1 := 2], server := map[2 := 1])
  }

  lemma MessageIsTaken()
    ensures Enabled(ServerAndClient(), MsgSend(2, 100, Done, false)) && StOf(MessageQueued().st, 1) == Ready
    ensures Apply(MessageQueued(), MsgReceive(1, 7, false, false, {}, false, true, false)) == MessageTakenState()
    ensures StOf(MessageTakenState().st, 2).ReplyOn? && 2 in MessageTakenState().server
  {
    var s := MessageQueued();
    assert s.(lastChid := s.lastChid[1 := 7]) == s;
    assert Remove([2], 2) == [];
    assert DropClient(s, 1) == s;
    assert s.prio[1 := 5] == s.prio;
    assert s.st[2 := ReplyOn(100)] == map[2 := ReplyOn(100)];
    assert s.sendq[7 := []] == map[7 := []];
    assert [2] + Q(s.replyq, 7) == [2];
    assert TakeMessage(s, 1, 7, 2) == MessageTakenState();
  }

  /** Thread 1 serves channel 7 and thread 3 serves channel 8, both at priority 5; thread 2
      runs at 9. */
  function TwoServers(): State {
    State(Net(map[100 := 7, 101 := 8], {}, map[7 := [1], 8 := [3]]), map[], map[1 := 5, 2 := 9, 3 := 5], map[],
          map[], map[], map[], map[], map[], {}, map[1 := 7, 3 := 8])
  }

  /** The server of channel 7 waits as a client on channel 8. */
  function ServerQueued(): State {
    TwoServers().(st := map[1 := SendOn(101)], sendq := map[8 := [1]])
  }

  lemma ServerQueuedIsReached()
    ensures Start(TwoServers())
    ensures Apply(TwoServers(), MsgSend(1, 101, Done, false)) == ServerQueued()
    ensures AllOrdered(ServerQueued()) && !NestedSafe(ServerQueued(), 9, 7)
  {
    var s0, s1 := TwoServers(), ServerQueued();
    assert Insert([], s0.prio, 1) == [1];
    assert Boost(s1, 5, 8, [3]) == s1;
    assert forall ch :: ch != 8 ==> Q(s1.sendq, ch) == [];
    assert IsBoosted(s1, 9, 7, 1) && 1 in Q(s1.sendq, 8) && Serves(s1, 3, 8) && !IsBoosted(s1, 9, 7, 3);
  }

  /** Raising a server that is itself queued elsewhere does not raise the servers there: there
      is a run of two sends that ends in an inversion. */
  lemma NestedSendInverts() returns (states: seq<State>, events: seq<Event>)
    ensures Run(states, events) && |events| == 2 && events[0].MsgSend? && events[1].MsgSend?
    ensures AllOrdered(states[1]) && !AllOrdered(states[2])
  {
    ServerQueuedIsReached();
    var e1 := MsgSend(2, 100, Done, false);
    events := [MsgSend(1, 101, Done, false), e1];
    states := [TwoServers(), ServerQueued(), Apply(ServerQueued(), e1)];
    hide Apply, Inv, AllOrdered, Noted, NestedSafe, Start;
    RunsAgree(states, events, 1);
    OrderStep(ServerQueued(), e1);
  }
}
