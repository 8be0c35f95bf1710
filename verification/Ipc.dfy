/**
 Synchronous message passing: send, receive, reply, error and pulse calls over channels,
 each channel with a send queue (priority order), a receive queue and a reply queue.

 A kernel call is one step; the result of copying a message between address spaces is a
 parameter of the step.
 */
module Ipc {
  import opened Base
  import opened Pril

  datatype TState =
    | Ready                 // ready or running
    | SendOn(c: Id)         // blocked on connection c, message not received yet
    | ReplyOn(c: Id)        // blocked on connection c, message received
    | ReceiveOn(ch: Id)     // blocked in a receive on channel ch

  /** A queued pulse. Threads have identities from 0 up, pulses below 0. */
  datatype Pulse = Pulse(ch: Id, priority: nat)

  datatype Net = Net(
    chan: map<Id, Id>,            // connection -> channel
    fixed: set<Id>,               // channels without message-driven priority
    vector: map<Id, seq<Id>>)     // channel -> the threads of its process

  datatype State = State(
    net: Net,
    st: map<Id, TState>,
    prio: map<Id, nat>,           // place of a thread or a pulse in priority lists
    pulses: map<Id, Pulse>,
    sendq: map<Id, seq<Id>>,
    recvq: map<Id, seq<Id>>,
    replyq: map<Id, seq<Id>>,
    client: map<Id, Id>,
    server: map<Id, Id>,
    pulseOnly: set<Id>,           // threads blocked in a receive that takes pulses only
    lastChid: map<Id, Id>)

  function StOf(st: map<Id, TState>, t: Id): TState {
    if t in st then st[t] else Ready
  }

  function Q(m: map<Id, seq<Id>>, ch: Id): seq<Id> {
    if ch in m then m[ch] else []
  }

  function Vector(net: Net, ch: Id): seq<Id> {
    if ch in net.vector then net.vector[ch] else []
  }

  // ---------------------------------------------------------------- invariants

  /** A thread is on a channel's receive queue exactly when it is receive-blocked there. */
  ghost predicate RecvAgree(st: map<Id, TState>, recvq: map<Id, seq<Id>>) {
    && (forall ch :: Distinct(Q(recvq, ch)))
    && (forall t, ch :: t in Q(recvq, ch) <==> StOf(st, t) == ReceiveOn(ch))
  }

  predicate ReplyBlockedAt(chan: map<Id, Id>, s: TState, ch: Id) {
    s.ReplyOn? && Lookup(chan, s.c) == Some(ch)
  }

  /** ... on its reply queue exactly when it is reply-blocked on a connection to it ... */
  ghost predicate ReplyAgree(chan: map<Id, Id>, st: map<Id, TState>, replyq: map<Id, seq<Id>>) {
    && (forall ch :: Distinct(Q(replyq, ch)))
    && (forall t, ch :: t in Q(replyq, ch) <==> ReplyBlockedAt(chan, StOf(st, t), ch))
  }

  predicate QueuedAt(chan: map<Id, Id>, st: map<Id, TState>, pulses: map<Id, Pulse>, x: Id, ch: Id) {
    if x in pulses then pulses[x].ch == ch
    else StOf(st, x).SendOn? && Lookup(chan, StOf(st, x).c) == Some(ch)
  }

  /** ... and on its send queue, in priority order with the channel's pulses, exactly when
      it is send-blocked on a connection to it. */
  ghost predicate SendAgree(chan: map<Id, Id>, st: map<Id, TState>, prio: map<Id, nat>,
                            pulses: map<Id, Pulse>, sendq: map<Id, seq<Id>>) {
    && (forall ch :: Distinct(Q(sendq, ch)) && Sorted(Q(sendq, ch), prio))
    && (forall x, ch :: x in Q(sendq, ch) <==> QueuedAt(chan, st, pulses, x, ch))
  }

  /** Blocked threads are on live connections, and pulses are not threads. */
  ghost predicate Sane(net: Net, st: map<Id, TState>, pulses: map<Id, Pulse>) {
    && (forall t :: StOf(st, t).SendOn? || StOf(st, t).ReplyOn? ==> StOf(st, t).c in net.chan)
    && (forall t :: StOf(st, t) != Ready ==> t >= 0)
    && (forall x :: x in pulses ==> x < 0)
    && (forall ch, t :: t in Vector(net, ch) ==> t >= 0)
  }

  /** Ordinary receivers stand before pulse-only ones. */
  ghost predicate PulseLast(q: seq<Id>, pulseOnly: set<Id>) {
    forall i, j :: 0 <= i < j < |q| && q[i] in pulseOnly ==> q[j] in pulseOnly
  }

  /** Every receive queue has that order; the pulse-only mark is on receive-blocked threads only. */
  ghost predicate RecvOrder(st: map<Id, TState>, recvq: map<Id, seq<Id>>, pulseOnly: set<Id>) {
    && (forall t :: t in pulseOnly ==> StOf(st, t).ReceiveOn?)
    && (forall ch :: PulseLast(Q(recvq, ch), pulseOnly))
  }

  /** No idle receiver: while a message is queued no ordinary receiver waits, while a pulse
      is queued nobody waits. */
  ghost predicate NoIdle(sendq: map<Id, seq<Id>>, recvq: map<Id, seq<Id>>, pulses: map<Id, Pulse>, pulseOnly: set<Id>) {
    && (forall ch, x, r :: x in Q(sendq, ch) && r in Q(recvq, ch) ==> x !in pulses && r in pulseOnly)
  }

  ghost predicate Inv(s: State) {
    && RecvAgree(s.st, s.recvq)
    && ReplyAgree(s.net.chan, s.st, s.replyq)
    && SendAgree(s.net.chan, s.st, s.prio, s.pulses, s.sendq)
    && Sane(s.net, s.st, s.pulses)
    && RecvOrder(s.st, s.recvq, s.pulseOnly)
    && NoIdle(s.sendq, s.recvq, s.pulses, s.pulseOnly)
  }

  // ---------------------------------------------------------------- building blocks

  /** `adjust_priority`: a send-blocked thread is moved in its send queue. */
  function Adjust(s: State, t: Id, p: nat): State {
    if P(s.prio, t) == p then s
    else if StOf(s.st, t).SendOn? && Lookup(s.net.chan, StOf(s.st, t).c).Some? then
      var ch := s.net.chan[StOf(s.st, t).c];
      s.(prio := s.prio[t := p], sendq := s.sendq[ch := Reposition(Q(s.sendq, ch), s.prio, t, p)])
    else s.(prio := s.prio[t := p])
  }

  /** Boost the threads that last received on `ch` to at least `p`, in vector order. */
  function Boost(s: State, p: nat, ch: Id, v: seq<Id>): State
    decreases |v|
  {
    if v == [] then s
    else if P(s.prio, v[0]) < p && Lookup(s.lastChid, v[0]) == Some(ch) then Boost(Adjust(s, v[0], p), p, ch, v[1..])
    else Boost(s, p, ch, v[1..])
  }

  function BoostServers(s: State, p: nat, ch: Id): State {
    if ch in s.net.fixed then s else Boost(s, p, ch, Vector(s.net, ch))
  }

  /** The thread `a` stops working for its client. */
  function DropClient(s: State, a: Id): State {
    s.(client := if a in s.client then s.client - {a} else s.client,
       server := if a in s.client then s.server - {s.client[a]} else s.server)
  }

  /** The thread `t` is no longer served. */
  function DropServer(s: State, t: Id): State {
    s.(client := if t in s.server then s.client - {s.server[t]} else s.client,
       server := if t in s.server then s.server - {t} else s.server)
  }

  function FloatPrio(net: Net, prio: map<Id, nat>, t: Id, p: nat, ch: Id): map<Id, nat> {
    if ch in net.fixed then prio else prio[t := p]
  }

  /** The thread takes a new priority, unless the channel says otherwise. */
  function SetPrio(s: State, t: Id, p: nat, ch: Id): State {
    s.(prio := FloatPrio(s.net, s.prio, t, p, ch))
  }

  /** The head of the receive queue leaves it and becomes ready. */
  function ReleaseReceiver(s: State, ch: Id): State
    requires Q(s.recvq, ch) != []
  {
    var r := Q(s.recvq, ch)[0];
    s.(st := s.st[r := Ready], recvq := s.recvq[ch := Q(s.recvq, ch)[1..]], pulseOnly := s.pulseOnly - {r})
  }

  // ---------------------------------------------------------------- the calls

  /** How copying a message between two address spaces ended. */
  datatype Copy = Done | SrcFault | DstFault

  /** A waiting ordinary receiver takes the message directly. */
  function Handshake(s: State, t: Id, c: Id, ch: Id): State
    requires Q(s.recvq, ch) != []
  {
    var r := Q(s.recvq, ch)[0];
    var s1 := SetPrio(ReleaseReceiver(s, ch), r, P(s.prio, t), ch);
    s1.(st := s1.st[t := ReplyOn(c)],
        server := s1.server[t := r], client := s1.client[r := t],
        replyq := s1.replyq[ch := [t] + Q(s1.replyq, ch)])
  }

  function Enqueue(s: State, t: Id, c: Id, ch: Id): State {
    s.(st := s.st[t := SendOn(c)], sendq := s.sendq[ch := Insert(Q(s.sendq, ch), s.prio, t)])
  }

  /** Nobody can take the message: queue the sender and boost the servers. */
  function QueueSender(s: State, t: Id, c: Id, ch: Id): State {
    BoostServers(Enqueue(s, t, c, ch), P(s.prio, t), ch)
  }

  function QueuePulse(s: State, ch: Id, x: Id, p: nat, key: nat): State {
    s.(prio := s.prio[x := key], pulses := s.pulses[x := Pulse(ch, p)],
       sendq := s.sendq[ch := Insert(Q(s.sendq, ch), s.prio[x := key], x)])
  }

  /** `ker_msg_sendv`. `refused` stands for an immediate timeout or a dying server. */
  function Send(s: State, t: Id, c: Id, copy: Copy, refused: bool): State {
    if c !in s.net.chan || refused then s
    else
      var ch := s.net.chan[c];
      var q := Q(s.recvq, ch);
      if q != [] && q[0] !in s.pulseOnly then
        match copy
        case Done => Handshake(s, t, c, ch)
        case SrcFault => s
        case DstFault => ReleaseReceiver(s, ch)
      else QueueSender(s, t, c, ch)
  }

  /** `ker_msg_sendpulse` and `pulse_deliver`: a pulse of priority `p` for channel `ch`. `first`
      puts it before every message; `merged` adds it to an equal pulse already queued;
      `invalid` and `refused` stand for the error exits before and after the receive queue
      has been looked at. */
  function SendPulse(s: State, ch: Id, x: Id, p: nat, first: bool, merged: bool, invalid: bool, refused: bool): State {
    if invalid then s
    else if Q(s.recvq, ch) != [] then
      var r := Q(s.recvq, ch)[0];
      SetPrio(ReleaseReceiver(s, ch), r, p, ch)
    else if refused then s
    else
      var s1 := if merged then s else QueuePulse(s, ch, x, p, if first then p + 256 else p);
      BoostServers(s1, p, ch)
  }

  function RemovePulse(s: State, ch: Id, x: Id): State {
    s.(sendq := s.sendq[ch := Remove(Q(s.sendq, ch), x)], pulses := s.pulses - {x})
  }

  /** The receiver takes the queued pulse `x`; `last` if no merged occurrence is left. */
  function TakePulse(s: State, t: Id, ch: Id, x: Id, last: bool): State
    requires x in s.pulses
  {
    var s1 := DropClient(SetPrio(s, t, s.pulses[x].priority, ch), t);
    if last then RemovePulse(s1, ch, x) else s1
  }

  /** The receiver takes the message of the send-blocked thread `x`. */
  function TakeMessage(s: State, t: Id, ch: Id, x: Id): State
    requires StOf(s.st, x).SendOn?
  {
    var s1 := DropClient(s, t);
    var s2 := s1.(st := s1.st[x := ReplyOn(StOf(s.st, x).c)],
                  server := s1.server[x := t], client := s1.client[t := x],
                  sendq := s1.sendq[ch := Remove(Q(s1.sendq, ch), x)],
                  replyq := s1.replyq[ch := [x] + Q(s1.replyq, ch)]);
    SetPrio(s2, t, P(s.prio, x), ch)
  }

  /** Where a receiver joins the receive queue: ordinary ones at the front, pulse-only ones
      before the first pulse-only one. */
  function JoinReceivers(q: seq<Id>, t: Id, pulseOnly: set<Id>, pulse: bool): seq<Id> {
    if pulse && q != [] && q[0] !in pulseOnly then [q[0]] + JoinReceivers(q[1..], t, pulseOnly, pulse)
    else [t] + q
  }

  function BlockReceiving(s: State, t: Id, ch: Id, pulse: bool): State {
    s.(st := s.st[t := ReceiveOn(ch)],
       recvq := s.recvq[ch := JoinReceivers(Q(s.recvq, ch), t, s.pulseOnly, pulse)],
       pulseOnly := if pulse then s.pulseOnly + {t} else s.pulseOnly)
  }

  /** Nothing to receive: time out or block. */
  function Await(s: State, t: Id, ch: Id, pulse: bool, timeout: bool): State {
    var s1 := DropClient(s, t);
    if timeout then s1
    else BlockReceiving(s1, t, ch, pulse)
  }

  /** `force_ready` on a send-blocked thread. */
  function UnblockSender(s: State, x: Id, ch: Id): State {
    s.(st := s.st[x := Ready], sendq := s.sendq[ch := Remove(Q(s.sendq, ch), x)])
  }

  /** The retry loop of `ker_msg_receivev`: senders in `bad` fault on their side (or have an
      immediate reply timeout); they are unblocked and the receive starts over. */
  function ReceiveAny(s: State, t: Id, ch: Id, bad: set<Id>, dstFault: bool, last: bool, timeout: bool): State
    decreases |Q(s.sendq, ch)|
  {
    var q := Q(s.sendq, ch);
    if q == [] then Await(s, t, ch, false, timeout)
    else if q[0] in s.pulses then TakePulse(s, t, ch, q[0], last)
    else if !StOf(s.st, q[0]).SendOn? then s
    else if q[0] in bad then ReceiveAny(UnblockSender(s, q[0], ch), t, ch, bad, dstFault, last, timeout)
    else if dstFault then DropClient(s, t)
    else TakeMessage(s, t, ch, q[0])
  }

  function FirstPulse(q: seq<Id>, pulses: map<Id, Pulse>): (r: Option<Id>)
    ensures r.Some? ==> r.value in q && r.value in pulses
    ensures r == None ==> forall x :: x in q ==> x !in pulses
  {
    if q == [] then None else if q[0] in pulses then Some(q[0]) else FirstPulse(q[1..], pulses)
  }

  /** `ker_msg_receivev`; `pulse` for the pulse-only call; `invalid` if an argument is refused
      after the channel id has been noted. */
  function Receive(s: State, t: Id, ch: Id, pulse: bool, invalid: bool, bad: set<Id>, dstFault: bool, last: bool,
                   timeout: bool): State {
    var s1 := s.(lastChid := s.lastChid[t := ch]);
    if invalid then s1
    else if pulse then
      var x := FirstPulse(Q(s1.sendq, ch), s1.pulses);
      if x.Some? then TakePulse(s1, t, ch, x.value, last) else Await(s1, t, ch, true, timeout)
    else ReceiveAny(s1, t, ch, bad, dstFault, last, timeout)
  }

  /** A reply-blocked thread leaves the reply queue and becomes ready. */
  function ReleaseClient(s: State, x: Id): State
    requires StOf(s.st, x).ReplyOn?
  {
    var c := StOf(s.st, x).c;
    if c !in s.net.chan then s
    else s.(st := s.st[x := Ready],
            replyq := s.replyq[s.net.chan[c] := Remove(Q(s.replyq, s.net.chan[c]), x)])
  }

  /** Where a reply faults, if it does: before or after the pair is dissolved. */
  datatype ReplyFault = NoFault | Early | Late

  /** `ker_msg_replyv` to thread `x`. The early fault exits skip the dissolving of the pair. */
  function Reply(s: State, x: Id, fault: ReplyFault): State {
    if !StOf(s.st, x).ReplyOn? then s
    else if fault == Early then ReleaseClient(s, x)
    else ReleaseClient(DropServer(s, x), x)
  }

  /** The thread `t` starts working for the reply-blocked thread `x`. */
  function Adopt(s: State, t: Id, x: Id): State
    requires StOf(s.st, x).ReplyOn? && StOf(s.st, x).c in s.net.chan
  {
    var s1 := DropServer(s, x);
    s1.(server := s1.server[x := t], client := s1.client[t := x],
        prio := FloatPrio(s.net, s.prio, t, P(s.prio, x), s.net.chan[StOf(s.st, x).c]))
  }

  /** `ker_msg_current`: `t` goes on to work for the reply-blocked thread `x`. */
  function Current(s: State, t: Id, x: Option<Id>): State {
    var s1 := DropClient(s, t);
    if x.Some? && StOf(s1.st, x.value).ReplyOn? && StOf(s1.st, x.value).c in s1.net.chan
    then Adopt(s1, t, x.value)
    else s1
  }

  /** `force_ready` on a thread blocked in message passing. */
  function Unblock(s: State, x: Id): State {
    match StOf(s.st, x)
    case Ready => s
    case ReceiveOn(ch) =>
      s.(st := s.st[x := Ready], recvq := s.recvq[ch := Remove(Q(s.recvq, ch), x)], pulseOnly := s.pulseOnly - {x})
    case SendOn(c) => if c in s.net.chan then UnblockSender(s, x, s.net.chan[c]) else s
    case ReplyOn(c) => ReleaseClient(DropServer(s, x), x)
  }

  datatype Event =
    | MsgSend(t: Id, c: Id, copy: Copy, refused: bool)
    | MsgPulse(ch: Id, x: Id, p: nat, first: bool, merged: bool, invalid: bool, refused: bool)
    | MsgReceive(t: Id, ch: Id, pulse: bool, invalid: bool, bad: set<Id>, dstFault: bool, last: bool, timeout: bool)
    | MsgReply(x: Id, fault: ReplyFault)
    | MsgError(x: Id)
    | MsgCurrent(t: Id, client: Option<Id>)
    | ForceReady(x: Id)
    | AdjustPriority(t: Id, p: nat)

  /** Calls are made by threads that are ready; a new pulse has a new identity. */
  predicate Enabled(s: State, e: Event) {
    match e
    case MsgSend(t, _, _, _) => t >= 0 && StOf(s.st, t) == Ready
    case MsgPulse(_, x, _, _, _, _, _) => x < 0 && x !in s.pulses
    case MsgReceive(t, _, _, _, _, _, _, _) => t >= 0 && StOf(s.st, t) == Ready
    case MsgReply(_, _) => true
    case MsgError(_) => true
    case MsgCurrent(t, _) => t >= 0 && StOf(s.st, t) == Ready
    case ForceReady(x) => true
    case AdjustPriority(t, _) => t >= 0
  }

  function Apply(s: State, e: Event): State {
    match e
    case MsgSend(t, c, copy, refused) => Send(s, t, c, copy, refused)
    case MsgPulse(ch, x, p, first, merged, invalid, refused) => SendPulse(s, ch, x, p, first, merged, invalid, refused)
    case MsgReceive(t, ch, pulse, invalid, bad, dstFault, last, timeout) =>
      Receive(s, t, ch, pulse, invalid, bad, dstFault, last, timeout)
    case MsgReply(x, fault) => Reply(s, x, fault)
    case MsgError(x) => Reply(s, x, NoFault)
    case MsgCurrent(t, x) => Current(s, t, x)
    case ForceReady(x) => Unblock(s, x)
    case AdjustPriority(t, p) => Adjust(s, t, p)
  }

  // ---------------------------------------------------------------- preservation

  // One queue family at a time: a thread that is in no state of that family may change its
  // state freely; joining and leaving go with the change of state.

  lemma RecvFrame(st: map<Id, TState>, recvq: map<Id, seq<Id>>, pulseOnly: set<Id>, t: Id, v: TState)
    requires RecvAgree(st, recvq) && RecvOrder(st, recvq, pulseOnly)
    requires !StOf(st, t).ReceiveOn? && !v.ReceiveOn?
    ensures RecvAgree(st[t := v], recvq) && RecvOrder(st[t := v], recvq, pulseOnly)
  {
    forall x, ch ensures x in Q(recvq, ch) <==> StOf(st[t := v], x) == ReceiveOn(ch) {
      assert x in Q(recvq, ch) <==> StOf(st, x) == ReceiveOn(ch);
    }
    assert t !in pulseOnly;
  }

  lemma ReplyFrame(chan: map<Id, Id>, st: map<Id, TState>, replyq: map<Id, seq<Id>>, t: Id, v: TState)
    requires ReplyAgree(chan, st, replyq) && !StOf(st, t).ReplyOn? && !v.ReplyOn?
    ensures ReplyAgree(chan, st[t := v], replyq)
  {
    forall x, ch ensures x in Q(replyq, ch) <==> ReplyBlockedAt(chan, StOf(st[t := v], x), ch) {
      assert x in Q(replyq, ch) <==> ReplyBlockedAt(chan, StOf(st, x), ch);
    }
  }

  lemma SendFrame(chan: map<Id, Id>, st: map<Id, TState>, prio: map<Id, nat>, pulses: map<Id, Pulse>,
                  sendq: map<Id, seq<Id>>, t: Id, v: TState)
    requires SendAgree(chan, st, prio, pulses, sendq) && !StOf(st, t).SendOn? && !v.SendOn?
    ensures SendAgree(chan, st[t := v], prio, pulses, sendq)
  {
    forall x, ch ensures x in Q(sendq, ch) <==> QueuedAt(chan, st[t := v], pulses, x, ch) {
      assert x in Q(sendq, ch) <==> QueuedAt(chan, st, pulses, x, ch);
    }
  }

  lemma PulseLastRemove(q: seq<Id>, pulseOnly: set<Id>, r: Id)
    requires PulseLast(q, pulseOnly) && r in q && Distinct(q)
    ensures PulseLast(Remove(q, r), pulseOnly - {r})
  {
    var k := RemoveIndex(q, r);
    var q' := Remove(q, r);
    hide Remove;
    forall i, j | 0 <= i < j < |q'| && q'[i] in pulseOnly - {r} ensures q'[j] in pulseOnly - {r} {
      var i', j' := if i < k then i else i + 1, if j < k then j else j + 1;
      assert q[i'] in pulseOnly;
      assert q[j'] in pulseOnly && q[j'] != q[k];
    }
  }

  lemma RecvLeave(st: map<Id, TState>, recvq: map<Id, seq<Id>>, pulseOnly: set<Id>, r: Id, ch: Id)
    requires RecvAgree(st, recvq) && RecvOrder(st, recvq, pulseOnly) && StOf(st, r) == ReceiveOn(ch)
    ensures var recvq' := recvq[ch := Remove(Q(recvq, ch), r)];
            && RecvAgree(st[r := Ready], recvq') && RecvOrder(st[r := Ready], recvq', pulseOnly - {r})
            && (forall n, x :: x in Q(recvq', n) <==> x in Q(recvq, n) && x != r)
  {
    var q := Q(recvq, ch);
    var recvq', st' := recvq[ch := Remove(q, r)], st[r := Ready];
    assert r in q;
    RemoveKeeps(q, map[], r);
    PulseLastRemove(q, pulseOnly, r);
    hide Remove, Distinct;
    forall x, n ensures x in Q(recvq', n) <==> StOf(st', x) == ReceiveOn(n)
                ensures x in Q(recvq', n) <==> x in Q(recvq, n) && x != r {
      assert x in Q(recvq, n) <==> StOf(st, x) == ReceiveOn(n);
    }
    forall n ensures Distinct(Q(recvq', n)) && PulseLast(Q(recvq', n), pulseOnly - {r}) {
      if n != ch {
        assert Q(recvq', n) == Q(recvq, n) && r !in Q(recvq, n);
        PulseLastOther(Q(recvq, n), pulseOnly, r);
      }
    }
    hide PulseLast;
  }

  lemma PulseLastOther(q: seq<Id>, pulseOnly: set<Id>, r: Id)
    requires PulseLast(q, pulseOnly) && r !in q
    ensures PulseLast(q, pulseOnly - {r})
  {
    assert forall i :: 0 <= i < |q| ==> q[i] in q;
  }

  lemma {:induction false} JoinKeeps(q: seq<Id>, t: Id, pulseOnly: set<Id>, pulse: bool)
    requires Distinct(q) && t !in q && t !in pulseOnly && PulseLast(q, pulseOnly)
    ensures var r := JoinReceivers(q, t, pulseOnly, pulse);
            && Distinct(r) && (forall x :: x in r <==> x in q || x == t)
            && PulseLast(r, if pulse then pulseOnly + {t} else pulseOnly)
  {
    if pulse && q != [] && q[0] !in pulseOnly {
      var tail := q[1..];
      assert forall i :: 0 <= i < |tail| ==> tail[i] == q[i + 1];
      assert q[0] !in tail;
      JoinKeeps(tail, t, pulseOnly, pulse);
      var r := JoinReceivers(tail, t, pulseOnly, pulse);
      assert forall i :: 0 <= i < |r| ==> r[i] in r;
      assert forall x :: x in q <==> x == q[0] || x in tail;
    } else if pulse && q != [] {
      assert forall i :: 0 <= i < |q| ==> q[i] in q && q[i] in pulseOnly;
    } else {
      assert forall i :: 0 <= i < |q| ==> q[i] in q;
    }
  }

  lemma RecvJoin(st: map<Id, TState>, recvq: map<Id, seq<Id>>, pulseOnly: set<Id>, t: Id, ch: Id, pulse: bool)
    requires RecvAgree(st, recvq) && RecvOrder(st, recvq, pulseOnly) && !StOf(st, t).ReceiveOn?
    ensures var recvq' := recvq[ch := JoinReceivers(Q(recvq, ch), t, pulseOnly, pulse)];
            var pulseOnly' := if pulse then pulseOnly + {t} else pulseOnly;
            && RecvAgree(st[t := ReceiveOn(ch)], recvq') && RecvOrder(st[t := ReceiveOn(ch)], recvq', pulseOnly')
            && forall n, x :: x in Q(recvq', n) <==> x in Q(recvq, n) || (x == t && n == ch)
  {
    var q := Q(recvq, ch);
    assert t !in q && t !in pulseOnly;
    JoinKeeps(q, t, pulseOnly, pulse);
    var recvq' := recvq[ch := JoinReceivers(q, t, pulseOnly, pulse)];
    var pulseOnly' := if pulse then pulseOnly + {t} else pulseOnly;
    forall x, n ensures x in Q(recvq', n) <==> StOf(st[t := ReceiveOn(ch)], x) == ReceiveOn(n)
                ensures x in Q(recvq', n) <==> x in Q(recvq, n) || (x == t && n == ch) {
      assert x in Q(recvq, n) <==> StOf(st, x) == ReceiveOn(n);
    }
    forall n ensures Distinct(Q(recvq', n)) && PulseLast(Q(recvq', n), pulseOnly') {
      if n != ch {
        assert Q(recvq', n) == Q(recvq, n) && t !in Q(recvq, n);
        assert forall i :: 0 <= i < |Q(recvq, n)| ==> Q(recvq, n)[i] in Q(recvq, n);
      }
    }
  }

  lemma ReplyLeave(chan: map<Id, Id>, st: map<Id, TState>, replyq: map<Id, seq<Id>>, t: Id, ch: Id)
    requires ReplyAgree(chan, st, replyq) && ReplyBlockedAt(chan, StOf(st, t), ch)
    ensures ReplyAgree(chan, st[t := Ready], replyq[ch := Remove(Q(replyq, ch), t)])
  {
    var q := Q(replyq, ch);
    RemoveKeeps(q, map[], t);
    var replyq' := replyq[ch := Remove(q, t)];
    forall n ensures Distinct(Q(replyq', n)) {
      assert n != ch ==> Q(replyq', n) == Q(replyq, n);
    }
    forall x, n ensures x in Q(replyq', n) <==> ReplyBlockedAt(chan, StOf(st[t := Ready], x), n) {
      assert x in Q(replyq, n) <==> ReplyBlockedAt(chan, StOf(st, x), n);
    }
  }

  lemma ReplyJoin(chan: map<Id, Id>, st: map<Id, TState>, replyq: map<Id, seq<Id>>, t: Id, c: Id, ch: Id)
    requires ReplyAgree(chan, st, replyq) && !StOf(st, t).ReplyOn? && Lookup(chan, c) == Some(ch)
    ensures ReplyAgree(chan, st[t := ReplyOn(c)], replyq[ch := [t] + Q(replyq, ch)])
  {
    var q := Q(replyq, ch);
    var replyq' := replyq[ch := [t] + q];
    forall n ensures Distinct(Q(replyq', n)) {
      assert n != ch ==> Q(replyq', n) == Q(replyq, n);
    }
    assert t !in q;
    forall x, n ensures x in Q(replyq', n) <==> ReplyBlockedAt(chan, StOf(st[t := ReplyOn(c)], x), n) {
      assert x in Q(replyq, n) <==> ReplyBlockedAt(chan, StOf(st, x), n);
    }
  }

  lemma QueueReplaced(sendq: map<Id, seq<Id>>, prio: map<Id, nat>, ch: Id, q: seq<Id>)
    requires forall n :: Distinct(Q(sendq, n)) && Sorted(Q(sendq, n), prio)
    requires Distinct(q) && Sorted(q, prio)
    ensures var sendq' := sendq[ch := q]; forall n :: Distinct(Q(sendq', n)) && Sorted(Q(sendq', n), prio)
  {
    hide Sorted, Distinct;
    var sendq' := sendq[ch := q];
    forall n ensures Distinct(Q(sendq', n)) && Sorted(Q(sendq', n), prio) {
      assert Q(sendq', n) == if n == ch then q else Q(sendq, n);
    }
  }

  lemma LeavesOne(sendq: map<Id, seq<Id>>, ch: Id, t: Id, q: seq<Id>)
    requires forall x :: x in q <==> x in Q(sendq, ch) && x != t
    ensures var sendq' := sendq[ch := q]; forall x, n :: x in Q(sendq', n) <==> x in Q(sendq, n) && !(x == t && n == ch)
  {
  }

  lemma SendLeave(chan: map<Id, Id>, st: map<Id, TState>, prio: map<Id, nat>, pulses: map<Id, Pulse>,
                  sendq: map<Id, seq<Id>>, t: Id, ch: Id, v: TState)
    requires SendAgree(chan, st, prio, pulses, sendq) && !v.SendOn?
    requires t !in pulses && QueuedAt(chan, st, pulses, t, ch)
    ensures SendAgree(chan, st[t := v], prio, pulses, sendq[ch := Remove(Q(sendq, ch), t)])
    ensures forall n, x :: x in Q(sendq[ch := Remove(Q(sendq, ch), t)], n) <==> x in Q(sendq, n) && x != t
  {
    hide Sorted, Distinct, Remove, P, QueuedAt;
    var q := Q(sendq, ch);
    assert t in q;
    RemoveKeeps(q, prio, t);
    var sendq' := sendq[ch := Remove(q, t)];
    QueueReplaced(sendq, prio, ch, Remove(q, t));
    LeavesOne(sendq, ch, t, Remove(q, t));
    hide Q;
    SenderLeaves(chan, st, pulses, sendq, sendq', t, ch, v);
  }

  lemma SenderLeaves(chan: map<Id, Id>, st: map<Id, TState>, pulses: map<Id, Pulse>,
                     sendq: map<Id, seq<Id>>, sendq': map<Id, seq<Id>>, t: Id, ch: Id, v: TState)
    requires forall y, n :: y in Q(sendq, n) <==> QueuedAt(chan, st, pulses, y, n)
    requires t !in pulses && QueuedAt(chan, st, pulses, t, ch) && !v.SendOn?
    requires forall y, n :: y in Q(sendq', n) <==> y in Q(sendq, n) && !(y == t && n == ch)
    ensures forall y, n :: y in Q(sendq', n) <==> QueuedAt(chan, st[t := v], pulses, y, n)
    ensures forall n, y :: y in Q(sendq', n) <==> y in Q(sendq, n) && y != t
  {
    hide Q;
    var st' := st[t := v];
    forall y, n ensures y in Q(sendq', n) <==> QueuedAt(chan, st', pulses, y, n)
                ensures y in Q(sendq', n) <==> y in Q(sendq, n) && y != t {
      assert y in Q(sendq, n) <==> QueuedAt(chan, st, pulses, y, n);
    }
  }

  lemma SendJoin(chan: map<Id, Id>, st: map<Id, TState>, prio: map<Id, nat>, pulses: map<Id, Pulse>,
                 sendq: map<Id, seq<Id>>, t: Id, c: Id, ch: Id)
    requires SendAgree(chan, st, prio, pulses, sendq)
    requires t !in pulses && !StOf(st, t).SendOn? && Lookup(chan, c) == Some(ch)
    ensures SendAgree(chan, st[t := SendOn(c)], prio, pulses, sendq[ch := Insert(Q(sendq, ch), prio, t)])
  {
    var q := Q(sendq, ch);
    assert t !in q;
    InsertKeeps(q, prio, t);
    var sendq' := sendq[ch := Insert(q, prio, t)];
    hide Sorted, Distinct, P;
    SenderJoins(chan, st, pulses, sendq, sendq', t, c, ch);
    QueueReplaced(sendq, prio, ch, Insert(q, prio, t));
    hide Insert, Q;
  }

  lemma SenderJoins(chan: map<Id, Id>, st: map<Id, TState>, pulses: map<Id, Pulse>,
                    sendq: map<Id, seq<Id>>, sendq': map<Id, seq<Id>>, t: Id, c: Id, ch: Id)
    requires forall y, n :: y in Q(sendq, n) <==> QueuedAt(chan, st, pulses, y, n)
    requires t !in pulses && !StOf(st, t).SendOn? && Lookup(chan, c) == Some(ch)
    requires forall y, n :: y in Q(sendq', n) <==> y in Q(sendq, n) || (y == t && n == ch)
    ensures forall y, n :: y in Q(sendq', n) <==> QueuedAt(chan, st[t := SendOn(c)], pulses, y, n)
  {
    hide Q;
    var st' := st[t := SendOn(c)];
    forall y, n ensures y in Q(sendq', n) <==> QueuedAt(chan, st', pulses, y, n) {
      assert y in Q(sendq, n) <==> QueuedAt(chan, st, pulses, y, n);
    }
  }

  lemma PulseJoin(chan: map<Id, Id>, st: map<Id, TState>, prio: map<Id, nat>, pulses: map<Id, Pulse>,
                  sendq: map<Id, seq<Id>>, x: Id, ch: Id, p: nat, key: nat)
    requires SendAgree(chan, st, prio, pulses, sendq) && x !in pulses && !StOf(st, x).SendOn?
    ensures var prio' := prio[x := key];
            SendAgree(chan, st, prio', pulses[x := Pulse(ch, p)], sendq[ch := Insert(Q(sendq, ch), prio', x)])
  {
    var prio' := prio[x := key];
    var q := Q(sendq, ch);
    forall n ensures Sorted(Q(sendq, n), prio') && x !in Q(sendq, n) {
      assert x in Q(sendq, n) <==> QueuedAt(chan, st, pulses, x, n);
      SortedFrame(Q(sendq, n), prio, prio');
    }
    InsertKeeps(q, prio', x);
    var sendq', pulses' := sendq[ch := Insert(q, prio', x)], pulses[x := Pulse(ch, p)];
    hide Sorted, Distinct, P;
    JoinedQueues(chan, st, pulses, sendq, sendq', x, ch, p);
    QueueReplaced(sendq, prio', ch, Insert(q, prio', x));
    hide Insert, Q;
  }

  lemma JoinedQueues(chan: map<Id, Id>, st: map<Id, TState>, pulses: map<Id, Pulse>,
                     sendq: map<Id, seq<Id>>, sendq': map<Id, seq<Id>>, x: Id, ch: Id, p: nat)
    requires forall y, n :: y in Q(sendq, n) <==> QueuedAt(chan, st, pulses, y, n)
    requires x !in pulses && !StOf(st, x).SendOn?
    requires forall y, n :: y in Q(sendq', n) <==> y in Q(sendq, n) || (y == x && n == ch)
    ensures forall y, n :: y in Q(sendq', n) <==> QueuedAt(chan, st, pulses[x := Pulse(ch, p)], y, n)
  {
    hide Q;
    var pulses' := pulses[x := Pulse(ch, p)];
    forall y, n ensures y in Q(sendq', n) <==> QueuedAt(chan, st, pulses', y, n) {
      assert y in Q(sendq, n) <==> QueuedAt(chan, st, pulses, y, n);
    }
  }

  lemma PulseLeave(chan: map<Id, Id>, st: map<Id, TState>, prio: map<Id, nat>, pulses: map<Id, Pulse>,
                   sendq: map<Id, seq<Id>>, x: Id, ch: Id)
    requires SendAgree(chan, st, prio, pulses, sendq) && x in pulses && pulses[x].ch == ch && !StOf(st, x).SendOn?
    ensures SendAgree(chan, st, prio, pulses - {x}, sendq[ch := Remove(Q(sendq, ch), x)])
    ensures forall n, y :: y in Q(sendq[ch := Remove(Q(sendq, ch), x)], n) <==> y in Q(sendq, n) && y != x
  {
    var q := Q(sendq, ch);
    RemoveKeeps(q, prio, x);
    var sendq' := sendq[ch := Remove(q, x)];
    forall n ensures Distinct(Q(sendq', n)) && Sorted(Q(sendq', n), prio) {
      assert n != ch ==> Q(sendq', n) == Q(sendq, n);
    }
    forall y, n ensures y in Q(sendq', n) <==> QueuedAt(chan, st, pulses - {x}, y, n)
                ensures y in Q(sendq', n) <==> y in Q(sendq, n) && y != x {
      assert y in Q(sendq, n) <==> QueuedAt(chan, st, pulses, y, n);
    }
  }

  lemma PrioFrame(chan: map<Id, Id>, st: map<Id, TState>, prio: map<Id, nat>, pulses: map<Id, Pulse>,
                  sendq: map<Id, seq<Id>>, t: Id, p: nat)
    requires SendAgree(chan, st, prio, pulses, sendq) && t !in pulses && !StOf(st, t).SendOn?
    ensures SendAgree(chan, st, prio[t := p], pulses, sendq)
  {
    forall n ensures Sorted(Q(sendq, n), prio[t := p]) {
      assert t in Q(sendq, n) <==> QueuedAt(chan, st, pulses, t, n);
      SortedFrame(Q(sendq, n), prio, prio[t := p]);
    }
  }

  lemma SendMove(chan: map<Id, Id>, st: map<Id, TState>, prio: map<Id, nat>, pulses: map<Id, Pulse>,
                 sendq: map<Id, seq<Id>>, t: Id, ch: Id, p: nat)
    requires SendAgree(chan, st, prio, pulses, sendq) && t !in pulses && QueuedAt(chan, st, pulses, t, ch)
    ensures var sendq' := sendq[ch := Reposition(Q(sendq, ch), prio, t, p)];
            && SendAgree(chan, st, prio[t := p], pulses, sendq')
            && forall n, x :: x in Q(sendq', n) <==> x in Q(sendq, n)
  {
    var q := Q(sendq, ch);
    RepositionKeeps(q, prio, t, p);
    var sendq' := sendq[ch := Reposition(q, prio, t, p)];
    forall n ensures Distinct(Q(sendq', n)) && Sorted(Q(sendq', n), prio[t := p])
             ensures forall x :: x in Q(sendq', n) <==> x in Q(sendq, n)
    {
      if n != ch {
        assert t in Q(sendq, n) <==> QueuedAt(chan, st, pulses, t, n);
        SortedFrame(Q(sendq, n), prio, prio[t := p]);
      }
    }
  }

  lemma SaneFrame(net: Net, st: map<Id, TState>, pulses: map<Id, Pulse>, t: Id, v: TState)
    requires Sane(net, st, pulses) && (v != Ready ==> t >= 0)
    requires v.SendOn? || v.ReplyOn? ==> v.c in net.chan
    ensures Sane(net, st[t := v], pulses)
  {
    var st' := st[t := v];
    forall x
      ensures StOf(st', x).SendOn? || StOf(st', x).ReplyOn? ==> StOf(st', x).c in net.chan
      ensures StOf(st', x) != Ready ==> x >= 0
    {
      assert StOf(st', x) == if x == t then v else StOf(st, x);
    }
  }

  lemma IdleFrame(sendq: map<Id, seq<Id>>, sendq': map<Id, seq<Id>>, recvq: map<Id, seq<Id>>, pulses: map<Id,
                  Pulse>, pulses': map<Id, Pulse>, pulseOnly: set<Id>)
    requires NoIdle(sendq, recvq, pulses, pulseOnly)
    requires forall n, x :: x in Q(sendq', n) ==> x in Q(sendq, n)
    requires pulses'.Keys <= pulses.Keys
    ensures NoIdle(sendq', recvq, pulses', pulseOnly)
  {
  }

  // Call by call.

  lemma DropClientParts(s: State, t: Id)
    ensures DropClient(s, t) == s.(client := DropClient(s, t).client, server := DropClient(s, t).server)
  {
  }

  lemma DropServerParts(s: State, t: Id)
    ensures DropServer(s, t) == s.(client := DropServer(s, t).client, server := DropServer(s, t).server)
  {
  }

  lemma SetPrioKeeps(s: State, t: Id, p: nat, ch: Id)
    requires Inv(s) && t >= 0 && !StOf(s.st, t).SendOn?
    ensures Inv(SetPrio(s, t, p, ch))
  {
    hide RecvAgree, ReplyAgree, SendAgree, RecvOrder, NoIdle;
    PrioFrame(s.net.chan, s.st, s.prio, s.pulses, s.sendq, t, p);
  }

  /** Any change of priorities and of send-queue order that keeps the queues' members. */
  ghost predicate Reordered(s: State, s': State) {
    && s' == s.(prio := s'.prio, sendq := s'.sendq)
    && forall ch, x :: x in Q(s'.sendq, ch) <==> x in Q(s.sendq, ch)
  }

  lemma ThreadFacts(s: State, t: Id)
    requires Sane(s.net, s.st, s.pulses) && t >= 0
    ensures t !in s.pulses && (StOf(s.st, t).SendOn? ==> StOf(s.st, t).c in s.net.chan)
  {
  }

  lemma PulseFacts(s: State, x: Id, ch: Id)
    requires Inv(s) && x in s.pulses && x in Q(s.sendq, ch)
    ensures s.pulses[x].ch == ch && StOf(s.st, x) == Ready && Sane(s.net, s.st, s.pulses - {x})
  {
    assert QueuedAt(s.net.chan, s.st, s.pulses, x, ch);
  }

  lemma AdjustKeeps(s: State, t: Id, p: nat)
    requires Inv(s) && t >= 0
    ensures Inv(Adjust(s, t, p)) && Reordered(s, Adjust(s, t, p))
    ensures forall u :: P(Adjust(s, t, p).prio, u) == if u == t then p else P(s.prio, u)
  {
    UpdatePrio(s.prio, t, p);
    hide RecvAgree, ReplyAgree, SendAgree, RecvOrder, Sane, NoIdle, Q, P, Reposition;
    ThreadFacts(s, t);
    if P(s.prio, t) != p {
      if StOf(s.st, t).SendOn? {
        var ch := s.net.chan[StOf(s.st, t).c];
        SendMove(s.net.chan, s.st, s.prio, s.pulses, s.sendq, t, ch, p);
        IdleFrame(s.sendq, s.sendq[ch := Reposition(Q(s.sendq, ch), s.prio, t, p)], s.recvq, s.pulses, s.pulses,
                  s.pulseOnly);
      } else {
        PrioFrame(s.net.chan, s.st, s.prio, s.pulses, s.sendq, t, p);
      }
    }
  }

  lemma {:induction false} BoostKeeps(s: State, p: nat, ch: Id, v: seq<Id>)
    requires Inv(s) && forall i :: 0 <= i < |v| ==> v[i] >= 0
    ensures Inv(Boost(s, p, ch, v)) && Reordered(s, Boost(s, p, ch, v))
    ensures forall u :: P(Boost(s, p, ch, v).prio, u) ==
                        if u in v && P(s.prio, u) < p && Lookup(s.lastChid, u) == Some(ch) then p else P(s.prio, u)
    decreases |v|
  {
    hide Inv;
    if v != [] {
      var s1 := if P(s.prio, v[0]) < p && Lookup(s.lastChid, v[0]) == Some(ch) then Adjust(s, v[0], p) else s;
      AdjustKeeps(s, v[0], p);
      BoostKeeps(s1, p, ch, v[1..]);
      assert Boost(s, p, ch, v) == Boost(s1, p, ch, v[1..]);
      assert forall u :: u in v <==> u == v[0] || u in v[1..];
    }
  }

  lemma BoostServersKeeps(s: State, p: nat, ch: Id)
    requires Inv(s)
    ensures Inv(BoostServers(s, p, ch)) && Reordered(s, BoostServers(s, p, ch))
    ensures forall u :: P(BoostServers(s, p, ch).prio, u) ==
                        if ch !in s.net.fixed && u in Vector(s.net, ch) && P(s.prio, u) < p &&
                           Lookup(s.lastChid, u) == Some(ch)
                        then p else P(s.prio, u)
  {
    hide RecvAgree, ReplyAgree, SendAgree, RecvOrder, NoIdle;
    var v := Vector(s.net, ch);
    assert forall i :: 0 <= i < |v| ==> v[i] in v;
    BoostKeeps(s, p, ch, v);
  }

  lemma ReleaseReceiverKeeps(s: State, ch: Id)
    requires Inv(s) && Q(s.recvq, ch) != []
    ensures Inv(ReleaseReceiver(s, ch))
    ensures StOf(s.st, Q(s.recvq, ch)[0]) == ReceiveOn(ch) && Q(s.recvq, ch)[0] >= 0
  {
    var q := Q(s.recvq, ch);
    assert q[0] in q && StOf(s.st, q[0]) == ReceiveOn(ch) && q[0] >= 0;
    assert Remove(q, q[0]) == q[1..];
    hide RecvAgree, ReplyAgree, SendAgree, RecvOrder, Sane, Q;
    RecvLeave(s.st, s.recvq, s.pulseOnly, q[0], ch);
    ReplyFrame(s.net.chan, s.st, s.replyq, q[0], Ready);
    SendFrame(s.net.chan, s.st, s.prio, s.pulses, s.sendq, q[0], Ready);
    SaneFrame(s.net, s.st, s.pulses, q[0], Ready);
  }

  lemma HandshakeKeeps(s: State, t: Id, c: Id, ch: Id)
    requires Inv(s) && Q(s.recvq, ch) != [] && t >= 0 && StOf(s.st, t) == Ready && Lookup(s.net.chan, c) == Some(ch)
    ensures Inv(Handshake(s, t, c, ch))
  {
    hide RecvAgree, ReplyAgree, SendAgree, RecvOrder, Sane, NoIdle;
    var r := Q(s.recvq, ch)[0];
    ReleaseReceiverKeeps(s, ch);
    var s0 := ReleaseReceiver(s, ch);
    SetPrioKeeps(s0, r, P(s.prio, t), ch);
    var s1 := SetPrio(s0, r, P(s.prio, t), ch);
    RecvFrame(s1.st, s1.recvq, s1.pulseOnly, t, ReplyOn(c));
    SendFrame(s1.net.chan, s1.st, s1.prio, s1.pulses, s1.sendq, t, ReplyOn(c));
    ReplyJoin(s1.net.chan, s1.st, s1.replyq, t, c, ch);
    SaneFrame(s1.net, s1.st, s1.pulses, t, ReplyOn(c));
  }

  lemma IdleEnqueue(s: State, t: Id, ch: Id, q: seq<Id>)
    requires Inv(s) && t !in s.pulses && (Q(s.recvq, ch) == [] || Q(s.recvq, ch)[0] in s.pulseOnly)
    requires forall x :: x in q ==> x == t || x in Q(s.sendq, ch)
    ensures NoIdle(s.sendq[ch := q], s.recvq, s.pulses, s.pulseOnly)
  {
    assert forall r :: r in Q(s.recvq, ch) ==> r in s.pulseOnly by {
      assert PulseLast(Q(s.recvq, ch), s.pulseOnly);
    }
    hide RecvAgree, ReplyAgree, SendAgree, RecvOrder, Sane;
  }

  lemma QueueSenderKeeps(s: State, t: Id, c: Id, ch: Id)
    requires Inv(s) && t >= 0 && StOf(s.st, t) == Ready && Lookup(s.net.chan, c) == Some(ch)
    requires Q(s.recvq, ch) == [] || Q(s.recvq, ch)[0] in s.pulseOnly
    ensures Inv(QueueSender(s, t, c, ch))
    ensures Inv(Enqueue(s, t, c, ch))
  {
    hide RecvAgree, ReplyAgree, SendAgree, RecvOrder, Sane, NoIdle, Q, P, BoostServers;
    ThreadFacts(s, t);
    RecvFrame(s.st, s.recvq, s.pulseOnly, t, SendOn(c));
    ReplyFrame(s.net.chan, s.st, s.replyq, t, SendOn(c));
    SendJoin(s.net.chan, s.st, s.prio, s.pulses, s.sendq, t, c, ch);
    SaneFrame(s.net, s.st, s.pulses, t, SendOn(c));
    IdleEnqueue(s, t, ch, Insert(Q(s.sendq, ch), s.prio, t));
    BoostServersKeeps(Enqueue(s, t, c, ch), P(s.prio, t), ch);
  }

  lemma SendKeeps(s: State, t: Id, c: Id, copy: Copy, refused: bool)
    requires Inv(s) && t >= 0 && StOf(s.st, t) == Ready
    ensures Inv(Send(s, t, c, copy, refused))
  {
    hide Inv;
    if c in s.net.chan && !refused {
      var ch := s.net.chan[c];
      if Q(s.recvq, ch) != [] && Q(s.recvq, ch)[0] !in s.pulseOnly {
        HandshakeKeeps(s, t, c, ch);
        ReleaseReceiverKeeps(s, ch);
      } else {
        QueueSenderKeeps(s, t, c, ch);
      }
    }
  }

  lemma IdlePulse(s: State, ch: Id, x: Id, p: nat, q: seq<Id>)
    requires Inv(s) && x !in s.pulses && !StOf(s.st, x).SendOn? && Q(s.recvq, ch) == []
    ensures NoIdle(s.sendq[ch := q], s.recvq, s.pulses[x := Pulse(ch, p)], s.pulseOnly)
  {
    var sendq' := s.sendq[ch := q];
    forall n, y, r | y in Q(sendq', n) && r in Q(s.recvq, n)
      ensures y !in s.pulses[x := Pulse(ch, p)] && r in s.pulseOnly
    {
      assert n != ch && y in Q(s.sendq, n);
      assert QueuedAt(s.net.chan, s.st, s.pulses, y, n);
    }
  }

  lemma QueuePulseKeeps(s: State, ch: Id, x: Id, p: nat, key: nat)
    requires Inv(s) && x < 0 && x !in s.pulses && Q(s.recvq, ch) == []
    ensures Inv(QueuePulse(s, ch, x, p, key))
  {
    assert StOf(s.st, x) == Ready by {
      hide RecvAgree, ReplyAgree, SendAgree, RecvOrder, NoIdle;
    }
    hide RecvAgree, ReplyAgree, SendAgree, RecvOrder, NoIdle, Q, Insert;
    PulseJoin(s.net.chan, s.st, s.prio, s.pulses, s.sendq, x, ch, p, key);
    IdlePulse(s, ch, x, p, Insert(Q(s.sendq, ch), s.prio[x := key], x));
  }

  lemma SendPulseKeeps(s: State, ch: Id, x: Id, p: nat, first: bool, merged: bool, invalid: bool, refused: bool)
    requires Inv(s) && x < 0 && x !in s.pulses
    ensures Inv(SendPulse(s, ch, x, p, first, merged, invalid, refused))
  {
    hide Inv;
    if Q(s.recvq, ch) != [] {
      ReleaseReceiverKeeps(s, ch);
      SetPrioKeeps(ReleaseReceiver(s, ch), Q(s.recvq, ch)[0], p, ch);
    } else {
      var key := if first then p + 256 else p;
      QueuePulseKeeps(s, ch, x, p, key);
      BoostServersKeeps(s, p, ch);
      BoostServersKeeps(QueuePulse(s, ch, x, p, key), p, ch);
    }
  }

  lemma RemovePulseKeeps(s: State, ch: Id, x: Id)
    requires Inv(s) && x in s.pulses && x in Q(s.sendq, ch)
    ensures Inv(RemovePulse(s, ch, x))
  {
    hide RecvAgree, ReplyAgree, SendAgree, RecvOrder, Sane, NoIdle, Q, Remove;
    PulseFacts(s, x, ch);
    PulseLeave(s.net.chan, s.st, s.prio, s.pulses, s.sendq, x, ch);
    IdleFrame(s.sendq, s.sendq[ch := Remove(Q(s.sendq, ch), x)], s.recvq, s.pulses, s.pulses - {x}, s.pulseOnly);
  }

  lemma TakePulseKeeps(s: State, t: Id, ch: Id, x: Id, last: bool)
    requires Inv(s) && t >= 0 && StOf(s.st, t) == Ready && x in s.pulses && x in Q(s.sendq, ch)
    ensures Inv(TakePulse(s, t, ch, x, last))
  {
    hide Inv, Q, RemovePulse, DropClient, P;
    SetPrioKeeps(s, t, s.pulses[x].priority, ch);
    var s0 := SetPrio(s, t, s.pulses[x].priority, ch);
    assert s0 == s.(prio := s0.prio);
    hide SetPrio;
    DropClientKeeps(s0, t);
    DropClientParts(s0, t);
    RemovePulseKeeps(DropClient(s0, t), ch, x);
  }

  lemma UnblockSenderKeeps(s: State, x: Id, ch: Id)
    requires Inv(s) && StOf(s.st, x).SendOn? && Lookup(s.net.chan, StOf(s.st, x).c) == Some(ch)
    ensures Inv(UnblockSender(s, x, ch))
  {
    hide RecvAgree, ReplyAgree, SendAgree, RecvOrder, Sane, NoIdle, Q, Remove;
    SenderFacts(s, x);
    RecvFrame(s.st, s.recvq, s.pulseOnly, x, Ready);
    ReplyFrame(s.net.chan, s.st, s.replyq, x, Ready);
    SendLeave(s.net.chan, s.st, s.prio, s.pulses, s.sendq, x, ch, Ready);
    SaneFrame(s.net, s.st, s.pulses, x, Ready);
    IdleFrame(s.sendq, s.sendq[ch := Remove(Q(s.sendq, ch), x)], s.recvq, s.pulses, s.pulses, s.pulseOnly);
  }

  lemma SenderFacts(s: State, x: Id)
    requires Sane(s.net, s.st, s.pulses) && StOf(s.st, x).SendOn?
    ensures x !in s.pulses && x >= 0 && StOf(s.st, x).c in s.net.chan
  {
  }

  lemma MoveToReplyKeeps(s: State, ch: Id, x: Id)
    requires Inv(s) && StOf(s.st, x).SendOn? && Lookup(s.net.chan, StOf(s.st, x).c) == Some(ch)
    ensures Inv(s.(st := s.st[x := ReplyOn(StOf(s.st, x).c)],
                   sendq := s.sendq[ch := Remove(Q(s.sendq, ch), x)],
                   replyq := s.replyq[ch := [x] + Q(s.replyq, ch)]))
  {
    hide RecvAgree, ReplyAgree, SendAgree, RecvOrder, Sane, NoIdle, Q, Remove;
    var c := StOf(s.st, x).c;
    SenderFacts(s, x);
    RecvFrame(s.st, s.recvq, s.pulseOnly, x, ReplyOn(c));
    ReplyJoin(s.net.chan, s.st, s.replyq, x, c, ch);
    SendLeave(s.net.chan, s.st, s.prio, s.pulses, s.sendq, x, ch, ReplyOn(c));
    SaneFrame(s.net, s.st, s.pulses, x, ReplyOn(c));
    IdleFrame(s.sendq, s.sendq[ch := Remove(Q(s.sendq, ch), x)], s.recvq, s.pulses, s.pulses, s.pulseOnly);
  }

  lemma TakeMessageKeeps(s: State, t: Id, ch: Id, x: Id)
    requires Inv(s) && t >= 0 && StOf(s.st, t) == Ready
    requires StOf(s.st, x).SendOn? && Lookup(s.net.chan, StOf(s.st, x).c) == Some(ch)
    ensures Inv(TakeMessage(s, t, ch, x))
  {
    hide RecvAgree, ReplyAgree, SendAgree, RecvOrder, Sane, NoIdle, Q, Remove;
    MoveToReplyKeeps(s, ch, x);
    var s1 := DropClient(s, t);
    var s2 := s1.(st := s1.st[x := ReplyOn(StOf(s.st, x).c)],
                  server := s1.server[x := t], client := s1.client[t := x],
                  sendq := s1.sendq[ch := Remove(Q(s1.sendq, ch), x)],
                  replyq := s1.replyq[ch := [x] + Q(s1.replyq, ch)]);
    assert Inv(s2);
    SetPrioKeeps(s2, t, P(s.prio, x), ch);
  }

  lemma IdleJoin(sendq: map<Id, seq<Id>>, recvq: map<Id, seq<Id>>, recvq': map<Id, seq<Id>>, pulses: map<Id, Pulse>,
                 pulseOnly: set<Id>, t: Id, ch: Id, pulse: bool)
    requires NoIdle(sendq, recvq, pulses, pulseOnly)
    requires forall x :: x in Q(sendq, ch) ==> pulse && x !in pulses
    requires forall n, x :: x in Q(recvq', n) <==> x in Q(recvq, n) || (x == t && n == ch)
    ensures NoIdle(sendq, recvq', pulses, if pulse then pulseOnly + {t} else pulseOnly)
  {
    hide Q;
  }

  lemma BlockReceivingKeeps(s: State, t: Id, ch: Id, pulse: bool)
    requires Inv(s) && t >= 0 && StOf(s.st, t) == Ready
    requires forall x :: x in Q(s.sendq, ch) ==> pulse && x !in s.pulses
    ensures Inv(BlockReceiving(s, t, ch, pulse))
  {
    hide RecvAgree, ReplyAgree, SendAgree, RecvOrder, Sane, NoIdle, Q, JoinReceivers;
    RecvJoin(s.st, s.recvq, s.pulseOnly, t, ch, pulse);
    IdleJoin(s.sendq, s.recvq, s.recvq[ch := JoinReceivers(Q(s.recvq, ch), t, s.pulseOnly, pulse)], s.pulses,
             s.pulseOnly, t, ch, pulse);
    ReplyFrame(s.net.chan, s.st, s.replyq, t, ReceiveOn(ch));
    SendFrame(s.net.chan, s.st, s.prio, s.pulses, s.sendq, t, ReceiveOn(ch));
    SaneFrame(s.net, s.st, s.pulses, t, ReceiveOn(ch));
  }

  lemma AwaitKeeps(s: State, t: Id, ch: Id, pulse: bool, timeout: bool)
    requires Inv(s) && t >= 0 && StOf(s.st, t) == Ready
    requires forall x :: x in Q(s.sendq, ch) ==> pulse && x !in s.pulses
    ensures Inv(Await(s, t, ch, pulse, timeout))
  {
    hide Inv, Q, DropClient, BlockReceiving;
    DropClientParts(s, t);
    DropClientKeeps(s, t);
    BlockReceivingKeeps(DropClient(s, t), t, ch, pulse);
  }

  lemma {:induction false} ReceiveAnyKeeps(s: State, t: Id, ch: Id, bad: set<Id>, dstFault: bool, last: bool,
                                           timeout: bool)
    requires Inv(s) && t >= 0 && StOf(s.st, t) == Ready
    ensures Inv(ReceiveAny(s, t, ch, bad, dstFault, last, timeout))
    decreases |Q(s.sendq, ch)|
  {
    var q := Q(s.sendq, ch);
    if q == [] {
      hide Inv;
      AwaitKeeps(s, t, ch, false, timeout);
    } else {
      HeadIsQueued(s, ch);
      hide Inv;
      if q[0] in s.pulses {
        TakePulseKeeps(s, t, ch, q[0], last);
      } else if q[0] in bad {
        UnblockSenderKeeps(s, q[0], ch);
        ReceiveAnyKeeps(UnblockSender(s, q[0], ch), t, ch, bad, dstFault, last, timeout);
      } else if !dstFault {
        TakeMessageKeeps(s, t, ch, q[0]);
      } else {
        DropClientKeeps(s, t);
      }
    }
  }

  lemma HeadIsQueued(s: State, ch: Id)
    requires Inv(s) && Q(s.sendq, ch) != []
    ensures var x := Q(s.sendq, ch)[0];
            && x in Q(s.sendq, ch)
            && (x in s.pulses || (StOf(s.st, x).SendOn? && Lookup(s.net.chan, StOf(s.st, x).c) == Some(ch)))
  {
    var q := Q(s.sendq, ch);
    assert q[0] in q;
    assert QueuedAt(s.net.chan, s.st, s.pulses, q[0], ch);
  }

  lemma DropClientKeeps(s: State, t: Id)
    requires Inv(s)
    ensures Inv(DropClient(s, t)) && Inv(DropServer(s, t))
  {
  }

  lemma ReceiveKeeps(s: State, t: Id, ch: Id, pulse: bool, invalid: bool, bad: set<Id>, dstFault: bool, last: bool,
                     timeout: bool)
    requires Inv(s) && t >= 0 && StOf(s.st, t) == Ready
    ensures Inv(Receive(s, t, ch, pulse, invalid, bad, dstFault, last, timeout))
  {
    var s1 := s.(lastChid := s.lastChid[t := ch]);
    assert Inv(s1);
    hide Inv;
    if pulse {
      var x := FirstPulse(Q(s1.sendq, ch), s1.pulses);
      if x.Some? {
        TakePulseKeeps(s1, t, ch, x.value, last);
      } else {
        AwaitKeeps(s1, t, ch, true, timeout);
      }
    } else {
      ReceiveAnyKeeps(s1, t, ch, bad, dstFault, last, timeout);
    }
  }

  lemma ReleaseClientKeeps(s: State, x: Id)
    requires Inv(s) && StOf(s.st, x).ReplyOn?
    ensures Inv(ReleaseClient(s, x))
  {
    var c := StOf(s.st, x).c;
    assert c in s.net.chan;
    hide RecvAgree, ReplyAgree, SendAgree, RecvOrder, Sane, NoIdle;
    RecvFrame(s.st, s.recvq, s.pulseOnly, x, Ready);
    SendFrame(s.net.chan, s.st, s.prio, s.pulses, s.sendq, x, Ready);
    ReplyLeave(s.net.chan, s.st, s.replyq, x, s.net.chan[c]);
    SaneFrame(s.net, s.st, s.pulses, x, Ready);
  }

  lemma UnblockReceiverKeeps(s: State, x: Id, ch: Id)
    requires Inv(s) && StOf(s.st, x) == ReceiveOn(ch)
    ensures Inv(Unblock(s, x))
  {
    hide RecvAgree, ReplyAgree, SendAgree, RecvOrder, Sane, Q;
    RecvLeave(s.st, s.recvq, s.pulseOnly, x, ch);
    ReplyFrame(s.net.chan, s.st, s.replyq, x, Ready);
    SendFrame(s.net.chan, s.st, s.prio, s.pulses, s.sendq, x, Ready);
    SaneFrame(s.net, s.st, s.pulses, x, Ready);
  }

  lemma UnblockKeeps(s: State, x: Id)
    requires Inv(s)
    ensures Inv(Unblock(s, x))
  {
    match StOf(s.st, x)
    case Ready =>
    case ReceiveOn(ch) => UnblockReceiverKeeps(s, x, ch);
    case SendOn(c) =>
      assert c in s.net.chan;
      UnblockSenderKeeps(s, x, s.net.chan[c]);
    case ReplyOn(c) =>
      DropClientKeeps(s, x);
      ReleaseClientKeeps(DropServer(s, x), x);
  }

  lemma AdoptKeeps(s: State, t: Id, x: Id)
    requires Inv(s) && t >= 0 && StOf(s.st, t) == Ready
    requires StOf(s.st, x).ReplyOn? && StOf(s.st, x).c in s.net.chan
    ensures Inv(Adopt(s, t, x))
  {
    hide Inv, DropServer, P;
    var ch := s.net.chan[StOf(s.st, x).c];
    DropServerParts(s, x);
    SetPrioKeeps(s, t, P(s.prio, x), ch);
    LinksFree(SetPrio(s, t, P(s.prio, x), ch), Adopt(s, t, x).client, Adopt(s, t, x).server);
  }

  lemma CurrentKeeps(s: State, t: Id, x: Option<Id>)
    requires Inv(s) && t >= 0 && StOf(s.st, t) == Ready
    ensures Inv(Current(s, t, x))
  {
    hide Inv, DropClient, Adopt;
    DropClientParts(s, t);
    DropClientKeeps(s, t);
    var s1 := DropClient(s, t);
    if x.Some? && StOf(s1.st, x.value).ReplyOn? && StOf(s1.st, x.value).c in s1.net.chan {
      AdoptKeeps(s1, t, x.value);
    }
  }

  /** The links between clients and servers play no part in the queues. */
  lemma LinksFree(s: State, client: map<Id, Id>, server: map<Id, Id>)
    requires Inv(s)
    ensures Inv(s.(client := client, server := server))
  {
    hide RecvAgree, ReplyAgree, SendAgree, RecvOrder, Sane, NoIdle;
  }

  /** State and queues agree, receive queues are in order and nobody waits idly, after every
      call with every outcome, faults and restarts included. */
  lemma StepKeeps(s: State, e: Event)
    requires Inv(s) && Enabled(s, e)
    ensures Inv(Apply(s, e))
  {
    hide Inv;
    match e
    case MsgSend(t, c, copy, refused) => SendKeeps(s, t, c, copy, refused);
    case MsgPulse(ch, x, p, first, merged, invalid, refused) => SendPulseKeeps(s, ch, x, p, first, merged, invalid,
                                                                               refused);
    case MsgReceive(t, ch, pulse, invalid, bad, dstFault, last, timeout) =>
      ReceiveKeeps(s, t, ch, pulse, invalid, bad, dstFault, last, timeout);
    case MsgReply(x, fault) =>
      if StOf(s.st, x).ReplyOn? {
        DropClientKeeps(s, x);
        ReleaseClientKeeps(if fault == Early then s else DropServer(s, x), x);
      }
    case MsgError(x) =>
      if StOf(s.st, x).ReplyOn? {
        DropClientKeeps(s, x);
        ReleaseClientKeeps(DropServer(s, x), x);
      }
    case MsgCurrent(t, x) => CurrentKeeps(s, t, x);
    case ForceReady(x) => UnblockKeeps(s, x);
    case AdjustPriority(t, p) => AdjustKeeps(s, t, p);
  }
}
