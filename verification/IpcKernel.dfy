/**
 The message-passing calls in the form of the code: an object whose methods update queues,
 links and priorities in place, loop where the code loops, and are proved to make exactly
 the steps of the model.
 */
module IpcKernel {
  import opened Base
  import opened Pril
  import opened Ipc
  import opened IpcPriority
  import opened IpcRuns
  import opened IpcAnswers
  import opened IpcPairing
  import opened IpcDestroy

  class Kernel {
    var net: Net
    var st: map<Id, TState>
    var prio: map<Id, nat>
    var pulses: map<Id, Pulse>
    var sendq: map<Id, seq<Id>>
    var recvq: map<Id, seq<Id>>
    var replyq: map<Id, seq<Id>>
    var client: map<Id, Id>
    var server: map<Id, Id>
    var pulseOnly: set<Id>
    var lastChid: map<Id, Id>

    function View(): State
      reads this
    {
      State(net, st, prio, pulses, sendq, recvq, replyq, client, server, pulseOnly, lastChid)
    }

    constructor (net: Net, prio: map<Id, nat>)
      requires forall ch, t :: t in Vector(net, ch) ==> t >= 0
      ensures Start(View()) && this.net == net && this.prio == prio
    {
      this.net, this.prio := net, prio;
      st, pulses, sendq, recvq, replyq, client, server := map[], map[], map[], map[], map[], map[], map[];
      pulseOnly, lastChid := {}, map[];
    }

    /** `adjust_priority_default` */
    method AdjustPriority(t: Id, p: nat)
      modifies this`prio, this`sendq
      ensures View() == Adjust(old(View()), t, p)
      ensures Inv(old(View())) && t >= 0 && old(P(prio, t)) != p ==>
                Repositions(old(View()), View(), t)
    {
      hide Inv, Repositions, P, Adjust;
      ghost var s := View();
      MoveInQueue(t, p);
      if Inv(s) && t >= 0 && P(s.prio, t) != p {
        AdjustRepositions(s, t, p);
      }
    }

    method MoveInQueue(t: Id, p: nat)
      modifies this`prio, this`sendq
      ensures View() == Adjust(old(View()), t, p)
    {
      if P(prio, t) == p {
        return;
      }
      var s := StOf(st, t);
      if s.SendOn? && s.c in net.chan {
        var ch := net.chan[s.c];
        var rest := Remove(Q(sendq, ch), t);
        prio := prio[t := p];
        var q := Add(rest, prio, t);
        sendq := sendq[ch := q];
      } else {
        prio := prio[t := p];
      }
    }

    /** The loop that raises the threads which last received on the channel. */
    method RaiseServers(p: nat, ch: Id)
      modifies this`prio, this`sendq
      ensures View() == BoostServers(old(View()), p, ch)
    {
      if ch in net.fixed {
        return;
      }
      var v := Vector(net, ch);
      var i := 0;
      while i < |v|
        invariant 0 <= i <= |v|
        invariant Boost(View(), p, ch, v[i..]) == Boost(old(View()), p, ch, v)
      {
        assert v[i..][1..] == v[i + 1..];
        if P(prio, v[i]) < p && Lookup(lastChid, v[i]) == Some(ch) {
          AdjustPriority(v[i], p);
        }
        i := i + 1;
      }
    }

    method FloatPriority(t: Id, p: nat, ch: Id)
      modifies this`prio
      ensures View() == SetPrio(old(View()), t, p, ch)
    {
      if ch !in net.fixed {
        prio := prio[t := p];
      }
    }

    method LeaveClient(t: Id)
      modifies this`client, this`server
      ensures View() == DropClient(old(View()), t)
    {
      if t in client {
        server := server - {client[t]};
        client := client - {t};
      }
    }

    method LeaveServer(t: Id)
      modifies this`client, this`server
      ensures View() == DropServer(old(View()), t)
    {
      if t in server {
        client := client - {server[t]};
        server := server - {t};
      }
    }

    method PopReceiver(ch: Id) returns (r: Id)
      requires Q(recvq, ch) != []
      modifies this`st, this`recvq, this`pulseOnly
      ensures View() == ReleaseReceiver(old(View()), ch) && r == old(Q(recvq, ch)[0])
    {
      r := Q(recvq, ch)[0];
      recvq := recvq[ch := Q(recvq, ch)[1..]];
      st := st[r := Ready];
      pulseOnly := pulseOnly - {r};
    }

    /** A waiting receiver takes the message of `t`. */
    method DeliverMessage(t: Id, c: Id, ch: Id)
      requires Q(recvq, ch) != []
      modifies this
      ensures View() == Handshake(old(View()), t, c, ch)
    {
      hide P, Q;
      var p := P(prio, t);
      var r := PopReceiver(ch);
      FloatPriority(r, p, ch);
      hide SetPrio, ReleaseReceiver;
      st := st[t := ReplyOn(c)];
      server, client := server[t := r], client[r := t];
      replyq := replyq[ch := [t] + Q(replyq, ch)];
    }

    /** `ker_msg_sendv` after its arguments have been checked. */
    method MsgSend(t: Id, c: Id, copy: Copy, refused: bool)
      modifies this
      ensures View() == Send(old(View()), t, c, copy, refused)
      ensures Inv(old(View())) && t >= 0 && old(StOf(st, t)) == Ready ==>
                SendAnswer(old(View()), View(), t, c, copy, refused)
    {
      hide Send, Inv, SendAnswer;
      ghost var s := View();
      HandOverOrQueue(t, c, copy, refused);
      if Inv(s) && t >= 0 && StOf(s.st, t) == Ready {
        SendAnswers(s, t, c, copy, refused);
      }
    }

    method HandOverOrQueue(t: Id, c: Id, copy: Copy, refused: bool)
      modifies this
      ensures View() == Send(old(View()), t, c, copy, refused)
    {
      hide Handshake, ReleaseReceiver, BoostServers, Insert;
      if c !in net.chan || refused {
        return;
      }
      var ch := net.chan[c];
      var q := Q(recvq, ch);
      if q != [] && q[0] !in pulseOnly {
        match copy
        case Done =>
          DeliverMessage(t, c, ch);
        case SrcFault =>
        case DstFault =>
          var _ := PopReceiver(ch);
      } else {
        st := st[t := SendOn(c)];
        var joined := Add(Q(sendq, ch), prio, t);
        sendq := sendq[ch := joined];
        RaiseServers(P(prio, t), ch);
      }
    }

    /** `ker_msg_sendpulse` and `pulse_deliver`. */
    method MsgSendPulse(ch: Id, x: Id, p: nat, first: bool, merged: bool, invalid: bool, refused: bool)
      modifies this
      ensures View() == SendPulse(old(View()), ch, x, p, first, merged, invalid, refused)
      ensures Inv(old(View())) && x < 0 && x !in old(pulses) ==>
                PulseAnswer(old(View()), View(), Event.MsgPulse(ch, x, p, first, merged, invalid, refused))
    {
      hide Inv, PulseAnswer, SendPulse;
      ghost var s := View();
      DeliverPulse(ch, x, p, first, merged, invalid, refused);
      if Inv(s) && x < 0 && x !in s.pulses {
        PulseAnswers(s, Event.MsgPulse(ch, x, p, first, merged, invalid, refused));
      }
    }

    method DeliverPulse(ch: Id, x: Id, p: nat, first: bool, merged: bool, invalid: bool, refused: bool)
      modifies this
      ensures View() == SendPulse(old(View()), ch, x, p, first, merged, invalid, refused)
    {
      if invalid {
        return;
      }
      if Q(recvq, ch) != [] {
        var r := PopReceiver(ch);
        FloatPriority(r, p, ch);
        return;
      }
      if refused {
        return;
      }
      if !merged {
        prio := prio[x := if first then p + 256 else p];
        pulses := pulses[x := Pulse(ch, p)];
        var joined := Add(Q(sendq, ch), prio, x);
        sendq := sendq[ch := joined];
      }
      RaiseServers(p, ch);
    }

    /** Queue the caller on the receive queue: a walk past the ordinary receivers for a
        pulse-only caller. */
    method BlockReceiver(t: Id, ch: Id, pulse: bool)
      modifies this`st, this`recvq, this`pulseOnly
      ensures st == old(st)[t := ReceiveOn(ch)]
      ensures recvq == old(recvq)[ch := JoinReceivers(Q(old(recvq), ch), t, old(pulseOnly), pulse)]
      ensures Stands(Q(old(recvq), ch), Q(recvq, ch), t, old(pulseOnly), pulse)
      ensures pulseOnly == if pulse then old(pulseOnly) + {t} else old(pulseOnly)
    {
      var q := Q(recvq, ch);
      var k := 0;
      while pulse && k < |q| && q[k] !in pulseOnly
        invariant 0 <= k <= |q|
        invariant !pulse ==> k == 0
        invariant forall j :: 0 <= j < k ==> q[j] !in pulseOnly
      {
        k := k + 1;
      }
      JoinAt(q, t, pulseOnly, pulse, k);
      recvq := recvq[ch := q[..k] + [t] + q[k..]];
      st := st[t := ReceiveOn(ch)];
      if pulse {
        pulseOnly := pulseOnly + {t};
      }
    }

    method WaitOrTimeout(t: Id, ch: Id, pulse: bool, timeout: bool)
      modifies this
      ensures View() == Await(old(View()), t, ch, pulse, timeout)
      ensures old(StOf(st, t)) == Ready ==> Waits(old(View()), View(), t, ch, pulse, timeout)
    {
      if StOf(st, t) == Ready {
        AwaitWaits(View(), t, ch, pulse, timeout);
      }
      hide Waits;
      LeaveClient(t);
      if !timeout {
        BlockReceiver(t, ch, pulse);
      }
    }

    /** The pulse-only receive scans the send queue for the first pulse. */
    method FindPulse(ch: Id) returns (x: Option<Id>)
      ensures x == FirstPulse(Q(sendq, ch), pulses)
      ensures if x.Some? then IsFirstPulse(Q(sendq, ch), pulses, x.value)
              else forall y :: y in Q(sendq, ch) ==> y !in pulses
    {
      FirstPulseIsFirst(Q(sendq, ch), pulses);
      hide IsFirstPulse;
      var q := Q(sendq, ch);
      var i := 0;
      while i < |q|
        invariant 0 <= i <= |q|
        invariant FirstPulse(q, pulses) == FirstPulse(q[i..], pulses)
      {
        if q[i] in pulses {
          return Some(q[i]);
        }
        assert q[i..][1..] == q[i + 1..];
        i := i + 1;
      }
      x := None;
    }

    method ConsumePulse(t: Id, ch: Id, x: Id, last: bool)
      requires x in pulses
      modifies this
      ensures View() == TakePulse(old(View()), t, ch, x, last)
    {
      FloatPriority(t, pulses[x].priority, ch);
      LeaveClient(t);
      if last {
        sendq := sendq[ch := Remove(Q(sendq, ch), x)];
        pulses := pulses - {x};
      }
    }

    method ConsumeMessage(t: Id, ch: Id, x: Id)
      requires StOf(st, x).SendOn?
      modifies this
      ensures View() == TakeMessage(old(View()), t, ch, x)
    {
      hide P, Q, Remove, DropClient;
      DropClientParts(View(), t);
      LeaveClient(t);
      sendq := sendq[ch := Remove(Q(sendq, ch), x)];
      server, client := server[x := t], client[t := x];
      st := st[x := ReplyOn(StOf(st, x).c)];
      replyq := replyq[ch := [x] + Q(replyq, ch)];
      FloatPriority(t, P(prio, x), ch);
    }

    /** `ker_msg_receivev`; the loop starts over after a sender that faults. */
    method MsgReceive(t: Id, ch: Id, pulse: bool, invalid: bool, bad: set<Id>, dstFault: bool, last: bool,
                      timeout: bool)
      requires Inv(View())
      modifies this
      ensures View() == Receive(old(View()), t, ch, pulse, invalid, bad, dstFault, last, timeout)
      ensures t >= 0 && old(StOf(st, t)) == Ready ==>
                ReceiveGives(old(View()), View(),
                             Event.MsgReceive(t, ch, pulse, invalid, bad, dstFault, last, timeout))
      ensures t >= 0 && old(StOf(st, t)) == Ready && !invalid
              && NothingFor(old(View()), Event.MsgReceive(t, ch, pulse, invalid, bad, dstFault, last, timeout)) ==>
                && t !in client
                && if timeout then StOf(st, t) == Ready && recvq == old(recvq) && t !in pulseOnly
                   else StOf(st, t) == ReceiveOn(ch) && t in Q(recvq, ch) && (t in pulseOnly <==> pulse)
    {
      hide Inv, ReceiveGives, NothingFor, Receive;
      ghost var s := View();
      TakeOrWait(t, ch, pulse, invalid, bad, dstFault, last, timeout);
      ReceiveMeans(s, t, ch, pulse, invalid, bad, dstFault, last, timeout);
    }

    method TakeOrWait(t: Id, ch: Id, pulse: bool, invalid: bool, bad: set<Id>, dstFault: bool, last: bool,
                      timeout: bool)
      requires Inv(View())
      modifies this
      ensures View() == Receive(old(View()), t, ch, pulse, invalid, bad, dstFault, last, timeout)
    {
      hide ReceiveOutcome, Waits, IsFirstPulse, TakePulse, Await, FirstPulse, ReceiveAny;
      lastChid := lastChid[t := ch];
      if invalid {
        return;
      }
      if pulse {
        var x := FindPulse(ch);
        if x.Some? {
          ConsumePulse(t, ch, x.value, last);
        } else {
          WaitOrTimeout(t, ch, true, timeout);
        }
        return;
      }
      ReceiveLoop(t, ch, bad, dstFault, last, timeout);
    }

    method ReceiveLoop(t: Id, ch: Id, bad: set<Id>, dstFault: bool, last: bool, timeout: bool)
      requires Inv(View())
      modifies this
      ensures View() == ReceiveAny(old(View()), t, ch, bad, dstFault, last, timeout)
      ensures t >= 0 && old(StOf(st, t)) == Ready ==>
                ReceiveOutcome(old(View()), View(), t, ch, bad, dstFault, last, timeout)
    {
      hide Inv, Await, TakePulse, TakeMessage, DropClient, ReceiveOutcome, Waits;
      if t >= 0 && StOf(st, t) == Ready {
        ReceiveAnyAnswers(View(), t, ch, bad, dstFault, last, timeout);
      }
      ghost var goal := ReceiveAny(View(), t, ch, bad, dstFault, last, timeout);
      while true
        invariant Inv(View())
        invariant ReceiveAny(View(), t, ch, bad, dstFault, last, timeout) == goal
        decreases |Q(sendq, ch)|
      {
        var q := Q(sendq, ch);
        if q == [] {
          WaitOrTimeout(t, ch, false, timeout);
          return;
        }
        HeadIsQueued(View(), ch);
        var x := q[0];
        if x in pulses {
          ConsumePulse(t, ch, x, last);
          return;
        }
        if x !in bad {
          if dstFault {
            LeaveClient(t);
          } else {
            ConsumeMessage(t, ch, x);
          }
          return;
        }
        UnblockSenderKeeps(View(), x, ch);
        LeaveSenders(x, ch);
      }
    }

    method FreeClient(x: Id)
      requires StOf(st, x).ReplyOn?
      modifies this`st, this`replyq
      ensures View() == ReleaseClient(old(View()), x)
    {
      var c := StOf(st, x).c;
      if c in net.chan {
        var ch := net.chan[c];
        replyq := replyq[ch := Remove(Q(replyq, ch), x)];
        st := st[x := Ready];
      }
    }

    /** `ker_msg_replyv`, and with `NoFault` `ker_msg_error`. The client is ready afterwards and
        on no reply queue; the pair is dissolved unless the reply faults early. */
    method MsgReply(x: Id, fault: ReplyFault)
      requires Inv(View())
      modifies this
      ensures View() == Reply(old(View()), x, fault) && ReplyAnswer(old(View()), View(), x, fault)
      ensures Inv(View()) && !StOf(st, x).ReplyOn? && forall ch :: x !in Q(replyq, ch)
      ensures old(Linking(View())) ==> Linking(View())
      ensures old(Pairing(View())) ==>
                (Pairing(View()) <==> !(fault == Early && old(StOf(st, x).ReplyOn? && x in server)))
    {
      hide Inv, Paired, Linked, Remove, DropServer, ReplyAnswer;
      ReplyMeans(View(), x, fault);
      ReplyAnswers(View(), x, fault);
      DropServerParts(View(), x);
      if !StOf(st, x).ReplyOn? {
        return;
      }
      if fault != Early {
        LeaveServer(x);
      }
      FreeClient(x);
    }

    /** `ker_msg_current`: afterwards the caller works for the reply-blocked client and for
        nobody else, or for nobody. */
    method MsgCurrent(t: Id, x: Option<Id>)
      requires Inv(View()) && t >= 0 && StOf(st, t) == Ready
      modifies this
      ensures View() == Current(old(View()), t, x) && CurrentAnswer(old(View()), View(), t, x)
      ensures Inv(View()) && (old(Linking(View())) ==> Linking(View())) && (old(Pairing(View())) ==> Pairing(View()))
      ensures x.Some? && StOf(st, x.value).ReplyOn? ==> Lookup(client, t) == x && Lookup(server, x.value) == Some(t)
      ensures !(x.Some? && StOf(st, x.value).ReplyOn?) ==> t !in client
    {
      hide Inv, Paired, Linked, DropClient, Adopt, CurrentAnswer;
      CurrentMeans(View(), t, x);
      CurrentAnswers(View(), t, x);
      DropClientParts(View(), t);
      LeaveClient(t);
      if x.Some? && StOf(st, x.value).ReplyOn? && StOf(st, x.value).c in net.chan {
        AdoptClient(t, x.value);
      }
    }

    method AdoptClient(t: Id, x: Id)
      requires StOf(st, x).ReplyOn? && StOf(st, x).c in net.chan
      modifies this
      ensures View() == Adopt(old(View()), t, x)
    {
      hide DropServer, P, FloatPrio;
      var p := P(prio, x);
      LeaveServer(x);
      server, client := server[x := t], client[t := x];
      FloatPriority(t, p, net.chan[StOf(st, x).c]);
    }

    /** The channel pointers of connections have changed. */
    method FollowConnections(chan: map<Id, Id>)
      modifies this`net
      ensures View() == old(View()).(net := old(net).(chan := chan))
    {
      net := net.(chan := chan);
    }

    /** A queued pulse is dropped. */
    method FreePulse(ch: Id, x: Id)
      modifies this`sendq, this`pulses
      ensures View() == RemovePulse(old(View()), ch, x)
    {
      sendq := sendq[ch := Remove(Q(sendq, ch), x)];
      pulses := pulses - {x};
    }

    method LeaveReceivers(x: Id, ch: Id)
      requires StOf(st, x) == ReceiveOn(ch)
      modifies this`st, this`recvq, this`pulseOnly
      ensures View() == Unblock(old(View()), x)
    {
      recvq := recvq[ch := Remove(Q(recvq, ch), x)];
      pulseOnly := pulseOnly - {x};
      st := st[x := Ready];
    }

    method LeaveSenders(x: Id, ch: Id)
      modifies this`st, this`sendq
      ensures View() == UnblockSender(old(View()), x, ch)
    {
      sendq := sendq[ch := Remove(Q(sendq, ch), x)];
      st := st[x := Ready];
    }

    /** `force_ready`: the thread is ready afterwards and on no queue of any channel. */
    method ForceReady(x: Id)
      requires Inv(View())
      modifies this
      ensures View() == Unblock(old(View()), x) && UnblockAnswer(old(View()), View(), x)
      ensures Inv(View()) && StOf(st, x) == Ready
      ensures forall ch :: x !in Q(recvq, ch) && x !in Q(replyq, ch) && (x in Q(sendq, ch) ==> x in pulses)
      ensures (old(Linking(View())) ==> Linking(View())) && (old(Pairing(View())) ==> Pairing(View()))
    {
      hide Inv, Paired, Linked, Remove, DropServer, ReleaseClient, UnblockSender, UnblockAnswer;
      UnblockMeans(View(), x);
      UnblockAnswers(View(), x);
      DropServerParts(View(), x);
      match StOf(st, x)
      case Ready =>
      case ReceiveOn(ch) =>
        LeaveReceivers(x, ch);
      case SendOn(c) =>
        if c in net.chan {
          LeaveSenders(x, net.chan[c]);
        }
      case ReplyOn(_) =>
        LeaveServer(x);
        FreeClient(x);
    }
  }

  lemma ReceiveMeans(s: State, t: Id, ch: Id, pulse: bool, invalid: bool, bad: set<Id>, dstFault: bool, last: bool,
                     timeout: bool)
    requires Inv(s)
    ensures t >= 0 && StOf(s.st, t) == Ready ==>
              var e := Event.MsgReceive(t, ch, pulse, invalid, bad, dstFault, last, timeout);
              var s' := Receive(s, t, ch, pulse, invalid, bad, dstFault, last, timeout);
              && ReceiveGives(s, s', e)
              && (!invalid && NothingFor(s, e) ==>
                    && t !in s'.client
                    && if timeout then StOf(s'.st, t) == Ready && s'.recvq == s.recvq && t !in s'.pulseOnly
                       else && StOf(s'.st, t) == ReceiveOn(ch) && t in Q(s'.recvq, ch)
                            && (t in s'.pulseOnly <==> pulse))
  {
    hide Inv, ReceiveGives, NothingFor, Receive;
    if t >= 0 && StOf(s.st, t) == Ready {
      var e := Event.MsgReceive(t, ch, pulse, invalid, bad, dstFault, last, timeout);
      ReceiveAnswers(s, e);
      if !invalid && NothingFor(s, e) {
        ReceiveBlocks(s, e);
      }
    }
  }

  lemma ReplyMeans(s: State, x: Id, fault: ReplyFault)
    requires Inv(s)
    ensures var s' := Reply(s, x, fault);
            && Inv(s') && !StOf(s'.st, x).ReplyOn? && (forall ch :: x !in Q(s'.replyq, ch))
            && (Linking(s) ==> Linking(s'))
            && (Pairing(s) ==> (Pairing(s') <==> !(fault == Early && StOf(s.st, x).ReplyOn? && x in s.server)))
  {
    var s' := Reply(s, x, fault);
    StepKeeps(s, MsgReply(x, fault));
    if Linking(s) {
      ReplyLinks(s, x, fault);
    }
    if Pairing(s) {
      PairingStep(s, MsgReply(x, fault));
    }
    assert !StOf(s'.st, x).ReplyOn? by { ReplyReleases(s, x, fault); }
    hide Inv, Pairing, Linking, Reply;
    forall ch ensures x !in Q(s'.replyq, ch) {
      Places(s', x, ch);
    }
  }

  lemma ReplyReleases(s: State, x: Id, fault: ReplyFault)
    requires Inv(s)
    ensures !StOf(Reply(s, x, fault).st, x).ReplyOn?
  {
    assert StOf(s.st, x).ReplyOn? ==> StOf(s.st, x).c in s.net.chan;
    hide Inv, Q, Remove, DropServer;
    DropServerParts(s, x);
  }

  lemma CurrentMeans(s: State, t: Id, x: Option<Id>)
    requires Inv(s) && t >= 0 && StOf(s.st, t) == Ready
    ensures var s' := Current(s, t, x);
            && Inv(s') && (Linking(s) ==> Linking(s')) && (Pairing(s) ==> Pairing(s'))
            && (if x.Some? && StOf(s'.st, x.value).ReplyOn?
                then Lookup(s'.client, t) == x && Lookup(s'.server, x.value) == Some(t) else t !in s'.client)
  {
    CurrentKeeps(s, t, x);
    if Linking(s) {
      CurrentLinks(s, t, x);
    }
    if Pairing(s) {
      CurrentPairs(s, t, x);
    }
    CurrentServes(s, t, x);
    hide Inv, Pairing, Linking, Current;
  }

  lemma CurrentServes(s: State, t: Id, x: Option<Id>)
    requires Inv(s)
    ensures var s' := Current(s, t, x);
            if x.Some? && StOf(s'.st, x.value).ReplyOn?
            then Lookup(s'.client, t) == x && Lookup(s'.server, x.value) == Some(t) else t !in s'.client
  {
    assert forall u :: StOf(s.st, u).ReplyOn? ==> StOf(s.st, u).c in s.net.chan;
    hide Inv, Q, P, FloatPrio;
  }

  lemma UnblockMeans(s: State, x: Id)
    requires Inv(s)
    ensures var s' := Unblock(s, x);
            && Inv(s') && StOf(s'.st, x) == Ready && (Linking(s) ==> Linking(s')) && (Pairing(s) ==> Pairing(s'))
            && forall ch :: x !in Q(s'.recvq, ch) && x !in Q(s'.replyq, ch) && (x in Q(s'.sendq, ch) ==> x in s'.pulses)
  {
    var s' := Unblock(s, x);
    UnblockKeeps(s, x);
    UnblockLife(s, x);
    if Linking(s) {
      UnblockLinks(s, x);
    }
    if Pairing(s) {
      UnblockPairs(s, x);
    }
    assert StOf(s'.st, x) == Ready by { UnblockReadies(s, x); }
    hide Inv, Pairing, Linking, Unblock;
    forall ch ensures x !in Q(s'.recvq, ch) && x !in Q(s'.replyq, ch) && (x in Q(s'.sendq, ch) ==> x in s'.pulses) {
      Places(s', x, ch);
    }
  }

  lemma UnblockReadies(s: State, x: Id)
    requires Inv(s)
    ensures StOf(Unblock(s, x).st, x) == Ready
  {
    assert StOf(s.st, x).SendOn? || StOf(s.st, x).ReplyOn? ==> StOf(s.st, x).c in s.net.chan;
    hide Inv, Q, Remove, DropServer, ReleaseClient;
    if StOf(s.st, x).ReplyOn? {
      UnblockReplyParts(s, x, StOf(s.st, x).c, s.net.chan[StOf(s.st, x).c]);
      hide Unblock;
    }
  }
}
