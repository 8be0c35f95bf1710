/**
 Message passing and connections together: a thread that is send- or reply-blocked on a
 connection holds one link of it, from the moment it blocks until it is made ready.
 */
module Coupling {
  import opened Base
  import opened Pril
  import I = Ipc
  import IpcPriority
  import IpcRuns
  import IpcChannelOrder
  import IpcDestroy
  import C = Connect
  import ConnectRuns

  datatype Sys = Sys(i: I.State, k: C.State)

  /** The connection a thread in state `a` is blocked on. */
  function OnConn(a: I.TState): Option<Id> {
    match a
    case Ready => None
    case SendOn(c) => Some(c)
    case ReplyOn(c) => Some(c)
    case ReceiveOn(_) => None
  }

  /** The connection a thread holds a link of. */
  function Held(refs: map<C.Ref, Id>, t: Id): Option<Id> {
    if C.ByThread(t) in refs then Some(refs[C.ByThread(t)]) else None
  }

  function ChanOf(conns: map<Id, C.Conn>): map<Id, Id> {
    map c | c in conns && conns[c].ch.Some? :: conns[c].ch.value
  }

  /** A thread holds a link of exactly the connection it is send- or reply-blocked on. */
  ghost predicate HoldsLink(st: map<Id, I.TState>, refs: map<C.Ref, Id>) {
    forall t :: Held(refs, t) == OnConn(I.StOf(st, t))
  }

  /** Nobody waits in a receive on a channel that does not exist. */
  ghost predicate OnLiveChannel(st: map<Id, I.TState>, chproc: map<Id, Id>) {
    forall t :: I.StOf(st, t).ReceiveOn? ==> I.StOf(st, t).ch in chproc
  }

  ghost predicate Coupled(s: Sys) {
    HoldsLink(s.i.st, s.k.refs) && s.i.net.chan == ChanOf(s.k.conns) && OnLiveChannel(s.i.st, s.k.chproc)
  }

  ghost predicate Inv(s: Sys) {
    I.Inv(s.i) && C.Inv(s.k) && Coupled(s)
  }

  // ---------------------------------------------------------------- steps

  /** Threads that give up their link, in order: a receive makes faulting senders ready. */
  function BadPrefix(q: seq<Id>, pulses: map<Id, I.Pulse>, bad: set<Id>): seq<Id> {
    if q != [] && q[0] !in pulses && q[0] in bad then [q[0]] + BadPrefix(q[1..], pulses, bad) else []
  }

  function Gone(i: I.State, e: I.Event): seq<Id> {
    match e
    case MsgSend(_, _, _, _) => []
    case MsgPulse(_, _, _, _, _, _, _) => []
    case MsgReceive(_, ch, pulse, invalid, bad, _, _, _) =>
      if pulse || invalid then [] else BadPrefix(I.Q(i.sendq, ch), i.pulses, bad)
    case MsgReply(x, _) => if I.StOf(i.st, x).ReplyOn? then [x] else []
    case MsgError(x) => if I.StOf(i.st, x).ReplyOn? then [x] else []
    case MsgCurrent(_, _) => []
    case ForceReady(x) => [x]
    case AdjustPriority(_, _) => []
  }

  /** Each of the threads lets go of its connection, if it holds one. */
  function DropEach(k: C.State, ts: seq<Id>): (k': C.State)
    requires C.Inv(k)
    ensures C.Inv(k')
    decreases |ts|
  {
    if ts == [] then k
    else if C.ByThread(ts[0]) in k.refs then
      C.DropKeeps(k, C.ByThread(ts[0]));
      DropEach(C.Drop(k, C.ByThread(ts[0])), ts[1..])
    else DropEach(k, ts[1..])
  }

  /** `force_ready` on each thread blocked through the descriptor, as `ConnectDetach` does it. */
  function EvictEach(i: I.State, k: C.State, slot: C.Slot, ts: seq<Id>, kept: set<Id>): I.State
    decreases |ts|
  {
    if ts == [] then i
    else if C.UsesSlot(k, ts[0], slot, kept) then EvictEach(I.Unblock(i, ts[0]), k, slot, ts[1..], kept)
    else EvictEach(i, k, slot, ts[1..], kept)
  }

  /** Message passing reaches channels through the connections there are. */
  function Sync(i: I.State, k: C.State): I.State {
    i.(net := i.net.(chan := ChanOf(k.conns)))
  }

  /** The send blocks or it does not; if it does its thread holds one more link. */
  ghost function ApplySend(s: Sys, t: Id, slot: C.Slot, copy: I.Copy, refused: bool): Sys
    requires Inv(s)
  {
    if C.BySlot(slot) !in s.k.refs then s
    else
      C.LinksPositive(s.k, C.BySlot(slot));
      var i := I.Send(s.i, t, s.k.refs[C.BySlot(slot)], copy, refused);
      Sys(i, if I.StOf(i.st, t) == I.Ready then s.k else C.BlockOn(s.k, t, slot))
  }

  ghost function ApplyCall(s: Sys, call: I.Event): Sys
    requires Inv(s)
  {
    var k := DropEach(s.k, Gone(s.i, call));
    Sys(Sync(I.Apply(s.i, call), k), k)
  }

  ghost function ApplyManage(s: Sys, change: ConnectRuns.Event): Sys
    requires Inv(s) && ConnectRuns.Enabled(s.k, change)
  {
    var k := ConnectRuns.Apply(s.k, change);
    Sys(Sync(s.i, k), k)
  }

  ghost function ApplyClose(s: Sys, slot: C.Slot, ts: seq<Id>, kept: set<Id>): Sys
    requires Inv(s)
  {
    if C.BySlot(slot) !in s.k.refs then s
    else
      var k := C.Detach(s.k, slot, ts, kept);
      Sys(Sync(EvictEach(s.i, s.k, slot, ts, kept), k), k)
  }

  // ---------------------------------------------------------------- putting the halves together

  /** The halves agree on the connections that threads hold, as they do in the middle of a call
      that takes connections away. */
  ghost predicate Joined(s: Sys) {
    && I.Inv(s.i) && C.Inv(s.k) && HoldsLink(s.i.st, s.k.refs) && OnLiveChannel(s.i.st, s.k.chproc)
    && Leads(s.i.net.chan, s.k)
  }

  /** Connections that threads hold lead where message passing takes them to lead. */
  ghost predicate Leads(chan: map<Id, Id>, k: C.State) {
    forall t :: C.ByThread(t) in k.refs ==>
      var c := k.refs[C.ByThread(t)]; c in k.conns && Lookup(chan, c) == k.conns[c].ch
  }

  lemma InvJoins(s: Sys)
    requires Inv(s)
    ensures Joined(s)
  {
    hide C.Counted, C.Charged, C.Nested, C.Listed, C.Served, C.Apart, C.Noted, C.Idle, I.Inv;
  }

  /** The connections that threads hold lead to the same channels as before. */
  ghost predicate SameChannels(k: C.State, k': C.State) {
    forall t :: C.ByThread(t) in k'.refs ==>
      var c := k'.refs[C.ByThread(t)]; c in k.conns && c in k'.conns && k'.conns[c].ch == k.conns[c].ch
  }

  lemma ThinnedSame(k: C.State, k': C.State)
    requires C.Inv(k') && C.Thinned(k, k')
    ensures SameChannels(k, k')
  {
    hide C.Counted, C.Charged, C.Nested, C.Listed, C.Served, C.Apart, C.Noted, C.Idle;
  }

  /** A change of connections on which nobody is blocked is none for message passing. */
  lemma SyncKeeps(i: I.State, chan: map<Id, Id>)
    requires I.Inv(i)
    requires forall t :: OnConn(I.StOf(i.st, t)).Some? ==>
               Lookup(chan, OnConn(I.StOf(i.st, t)).value) == Lookup(i.net.chan, OnConn(I.StOf(i.st, t)).value)
    ensures I.Inv(i.(net := i.net.(chan := chan)))
  {
    var net := i.net.(chan := chan);
    assert I.Sane(net, i.st, i.pulses) by {
      hide I.RecvAgree, I.ReplyAgree, I.SendAgree, I.RecvOrder, I.NoIdle;
      forall t | I.StOf(i.st, t).SendOn? || I.StOf(i.st, t).ReplyOn? ensures I.StOf(i.st, t).c in chan {
        assert OnConn(I.StOf(i.st, t)).Some?;
      }
      assert forall ch :: I.Vector(net, ch) == I.Vector(i.net, ch);
    }
    SyncQueues(i, chan);
    hide I.RecvAgree, I.ReplyAgree, I.SendAgree, I.RecvOrder, I.NoIdle, I.Sane;
  }

  lemma SyncQueues(i: I.State, chan: map<Id, Id>)
    requires I.ReplyAgree(i.net.chan, i.st, i.replyq) && I.SendAgree(i.net.chan, i.st, i.prio, i.pulses, i.sendq)
    requires forall t :: OnConn(I.StOf(i.st, t)).Some? ==>
               Lookup(chan, OnConn(I.StOf(i.st, t)).value) == Lookup(i.net.chan, OnConn(I.StOf(i.st, t)).value)
    ensures I.ReplyAgree(chan, i.st, i.replyq) && I.SendAgree(chan, i.st, i.prio, i.pulses, i.sendq)
  {
    hide Distinct, Sorted, I.Q;
    forall t, n
      ensures I.ReplyBlockedAt(chan, I.StOf(i.st, t), n) <==> I.ReplyBlockedAt(i.net.chan, I.StOf(i.st, t), n)
      ensures I.QueuedAt(chan, i.st, i.pulses, t, n) <==> I.QueuedAt(i.net.chan, i.st, i.pulses, t, n)
    {
    }
    hide I.ReplyBlockedAt, I.QueuedAt;
  }

  lemma Settle(s: Sys)
    requires Joined(s)
    ensures Inv(Sys(Sync(s.i, s.k), s.k))
  {
    var chan := ChanOf(s.k.conns);
    forall t | OnConn(I.StOf(s.i.st, t)).Some?
      ensures Lookup(chan, OnConn(I.StOf(s.i.st, t)).value) == Lookup(s.i.net.chan, OnConn(I.StOf(s.i.st, t)).value)
    {
      assert Held(s.k.refs, t) == OnConn(I.StOf(s.i.st, t));
    }
    hide I.Inv, C.Inv;
    SyncKeeps(s.i, chan);
  }

  lemma Rejoin(i: I.State, k: C.State, k': C.State)
    requires I.Inv(i) && C.Inv(k') && i.net.chan == ChanOf(k.conns)
    requires HoldsLink(i.st, k'.refs) && SameChannels(k, k') && OnLiveChannel(i.st, k'.chproc)
    ensures Inv(Sys(Sync(i, k'), k'))
  {
    hide I.Inv, C.Inv;
    Settle(Sys(i, k'));
  }

  // ---------------------------------------------------------------- what calls do to thread states

  /** From `st` to `st'` exactly the threads `gone` leave their connection, nobody enters one,
      and nobody begins to wait in a receive but on channel `ch`. */
  ghost predicate Leaves(st: map<Id, I.TState>, st': map<Id, I.TState>, gone: seq<Id>, ch: Option<Id>) {
    && (forall u :: OnConn(I.StOf(st', u)) == if u in gone then None else OnConn(I.StOf(st, u)))
    && (forall u :: I.StOf(st', u).ReceiveOn? ==> I.StOf(st, u) == I.StOf(st', u) || ch == Some(I.StOf(st', u).ch))
  }

  lemma LeavesNone(st: map<Id, I.TState>, ch: Option<Id>)
    ensures Leaves(st, st, [], ch)
  {
  }

  lemma LeavesMore(st: map<Id, I.TState>, st1: map<Id, I.TState>, st': map<Id, I.TState>, a: seq<Id>, b: seq<Id>,
                   ch: Option<Id>)
    requires Leaves(st, st1, a, ch) && Leaves(st1, st', b, ch)
    ensures Leaves(st, st', a + b, ch)
  {
    hide OnConn, I.StOf;
  }

  /** One thread changes its state. */
  lemma LeavesOne(st: map<Id, I.TState>, t: Id, v: I.TState, gone: seq<Id>, ch: Option<Id>)
    requires forall u :: u in gone ==> u == t
    requires OnConn(v) == if t in gone then None else OnConn(I.StOf(st, t))
    requires v.ReceiveOn? ==> ch == Some(v.ch)
    ensures Leaves(st, st[t := v], gone, ch)
  {
    assert forall u :: I.StOf(st[t := v], u) == if u == t then v else I.StOf(st, u);
  }

  lemma UnblockLeaves(i: I.State, x: Id, ch: Option<Id>)
    requires I.Inv(i)
    ensures Leaves(i.st, I.Unblock(i, x).st, [x], ch)
  {
    var a := I.StOf(i.st, x);
    assert a.SendOn? || a.ReplyOn? ==> a.c in i.net.chan;
    LeavesOne(i.st, x, I.Ready, [x], ch);
    if a.ReplyOn? {
      IpcDestroy.UnblockReplyParts(i, x, a.c, i.net.chan[a.c]);
      hide I.Inv, I.Unblock, I.Q, Remove, I.DropServer, I.ReleaseClient, Leaves;
    }
    hide I.Inv, I.Q, Remove, I.DropServer, I.ReleaseClient;
  }

  lemma ReplyLeaves(i: I.State, x: Id, fault: I.ReplyFault)
    requires I.Inv(i)
    ensures Leaves(i.st, I.Reply(i, x, fault).st, if I.StOf(i.st, x).ReplyOn? then [x] else [], None)
  {
    var st := i.st;
    var a := I.StOf(st, x);
    assert a.ReplyOn? ==> a.c in i.net.chan;
    I.DropServerParts(i, x);
    hide I.Inv, I.Q, Remove, I.DropServer;
    LeavesOne(st, x, I.Ready, [x], None);
    LeavesNone(st, None);
  }

  lemma PulseLeaves(i: I.State, n: Id, x: Id, p: nat, first: bool, merged: bool, invalid: bool, refused: bool)
    requires I.Inv(i) && x < 0 && x !in i.pulses
    ensures Leaves(i.st, I.SendPulse(i, n, x, p, first, merged, invalid, refused).st, [], None)
  {
    LeavesNone(i.st, None);
    hide I.Inv, Leaves, I.BoostServers, Insert, P;
    if I.Q(i.recvq, n) != [] {
      I.ReleaseReceiverKeeps(i, n);
      LeavesOne(i.st, I.Q(i.recvq, n)[0], I.Ready, [], None);
    } else if merged {
      I.BoostServersKeeps(i, p, n);
    } else {
      var key := if first then p + 256 else p;
      I.QueuePulseKeeps(i, n, x, p, key);
      I.BoostServersKeeps(I.QueuePulse(i, n, x, p, key), p, n);
    }
  }

  lemma AwaitLeaves(i: I.State, t: Id, ch: Id, pulse: bool, timeout: bool)
    requires I.StOf(i.st, t) == I.Ready
    ensures Leaves(i.st, I.Await(i, t, ch, pulse, timeout).st, [], Some(ch))
  {
    LeavesNone(i.st, Some(ch));
    hide Leaves, I.Q, I.DropClient, I.JoinReceivers;
    I.DropClientParts(i, t);
    LeavesOne(i.st, t, I.ReceiveOn(ch), [], Some(ch));
  }

  lemma TakeMessageLeaves(i: I.State, t: Id, ch: Id, x: Id)
    requires I.StOf(i.st, x).SendOn?
    ensures Leaves(i.st, I.TakeMessage(i, t, ch, x).st, [], Some(ch))
  {
    hide Leaves, I.Q, I.DropClient, P, Remove;
    I.DropClientParts(i, t);
    LeavesOne(i.st, x, I.ReplyOn(I.StOf(i.st, x).c), [], Some(ch));
  }

  lemma {:induction false} ReceiveAnyLeaves(i: I.State, t: Id, ch: Id, bad: set<Id>, dstFault: bool, last: bool,
                                            timeout: bool)
    requires I.Inv(i) && I.StOf(i.st, t) == I.Ready
    ensures Leaves(i.st, I.ReceiveAny(i, t, ch, bad, dstFault, last, timeout).st,
                   BadPrefix(I.Q(i.sendq, ch), i.pulses, bad), Some(ch))
    decreases |I.Q(i.sendq, ch)|
  {
    LeavesNone(i.st, Some(ch));
    hide I.Inv, Leaves, I.TakePulse, I.TakeMessage, I.Await, I.DropClient;
    var q := I.Q(i.sendq, ch);
    if q == [] {
      AwaitLeaves(i, t, ch, false, timeout);
    } else {
      I.HeadIsQueued(i, ch);
      var x := q[0];
      if x in i.pulses {
        IpcRuns.TakePulseLife(i, t, ch, x, last);
      } else if x in bad {
        var i1 := I.UnblockSender(i, x, ch);
        I.UnblockSenderKeeps(i, x, ch);
        IpcPriority.BadSenderLeaves(i, t, ch);
        LeavesOne(i.st, x, I.Ready, [x], Some(ch));
        ReceiveAnyLeaves(i1, t, ch, bad, dstFault, last, timeout);
        LeavesMore(i.st, i1.st, I.ReceiveAny(i1, t, ch, bad, dstFault, last, timeout).st,
                   [x], BadPrefix(q[1..], i.pulses, bad), Some(ch));
      } else if dstFault {
        I.DropClientParts(i, t);
      } else {
        TakeMessageLeaves(i, t, ch, x);
      }
    }
  }

  lemma ReceiveLeaves(i: I.State, t: Id, ch: Id, pulse: bool, invalid: bool, bad: set<Id>, dstFault: bool,
                      last: bool, timeout: bool)
    requires I.Inv(i) && I.StOf(i.st, t) == I.Ready
    ensures Leaves(i.st, I.Receive(i, t, ch, pulse, invalid, bad, dstFault, last, timeout).st,
                   if pulse || invalid then [] else BadPrefix(I.Q(i.sendq, ch), i.pulses, bad), Some(ch))
  {
    var i1 := i.(lastChid := i.lastChid[t := ch]);
    assert I.Inv(i1);
    LeavesNone(i.st, Some(ch));
    hide I.Inv, Leaves, I.TakePulse, I.ReceiveAny, I.Await, I.FirstPulse, I.Q;
    if !invalid {
      if pulse {
        var x := I.FirstPulse(I.Q(i.sendq, ch), i.pulses);
        if x.Some? {
          IpcRuns.TakePulseLife(i1, t, ch, x.value, last);
        } else {
          AwaitLeaves(i1, t, ch, true, timeout);
        }
      } else {
        ReceiveAnyLeaves(i1, t, ch, bad, dstFault, last, timeout);
      }
    }
  }

  lemma CallLeaves(i: I.State, e: I.Event)
    requires I.Inv(i) && I.Enabled(i, e) && !e.MsgSend?
    ensures Leaves(i.st, I.Apply(i, e).st, Gone(i, e), if e.MsgReceive? then Some(e.ch) else None)
  {
    LeavesNone(i.st, None);
    hide I.Inv, Leaves, I.SendPulse, I.Receive, I.Reply, I.Current, I.Unblock, I.Adjust;
    match e
    case MsgPulse(ch, x, p, first, merged, invalid, refused) => PulseLeaves(i, ch, x, p, first, merged, invalid,
                                                                            refused);
    case MsgReceive(t, ch, pulse, invalid, bad, dstFault, last, timeout) =>
      ReceiveLeaves(i, t, ch, pulse, invalid, bad, dstFault, last, timeout);
    case MsgReply(x, fault) => ReplyLeaves(i, x, fault);
    case MsgError(x) => ReplyLeaves(i, x, I.NoFault);
    case MsgCurrent(t, x) => IpcPriority.CurrentParts(i, t, x);
    case ForceReady(x) => UnblockLeaves(i, x, None);
    case AdjustPriority(t, p) => I.AdjustKeeps(i, t, p);
  }

  /** From `st` to `st'` at most `t` enters a connection, and that is `c`. */
  ghost predicate Enters(st: map<Id, I.TState>, st': map<Id, I.TState>, t: Id, c: Id) {
    && (I.StOf(st', t) == I.Ready || OnConn(I.StOf(st', t)) == Some(c))
    && (forall u :: u != t ==> OnConn(I.StOf(st', u)) == OnConn(I.StOf(st, u)))
    && (forall u :: I.StOf(st', u).ReceiveOn? ==> I.StOf(st, u) == I.StOf(st', u))
  }

  lemma EntersOne(st: map<Id, I.TState>, r: Id, t: Id, v: I.TState, c: Id)
    requires I.StOf(st, t) == I.Ready && OnConn(v) == Some(c)
    ensures Enters(st, st, t, c) && Enters(st, st[t := v], t, c)
    ensures I.StOf(st, r).ReceiveOn? ==> Enters(st, st[r := I.Ready], t, c)
    ensures I.StOf(st, r).ReceiveOn? ==> Enters(st, st[r := I.Ready][t := v], t, c)
  {
    var st0, st1 := st[t := v], st[r := I.Ready];
    var st2 := st1[t := v];
    assert forall u :: I.StOf(st0, u) == if u == t then v else I.StOf(st, u);
    assert forall u :: I.StOf(st1, u) == if u == r then I.Ready else I.StOf(st, u);
    assert forall u :: I.StOf(st2, u) == if u == t then v else I.StOf(st1, u);
    hide I.StOf;
  }

  lemma QueueEnters(i: I.State, t: Id, c: Id, n: Id)
    requires I.Inv(i) && t >= 0 && I.StOf(i.st, t) == I.Ready && Lookup(i.net.chan, c) == Some(n)
    requires I.Q(i.recvq, n) == [] || I.Q(i.recvq, n)[0] in i.pulseOnly
    ensures Enters(i.st, I.QueueSender(i, t, c, n).st, t, c)
  {
    hide I.Inv, P, I.Q, Insert, I.BoostServers, Enters;
    EntersOne(i.st, t, t, I.SendOn(c), c);
    I.QueueSenderKeeps(i, t, c, n);
    I.BoostServersKeeps(I.Enqueue(i, t, c, n), P(i.prio, t), n);
  }

  lemma HandEnters(i: I.State, t: Id, c: Id, n: Id)
    requires I.Inv(i) && I.StOf(i.st, t) == I.Ready && I.Q(i.recvq, n) != []
    ensures Enters(i.st, I.Handshake(i, t, c, n).st, t, c) && Enters(i.st, I.ReleaseReceiver(i, n).st, t, c)
  {
    hide I.Inv, P, I.Q, I.FloatPrio, Enters;
    I.ReleaseReceiverKeeps(i, n);
    EntersOne(i.st, I.Q(i.recvq, n)[0], t, I.ReplyOn(c), c);
  }

  /** A send blocks its own thread on the connection or nobody. */
  lemma SendEnters(i: I.State, t: Id, c: Id, copy: I.Copy, refused: bool)
    requires I.Inv(i) && t >= 0 && I.StOf(i.st, t) == I.Ready
    ensures Enters(i.st, I.Send(i, t, c, copy, refused).st, t, c)
  {
    hide I.Inv, I.QueueSender, I.Handshake, I.ReleaseReceiver, Enters;
    EntersOne(i.st, t, t, I.SendOn(c), c);
    if c in i.net.chan && !refused {
      var n := i.net.chan[c];
      if IpcPriority.Queues(i, c, refused) {
        QueueEnters(i, t, c, n);
      } else {
        HandEnters(i, t, c, n);
      }
    }
  }

  // ---------------------------------------------------------------- call by call

  lemma SendStays(s: Sys, t: Id, slot: C.Slot, copy: I.Copy, refused: bool)
    requires Inv(s) && t >= 0 && I.StOf(s.i.st, t) == I.Ready
    ensures Inv(ApplySend(s, t, slot, copy, refused))
  {
    hide I.Inv, C.Inv, Coupled, I.Send, Enters;
    if C.BySlot(slot) in s.k.refs {
      C.LinksPositive(s.k, C.BySlot(slot));
      var c := s.k.refs[C.BySlot(slot)];
      var i := I.Send(s.i, t, c, copy, refused);
      SendEnters(s.i, t, c, copy, refused);
      I.SendKeeps(s.i, t, c, copy, refused);
      IpcChannelOrder.SendNet(s.i, t, c, copy, refused);
      if I.StOf(i.st, t) == I.Ready {
        NotEntered(s, i, t, c);
      } else {
        EnteredStays(s, i, t, slot);
      }
    }
  }

  lemma NotEntered(s: Sys, i: I.State, t: Id, c: Id)
    requires Inv(s) && I.Inv(i) && i.net == s.i.net && I.StOf(s.i.st, t) == I.Ready
    requires Enters(s.i.st, i.st, t, c) && I.StOf(i.st, t) == I.Ready
    ensures Inv(Sys(i, s.k))
  {
    hide I.Inv, C.Inv, I.StOf;
  }

  lemma EnteredStays(s: Sys, i: I.State, t: Id, slot: C.Slot)
    requires Inv(s) && I.Inv(i) && i.net == s.i.net && I.StOf(s.i.st, t) == I.Ready
    requires C.BySlot(slot) in s.k.refs && s.k.refs[C.BySlot(slot)] in s.k.conns
    requires Enters(s.i.st, i.st, t, s.k.refs[C.BySlot(slot)]) && I.StOf(i.st, t) != I.Ready
    ensures Inv(Sys(i, C.BlockOn(s.k, t, slot)))
  {
    hide I.Inv, C.Inv, I.StOf;
    assert Held(s.k.refs, t) == None;
    C.BlockOnKeeps(s.k, t, slot);
    var k := C.BlockOn(s.k, t, slot);
    Entered(s.i.st, i.st, s.k.refs, t, s.k.refs[C.BySlot(slot)]);
    assert ChanOf(k.conns) == ChanOf(s.k.conns);
  }

  lemma Entered(st: map<Id, I.TState>, st': map<Id, I.TState>, refs: map<C.Ref, Id>, t: Id, c: Id)
    requires HoldsLink(st, refs) && Enters(st, st', t, c) && I.StOf(st', t) != I.Ready
    ensures HoldsLink(st', refs[C.ByThread(t) := c])
  {
    var refs' := refs[C.ByThread(t) := c];
    assert forall u :: Held(refs', u) == if u == t then Some(c) else Held(refs, u);
  }

  /** The connections after each of the threads has let go of its own. */
  lemma {:induction false} DropEachTakes(k: C.State, ts: seq<Id>)
    requires C.Inv(k)
    ensures var k' := DropEach(k, ts);
            && (forall u :: Held(k'.refs, u) == if u in ts then None else Held(k.refs, u))
            && C.Thinned(k, k')
    decreases |ts|
  {
    hide C.Inv, C.Drop, C.Thinned;
    if ts == [] {
      C.ThinnedTwice(k, k, k) by { ThinnedNone(k); }
    } else {
      var r := C.ByThread(ts[0]);
      if r in k.refs {
        C.DropKeeps(k, r);
        C.DropThins(k, r);
        var k1 := C.Drop(k, r);
        forall u ensures Held(k1.refs, u) == if u == ts[0] then None else Held(k.refs, u) {
          C.DropSpares(k, r, C.ByThread(if u == ts[0] then u + 1 else u));
        }
        DropEachTakes(k1, ts[1..]);
        C.ThinnedTwice(k, k1, DropEach(k, ts));
      } else {
        DropEachTakes(k, ts[1..]);
      }
    }
  }

  lemma ThinnedNone(k: C.State)
    ensures C.Thinned(k, k)
  {
  }

  lemma CallStays(s: Sys, call: I.Event)
    requires Inv(s) && !call.MsgSend? && I.Enabled(s.i, call) && (call.MsgReceive? ==> call.ch in s.k.chproc)
    ensures Inv(ApplyCall(s, call))
  {
    hide I.Inv, C.Inv, I.Apply, I.Enabled, Gone, C.Thinned;
    var i, gone := I.Apply(s.i, call), Gone(s.i, call);
    I.StepKeeps(s.i, call);
    IpcChannelOrder.NetStays(s.i, call);
    CallLeaves(s.i, call);
    DropEachTakes(s.k, gone);
    var k := DropEach(s.k, gone);
    ThinnedSame(s.k, k);
    assert k.chproc == s.k.chproc by { ThinnedChannels(s.k, k); }
    assert HoldsLink(i.st, k.refs);
    assert OnLiveChannel(i.st, k.chproc);
    Rejoin(i, s.k, k);
  }

  lemma ThinnedChannels(k: C.State, k': C.State)
    requires C.Thinned(k, k')
    ensures k'.chproc == k.chproc
  {
  }

  lemma ManageRefs(k: C.State, change: ConnectRuns.Event)
    requires C.Inv(k) && ConnectRuns.Enabled(k, change)
    ensures var k' := ConnectRuns.Apply(k, change);
            (forall t :: Held(k'.refs, t) == Held(k.refs, t)) && (forall ch :: ch in k.chproc ==> ch in k'.chproc)
  {
    hide C.Inv, C.Kids, C.Charge;
  }

  lemma ManageConns(k: C.State, change: ConnectRuns.Event, c: Id)
    requires C.Inv(k) && ConnectRuns.Enabled(k, change) && c in k.conns && k.conns[c].links > 0
    ensures var k' := ConnectRuns.Apply(k, change); c in k'.conns && k'.conns[c].ch == k.conns[c].ch
  {
    hide C.Inv, C.Kids, C.Charge;
  }

  lemma ManageSpares(k: C.State, change: ConnectRuns.Event)
    requires C.Inv(k) && ConnectRuns.Enabled(k, change)
    ensures var k' := ConnectRuns.Apply(k, change);
            && C.Inv(k') && (forall t :: Held(k'.refs, t) == Held(k.refs, t))
            && SameChannels(k, k') && (forall ch :: ch in k.chproc ==> ch in k'.chproc)
  {
    hide C.Inv, ConnectRuns.Enabled, ConnectRuns.Apply;
    ConnectRuns.StepKeeps(k, change);
    ManageRefs(k, change);
    var k' := ConnectRuns.Apply(k, change);
    forall t | C.ByThread(t) in k'.refs
      ensures var c := k'.refs[C.ByThread(t)]; c in k.conns && c in k'.conns && k'.conns[c].ch == k.conns[c].ch
    {
      assert Held(k'.refs, t) == Held(k.refs, t);
      C.LinksPositive(k, C.ByThread(t));
      ManageConns(k, change, k.refs[C.ByThread(t)]);
    }
  }

  lemma ManageStays(s: Sys, change: ConnectRuns.Event)
    requires Inv(s) && ConnectRuns.Enabled(s.k, change)
    ensures Inv(ApplyManage(s, change))
  {
    hide I.Inv, C.Inv, ConnectRuns.Enabled, ConnectRuns.Apply, SameChannels;
    ManageSpares(s.k, change);
    Rejoin(s.i, s.k, ConnectRuns.Apply(s.k, change));
  }

  lemma {:induction false} EvictThins(k: C.State, slot: C.Slot, ts: seq<Id>, kept: set<Id>)
    requires C.Inv(k)
    ensures C.Thinned(k, C.Evict(k, slot, ts, kept))
    decreases |ts|
  {
    hide C.Inv, C.Drop, C.Thinned;
    if ts == [] {
      ThinnedNone(k);
    } else if C.UsesSlot(k, ts[0], slot, kept) {
      var r := C.ByThread(ts[0]);
      C.DropKeeps(k, r);
      C.DropThins(k, r);
      EvictThins(C.Drop(k, r), slot, ts[1..], kept);
      C.ThinnedTwice(k, C.Drop(k, r), C.Evict(k, slot, ts, kept));
    } else {
      EvictThins(k, slot, ts[1..], kept);
    }
  }

  lemma DetachTakes(k: C.State, slot: C.Slot, ts: seq<Id>, kept: set<Id>)
    requires C.Inv(k) && C.BySlot(slot) in k.refs
    ensures var k' := C.Detach(k, slot, ts, kept);
            && C.Inv(k') && C.Thinned(k, k')
            && forall u :: Held(k'.refs, u) == if u in ts && C.UsesSlot(k, u, slot, kept) then None else Held(k.refs, u)
  {
    var r, k' := C.BySlot(slot), C.Detach(k, slot, ts, kept);
    C.DetachKeeps(k, slot, ts, kept);
    EvictThins(k, slot, ts, kept);
    C.EvictSpares(k, slot, ts, kept, r);
    var k1 := C.Evict(k, slot, ts, kept);
    assert k' == C.Drop(k1, r);
    hide C.Inv, C.Drop, C.Thinned, C.Evict, C.Detach, C.UsesSlot;
    C.DropThins(k1, r);
    C.ThinnedTwice(k, k1, k');
    forall u ensures Held(k'.refs, u) == if u in ts && C.UsesSlot(k, u, slot, kept) then None else Held(k.refs, u) {
      C.EvictSpares(k, slot, ts, kept, C.ByThread(u));
      C.DropSpares(k1, r, C.ByThread(u));
    }
  }

  lemma {:induction false} EvictEachLeaves(i: I.State, k: C.State, slot: C.Slot, ts: seq<Id>, kept: set<Id>)
    requires I.Inv(i)
    ensures var i' := EvictEach(i, k, slot, ts, kept);
            && I.Inv(i') && i'.net == i.net
            && (forall u :: OnConn(I.StOf(i'.st, u)) ==
                            if u in ts && C.UsesSlot(k, u, slot, kept) then None else OnConn(I.StOf(i.st, u)))
            && (forall u :: I.StOf(i'.st, u).ReceiveOn? ==> I.StOf(i.st, u) == I.StOf(i'.st, u))
    decreases |ts|
  {
    hide I.Inv, I.Unblock, I.StOf, C.UsesSlot, OnConn;
    if ts != [] {
      var i1 := i;
      if C.UsesSlot(k, ts[0], slot, kept) {
        i1 := I.Unblock(i, ts[0]);
        I.UnblockKeeps(i, ts[0]);
        UnblockLeaves(i, ts[0], None);
        IpcChannelOrder.UnblockNet(i, ts[0]);
      }
      EvictEachLeaves(i1, k, slot, ts[1..], kept);
    }
  }

  lemma CloseStays(s: Sys, slot: C.Slot, ts: seq<Id>, kept: set<Id>)
    requires Inv(s)
    ensures Inv(ApplyClose(s, slot, ts, kept))
  {
    hide I.Inv, C.Inv, C.Detach, EvictEach, C.UsesSlot, C.Thinned, SameChannels, I.StOf;
    if C.BySlot(slot) in s.k.refs {
      DetachTakes(s.k, slot, ts, kept);
      EvictEachLeaves(s.i, s.k, slot, ts, kept);
      var k := C.Detach(s.k, slot, ts, kept);
      ThinnedSame(s.k, k);
      ThinnedChannels(s.k, k);
      Rejoin(EvictEach(s.i, s.k, slot, ts, kept), s.k, k);
    }
  }
}
