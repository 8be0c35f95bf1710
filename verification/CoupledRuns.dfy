/**
 Message passing, connections and channels over whole runs: sends through descriptors and all
 other message calls, attaches and detaches, channel creation and destruction.
 */
module CoupledRuns {
  import opened Base
  import opened Pril
  import opened Coupling
  import I = Ipc
  import IpcRuns
  import IpcDestroy
  import C = Connect
  import ChannelDestroy
  import ConnectRuns
  import Teardown

  datatype Event =
    | Send(t: Id, slot: C.Slot, copy: I.Copy, refused: bool)   // a send through a descriptor
    | Call(call: I.Event)                                      // any other message call
    | Manage(change: ConnectRuns.Event)                        // attach, server detach, channel creation
    | Close(slot: C.Slot, ts: seq<Id>, kept: set<Id>)
    | Destroy(ch: Id, n: nat, stops: seq<bool>)                // interrupted as `stops` says

  /** A call names a channel that exists. A new channel does not get the name of one on which
      something was left. */
  ghost predicate Enabled(s: Sys, e: Event) {
    match e
    case Send(t, _, _, _) => t >= 0 && I.StOf(s.i.st, t) == I.Ready
    case Call(call) =>
      && !call.MsgSend? && I.Enabled(s.i, call)
      && (call.MsgReceive? ==> call.ch in s.k.chproc) && (call.MsgPulse? ==> call.ch in s.k.chproc)
    case Manage(change) =>
      ConnectRuns.Enabled(s.k, change) && (change.CreateChannel? ==> IpcDestroy.PulsesOn(s.i, change.ch) == {})
    case Close(_, _, _) => true
    case Destroy(ch, n, _) => ch in s.k.chproc && ChannelDestroy.Within(s.k, s.k.chproc[ch], n)
  }

  ghost function Apply(s: Sys, e: Event): Sys
    requires Inv(s) && Enabled(s, e)
  {
    match e
    case Send(t, slot, copy, refused) => ApplySend(s, t, slot, copy, refused)
    case Call(call) => ApplyCall(s, call)
    case Manage(change) => ApplyManage(s, change)
    case Close(slot, ts, kept) => ApplyClose(s, slot, ts, kept)
    case Destroy(ch, n, stops) => Teardown.Begins(s, ch); Teardown.Destroy(s, ch, n, stops)
  }

  lemma StepKeeps(s: Sys, e: Event)
    requires Inv(s) && Enabled(s, e)
    ensures Inv(Apply(s, e))
  {
    hide Inv, ApplySend, ApplyCall, ApplyManage, ApplyClose, Teardown.Destroy;
    match e
    case Send(t, slot, copy, refused) => SendStays(s, t, slot, copy, refused);
    case Call(call) => CallStays(s, call);
    case Manage(change) => ManageStays(s, change);
    case Close(slot, ts, kept) => CloseStays(s, slot, ts, kept);
    case Destroy(ch, n, stops) => Teardown.DestroyCompletes(s, ch, n, stops);
  }

  /** A new channel starts with empty queues. */
  lemma NewChannelEmpty(s: Sys, ch: Id, p: Id, tellServer: bool)
    requires Inv(s) && Enabled(s, Manage(ConnectRuns.CreateChannel(ch, p, tellServer)))
    ensures I.Q(s.i.sendq, ch) == [] && I.Q(s.i.recvq, ch) == [] && I.Q(s.i.replyq, ch) == []
  {
    forall u ensures !IpcDestroy.OnChannel(s.i.net.chan, I.StOf(s.i.st, u), ch) {
      NeverDangles(s, u);
    }
    hide C.Inv, IpcDestroy.OnChannel;
    IpcDestroy.NobodyQueued(s.i, ch);
    IpcDestroy.EmptyQueue(s.i, ch);
  }

  ghost predicate Start(s: Sys) {
    IpcRuns.Start(s.i) && ConnectRuns.Start(s.k) && s.i.net.chan == map[]
  }

  lemma StartHolds(s: Sys)
    requires Start(s)
    ensures Inv(s)
  {
    IpcRuns.StartHolds(s.i);
    ConnectRuns.StartHolds(s.k);
    assert ChanOf(s.k.conns) == map[];
  }

  ghost predicate Step(s: Sys, e: Event, s': Sys) {
    Inv(s) && Enabled(s, e) ==> s' == Apply(s, e)
  }

  /** A run; the invariant is not assumed of its states. */
  ghost predicate Run(states: seq<Sys>, events: seq<Event>) {
    && |states| == |events| + 1
    && Start(states[0])
    && forall i :: 0 <= i < |events| ==> Enabled(states[i], events[i]) && Step(states[i], events[i], states[i + 1])
  }

  lemma {:induction false} RunsHold(states: seq<Sys>, events: seq<Event>, i: nat)
    requires Run(states, events) && i < |states|
    ensures Inv(states[i])
  {
    hide Inv, Apply, Enabled, Start;
    if i == 0 {
      StartHolds(states[0]);
    } else {
      RunsHold(states, events, i - 1);
      assert Enabled(states[i - 1], events[i - 1]) && Step(states[i - 1], events[i - 1], states[i]);
      StepKeeps(states[i - 1], events[i - 1]);
    }
  }

  /** Descriptors open on a connection. */
  function OpenSlots(refs: map<C.Ref, Id>, c: Id): set<C.Ref> {
    set r | r in refs && r.BySlot? && refs[r] == c
  }

  /** Connections that share the place of a connection. */
  function Sharers(refs: map<C.Ref, Id>, c: Id): set<C.Ref> {
    set r | r in refs && r.ByChild? && refs[r] == c
  }

  /** Threads send- or reply-blocked on a connection. */
  function BlockedOn(st: map<Id, I.TState>, c: Id): set<Id> {
    set t | t in st && OnConn(st[t]) == Some(c)
  }

  function ThreadHolders(refs: map<C.Ref, Id>, c: Id): set<C.Ref> {
    set r | r in refs && r.ByThread? && refs[r] == c
  }

  function Threads(holders: set<C.Ref>): set<Id> {
    set r | r in holders && r.ByThread? :: r.t
  }

  lemma {:induction false} SameCount(holders: set<C.Ref>)
    requires forall r :: r in holders ==> r.ByThread?
    ensures |Threads(holders)| == |holders|
    decreases |holders|
  {
    if holders == {} {
      assert Threads(holders) == {};
    } else {
      var r :| r in holders;
      var rest := holders - {r};
      SameCount(rest);
      assert Threads(holders) == Threads(rest) + {r.t};
    }
  }

  /** The holders of a connection, by kind. */
  lemma HoldersAre(refs: map<C.Ref, Id>, c: Id)
    ensures |C.Holders(refs, c)| == |OpenSlots(refs, c)| + |ThreadHolders(refs, c)| + |Sharers(refs, c)|
  {
    assert C.Holders(refs, c) == OpenSlots(refs, c) + ThreadHolders(refs, c) + Sharers(refs, c);
  }

  lemma ThreadsHold(st: map<Id, I.TState>, refs: map<C.Ref, Id>, c: Id)
    requires HoldsLink(st, refs)
    ensures |ThreadHolders(refs, c)| == |BlockedOn(st, c)|
  {
    var holders := ThreadHolders(refs, c);
    forall t ensures t in Threads(holders) <==> t in BlockedOn(st, c) {
      assert Held(refs, t) == OnConn(I.StOf(st, t));
      assert t in Threads(holders) <==> C.ByThread(t) in holders;
    }
    assert Threads(holders) == BlockedOn(st, c);
    SameCount(holders);
  }

  lemma LinksAre(s: Sys, c: Id)
    requires Inv(s) && c in s.k.conns
    ensures s.k.conns[c].links == |OpenSlots(s.k.refs, c)| + |BlockedOn(s.i.st, c)| + |Sharers(s.k.refs, c)|
  {
    assert s.k.conns[c].links == |C.Holders(s.k.refs, c)|;
    HoldersAre(s.k.refs, c);
    ThreadsHold(s.i.st, s.k.refs, c);
  }

  /** In every state of every run of message calls, attaches, detaches and channel destructions:
      a connection's link count is the number of descriptors open on it, threads send- or
      reply-blocked on it, and connections that share its place; each process is charged for
      its descriptors. */
  lemma RunsCount(states: seq<Sys>, events: seq<Event>, i: nat, c: Id)
    requires Run(states, events) && i < |states|
    ensures var s := states[i];
            && Inv(s)
            && (c in s.k.conns ==>
                  s.k.conns[c].links == |OpenSlots(s.k.refs, c)| + |BlockedOn(s.i.st, c)| + |Sharers(s.k.refs, c)|)
            && (forall p :: C.N(s.k.nfds, p) == |C.SlotsOf(s.k.refs, p)|)
  {
    RunsHold(states, events, i);
    if c in states[i].k.conns {
      LinksAre(states[i], c);
    }
    hide Run;
  }

  /** In every state of every run a thread that is send- or reply-blocked is blocked on an
      allocated connection with a positive link count, to a channel that exists, and a thread
      that waits in a receive waits on a channel that exists. */
  lemma RunsNeverDangle(states: seq<Sys>, events: seq<Event>, i: nat, t: Id)
    requires Run(states, events) && i < |states|
    ensures var s := states[i];
            && (OnConn(I.StOf(s.i.st, t)).Some? ==>
                  var c := OnConn(I.StOf(s.i.st, t)).value;
                  && c in s.k.conns && s.k.conns[c].links > 0
                  && s.k.conns[c].ch.Some? && s.k.conns[c].ch.value in s.k.chproc)
            && (I.StOf(s.i.st, t).ReceiveOn? ==> I.StOf(s.i.st, t).ch in s.k.chproc)
  {
    RunsHold(states, events, i);
    NeverDangles(states[i], t);
  }

  lemma NeverDangles(s: Sys, t: Id)
    requires Inv(s)
    ensures OnConn(I.StOf(s.i.st, t)).Some? ==>
              var c := OnConn(I.StOf(s.i.st, t)).value;
              c in s.k.conns && s.k.conns[c].links > 0 && s.k.conns[c].ch.Some? && s.k.conns[c].ch.value in s.k.chproc
  {
    assert Held(s.k.refs, t) == OnConn(I.StOf(s.i.st, t));
    if Held(s.k.refs, t).Some? {
      C.LinksPositive(s.k, C.ByThread(t));
      assert Held(s.k.refs, t).value in s.i.net.chan;
    }
  }

  // ---------------------------------------------------------------- a pulse that is left behind

  const DESCRIPTOR := C.Slot(2, false, 0)

  /** Threads 1 and 2 of processes 1 and 2, both at priority 5; nothing is open. */
  function Idle(): Sys {
    Sys(I.State(I.Net(map[], {}, map[7 := [1]]), map[], map[1 := 5, 2 := 5], map[], map[], map[], map[], map[],
                map[], {}, map[]),
        C.State(map[], map[], map[], map[], map[], map[], {}, map[]))
  }

  /** Process 1 has made channel 7 and wants to be told of lost clients. */
  function Created(): Sys {
    var s := Idle();
    s.(k := s.k.(chproc := map[7 := 1], disconnect := {7}))
  }

  function Link(links: nat): C.Conn {
    C.Conn(Some(2), Some(7), links, 0, false, 0)
  }

  /** Process 2 has opened connection 100 to it. */
  function Opened(): Sys {
    var s := Created();
    Sys(s.i.(net := s.i.net.(chan := map[100 := 7])),
        s.k.(conns := map[100 := Link(1)], refs := map[C.BySlot(DESCRIPTOR) := 100], nfds := map[2 := 1],
             srv := map[C.Port(1, 0) := 100]))
  }

  /** Thread 2 has sent a message ... */
  function Sent(): Sys {
    var s := Opened();
    Sys(s.i.(st := map[2 := I.SendOn(100)], sendq := map[7 := [2]]),
        s.k.(conns := map[100 := Link(2)], refs := map[C.BySlot(DESCRIPTOR) := 100, C.ByThread(2) := 100],
             via := map[2 := DESCRIPTOR]))
  }

  /** ... which thread 1 has received. */
  function Received(): Sys {
    var s := Sent();
    s.(i := s.i.(st := map[2 := I.ReplyOn(100)], sendq := map[7 := []], replyq := map[7 := [2]], client := map[1 := 2],
                 server := map[2 := 1], lastChid := map[1 := 7]))
  }

  /** Another thread of process 2 has closed the descriptor; thread 2 is left to its server. */
  function Closed(): Sys {
    var s := Received();
    s.(k := s.k.(conns := map[100 := Link(1)], refs := map[C.ByThread(2) := 100], nfds := map[2 := 0]))
  }

  const CREATE := Manage(ConnectRuns.CreateChannel(7, 1, true))
  const OPEN := Manage(ConnectRuns.Open(DESCRIPTOR, 100, 7, 0, 0))
  const SEND := Send(2, DESCRIPTOR, I.Done, false)
  const RECEIVE := Call(I.MsgReceive(1, 7, false, false, {}, false, true, false))
  const CLOSE := Close(DESCRIPTOR, [2], {2})
  const DESTROY := Destroy(7, 1, [])

  lemma ChannelMade()
    ensures Start(Idle()) && Enabled(Idle(), CREATE) && Step(Idle(), CREATE, Created())
  {
    assert ChanOf(Idle().k.conns) == map[];
  }

  lemma ConnectionOpened()
    ensures Enabled(Created(), OPEN) && Step(Created(), OPEN, Opened())
  {
    var k := Opened().k;
    assert ChanOf(k.conns) == map[100 := 7];
    assert C.AttachNew(Created().k, DESCRIPTOR, 100, 7, 0, 0) == k;
  }

  lemma MessageSent()
    ensures Enabled(Opened(), SEND) && Step(Opened(), SEND, Sent())
  {
    var s, s' := Opened(), Sent();
    assert Insert([], s.i.prio, 2) == [2];
    assert I.Enqueue(s.i, 2, 100, 7) == s'.i;
    assert I.Boost(s'.i, 5, 7, [1]) == s'.i;
    assert I.Send(s.i, 2, 100, I.Done, false) == s'.i;
    assert C.BlockOn(s.k, 2, DESCRIPTOR) == s'.k;
  }

  lemma MessageTaken()
    ensures I.Apply(Sent().i, RECEIVE.call) == Received().i
  {
    var i, i' := Sent().i, Received().i;
    var i1 := i.(lastChid := map[1 := 7]);
    assert i.lastChid[1 := 7] == map[1 := 7];
    assert Remove([2], 2) == [];
    assert I.DropClient(i1, 1) == i1;
    assert i.prio[1 := 5] == i.prio;
    assert i.st[2 := I.ReplyOn(100)] == map[2 := I.ReplyOn(100)];
    assert i.sendq[7 := []] == map[7 := []];
    assert [2] + I.Q(i.replyq, 7) == [2];
    assert I.TakeMessage(i1, 1, 7, 2) == i';
  }

  lemma SentFacts()
    ensures Enabled(Sent(), RECEIVE) && Gone(Sent().i, RECEIVE.call) == []
    ensures Received().k == Sent().k && Sync(Received().i, Sent().k) == Received().i
  {
    assert ChanOf(Received().k.conns) == map[100 := 7];
  }

  lemma MessageReceived()
    ensures Enabled(Sent(), RECEIVE) && Step(Sent(), RECEIVE, Received())
  {
    MessageTaken();
    SentFacts();
    hide Sent, Received, I.Apply, Inv, Gone, Sync;
    assert Inv(Sent()) ==> C.Inv(Sent().k) by { InvParts(Sent()); }
    if Inv(Sent()) {
      assert DropEach(Sent().k, []) == Sent().k;
    }
  }

  lemma InvParts(s: Sys)
    ensures Inv(s) ==> C.Inv(s.k)
  {
  }

  /** One of several links is given up by a descriptor. */
  lemma OneOfSeveral(k: C.State, slot: C.Slot, c: Id)
    requires C.BySlot(slot) in k.refs && k.refs[C.BySlot(slot)] == c && c in k.conns && k.conns[c].links > 1
    ensures C.DropPlain(k, C.BySlot(slot)) ==
            k.(refs := k.refs - {C.BySlot(slot)}, nfds := C.Discharge(k.nfds, C.BySlot(slot)),
               conns := k.conns[c := k.conns[c].(links := k.conns[c].links - 1)])
  {
    hide C.DetachPlain, C.Discharge, C.Kids;
  }

  lemma PlainLinkDropped()
    ensures C.DropPlain(Received().k, C.BySlot(DESCRIPTOR)) == Closed().k
  {
    var k, k' := Received().k, Closed().k;
    OneOfSeveral(k, DESCRIPTOR, 100);
    hide C.DropPlain;
    assert k.refs - {C.BySlot(DESCRIPTOR)} == k'.refs;
    assert k.conns[100 := Link(1)] == k'.conns;
    assert k.nfds[2 := 0] == k'.nfds;
  }

  lemma LinkDropped()
    requires C.Inv(Received().k)
    ensures C.Drop(Received().k, C.BySlot(DESCRIPTOR)) == Closed().k
  {
    hide C.InvExcept, C.DropPlain;
    PlainLinkDropped();
  }

  lemma NobodyEvicted(k: C.State, i: I.State)
    requires C.Inv(k)
    ensures C.Evict(k, DESCRIPTOR, [2], {2}) == k && EvictEach(i, k, DESCRIPTOR, [2], {2}) == i
  {
    hide C.InvExcept;
    assert [2][1..] == [];
  }

  lemma CloseIs(s: Sys, s': Sys, slot: C.Slot, ts: seq<Id>, kept: set<Id>)
    requires Inv(s) && C.BySlot(slot) in s.k.refs && C.Evict(s.k, slot, ts, kept) == s.k
    requires C.Drop(s.k, C.BySlot(slot)) == s'.k && Sync(EvictEach(s.i, s.k, slot, ts, kept), s'.k) == s'.i
    ensures ApplyClose(s, slot, ts, kept) == s'
  {
    hide C.InvExcept, I.Inv, C.Drop, C.Evict, EvictEach, Coupled;
  }

  lemma ClosedFacts()
    ensures C.BySlot(DESCRIPTOR) in Received().k.refs && Sync(Received().i, Closed().k) == Closed().i
  {
    assert ChanOf(Closed().k.conns) == map[100 := 7];
  }

  lemma DescriptorClosed()
    ensures Enabled(Received(), CLOSE) && Step(Received(), CLOSE, Closed())
  {
    ClosedFacts();
    var s, s' := Received(), Closed();
    hide C.InvExcept, I.Inv, C.Drop, C.Evict, EvictEach, Coupled, ApplyClose, Received, Closed, Sync;
    if Inv(s) {
      LinkDropped();
      NobodyEvicted(s.k, s.i);
      CloseIs(s, s', DESCRIPTOR, [2], {2});
      assert Apply(s, CLOSE) == ApplyClose(s, DESCRIPTOR, [2], {2});
    }
  }

  lemma ConnectionOrphaned()
    ensures Enabled(Closed(), DESTROY) && Teardown.Orphaned(Closed(), 100, 7)
  {
    var s := Closed();
    assert Teardown.Waits(s, 2, 100);
  }

  /** A run in which the descriptor of a reply-blocked client is closed and the channel is then
      destroyed: the disconnect pulse is sent to the channel and stays on its send queue. */
  lemma DisconnectPulseStays() returns (states: seq<Sys>, events: seq<Event>)
    ensures Run(states, events) && |events| == 6 && events[5] == DESTROY
    ensures I.Q(states[6].i.sendq, 7) != []
  {
    states, events := [Idle()], [];
    ChannelMade();
    hide *;
    assert Run(states, events) by { RunBegins(Idle()); }
    states, events := RunGrows(states, events, CREATE, Created());
    ConnectionOpened();
    states, events := RunGrows(states, events, OPEN, Opened());
    MessageSent();
    states, events := RunGrows(states, events, SEND, Sent());
    MessageReceived();
    states, events := RunGrows(states, events, RECEIVE, Received());
    DescriptorClosed();
    states, events := RunGrows(states, events, CLOSE, Closed());
    RunsHold(states, events, 5);
    states, events := PulseStays(states, events);
  }

  lemma RunBegins(s: Sys)
    requires Start(s)
    ensures Run([s], [])
  {
  }

  lemma RunGrows(states: seq<Sys>, events: seq<Event>, e: Event, s: Sys) returns (states': seq<Sys>,
                                                                                  events': seq<Event>)
    requires Run(states, events) && |states| == |events| + 1
    requires Enabled(states[|events|], e) && Step(states[|events|], e, s)
    ensures Run(states', events') && |events'| == |events| + 1 && |states'| == |states| + 1
    ensures states'[|events'|] == s && events'[|events|] == e
  {
    hide Enabled, Step, Start;
    states', events' := states + [s], events + [e];
  }

  lemma PulseStays(states: seq<Sys>, events: seq<Event>) returns (states': seq<Sys>, events': seq<Event>)
    requires Run(states, events) && |states| == |events| + 1 && states[|events|] == Closed() && Inv(Closed())
    ensures Run(states', events') && |events'| == |events| + 1 && |states'| == |states| + 1
    ensures events'[|events|] == DESTROY
    ensures I.Q(states'[|events'|].i.sendq, 7) != []
  {
    ConnectionOrphaned();
    assert 7 in Closed().k.chproc;
    hide Closed, Run, Inv, Enabled, Teardown.Orphaned, Teardown.Walk, I.Q;
    Teardown.Begins(Closed(), 7);
    Teardown.PulsesLeft(Closed(), 7, 1);
    states', events' := RunGrows(states, events, DESTROY, Apply(Closed(), DESTROY));
  }
}
