/**
 Destroying a channel, with its queues and its connections: `ker_channel_destroy` empties the
 send queue, the receive queue and the reply queue, then cuts the connections off one server
 place at a time. It may be interrupted after any iteration of these four loops and is then
 started over.

 A released thread gives up its link. If that was the last link of a connection and the channel
 asked to be told, the kernel sends a disconnect pulse to the channel that is being destroyed.
 */
module Teardown {
  import opened Base
  import opened Pril
  import opened Coupling
  import I = Ipc
  import IpcPairing
  import IpcDestroy
  import C = Connect
  import ChannelDestroy

  // ---------------------------------------------------------------- releasing a thread

  /** The connection with its own server place that `c` is or shares with. */
  function Place(k: C.State, c: Id): Id {
    if c in k.conns && k.conns[c].v && C.ByChild(c) in k.refs then k.refs[C.ByChild(c)] else c
  }

  /** Whether the release of thread `x` takes away the last link of a connection with its own
      server place, and the channel wants to be told. */
  predicate Tells(k: C.State, x: Id, ch: Id) {
    && C.ByThread(x) in k.refs
    && var c := k.refs[C.ByThread(x)];
       var m := Place(k, c);
       && c in k.conns && m in k.conns && k.conns[c].links == 1 && (m != c ==> k.conns[m].links == 1)
       && k.conns[m].ch == Some(ch) && ch in k.disconnect
  }

  /** `force_ready` on a send- or reply-blocked thread of the channel. */
  function Release(s: Sys, x: Id, ch: Id): Sys
    requires C.Inv(s.k) && C.ByThread(x) in s.k.refs
  {
    Sys(IpcDestroy.Release(s.i, ch, x, Tells(s.k, x, ch)), C.Drop(s.k, C.ByThread(x)))
  }

  lemma ReleaseLeaves(i: I.State, ch: Id, x: Id, tell: bool)
    requires I.Inv(i)
    ensures Leaves(i.st, IpcDestroy.Release(i, ch, x, tell).st, [x], None)
  {
    hide I.Inv, Leaves, I.Unblock, I.SendPulse, IpcDestroy.FreshPulse, P;
    UnblockLeaves(i, x, None);
    I.UnblockKeeps(i, x);
    var i1 := I.Unblock(i, x);
    if tell {
      PulseLeaves(i1, ch, IpcDestroy.FreshPulse(i1.pulses.Keys, -1), P(i1.prio, x), true, false, false, false);
      LeavesMore(i.st, i1.st, IpcDestroy.Release(i, ch, x, tell).st, [x], [], None);
      assert [x] + [] == [x];
    }
  }

  /** What a release does to both halves. */
  ghost predicate Released(s: Sys, s': Sys, x: Id, ch: Id) {
    && Joined(s') && IpcDestroy.Frame(s.i, s'.i, ch) && C.Thinned(s.k, s'.k)
    && I.StOf(s'.i.st, x) == I.Ready && IpcDestroy.Blocked(s'.i, ch) < IpcDestroy.Blocked(s.i, ch)
    && (forall u :: Held(s'.k.refs, u) == if u == x then None else Held(s.k.refs, u))
    && (forall r :: r in s'.k.refs ==> r in s.k.refs && s'.k.refs[r] == s.k.refs[r])
    && (forall slot :: C.BySlot(slot) in s.k.refs ==> C.BySlot(slot) in s'.k.refs)
  }

  lemma DropShrinks(k: C.State, r: C.Ref, q: C.Ref)
    requires C.Inv(k) && r in k.refs && !r.ByChild?
    ensures q in C.Drop(k, r).refs ==> q in k.refs && C.Drop(k, r).refs[q] == k.refs[q]
  {
    C.LinksPositive(k, r);
    var c := k.refs[r];
    if k.conns[c].links == 1 && k.conns[c].v {
      C.ParentFacts(k, c);
      hide C.InvExcept, C.DropPlain, C.Discharge;
      C.DropPlainRefs(k, C.ByChild(c));
    } else {
      hide C.InvExcept, C.DropPlain, C.Discharge;
      C.DropPlainRefs(k, r);
    }
  }

  lemma ReleaseRefs(k: C.State, x: Id)
    requires C.Inv(k) && C.ByThread(x) in k.refs
    ensures var k' := C.Drop(k, C.ByThread(x));
            && C.Inv(k') && C.Thinned(k, k') && k'.chproc == k.chproc
            && (forall u :: Held(k'.refs, u) == if u == x then None else Held(k.refs, u))
            && (forall r :: r in k'.refs ==> r in k.refs && k'.refs[r] == k.refs[r])
            && (forall slot :: C.BySlot(slot) in k.refs ==> C.BySlot(slot) in k'.refs)
  {
    var r := C.ByThread(x);
    var k' := C.Drop(k, r);
    hide C.Inv, C.Drop, C.Thinned;
    C.DropKeeps(k, r);
    C.DropThins(k, r);
    ThinnedChannels(k, k');
    forall q ensures q in k'.refs ==> q in k.refs && k'.refs[q] == k.refs[q] {
      DropShrinks(k, r, q);
    }
    forall u ensures Held(k'.refs, u) == if u == x then None else Held(k.refs, u) {
      C.DropSpares(k, r, C.ByThread(if u == x then u + 1 else u));
    }
    forall slot | C.BySlot(slot) in k.refs ensures C.BySlot(slot) in k'.refs {
      C.DropSpares(k, r, C.BySlot(slot));
    }
  }

  lemma FrameNet(i: I.State, i': I.State, ch: Id)
    requires IpcDestroy.Frame(i, i', ch)
    ensures i'.net == i.net
  {
  }

  lemma ReleaseJoins(s: Sys, x: Id, ch: Id)
    requires Joined(s) && C.ByThread(x) in s.k.refs && IpcDestroy.OnChannel(s.i.net.chan, I.StOf(s.i.st, x), ch)
    ensures Joined(Release(s, x, ch)) && IpcDestroy.Frame(s.i, Release(s, x, ch).i, ch)
    ensures I.StOf(Release(s, x, ch).i.st, x) == I.Ready
    ensures IpcDestroy.Blocked(Release(s, x, ch).i, ch) < IpcDestroy.Blocked(s.i, ch)
  {
    var i := IpcDestroy.Release(s.i, ch, x, Tells(s.k, x, ch));
    var k := C.Drop(s.k, C.ByThread(x));
    assert Release(s, x, ch) == Sys(i, k);
    hide I.Inv, C.Inv, C.Drop, Tells, IpcDestroy.Release, IpcDestroy.OnChannel, IpcDestroy.Frame, C.Thinned, I.StOf,
         Leads, IpcDestroy.Blocked, Leaves, HoldsLink, OnLiveChannel, Held, Release;
    IpcDestroy.ReleaseKeeps(s.i, x, ch, Tells(s.k, x, ch));
    FrameNet(s.i, i, ch);
    ReleaseLeaves(s.i, ch, x, Tells(s.k, x, ch));
    ReleaseRefs(s.k, x);
    ReleasedLeads(s, Sys(i, k), x, ch);
    ReleasedHolds(s.i.st, i.st, s.k.refs, k.refs, s.k.chproc, x);
  }

  lemma ReleaseKeeps(s: Sys, x: Id, ch: Id)
    requires Joined(s) && C.ByThread(x) in s.k.refs && IpcDestroy.OnChannel(s.i.net.chan, I.StOf(s.i.st, x), ch)
    ensures Released(s, Release(s, x, ch), x, ch)
  {
    hide I.Inv, C.Inv, C.Drop, Tells, IpcDestroy.Release, IpcDestroy.OnChannel, IpcDestroy.Frame, C.Thinned, I.StOf,
         Leads, IpcDestroy.Blocked, HoldsLink, OnLiveChannel, Held;
    assert Release(s, x, ch).k == C.Drop(s.k, C.ByThread(x));
    ReleaseJoins(s, x, ch);
    ReleaseRefs(s.k, x);
    hide Joined, Release;
  }

  lemma ReleasedHolds(st: map<Id, I.TState>, st': map<Id, I.TState>, refs: map<C.Ref, Id>, refs': map<C.Ref, Id>,
                      chproc: map<Id, Id>, x: Id)
    requires HoldsLink(st, refs) && OnLiveChannel(st, chproc) && Leaves(st, st', [x], None)
    requires forall u :: Held(refs', u) == if u == x then None else Held(refs, u)
    ensures HoldsLink(st', refs') && OnLiveChannel(st', chproc)
  {
    hide I.StOf, Held;
  }

  lemma ReleasedLeads(s: Sys, s': Sys, x: Id, ch: Id)
    requires Leads(s.i.net.chan, s.k) && s'.i.net == s.i.net && C.Inv(s'.k) && C.Thinned(s.k, s'.k)
    requires forall u :: Held(s'.k.refs, u) == if u == x then None else Held(s.k.refs, u)
    ensures Leads(s'.i.net.chan, s'.k)
  {
    hide C.Counted, C.Charged, C.Nested, C.Listed, C.Served, C.Apart, C.Noted, C.Idle;
    forall t | C.ByThread(t) in s'.k.refs
      ensures var c := s'.k.refs[C.ByThread(t)]; c in s'.k.conns && Lookup(s'.i.net.chan, c) == s'.k.conns[c].ch
    {
      assert Held(s'.k.refs, t) == Held(s.k.refs, t);
      assert s'.k.refs[C.ByThread(t)] in s'.k.conns;
    }
  }

  // ---------------------------------------------------------------- the four loops

  /** The loop the call is in; the last one goes over the server places. */
  datatype Loop = Senders | Receivers | Repliers | Places(j: nat)

  function Rank(at: Loop, n: nat): nat {
    match at
    case Senders => n + 3
    case Receivers => n + 2
    case Repliers => n + 1
    case Places(j) => if j < n then n - j else 0
  }

  /** The call after an iteration: it goes on at `at`, or it is interrupted and starts from the
      top. */
  function Next(at: Loop, stops: seq<bool>): Loop {
    if stops != [] && stops[0] then Senders else at
  }

  function Later(stops: seq<bool>): seq<bool> {
    if stops == [] then [] else stops[1..]
  }

  /** What the loops before `at` have achieved. */
  ghost predicate Reached(i: I.State, ch: Id, at: Loop) {
    && (at != Senders ==> forall u :: I.StOf(i.st, u).SendOn? ==> Lookup(i.net.chan, I.StOf(i.st, u).c) != Some(ch))
    && (at.Repliers? || at.Places? ==> forall u :: I.StOf(i.st, u) != I.ReceiveOn(ch))
    && (at.Places? ==> forall u :: !IpcDestroy.OnChannel(i.net.chan, I.StOf(i.st, u), ch))
  }

  lemma HeadSender(s: Sys, ch: Id)
    requires Joined(s) && I.Q(s.i.sendq, ch) != [] && I.Q(s.i.sendq, ch)[0] !in s.i.pulses
    ensures var x := I.Q(s.i.sendq, ch)[0];
            && C.ByThread(x) in s.k.refs && I.StOf(s.i.st, x).SendOn?
            && IpcDestroy.OnChannel(s.i.net.chan, I.StOf(s.i.st, x), ch)
  {
    I.HeadIsQueued(s.i, ch);
    hide I.Inv, C.Inv;
    assert Held(s.k.refs, I.Q(s.i.sendq, ch)[0]) == OnConn(I.StOf(s.i.st, I.Q(s.i.sendq, ch)[0]));
  }

  lemma HeadReplier(s: Sys, ch: Id)
    requires Joined(s) && I.Q(s.i.replyq, ch) != []
    ensures var x := I.Q(s.i.replyq, ch)[0];
            && C.ByThread(x) in s.k.refs && I.StOf(s.i.st, x).ReplyOn?
            && IpcDestroy.OnChannel(s.i.net.chan, I.StOf(s.i.st, x), ch)
  {
    IpcDestroy.HeadReplies(s.i, ch);
    hide I.Inv, C.Inv;
    assert Held(s.k.refs, I.Q(s.i.replyq, ch)[0]) == OnConn(I.StOf(s.i.st, I.Q(s.i.replyq, ch)[0]));
  }

  /** One iteration on the send queue: a pulse is freed, a sender is made ready. */
  function SendStep(s: Sys, ch: Id): Sys
    requires Joined(s) && I.Q(s.i.sendq, ch) != []
  {
    var x := I.Q(s.i.sendq, ch)[0];
    if x in s.i.pulses then s.(i := I.RemovePulse(s.i, ch, x))
    else HeadSender(s, ch); Release(s, x, ch)
  }

  /** ... on the receive queue ... */
  function RecvStep(s: Sys, ch: Id): Sys
    requires I.Q(s.i.recvq, ch) != []
  {
    s.(i := I.Unblock(s.i, I.Q(s.i.recvq, ch)[0]))
  }

  /** ... on the reply queue ... */
  function ReplyStep(s: Sys, ch: Id): Sys
    requires Joined(s) && I.Q(s.i.replyq, ch) != []
  {
    HeadReplier(s, ch); Release(s, I.Q(s.i.replyq, ch)[0], ch)
  }

  /** ... and on the server places. */
  function PlaceStep(s: Sys, ch: Id, j: nat): Sys
    requires ch in s.k.chproc
  {
    s.(k := ChannelDestroy.SeverSlot(s.k, C.Port(s.k.chproc[ch], j), ch))
  }

  /** What is left alone: other threads and channels, and every descriptor. */
  ghost predicate Torn(s: Sys, s': Sys, ch: Id) {
    && IpcDestroy.Frame(s.i, s'.i, ch)
    && s'.k.chproc == s.k.chproc && s'.k.disconnect == s.k.disconnect
    && (forall slot :: C.BySlot(slot) in s'.k.refs <==> C.BySlot(slot) in s.k.refs)
    && (forall slot :: C.BySlot(slot) in s'.k.refs ==> s'.k.refs[C.BySlot(slot)] == s.k.refs[C.BySlot(slot)])
    && (forall k :: k in s'.k.srv ==> k in s.k.srv)
  }

  lemma TornTwice(s: Sys, s1: Sys, s': Sys, ch: Id)
    requires Torn(s, s1, ch) && Torn(s1, s', ch)
    ensures Torn(s, s', ch)
  {
    IpcDestroy.FrameTwice(s.i, s1.i, s'.i, ch);
    hide IpcDestroy.Frame;
  }

  lemma TornNone(s: Sys, ch: Id)
    ensures Torn(s, s, ch)
  {
  }

  lemma ReleasedTorn(s: Sys, s': Sys, x: Id, ch: Id)
    requires Released(s, s', x, ch)
    ensures Torn(s, s', ch)
  {
    hide IpcDestroy.Frame, Joined, Held, IpcDestroy.Blocked, I.StOf;
  }

  /** No thread leaves or enters a connection. */
  lemma SameHolders(s: Sys, i: I.State)
    requires Joined(s) && I.Inv(i) && i.net == s.i.net
    requires forall u :: OnConn(I.StOf(i.st, u)) == OnConn(I.StOf(s.i.st, u))
    requires forall u :: I.StOf(i.st, u).ReceiveOn? ==> I.StOf(s.i.st, u) == I.StOf(i.st, u)
    ensures Joined(s.(i := i))
  {
    hide I.Inv, C.Inv, I.StOf, Held, Leads;
  }

  lemma PulseDropped(i: I.State, ch: Id, x: Id)
    requires I.Inv(i) && x in i.pulses && x in I.Q(i.sendq, ch)
    ensures var i' := I.RemovePulse(i, ch, x);
            && I.Inv(i') && IpcDestroy.Frame(i, i', ch) && i'.st == i.st && i'.net == i.net && i'.replyq == i.replyq
            && IpcDestroy.Blocked(i', ch) == IpcDestroy.Blocked(i, ch) && |I.Q(i'.sendq, ch)| < |I.Q(i.sendq, ch)|
  {
    I.RemovePulseKeeps(i, ch, x);
    var k := RemoveIndex(I.Q(i.sendq, ch), x);
    hide I.Inv, Remove;
  }

  lemma SendStepPulse(s: Sys, ch: Id)
    requires Joined(s) && I.Q(s.i.sendq, ch) != [] && I.Q(s.i.sendq, ch)[0] in s.i.pulses
    ensures Joined(SendStep(s, ch)) && Torn(s, SendStep(s, ch), ch)
    ensures IpcDestroy.Blocked(SendStep(s, ch).i, ch) == IpcDestroy.Blocked(s.i, ch)
    ensures |I.Q(SendStep(s, ch).i.sendq, ch)| < |I.Q(s.i.sendq, ch)|
  {
    var x := I.Q(s.i.sendq, ch)[0];
    var i := I.RemovePulse(s.i, ch, x);
    assert SendStep(s, ch) == s.(i := i);
    IpcDestroy.HasHead(I.Q(s.i.sendq, ch));
    hide I.Inv, C.Inv, I.RemovePulse, SendStep, IpcDestroy.Frame, IpcDestroy.Blocked, I.Q, HoldsLink, OnLiveChannel,
         Leads;
    PulseDropped(s.i, ch, x);
    SameHolders(s, i);
  }

  lemma SendStepKeeps(s: Sys, ch: Id)
    requires Joined(s) && I.Q(s.i.sendq, ch) != []
    ensures Joined(SendStep(s, ch)) && Torn(s, SendStep(s, ch), ch)
    ensures IpcDestroy.Blocked(SendStep(s, ch).i, ch) < IpcDestroy.Blocked(s.i, ch) ||
            (IpcDestroy.Blocked(SendStep(s, ch).i, ch) == IpcDestroy.Blocked(s.i, ch)
             && |I.Q(SendStep(s, ch).i.sendq, ch)| < |I.Q(s.i.sendq, ch)|)
  {
    assert C.Inv(s.k);
    hide I.Inv, C.Inv, Release, Joined, I.Q, IpcDestroy.Blocked, IpcDestroy.Frame, Torn, IpcDestroy.OnChannel;
    var x := I.Q(s.i.sendq, ch)[0];
    if x in s.i.pulses {
      SendStepPulse(s, ch);
    } else {
      HeadSender(s, ch);
      ReleaseKeeps(s, x, ch);
      ReleasedTorn(s, Release(s, x, ch), x, ch);
    }
  }

  lemma ReceiverFreed(i: I.State, ch: Id, x: Id)
    requires I.Inv(i) && I.StOf(i.st, x) == I.ReceiveOn(ch)
    ensures var i' := I.Unblock(i, x);
            && I.Inv(i') && IpcDestroy.Frame(i, i', ch) && i'.net == i.net
            && IpcDestroy.Blocked(i', ch) < IpcDestroy.Blocked(i, ch)
            && (forall u :: OnConn(I.StOf(i'.st, u)) == OnConn(I.StOf(i.st, u)))
            && (forall u :: I.StOf(i'.st, u).ReceiveOn? ==> I.StOf(i.st, u) == I.StOf(i'.st, u))
  {
    assert OnConn(I.StOf(i.st, x)) == None && IpcDestroy.OnChannel(i.net.chan, I.StOf(i.st, x), ch);
    hide I.Inv, I.Unblock, IpcDestroy.Blocked, IpcDestroy.Frame, I.StOf;
    IpcDestroy.UnblockFrame(i, x, ch);
    FrameNet(i, I.Unblock(i, x), ch);
    IpcDestroy.ReleasedFewer(i, I.Unblock(i, x), x, ch);
    UnblockLeaves(i, x, None);
  }

  lemma RecvStepKeeps(s: Sys, ch: Id)
    requires Joined(s) && I.Q(s.i.recvq, ch) != []
    ensures Joined(RecvStep(s, ch)) && Torn(s, RecvStep(s, ch), ch)
    ensures IpcDestroy.Blocked(RecvStep(s, ch).i, ch) < IpcDestroy.Blocked(s.i, ch)
  {
    var x := I.Q(s.i.recvq, ch)[0];
    var i := I.Unblock(s.i, x);
    assert RecvStep(s, ch) == s.(i := i);
    IpcDestroy.HeadReceives(s.i, ch);
    hide I.Inv, C.Inv, I.Unblock, RecvStep, IpcDestroy.Blocked, IpcDestroy.Frame, HoldsLink, OnLiveChannel, Leads,
         I.Q, I.StOf;
    ReceiverFreed(s.i, ch, x);
    SameHolders(s, i);
  }

  lemma ReplyStepKeeps(s: Sys, ch: Id)
    requires Joined(s) && I.Q(s.i.replyq, ch) != []
    ensures Joined(ReplyStep(s, ch)) && Torn(s, ReplyStep(s, ch), ch)
    ensures IpcDestroy.Blocked(ReplyStep(s, ch).i, ch) < IpcDestroy.Blocked(s.i, ch)
  {
    var x := I.Q(s.i.replyq, ch)[0];
    hide I.Inv, C.Inv, Release, Joined, I.Q;
    HeadReplier(s, ch);
    ReleaseKeeps(s, x, ch);
    ReleasedTorn(s, Release(s, x, ch), x, ch);
    hide Torn;
  }

  /** A connection that a thread holds does not lead to a channel on which nobody is blocked. */
  lemma HeldElsewhere(s: Sys, ch: Id, t: Id)
    requires Joined(s) && Reached(s.i, ch, Places(0)) && C.ByThread(t) in s.k.refs
    ensures var c := s.k.refs[C.ByThread(t)]; c in s.k.conns && s.k.conns[c].ch != Some(ch)
  {
    hide I.Inv, C.Inv;
    assert Held(s.k.refs, t) == OnConn(I.StOf(s.i.st, t));
    assert !IpcDestroy.OnChannel(s.i.net.chan, I.StOf(s.i.st, t), ch);
  }

  lemma SeverSlotSpares(k: C.State, at: C.Port, ch: Id, c: Id)
    requires C.Inv(k) && c in k.conns && k.conns[c].ch != Some(ch)
    ensures c in ChannelDestroy.SeverSlot(k, at, ch).conns && ChannelDestroy.SeverSlot(k, at, ch).conns[c] == k.conns[c]
  {
    if at in k.srv && k.srv[at] in k.conns && k.conns[k.srv[at]].ch == Some(ch) {
      var m := k.srv[at];
      ChannelDestroy.CutAt(k.conns, [m] + C.Kids(k.children, m), c);
      assert c in C.Kids(k.children, m) <==> C.ByChild(c) in k.refs && k.refs[C.ByChild(c)] == m;
      hide ChannelDestroy.Cut, C.Kids;
    }
  }

  lemma SeverSlotTables(k: C.State, at: C.Port, ch: Id)
    ensures var k' := ChannelDestroy.SeverSlot(k, at, ch);
            k' == k.(conns := k'.conns, srv := k'.srv, children := k'.children)
  {
    hide ChannelDestroy.Cut, C.Kids;
  }

  lemma PlaceStepLeads(s: Sys, ch: Id, at: C.Port)
    requires Joined(s) && Reached(s.i, ch, Places(0)) && ch in s.k.chproc
    ensures Leads(s.i.net.chan, ChannelDestroy.SeverSlot(s.k, at, ch))
  {
    var k := ChannelDestroy.SeverSlot(s.k, at, ch);
    assert C.Inv(s.k) && Leads(s.i.net.chan, s.k);
    hide I.Inv, C.Inv, ChannelDestroy.SeverSlot, I.StOf, Reached, Joined;
    SeverSlotTables(s.k, at, ch);
    forall t | C.ByThread(t) in k.refs
      ensures var c := k.refs[C.ByThread(t)]; c in k.conns && Lookup(s.i.net.chan, c) == k.conns[c].ch
    {
      HeldElsewhere(s, ch, t);
      SeverSlotSpares(s.k, at, ch, k.refs[C.ByThread(t)]);
    }
  }

  lemma PlaceStepKeeps(s: Sys, ch: Id, j: nat)
    requires Joined(s) && Reached(s.i, ch, Places(0)) && ch in s.k.chproc
    ensures Joined(PlaceStep(s, ch, j)) && Torn(s, PlaceStep(s, ch, j), ch)
  {
    var at := C.Port(s.k.chproc[ch], j);
    var k := ChannelDestroy.SeverSlot(s.k, at, ch);
    assert PlaceStep(s, ch, j) == s.(k := k);
    hide I.Inv, C.Inv, ChannelDestroy.SeverSlot, PlaceStep, Reached, Leads, HoldsLink, OnLiveChannel, IpcDestroy.Frame;
    ChannelDestroy.SeverSlotKeeps(s.k, at, ch);
    ChannelDestroy.SeverSlotFrame(s.k, at, ch);
    SeverSlotTables(s.k, at, ch);
    PlaceStepLeads(s, ch, at);
    TornNone(s, ch);
  }

  lemma ReachedStays(i: I.State, i': I.State, ch: Id, at: Loop, to: Loop)
    requires Reached(i, ch, at) && IpcDestroy.Frame(i, i', ch)
    requires to == Senders || to == at || (at.Places? && to.Places?)
    ensures Reached(i', ch, to)
  {
    hide I.Q;
    forall u
      ensures at != Senders ==> I.StOf(i'.st, u).SendOn? ==> Lookup(i'.net.chan, I.StOf(i'.st, u).c) != Some(ch)
      ensures at.Repliers? || at.Places? ==> I.StOf(i'.st, u) != I.ReceiveOn(ch)
      ensures at.Places? ==> !IpcDestroy.OnChannel(i'.net.chan, I.StOf(i'.st, u), ch)
    {
    }
  }

  lemma ReachedNext(i: I.State, ch: Id, at: Loop)
    requires I.Inv(i) && Reached(i, ch, at)
    ensures at == Senders && I.Q(i.sendq, ch) == [] ==> Reached(i, ch, Receivers)
    ensures at == Receivers && I.Q(i.recvq, ch) == [] ==> Reached(i, ch, Repliers)
    ensures at == Repliers && I.Q(i.replyq, ch) == [] ==> Reached(i, ch, Places(0))
  {
    forall u
      ensures I.StOf(i.st, u).SendOn? && Lookup(i.net.chan, I.StOf(i.st, u).c) == Some(ch) ==> u in I.Q(i.sendq, ch)
      ensures I.StOf(i.st, u) == I.ReceiveOn(ch) ==> u in I.Q(i.recvq, ch)
      ensures I.ReplyBlockedAt(i.net.chan, I.StOf(i.st, u), ch) ==> u in I.Q(i.replyq, ch)
    {
      assert u in I.Q(i.sendq, ch) <==> I.QueuedAt(i.net.chan, i.st, i.pulses, u, ch);
    }
    hide I.Inv, I.Q;
  }

  /** The condition under which the call is in loop `at`. */
  ghost predicate In(s: Sys, ch: Id, at: Loop) {
    Joined(s) && ch in s.k.chproc && Reached(s.i, ch, at)
  }

  lemma InNext(s: Sys, ch: Id, at: Loop)
    requires In(s, ch, at)
    ensures at == Senders && I.Q(s.i.sendq, ch) == [] ==> In(s, ch, Receivers)
    ensures at == Receivers && I.Q(s.i.recvq, ch) == [] ==> In(s, ch, Repliers)
    ensures at == Repliers && I.Q(s.i.replyq, ch) == [] ==> In(s, ch, Places(0))
  {
    hide I.Inv, C.Inv, Reached;
    ReachedNext(s.i, ch, at);
  }

  /** An iteration of loop `at` that is not over. */
  lemma IterationKeeps(s: Sys, ch: Id, at: Loop, to: Loop, s': Sys)
    requires In(s, ch, at) && (to == Senders || to == at || (at.Places? && to.Places?))
    requires Joined(s') && Torn(s, s', ch)
    ensures In(s', ch, to)
  {
    hide Joined, Reached, IpcDestroy.Frame;
    ReachedStays(s.i, s'.i, ch, at, to);
  }

  /** The rest of the call from loop `at` to the end of the last loop, over `n` server places,
      interrupted as `stops` says. (Starting over in the first loop is going on with it.) */
  function Walk(s: Sys, ch: Id, n: nat, at: Loop, stops: seq<bool>): Sys
    requires In(s, ch, at)
    decreases |stops|, IpcDestroy.Blocked(s.i, ch), |I.Q(s.i.sendq, ch)|, Rank(at, n)
  {
    hide I.Inv, C.Inv, HoldsLink, OnLiveChannel, Leads, Reached, Torn;
    InNext(s, ch, at);
    InJoined(s, ch, at);
    match at
    case Senders =>
      if I.Q(s.i.sendq, ch) == [] then Walk(s, ch, n, Receivers, stops)
      else
        SendStepKeeps(s, ch);
        IterationKeeps(s, ch, at, Senders, SendStep(s, ch));
        Walk(SendStep(s, ch), ch, n, Senders, stops)
    case Receivers =>
      if I.Q(s.i.recvq, ch) == [] then Walk(s, ch, n, Repliers, stops)
      else
        RecvStepKeeps(s, ch);
        IterationKeeps(s, ch, at, Next(at, stops), RecvStep(s, ch));
        Walk(RecvStep(s, ch), ch, n, Next(at, stops), Later(stops))
    case Repliers =>
      if I.Q(s.i.replyq, ch) == [] then Walk(s, ch, n, Places(0), stops)
      else
        ReplyStepKeeps(s, ch);
        IterationKeeps(s, ch, at, Next(at, stops), ReplyStep(s, ch));
        Walk(ReplyStep(s, ch), ch, n, Next(at, stops), Later(stops))
    case Places(j) =>
      if j >= n then s
      else
        PlaceStepKeeps(s, ch, j);
        IterationKeeps(s, ch, at, Next(Places(j + 1), stops), PlaceStep(s, ch, j));
        Walk(PlaceStep(s, ch, j), ch, n, Next(Places(j + 1), stops), Later(stops))
  }

  /** The channel entry is given up. */
  function Forget(s: Sys, ch: Id): Sys {
    var k := s.k.(chproc := s.k.chproc - {ch}, disconnect := s.k.disconnect - {ch});
    Sys(Sync(s.i, k), k)
  }

  /** `ker_channel_destroy` */
  function Destroy(s: Sys, ch: Id, n: nat, stops: seq<bool>): Sys
    requires In(s, ch, Senders)
  {
    Forget(Walk(s, ch, n, Senders, stops), ch)
  }

  // ---------------------------------------------------------------- what a completed call leaves

  /** The connections at the places already passed are cut off. */
  ghost predicate CutSoFar(k: C.State, ch: Id, at: Loop) {
    at.Places? ==> ChannelDestroy.CutOffBelow(k, ch, at.j)
  }

  ghost predicate Ended(s: Sys, s': Sys, ch: Id, n: nat) {
    In(s', ch, Places(0)) && Torn(s, s', ch) && ChannelDestroy.CutOffBelow(s'.k, ch, n)
  }

  // One iteration of each loop, and the way from one loop to the next.

  lemma WalkOn(s: Sys, ch: Id, n: nat, at: Loop, stops: seq<bool>)
    requires In(s, ch, at)
    ensures at == Senders && I.Q(s.i.sendq, ch) == [] ==>
              In(s, ch, Receivers) && Walk(s, ch, n, at, stops) == Walk(s, ch, n, Receivers, stops)
    ensures at == Receivers && I.Q(s.i.recvq, ch) == [] ==>
              In(s, ch, Repliers) && Walk(s, ch, n, at, stops) == Walk(s, ch, n, Repliers, stops)
    ensures at == Repliers && I.Q(s.i.replyq, ch) == [] ==>
              In(s, ch, Places(0)) && Walk(s, ch, n, at, stops) == Walk(s, ch, n, Places(0), stops)
    ensures at.Places? && at.j >= n ==> Walk(s, ch, n, at, stops) == s
  {
    InNext(s, ch, at);
    hide In, I.Q, SendStep, RecvStep, ReplyStep, PlaceStep;
  }

  lemma WalkSend(s: Sys, ch: Id, n: nat, stops: seq<bool>)
    requires In(s, ch, Senders) && I.Q(s.i.sendq, ch) != []
    ensures Joined(s) && Joined(SendStep(s, ch)) && Torn(s, SendStep(s, ch), ch)
    ensures In(SendStep(s, ch), ch, Senders)
    ensures Walk(s, ch, n, Senders, stops) == Walk(SendStep(s, ch), ch, n, Senders, stops)
  {
    hide I.Q, SendStep, RecvStep, ReplyStep, PlaceStep, Joined, Torn, Reached;
    InJoined(s, ch, Senders);
    SendStepKeeps(s, ch);
    IterationKeeps(s, ch, Senders, Senders, SendStep(s, ch));
    hide In;
  }

  lemma WalkReceive(s: Sys, ch: Id, n: nat, stops: seq<bool>)
    requires In(s, ch, Receivers) && I.Q(s.i.recvq, ch) != []
    ensures Joined(s) && Joined(RecvStep(s, ch)) && Torn(s, RecvStep(s, ch), ch)
    ensures var to := Next(Receivers, stops);
            In(RecvStep(s, ch), ch, to) && Walk(s, ch, n, Receivers, stops) == Walk(RecvStep(s, ch), ch, n, to,
                                                                                    Later(stops))
  {
    hide I.Q, SendStep, RecvStep, ReplyStep, PlaceStep, Joined, Torn, Reached;
    InJoined(s, ch, Receivers);
    RecvStepKeeps(s, ch);
    IterationKeeps(s, ch, Receivers, Next(Receivers, stops), RecvStep(s, ch));
    hide In;
  }

  lemma WalkReply(s: Sys, ch: Id, n: nat, stops: seq<bool>)
    requires In(s, ch, Repliers) && I.Q(s.i.replyq, ch) != []
    ensures Joined(s) && Joined(ReplyStep(s, ch)) && Torn(s, ReplyStep(s, ch), ch)
    ensures var to := Next(Repliers, stops);
            In(ReplyStep(s, ch), ch, to) && Walk(s, ch, n, Repliers, stops) == Walk(ReplyStep(s, ch), ch, n, to,
                                                                                    Later(stops))
  {
    hide I.Q, SendStep, RecvStep, ReplyStep, PlaceStep, Joined, Torn, Reached;
    InJoined(s, ch, Repliers);
    ReplyStepKeeps(s, ch);
    IterationKeeps(s, ch, Repliers, Next(Repliers, stops), ReplyStep(s, ch));
    hide In;
  }

  lemma WalkPlace(s: Sys, ch: Id, n: nat, j: nat, stops: seq<bool>)
    requires In(s, ch, Places(j)) && j < n
    ensures Joined(s) && ch in s.k.chproc && Joined(PlaceStep(s, ch, j)) && Torn(s, PlaceStep(s, ch, j), ch)
    ensures var to := Next(Places(j + 1), stops);
            && In(PlaceStep(s, ch, j), ch, to)
            && Walk(s, ch, n, Places(j), stops) == Walk(PlaceStep(s, ch, j), ch, n, to, Later(stops))
  {
    hide I.Q, SendStep, RecvStep, ReplyStep, PlaceStep, Joined, Torn, Reached;
    InJoined(s, ch, Places(j));
    PlaceStepKeeps(s, ch, j);
    IterationKeeps(s, ch, Places(j), Next(Places(j + 1), stops), PlaceStep(s, ch, j));
    hide In;
  }

  lemma {:induction false} WalkEnds(s: Sys, ch: Id, n: nat, at: Loop, stops: seq<bool>)
    requires In(s, ch, at) && CutSoFar(s.k, ch, at)
    ensures Ended(s, Walk(s, ch, n, at, stops), ch, n)
    decreases |stops|, IpcDestroy.Blocked(s.i, ch), |I.Q(s.i.sendq, ch)|, Rank(at, n), 0
  {
    hide In, Ended, Torn, SendStep, RecvStep, ReplyStep, PlaceStep, IpcDestroy.Blocked, Walk, Joined, I.Q;
    WalkOn(s, ch, n, at, stops);
    match at
    case Senders =>
      if I.Q(s.i.sendq, ch) == [] {
        WalkEnds(s, ch, n, Receivers, stops);
      } else {
        WalkSend(s, ch, n, stops);
        SendStepKeeps(s, ch);
        WalkEndsAfter(s, SendStep(s, ch), ch, n, at, Senders, stops);
      }
    case Receivers =>
      if I.Q(s.i.recvq, ch) == [] {
        WalkEnds(s, ch, n, Repliers, stops);
      } else {
        WalkReceive(s, ch, n, stops);
        RecvStepKeeps(s, ch);
        WalkEndsAfter(s, RecvStep(s, ch), ch, n, at, Next(at, stops), Later(stops));
      }
    case Repliers =>
      if I.Q(s.i.replyq, ch) == [] {
        NothingCut(s.k, ch);
        WalkEnds(s, ch, n, Places(0), stops);
      } else {
        WalkReply(s, ch, n, stops);
        ReplyStepKeeps(s, ch);
        WalkEndsAfter(s, ReplyStep(s, ch), ch, n, at, Next(at, stops), Later(stops));
      }
    case Places(j) =>
      if j >= n {
        PlacesEnd(s, ch, n, j);
      } else {
        WalkPlace(s, ch, n, j, stops);
        PlaceStepCuts(s, ch, j);
        SameThreads(s, ch, j);
        WalkEndsAfter(s, PlaceStep(s, ch, j), ch, n, at, Next(Places(j + 1), stops), Later(stops));
      }
  }

  lemma SameThreads(s: Sys, ch: Id, j: nat)
    requires ch in s.k.chproc
    ensures PlaceStep(s, ch, j).i == s.i
  {
  }

  lemma InJoined(s: Sys, ch: Id, at: Loop)
    requires In(s, ch, at)
    ensures Joined(s) && ch in s.k.chproc && (at.Places? ==> Reached(s.i, ch, Places(0)))
  {
  }

  lemma NothingCut(k: C.State, ch: Id)
    ensures CutSoFar(k, ch, Places(0))
  {
  }

  lemma PlacesEnd(s: Sys, ch: Id, n: nat, j: nat)
    requires In(s, ch, Places(j)) && CutSoFar(s.k, ch, Places(j)) && j >= n
    ensures Ended(s, s, ch, n)
  {
    TornNone(s, ch);
    hide Torn, Joined;
  }

  lemma PlaceStepCuts(s: Sys, ch: Id, j: nat)
    requires Joined(s) && ch in s.k.chproc && CutSoFar(s.k, ch, Places(j))
    ensures CutSoFar(PlaceStep(s, ch, j).k, ch, Places(j + 1))
  {
    ChannelDestroy.SeverSlotCuts(s.k, ch, j);
    hide ChannelDestroy.SeverSlot, C.Inv, I.Inv, ChannelDestroy.CutOffBelow;
  }

  lemma {:induction false} WalkEndsAfter(s: Sys, s1: Sys, ch: Id, n: nat, at: Loop, to: Loop, stops: seq<bool>)
    requires In(s, ch, at) && (to == Senders || to == at || (at.Places? && to.Places?))
    requires Joined(s1) && Torn(s, s1, ch) && CutSoFar(s1.k, ch, to)
    ensures In(s1, ch, to) && Ended(s, Walk(s1, ch, n, to, stops), ch, n)
    decreases |stops|, IpcDestroy.Blocked(s1.i, ch), |I.Q(s1.i.sendq, ch)|, Rank(to, n), 1
  {
    IterationKeeps(s, ch, at, to, s1);
    hide Walk, In, Torn;
    WalkEnds(s1, ch, n, to, stops);
    TornTwice(s, s1, Walk(s1, ch, n, to, stops), ch);
  }

  lemma Begins(s: Sys, ch: Id)
    requires Inv(s) && ch in s.k.chproc
    ensures In(s, ch, Senders)
  {
    hide I.Inv, C.Inv;
    InvJoins(s);
  }

  lemma ForgetKeeps(s: Sys, ch: Id, n: nat)
    requires In(s, ch, Places(0)) && ChannelDestroy.CutOffBelow(s.k, ch, n)
    requires ChannelDestroy.Within(s.k, s.k.chproc[ch], n)
    ensures Inv(Forget(s, ch)) && forall c :: c in s.k.conns ==> s.k.conns[c].ch != Some(ch)
  {
    var k := s.k.(chproc := s.k.chproc - {ch}, disconnect := s.k.disconnect - {ch});
    hide I.Inv, C.Inv;
    ChannelDestroy.AllCut(s.k, ch, n);
    ChannelDestroy.ForgetChannel(s.k, ch);
    assert OnLiveChannel(s.i.st, k.chproc);
    Settle(Sys(s.i, k));
  }

  /** The state of a thread after the call: ready if it was blocked on the channel. */
  function Freed(i: I.State, ch: Id, u: Id): I.TState {
    if IpcDestroy.OnChannel(i.net.chan, I.StOf(i.st, u), ch) then I.Ready else I.StOf(i.st, u)
  }

  lemma TornFrees(s: Sys, s': Sys, ch: Id)
    requires Torn(s, s', ch) && Reached(s'.i, ch, Places(0))
    ensures forall u :: I.StOf(s'.i.st, u) == Freed(s.i, ch, u)
  {
    forall u ensures I.StOf(s'.i.st, u) == Freed(s.i, ch, u) {
      assert !IpcDestroy.OnChannel(s'.i.net.chan, I.StOf(s'.i.st, u), ch);
    }
  }

  lemma TornWithin(s: Sys, s': Sys, ch: Id, n: nat)
    requires Torn(s, s', ch) && ch in s.k.chproc && ChannelDestroy.Within(s.k, s.k.chproc[ch], n)
    ensures ChannelDestroy.Within(s'.k, s'.k.chproc[ch], n)
  {
    hide IpcDestroy.Frame;
  }

  /** However often the call is interrupted, it completes: both halves are in order, the channel is
      gone and no connection leads to it; every thread that was send-, receive- or reply-blocked on
      it is ready and every other thread is as before; its receive and reply queues are empty and
      its send queue holds pulses at most; every descriptor is where it was. */
  lemma DestroyCompletes(s: Sys, ch: Id, n: nat, stops: seq<bool>)
    requires Inv(s) && ch in s.k.chproc && ChannelDestroy.Within(s.k, s.k.chproc[ch], n)
    ensures In(s, ch, Senders)
    ensures var s' := Destroy(s, ch, n, stops);
            && Inv(s')
            && s'.k.chproc == s.k.chproc - {ch} && (forall c :: c in s'.k.conns ==> s'.k.conns[c].ch != Some(ch))
            && (forall u :: I.StOf(s'.i.st, u) == Freed(s.i, ch, u))
            && I.Q(s'.i.recvq, ch) == [] && I.Q(s'.i.replyq, ch) == []
            && (forall x :: x in I.Q(s'.i.sendq, ch) <==> x in IpcDestroy.PulsesOn(s'.i, ch))
            && (forall slot :: C.BySlot(slot) in s'.k.refs <==> C.BySlot(slot) in s.k.refs)
            && (forall slot :: C.BySlot(slot) in s'.k.refs ==> s'.k.refs[C.BySlot(slot)] == s.k.refs[C.BySlot(slot)])
  {
    Begins(s, ch);
    hide I.Inv, C.Inv, Walk, Inv, I.StOf, Freed, I.Q, IpcDestroy.PulsesOn, Reached;
    var w := Walk(s, ch, n, Senders, stops);
    WalkEnds(s, ch, n, Senders, stops);
    TornWithin(s, w, ch, n);
    ForgetKeeps(w, ch, n);
    TornFrees(s, w, ch);
    Unqueued(w, ch);
    hide IpcDestroy.Frame, ChannelDestroy.CutOffBelow;
  }

  lemma Unqueued(s: Sys, ch: Id)
    requires In(s, ch, Places(0))
    ensures I.Q(s.i.recvq, ch) == [] && I.Q(s.i.replyq, ch) == []
    ensures forall x :: x in I.Q(s.i.sendq, ch) <==> x in IpcDestroy.PulsesOn(s.i, ch)
  {
    hide I.Inv, C.Inv;
    IpcDestroy.NobodyQueued(s.i, ch);
  }

  // ---------------------------------------------------------------- clients and servers

  lemma SendStepPairs(s: Sys, ch: Id)
    requires Joined(s) && I.Q(s.i.sendq, ch) != []
    ensures IpcPairing.Pairing(s.i) ==> IpcPairing.Pairing(SendStep(s, ch).i)
    ensures IpcPairing.Linking(s.i) ==> IpcPairing.Linking(SendStep(s, ch).i)
  {
    hide I.Inv, C.Inv, IpcPairing.Paired, IpcPairing.Linked, IpcDestroy.Release, Tells, C.Drop;
    var x := I.Q(s.i.sendq, ch)[0];
    if x !in s.i.pulses {
      HeadSender(s, ch);
      IpcDestroy.ReleasePairs(s.i, x, ch, Tells(s.k, x, ch));
    }
  }

  lemma ReplyStepPairs(s: Sys, ch: Id)
    requires Joined(s) && I.Q(s.i.replyq, ch) != []
    ensures IpcPairing.Pairing(s.i) ==> IpcPairing.Pairing(ReplyStep(s, ch).i)
    ensures IpcPairing.Linking(s.i) ==> IpcPairing.Linking(ReplyStep(s, ch).i)
  {
    hide I.Inv, C.Inv, IpcPairing.Paired, IpcPairing.Linked, IpcDestroy.Release, Tells, C.Drop;
    var x := I.Q(s.i.replyq, ch)[0];
    HeadReplier(s, ch);
    IpcDestroy.ReleasePairs(s.i, x, ch, Tells(s.k, x, ch));
  }

  lemma RecvStepPairs(s: Sys, ch: Id)
    requires Joined(s) && I.Q(s.i.recvq, ch) != []
    ensures IpcPairing.Pairing(s.i) ==> IpcPairing.Pairing(RecvStep(s, ch).i)
    ensures IpcPairing.Linking(s.i) ==> IpcPairing.Linking(RecvStep(s, ch).i)
  {
    hide I.Inv, C.Inv, IpcPairing.Paired, IpcPairing.Linked, I.Unblock;
    var x := I.Q(s.i.recvq, ch)[0];
    if IpcPairing.Pairing(s.i) {
      IpcPairing.UnblockPairs(s.i, x);
    }
    if IpcPairing.Linking(s.i) {
      IpcPairing.UnblockLinks(s.i, x);
    }
  }

  lemma {:induction false} WalkPairs(s: Sys, ch: Id, n: nat, at: Loop, stops: seq<bool>)
    requires In(s, ch, at)
    ensures IpcPairing.Pairing(s.i) ==> IpcPairing.Pairing(Walk(s, ch, n, at, stops).i)
    ensures IpcPairing.Linking(s.i) ==> IpcPairing.Linking(Walk(s, ch, n, at, stops).i)
    decreases |stops|, IpcDestroy.Blocked(s.i, ch), |I.Q(s.i.sendq, ch)|, Rank(at, n)
  {
    hide In, SendStep, RecvStep, ReplyStep, PlaceStep, IpcDestroy.Blocked, Walk, Joined, Torn, I.Q,
         IpcPairing.Pairing, IpcPairing.Linking;
    WalkOn(s, ch, n, at, stops);
    match at
    case Senders =>
      if I.Q(s.i.sendq, ch) == [] {
        WalkPairs(s, ch, n, Receivers, stops);
      } else {
        WalkSend(s, ch, n, stops);
        SendStepKeeps(s, ch);
        SendStepPairs(s, ch);
        WalkPairs(SendStep(s, ch), ch, n, Senders, stops);
      }
    case Receivers =>
      if I.Q(s.i.recvq, ch) == [] {
        WalkPairs(s, ch, n, Repliers, stops);
      } else {
        WalkReceive(s, ch, n, stops);
        RecvStepKeeps(s, ch);
        RecvStepPairs(s, ch);
        WalkPairs(RecvStep(s, ch), ch, n, Next(at, stops), Later(stops));
      }
    case Repliers =>
      if I.Q(s.i.replyq, ch) == [] {
        WalkPairs(s, ch, n, Places(0), stops);
      } else {
        WalkReply(s, ch, n, stops);
        ReplyStepKeeps(s, ch);
        ReplyStepPairs(s, ch);
        WalkPairs(ReplyStep(s, ch), ch, n, Next(at, stops), Later(stops));
      }
    case Places(j) =>
      if j < n {
        WalkPlace(s, ch, n, j, stops);
        SameThreads(s, ch, j);
        WalkPairs(PlaceStep(s, ch, j), ch, n, Next(Places(j + 1), stops), Later(stops));
      }
  }

  /** The matching of clients and servers survives the destruction of a channel, and so does
      the weaker link that early faults leave. */
  lemma DestroyPairs(s: Sys, ch: Id, n: nat, stops: seq<bool>)
    requires In(s, ch, Senders)
    ensures IpcPairing.Pairing(s.i) ==> IpcPairing.Pairing(Destroy(s, ch, n, stops).i)
    ensures IpcPairing.Linking(s.i) ==> IpcPairing.Linking(Destroy(s, ch, n, stops).i)
  {
    hide In, Walk, IpcPairing.Paired, IpcPairing.Linked;
    WalkPairs(s, ch, n, Senders, stops);
  }

  // ---------------------------------------------------------------- disconnect pulses

  /** Every descriptor on the connection `m`, or on one that shares its place, is closed, but a
      client is still reply-blocked on one of them, and the channel wants to be told. */
  ghost predicate Orphaned(s: Sys, m: Id, ch: Id) {
    && m in s.k.conns && !s.k.conns[m].v && s.k.conns[m].ch == Some(ch) && ch in s.k.disconnect
    && (forall r :: r in s.k.refs && r.BySlot? ==> Place(s.k, s.k.refs[r]) != m)
    && (exists t :: Waits(s, t, m))
  }

  /** `t` is reply-blocked on `m` or on a connection that shares its place. */
  predicate Waits(s: Sys, t: Id, m: Id) {
    I.StOf(s.i.st, t).ReplyOn? && Place(s.k, I.StOf(s.i.st, t).c) == m
  }

  ghost function Orphans(s: Sys, ch: Id): set<Id> {
    set m | m in s.k.conns && Orphaned(s, m, ch)
  }

  lemma PlaceFacts(k: C.State, c: Id)
    requires C.Inv(k) && c in k.conns
    ensures var m := Place(k, c);
            m in k.conns && !k.conns[m].v && k.conns[m].ch == k.conns[c].ch && (m != c <==> k.conns[c].v)
  {
    if k.conns[c].v {
      C.ParentFacts(k, c);
    }
  }

  /** A connection in use keeps the one whose place it shares in use. */
  lemma PlaceInUse(k: C.State, r: C.Ref)
    requires C.Inv(k) && r in k.refs
    ensures var m := Place(k, k.refs[r]); m in k.conns && k.conns[m].links > 0
  {
    C.LinksPositive(k, r);
    var c := k.refs[r];
    if k.conns[c].v {
      C.ParentFacts(k, c);
    }
  }

  /** A connection in use without descriptors, its own or of those that share its place, is held by
      a thread, directly or through one of these. */
  lemma ThreadHolds(k: C.State, m: Id) returns (t: Id)
    requires C.Inv(k) && m in k.conns && !k.conns[m].v && k.conns[m].links > 0
    requires forall r :: r in k.refs && r.BySlot? ==> Place(k, k.refs[r]) != m
    ensures C.ByThread(t) in k.refs && Place(k, k.refs[C.ByThread(t)]) == m
  {
    var r :| r in C.Holders(k.refs, m);
    PlaceFacts(k, m);
    if r.ByThread? {
      t := r.t;
    } else {
      assert r.ByChild?;
      var v := r.c;
      assert v in k.conns && k.conns[v].v && Place(k, v) == m;
      assert k.conns[v].links > 0;
      var q :| q in C.Holders(k.refs, v);
      assert !q.BySlot? && !q.ByChild?;
      t := q.t;
    }
  }

  lemma PlaceStays(s: Sys, s': Sys, x: Id, ch: Id, c: Id)
    requires Joined(s) && Released(s, s', x, ch) && c in s'.k.conns
    ensures c in s.k.conns && Place(s'.k, c) == Place(s.k, c)
  {
    hide I.Inv, HoldsLink, OnLiveChannel, Leads, IpcDestroy.Frame, Held, IpcDestroy.Blocked, I.StOf;
    assert s'.k.conns[c].v ==> C.ByChild(c) in s'.k.refs;
    assert s.k.conns[c].v ==> C.ByChild(c) in s.k.refs;
  }

  /** The release is told exactly if it takes the links of the connection with the place to zero. */
  lemma DropTells(k: C.State, x: Id, ch: Id)
    requires C.Inv(k) && C.ByThread(x) in k.refs && ch in k.disconnect
    requires k.refs[C.ByThread(x)] in k.conns && k.conns[k.refs[C.ByThread(x)]].ch == Some(ch)
    ensures var m, k' := Place(k, k.refs[C.ByThread(x)]), C.Drop(k, C.ByThread(x));
            m in k'.conns && (k'.conns[m].links == 0 <==> Tells(k, x, ch))
  {
    var r := C.ByThread(x);
    var c := k.refs[r];
    C.LinksPositive(k, r);
    PlaceFacts(k, c);
    assert ch in k.chproc;
    var m := Place(k, c);
    if k.conns[c].v {
      C.ParentFacts(k, c);
      C.LinksPositive(k, C.ByChild(c));
    }
    hide C.Counted, C.Live, C.Charged, C.Nested, C.Listed, C.Served, C.Apart, C.Noted, C.Idle, C.Unlink, C.Discharge;
  }

  lemma WaitsStays(s: Sys, s': Sys, x: Id, ch: Id, t: Id, m: Id)
    requires Joined(s) && Released(s, s', x, ch)
    ensures Waits(s', t, m) <==> t != x && Waits(s, t, m)
    ensures Waits(s', t, m) ==> I.StOf(s'.i.st, t).c in s'.k.conns
  {
    hide I.Inv, C.Inv, IpcDestroy.Blocked, Place, C.Thinned, Leads;
    assert Held(s.k.refs, t) == OnConn(I.StOf(s.i.st, t));
    assert Held(s'.k.refs, t) == OnConn(I.StOf(s'.i.st, t));
    assert I.StOf(s'.i.st, t) == I.StOf(s.i.st, t) || I.StOf(s'.i.st, t) == I.Ready;
    hide IpcDestroy.Frame, I.StOf;
    if t != x && I.StOf(s.i.st, t).ReplyOn? {
      C.LinksPositive(s'.k, C.ByThread(t));
      PlaceStays(s, s', x, ch, I.StOf(s.i.st, t).c);
    }
  }

  lemma SlotsStay(s: Sys, s': Sys, x: Id, ch: Id, m: Id)
    requires Joined(s) && Released(s, s', x, ch)
    ensures (forall r :: r in s'.k.refs && r.BySlot? ==> Place(s'.k, s'.k.refs[r]) != m) <==>
            (forall r :: r in s.k.refs && r.BySlot? ==> Place(s.k, s.k.refs[r]) != m)
  {
    forall r | r in s.k.refs && r.BySlot?
      ensures r in s'.k.refs && s'.k.refs[r] == s.k.refs[r] && Place(s'.k, s'.k.refs[r]) == Place(s.k, s.k.refs[r])
    {
      assert C.BySlot(r.slot) in s'.k.refs;
      C.LinksPositive(s'.k, r);
      PlaceStays(s, s', x, ch, s'.k.refs[r]);
    }
    hide Joined, Place, C.Thinned, IpcDestroy.Frame, IpcDestroy.Blocked, Held, I.StOf;
  }

  lemma OrphanedAfter(s: Sys, s': Sys, x: Id, ch: Id, m: Id, t: Id)
    requires Joined(s) && Released(s, s', x, ch) && Orphaned(s, m, ch) && Waits(s, t, m) && t != x
    ensures Orphaned(s', m, ch)
  {
    assert C.Inv(s'.k);
    hide Joined, C.Inv, Place, IpcDestroy.Frame, IpcDestroy.Blocked, Held, I.StOf;
    SlotsStay(s, s', x, ch, m);
    WaitsStays(s, s', x, ch, t, m);
    PlaceFacts(s'.k, I.StOf(s'.i.st, t).c);
  }

  lemma OrphanedBefore(s: Sys, s': Sys, x: Id, ch: Id, m: Id)
    requires Joined(s) && Released(s, s', x, ch) && Orphaned(s', m, ch)
    ensures Orphaned(s, m, ch)
  {
    hide Joined, Place, IpcDestroy.Frame, IpcDestroy.Blocked, Held, I.StOf, Waits;
    SlotsStay(s, s', x, ch, m);
    var t :| Waits(s', t, m);
    WaitsStays(s, s', x, ch, t, m);
  }

  /** Orphans in which the released thread does not wait stay what they are. */
  lemma OrphanedStays(s: Sys, s': Sys, x: Id, ch: Id, m: Id)
    requires Joined(s) && Released(s, s', x, ch) && !Waits(s, x, m)
    ensures Orphaned(s', m, ch) <==> Orphaned(s, m, ch)
  {
    hide Joined, Released, Waits;
    if Orphaned(s', m, ch) {
      OrphanedBefore(s, s', x, ch, m);
    }
    if Orphaned(s, m, ch) {
      var t :| Waits(s, t, m);
      OrphanedAfter(s, s', x, ch, m, t);
    }
  }

  /** The connection that a reply-blocked thread of the channel waits in. */
  lemma WaitsAt(s: Sys, x: Id, ch: Id)
    requires Joined(s) && I.StOf(s.i.st, x).ReplyOn? && IpcDestroy.OnChannel(s.i.net.chan, I.StOf(s.i.st, x), ch)
    ensures C.ByThread(x) in s.k.refs && s.k.refs[C.ByThread(x)] == I.StOf(s.i.st, x).c
    ensures var c := I.StOf(s.i.st, x).c; c in s.k.conns && s.k.conns[c].ch == Some(ch)
  {
    assert Held(s.k.refs, x) == OnConn(I.StOf(s.i.st, x));
    hide I.Inv, C.Inv;
  }

  /** After a release that is told nobody holds the connection or one that shares its place. */
  lemma ToldEmpties(k: C.State, x: Id, ch: Id)
    requires C.Inv(k) && C.ByThread(x) in k.refs && Tells(k, x, ch)
    requires k.refs[C.ByThread(x)] in k.conns && k.conns[k.refs[C.ByThread(x)]].ch == Some(ch)
    ensures var m, k' := Place(k, k.refs[C.ByThread(x)]), C.Drop(k, C.ByThread(x));
            forall r :: r in k'.refs ==> Place(k', k'.refs[r]) != m
  {
    var m, k' := Place(k, k.refs[C.ByThread(x)]), C.Drop(k, C.ByThread(x));
    DropTells(k, x, ch);
    C.DropKeeps(k, C.ByThread(x));
    hide C.Inv, C.Drop, Place, Tells;
    forall r | r in k'.refs ensures Place(k', k'.refs[r]) != m {
      PlaceInUse(k', r);
    }
  }

  lemma EmptiedOrphan(s: Sys, s': Sys, x: Id, ch: Id, m: Id)
    requires Joined(s) && Released(s, s', x, ch) && Waits(s, x, m)
    requires m in s.k.conns && !s.k.conns[m].v && s.k.conns[m].ch == Some(ch) && ch in s.k.disconnect
    requires forall r :: r in s'.k.refs ==> Place(s'.k, s'.k.refs[r]) != m
    ensures Orphaned(s, m, ch) && !Orphaned(s', m, ch)
  {
    hide Joined, Released, Place, Waits;
    SlotsStay(s, s', x, ch, m);
    ReleasedJoined(s, s', x, ch);
    forall t ensures !Waits(s', t, m) {
      NoWait(s', t, m);
    }
  }

  /** A release that is told takes one orphan away. */
  lemma ToldOrphan(s: Sys, x: Id, ch: Id)
    requires Joined(s) && I.StOf(s.i.st, x).ReplyOn? && IpcDestroy.OnChannel(s.i.net.chan, I.StOf(s.i.st, x), ch)
    requires C.ByThread(x) in s.k.refs && Tells(s.k, x, ch)
    ensures var m := Place(s.k, I.StOf(s.i.st, x).c); Orphaned(s, m, ch) && !Orphaned(Release(s, x, ch), m, ch)
  {
    var c, m := I.StOf(s.i.st, x).c, Place(s.k, I.StOf(s.i.st, x).c);
    WaitsAt(s, x, ch);
    assert C.Inv(s.k) && ch in s.k.disconnect && Waits(s, x, m);
    assert Release(s, x, ch).k == C.Drop(s.k, C.ByThread(x));
    ToldEmpties(s.k, x, ch);
    PlaceFacts(s.k, c);
    ReleaseKeeps(s, x, ch);
    hide *;
    EmptiedOrphan(s, Release(s, x, ch), x, ch, m);
  }

  lemma ReleasedJoined(s: Sys, s': Sys, x: Id, ch: Id)
    requires Released(s, s', x, ch)
    ensures Joined(s')
  {
  }

  lemma NoWait(s: Sys, t: Id, m: Id)
    requires Joined(s) && forall r :: r in s.k.refs ==> Place(s.k, s.k.refs[r]) != m
    ensures !Waits(s, t, m)
  {
    hide I.Inv, C.Inv, Place;
    assert Held(s.k.refs, t) == OnConn(I.StOf(s.i.st, t));
  }

  /** Once nobody is send-blocked on the channel, a thread that holds one of its connections is
      reply-blocked. */
  lemma HolderWaits(s: Sys, ch: Id, t: Id, m: Id)
    requires Joined(s) && Reached(s.i, ch, Repliers) && m in s.k.conns && s.k.conns[m].ch == Some(ch)
    requires C.ByThread(t) in s.k.refs && Place(s.k, s.k.refs[C.ByThread(t)]) == m
    ensures Waits(s, t, m)
  {
    C.LinksPositive(s.k, C.ByThread(t));
    PlaceFacts(s.k, s.k.refs[C.ByThread(t)]);
    assert Held(s.k.refs, t) == OnConn(I.StOf(s.i.st, t));
    hide I.Inv, C.Inv, Place;
  }

  lemma StillOrphaned(s: Sys, s': Sys, x: Id, ch: Id, m: Id)
    requires Joined(s) && Released(s, s', x, ch) && Reached(s'.i, ch, Repliers) && Orphaned(s, m, ch)
    requires m in s'.k.conns && s'.k.conns[m].links > 0
    ensures Orphaned(s', m, ch)
  {
    assert C.Inv(s'.k) && s'.k.disconnect == s.k.disconnect && C.Recounted(s.k.conns[m], s'.k.conns[m]);
    hide C.Inv, I.Inv, Joined, Released, Place, Waits, Reached;
    SlotsStay(s, s', x, ch, m);
    ReleasedJoined(s, s', x, ch);
    var t := ThreadHolds(s'.k, m);
    HolderWaits(s', ch, t, m);
  }

  /** A release that is not told leaves all orphans. */
  lemma UntoldOrphan(s: Sys, x: Id, ch: Id, m: Id)
    requires Joined(s) && Reached(s.i, ch, Repliers)
    requires I.StOf(s.i.st, x).ReplyOn? && IpcDestroy.OnChannel(s.i.net.chan, I.StOf(s.i.st, x), ch)
    requires C.ByThread(x) in s.k.refs && !Tells(s.k, x, ch)
    ensures Orphaned(Release(s, x, ch), m, ch) <==> Orphaned(s, m, ch)
  {
    var s', c := Release(s, x, ch), I.StOf(s.i.st, x).c;
    assert C.Inv(s.k) && s'.k == C.Drop(s.k, C.ByThread(x));
    assert Waits(s, x, m) <==> Place(s.k, c) == m;
    hide C.Inv, I.Inv, Joined, Release, C.Drop, Place, Tells, IpcDestroy.OnChannel, I.StOf, Reached, Orphaned, Waits;
    ReleaseKeeps(s, x, ch);
    WaitsAt(s, x, ch);
    if Waits(s, x, m) {
      if Orphaned(s', m, ch) {
        OrphanedBefore(s, s', x, ch, m);
      }
      if Orphaned(s, m, ch) {
        OrphanTells(s, m, ch);
        DropTells(s.k, x, ch);
        ReachedStays(s.i, s'.i, ch, Repliers, Repliers);
        StillOrphaned(s, s', x, ch, m);
      }
    } else {
      OrphanedStays(s, s', x, ch, m);
    }
  }

  lemma OrphanTells(s: Sys, m: Id, ch: Id)
    requires Orphaned(s, m, ch)
    ensures ch in s.k.disconnect
  {
  }

  /** What one iteration does to the orphans of the channel. */
  lemma ReplyStepOrphans(s: Sys, ch: Id)
    requires In(s, ch, Repliers) && I.Q(s.i.replyq, ch) != [] && I.Q(s.i.recvq, ch) == []
    ensures Joined(s)
    ensures var s' := ReplyStep(s, ch);
            && I.Q(s'.i.recvq, ch) == []
            && |IpcDestroy.PulsesOn(s'.i, ch)| + |Orphans(s', ch)| == |IpcDestroy.PulsesOn(s.i, ch)| + |Orphans(s, ch)|
            && (Orphans(s, ch) == {} ==> Orphans(s', ch) == {} && s'.i.sendq == s.i.sendq)
  {
    var x := I.Q(s.i.replyq, ch)[0];
    HeadReplier(s, ch);
    var tell := Tells(s.k, x, ch);
    var s' := Release(s, x, ch);
    assert s'.i == IpcDestroy.Release(s.i, ch, x, tell) && ReplyStep(s, ch) == s';
    IpcDestroy.ReleaseParts(s.i, ch, x, tell);
    assert Joined(s) && Reached(s.i, ch, Repliers);
    hide I.Inv, C.Inv, Joined, Release, IpcDestroy.Release, IpcDestroy.OnChannel, IpcDestroy.PulsesOn, I.Q, Tells,
         ReplyStep, Reached, Orphans, I.StOf;
    if tell {
      ToldOrphans(s, x, ch);
    } else {
      UntoldOrphans(s, x, ch);
    }
  }

  lemma UntoldOrphans(s: Sys, x: Id, ch: Id)
    requires Joined(s) && Reached(s.i, ch, Repliers)
    requires I.StOf(s.i.st, x).ReplyOn? && IpcDestroy.OnChannel(s.i.net.chan, I.StOf(s.i.st, x), ch)
    requires C.ByThread(x) in s.k.refs && !Tells(s.k, x, ch)
    ensures Orphans(Release(s, x, ch), ch) == Orphans(s, ch)
  {
    var s' := Release(s, x, ch);
    forall m ensures m in Orphans(s', ch) <==> m in Orphans(s, ch) {
      UntoldOrphan(s, x, ch, m);
      OrphansAre(s, ch, m);
      OrphansAre(s', ch, m);
    }
    assert Orphans(s', ch) == Orphans(s, ch);
  }

  lemma OrphansAre(s: Sys, ch: Id, m: Id)
    ensures m in Orphans(s, ch) <==> Orphaned(s, m, ch)
  {
  }

  lemma OneOrphanLess(s: Sys, s': Sys, x: Id, ch: Id, p: Id)
    requires Joined(s) && Released(s, s', x, ch) && Orphaned(s, p, ch) && !Orphaned(s', p, ch)
    requires forall m :: m != p ==> !Waits(s, x, m)
    ensures |Orphans(s', ch)| + 1 == |Orphans(s, ch)|
  {
    hide Orphaned, Waits, Joined, Released;
    forall m ensures m in Orphans(s, ch) <==> m in Orphans(s', ch) || m == p {
      OrphansAre(s, ch, m);
      OrphansAre(s', ch, m);
      if m != p {
        OrphanedStays(s, s', x, ch, m);
      }
    }
    OrphansAre(s', ch, p);
    assert Orphans(s, ch) == Orphans(s', ch) + {p};
  }

  lemma ToldOrphans(s: Sys, x: Id, ch: Id)
    requires Joined(s) && I.StOf(s.i.st, x).ReplyOn? && IpcDestroy.OnChannel(s.i.net.chan, I.StOf(s.i.st, x), ch)
    requires C.ByThread(x) in s.k.refs && Tells(s.k, x, ch)
    ensures |Orphans(Release(s, x, ch), ch)| + 1 == |Orphans(s, ch)|
  {
    var p := Place(s.k, I.StOf(s.i.st, x).c);
    assert C.Inv(s.k);
    assert forall m :: m != p ==> !Waits(s, x, m);
    hide Orphaned, Waits, Place, Tells, Joined, Released, Release, IpcDestroy.OnChannel, I.StOf, Orphans, C.Inv;
    ToldOrphan(s, x, ch);
    ReleaseKeeps(s, x, ch);
    OneOrphanLess(s, Release(s, x, ch), x, ch, p);
  }

  /** Where links and reply-blocked threads are the same, orphans are. */
  lemma SameOrphans(s: Sys, i: I.State, ch: Id)
    requires forall t :: I.StOf(s.i.st, t).ReplyOn? || I.StOf(i.st, t).ReplyOn? ==> I.StOf(i.st, t) == I.StOf(s.i.st, t)
    ensures Orphans(s.(i := i), ch) == Orphans(s, ch)
  {
    var s' := s.(i := i);
    forall m ensures Orphaned(s', m, ch) <==> Orphaned(s, m, ch) {
      assert forall t :: Waits(s', t, m) <==> Waits(s, t, m);
    }
    hide Orphaned;
  }

  lemma SendStepOrphans(s: Sys, ch: Id)
    requires In(s, ch, Senders) && I.Q(s.i.sendq, ch) != []
    ensures Joined(s) && Orphans(SendStep(s, ch), ch) == Orphans(s, ch)
  {
    var x := I.Q(s.i.sendq, ch)[0];
    if x in s.i.pulses {
      SameOrphans(s, I.RemovePulse(s.i, ch, x), ch);
      hide Orphans;
    } else {
      HeadSender(s, ch);
      ReleaseKeeps(s, x, ch);
      assert forall m :: !Waits(s, x, m);
      assert SendStep(s, ch) == Release(s, x, ch);
      hide SendStep, Release, Joined, Released, IpcDestroy.OnChannel, I.StOf, I.Q, Waits, Orphaned;
      SenderOrphans(s, Release(s, x, ch), x, ch);
    }
  }

  lemma SenderOrphans(s: Sys, s': Sys, x: Id, ch: Id)
    requires Joined(s) && Released(s, s', x, ch) && forall m :: !Waits(s, x, m)
    ensures Orphans(s', ch) == Orphans(s, ch)
  {
    hide Joined, Released, Waits, Orphaned;
    forall m ensures m in Orphans(s', ch) <==> m in Orphans(s, ch) {
      OrphansAre(s, ch, m);
      OrphansAre(s', ch, m);
      OrphanedStays(s, s', x, ch, m);
    }
    assert Orphans(s', ch) == Orphans(s, ch);
  }

  lemma RecvStepOrphans(s: Sys, ch: Id)
    requires In(s, ch, Receivers) && I.Q(s.i.recvq, ch) != []
    ensures Orphans(RecvStep(s, ch), ch) == Orphans(s, ch)
    ensures RecvStep(s, ch).i.sendq == s.i.sendq && RecvStep(s, ch).i.pulses == s.i.pulses
  {
    var x := I.Q(s.i.recvq, ch)[0];
    IpcDestroy.HeadReceives(s.i, ch);
    IpcDestroy.UnblockParts(s.i, x, ch);
    var i := I.Unblock(s.i, x);
    assert forall t :: I.StOf(i.st, t) == if t == x then I.Ready else I.StOf(s.i.st, t);
    hide In, I.Unblock, Remove, Orphans, I.Q;
    SameOrphans(s, i, ch);
  }

  lemma NoOrphans(s: Sys, ch: Id)
    requires In(s, ch, Places(0))
    ensures Orphans(s, ch) == {}
  {
    forall m ensures m !in Orphans(s, ch) {
      NotOrphaned(s, ch, m);
      OrphansAre(s, ch, m);
    }
    assert Orphans(s, ch) == {};
  }

  lemma NotOrphaned(s: Sys, ch: Id, m: Id)
    requires In(s, ch, Places(0))
    ensures !Orphaned(s, m, ch)
  {
    forall t ensures m in s.k.conns && s.k.conns[m].ch == Some(ch) ==> !Waits(s, t, m) {
      assert Held(s.k.refs, t) == OnConn(I.StOf(s.i.st, t));
      if Held(s.k.refs, t).Some? {
        HeldElsewhere(s, ch, t);
        PlaceFacts(s.k, s.k.refs[C.ByThread(t)]);
      }
    }
    hide In, Waits;
  }

  lemma {:induction false} PlacesQuiet(s: Sys, ch: Id, n: nat, j: nat)
    requires In(s, ch, Places(j))
    ensures Walk(s, ch, n, Places(j), []).i == s.i
    decreases n - j
  {
    hide In, Walk, PlaceStep, Joined, Torn;
    WalkOn(s, ch, n, Places(j), []);
    if j < n {
      WalkPlace(s, ch, n, j, []);
      SameThreads(s, ch, j);
      PlacesQuiet(PlaceStep(s, ch, j), ch, n, j + 1);
    }
  }

  lemma {:induction false} RepliersLeave(s: Sys, ch: Id, n: nat)
    requires In(s, ch, Repliers) && I.Q(s.i.recvq, ch) == []
    ensures |IpcDestroy.PulsesOn(Walk(s, ch, n, Repliers, []).i, ch)| ==
            |IpcDestroy.PulsesOn(s.i, ch)| + |Orphans(s, ch)|
    decreases IpcDestroy.Blocked(s.i, ch)
  {
    hide In, Walk, ReplyStep, Joined, Torn, I.Q, IpcDestroy.PulsesOn, Orphans, IpcDestroy.Blocked;
    WalkOn(s, ch, n, Repliers, []);
    if I.Q(s.i.replyq, ch) == [] {
      PlacesQuiet(s, ch, n, 0);
      NoOrphans(s, ch);
    } else {
      WalkReply(s, ch, n, []);
      ReplyStepKeeps(s, ch);
      ReplyStepOrphans(s, ch);
      RepliersLeave(ReplyStep(s, ch), ch, n);
    }
  }

  lemma EmptySends(s: Sys, ch: Id, at: Loop)
    requires In(s, ch, at) && I.Q(s.i.sendq, ch) == []
    ensures |IpcDestroy.PulsesOn(s.i, ch)| == 0
  {
    IpcDestroy.NoPulses(s.i, ch);
  }

  lemma {:induction false} ReceiversLeave(s: Sys, ch: Id, n: nat)
    requires In(s, ch, Receivers) && I.Q(s.i.sendq, ch) == []
    ensures |IpcDestroy.PulsesOn(Walk(s, ch, n, Receivers, []).i, ch)| == |Orphans(s, ch)|
    decreases IpcDestroy.Blocked(s.i, ch)
  {
    hide In, Walk, RecvStep, Joined, Torn, I.Q, IpcDestroy.PulsesOn, Orphans, IpcDestroy.Blocked;
    WalkOn(s, ch, n, Receivers, []);
    if I.Q(s.i.recvq, ch) == [] {
      EmptySends(s, ch, Receivers);
      RepliersLeave(s, ch, n);
    } else {
      WalkReceive(s, ch, n, []);
      RecvStepKeeps(s, ch);
      RecvStepOrphans(s, ch);
      ReceiversLeave(RecvStep(s, ch), ch, n);
    }
  }

  lemma {:induction false} SendersLeave(s: Sys, ch: Id, n: nat)
    requires In(s, ch, Senders)
    ensures |IpcDestroy.PulsesOn(Walk(s, ch, n, Senders, []).i, ch)| == |Orphans(s, ch)|
    decreases IpcDestroy.Blocked(s.i, ch), |I.Q(s.i.sendq, ch)|
  {
    hide In, Walk, SendStep, Joined, Torn, I.Q, IpcDestroy.PulsesOn, Orphans, IpcDestroy.Blocked;
    WalkOn(s, ch, n, Senders, []);
    if I.Q(s.i.sendq, ch) == [] {
      ReceiversLeave(s, ch, n);
    } else {
      WalkSend(s, ch, n, []);
      SendStepKeeps(s, ch);
      SendStepOrphans(s, ch);
      SendersLeave(SendStep(s, ch), ch, n);
    }
  }

  /** An uninterrupted call leaves one pulse on the channel for each orphan: the reply queue is
      emptied after the send queue. So the channel object is given back with an empty send queue
      exactly if no connection to it is orphaned when the call is made. */
  lemma PulsesLeft(s: Sys, ch: Id, n: nat)
    requires In(s, ch, Senders)
    ensures |IpcDestroy.PulsesOn(Destroy(s, ch, n, []).i, ch)| == |Orphans(s, ch)|
    ensures I.Q(Destroy(s, ch, n, []).i.sendq, ch) == [] <==> forall m :: !Orphaned(s, m, ch)
  {
    hide In, Walk, I.Q, Orphans, Orphaned, Torn;
    var w := Walk(s, ch, n, Senders, []);
    SendersLeave(s, ch, n);
    WalkEnds(s, ch, n, Senders, []);
    Unqueued(w, ch);
    IpcDestroy.EmptyQueue(w.i, ch);
    NoneOrphaned(s, ch);
    assert IpcDestroy.PulsesOn(Destroy(s, ch, n, []).i, ch) == IpcDestroy.PulsesOn(w.i, ch);
  }

  lemma NoneOrphaned(s: Sys, ch: Id)
    ensures |Orphans(s, ch)| == 0 <==> forall m :: !Orphaned(s, m, ch)
    ensures Orphans(s, ch) == {} <==> forall m :: !Orphaned(s, m, ch)
  {
    hide Orphaned;
    forall m ensures m in Orphans(s, ch) <==> Orphaned(s, m, ch) {
      OrphansAre(s, ch, m);
    }
    if forall m :: !Orphaned(s, m, ch) {
      assert Orphans(s, ch) == {};
    }
  }

  // ---------------------------------------------------------------- interrupted and started over

  /** The loops before `at` would find nothing to do. */
  ghost predicate Behind(s: Sys, ch: Id, n: nat, at: Loop) {
    && (at != Senders ==> I.Q(s.i.sendq, ch) == [])
    && (at.Repliers? || at.Places? ==> I.Q(s.i.recvq, ch) == [])
    && (at.Places? ==> I.Q(s.i.replyq, ch) == [] && at.j <= n && ChannelDestroy.CutOffBelow(s.k, ch, at.j))
  }

  lemma InTop(s: Sys, ch: Id, at: Loop)
    requires In(s, ch, at)
    ensures In(s, ch, Senders)
  {
    hide Joined;
  }

  lemma {:induction false} PlacesSkip(s: Sys, ch: Id, n: nat, a: nat, j: nat)
    requires In(s, ch, Places(a)) && a <= j <= n && ChannelDestroy.CutOffBelow(s.k, ch, j)
    ensures In(s, ch, Places(j)) && Walk(s, ch, n, Places(a), []) == Walk(s, ch, n, Places(j), [])
    decreases j - a
  {
    assert Joined(s) && C.Inv(s.k) && ch in s.k.chproc && In(s, ch, Places(a + 1));
    if a < j {
      ChannelDestroy.SeverNothing(s.k, s.k.chproc[ch], ch, j, a);
      assert PlaceStep(s, ch, a) == s;
      hide In, Walk, PlaceStep, Joined, Torn, ChannelDestroy.CutOffBelow;
      WalkPlace(s, ch, n, a, []);
      PlacesSkip(s, ch, n, a + 1, j);
    }
  }

  /** Started over from there, the call comes back to the same loop. */
  lemma ComesBack(s: Sys, ch: Id, n: nat, at: Loop)
    requires In(s, ch, at) && Behind(s, ch, n, at)
    ensures In(s, ch, Senders) && Walk(s, ch, n, Senders, []) == Walk(s, ch, n, at, [])
  {
    InTop(s, ch, at);
    hide In, Walk, ChannelDestroy.CutOffBelow;
    if at != Senders {
      WalkOn(s, ch, n, Senders, []);
      WalkOn(s, ch, n, Receivers, []);
      if at.Places? {
        WalkOn(s, ch, n, Repliers, []);
        PlacesSkip(s, ch, n, 0, at.j);
      }
    }
  }

  lemma PlacesBehind(s: Sys, ch: Id, n: nat, j: nat)
    requires In(s, ch, Places(j)) && Behind(s, ch, n, Places(j)) && j < n
    ensures ch in s.k.chproc && Behind(PlaceStep(s, ch, j), ch, n, Places(j + 1))
  {
    InJoined(s, ch, Places(j));
    PlaceStepCuts(s, ch, j);
    SameThreads(s, ch, j);
    hide Joined, PlaceStep, ChannelDestroy.CutOffBelow;
  }

  lemma RepliersBehind(s: Sys, ch: Id, n: nat)
    requires In(s, ch, Repliers) && Behind(s, ch, n, Repliers) && I.Q(s.i.replyq, ch) == []
    ensures Behind(s, ch, n, Places(0))
  {
  }

  /** Without orphans the call ends in the same state from every loop on, interrupted or not. */
  lemma {:induction false} SameResult(s: Sys, ch: Id, n: nat, at: Loop, stops: seq<bool>)
    requires In(s, ch, at) && Behind(s, ch, n, at) && Orphans(s, ch) == {}
    ensures In(s, ch, Senders) && Walk(s, ch, n, at, stops) == Walk(s, ch, n, Senders, [])
    decreases |stops|, IpcDestroy.Blocked(s.i, ch), |I.Q(s.i.sendq, ch)|, Rank(at, n)
  {
    hide In, SendStep, RecvStep, ReplyStep, PlaceStep, IpcDestroy.Blocked, Walk, Joined, Torn, Orphans,
         ChannelDestroy.CutOffBelow, IpcDestroy.PulsesOn, I.Q;
    ComesBack(s, ch, n, at);
    WalkOn(s, ch, n, at, stops);
    match at
    case Senders =>
      if I.Q(s.i.sendq, ch) == [] {
        SameResult(s, ch, n, Receivers, stops);
      } else {
        WalkSend(s, ch, n, stops);
        WalkSend(s, ch, n, []);
        SendStepKeeps(s, ch);
        SendStepOrphans(s, ch);
        SameResult(SendStep(s, ch), ch, n, Senders, stops);
      }
    case Receivers =>
      if I.Q(s.i.recvq, ch) == [] {
        SameResult(s, ch, n, Repliers, stops);
      } else {
        WalkReceive(s, ch, n, stops);
        WalkReceive(s, ch, n, []);
        RecvStepKeeps(s, ch);
        RecvStepOrphans(s, ch);
        ComesBack(RecvStep(s, ch), ch, n, Receivers);
        SameResult(RecvStep(s, ch), ch, n, Next(at, stops), Later(stops));
      }
    case Repliers =>
      if I.Q(s.i.replyq, ch) == [] {
        RepliersBehind(s, ch, n);
        SameResult(s, ch, n, Places(0), stops);
      } else {
        WalkReply(s, ch, n, stops);
        WalkReply(s, ch, n, []);
        ReplyStepKeeps(s, ch);
        ReplyStepOrphans(s, ch);
        ComesBack(ReplyStep(s, ch), ch, n, Repliers);
        SameResult(ReplyStep(s, ch), ch, n, Next(at, stops), Later(stops));
      }
    case Places(j) =>
      if j < n {
        SamePlaces(s, ch, n, j, stops);
      } else {
        WalkOn(s, ch, n, at, []);
      }
  }

  lemma {:induction false} SamePlaces(s: Sys, ch: Id, n: nat, j: nat, stops: seq<bool>)
    requires In(s, ch, Places(j)) && Behind(s, ch, n, Places(j)) && j < n
    ensures In(s, ch, Senders) && Walk(s, ch, n, Places(j), stops) == Walk(s, ch, n, Senders, [])
    decreases |stops|, IpcDestroy.Blocked(s.i, ch), |I.Q(s.i.sendq, ch)|, Rank(Places(j), n), 0
  {
    hide In, PlaceStep, IpcDestroy.Blocked, Walk, Joined, Torn, Orphans, Behind, I.Q;
    ComesBack(s, ch, n, Places(j));
    WalkPlace(s, ch, n, j, stops);
    WalkPlace(s, ch, n, j, []);
    PlacesBehind(s, ch, n, j);
    SameThreads(s, ch, j);
    var s' := PlaceStep(s, ch, j);
    ComesBack(s', ch, n, Places(j + 1));
    InFirst(s', ch, j + 1);
    NoOrphans(s', ch);
    BehindTop(s', ch, n);
    SameResult(s', ch, n, Next(Places(j + 1), stops), Later(stops));
  }

  lemma BehindTop(s: Sys, ch: Id, n: nat)
    ensures Behind(s, ch, n, Senders)
  {
  }

  lemma InFirst(s: Sys, ch: Id, j: nat)
    requires In(s, ch, Places(j))
    ensures In(s, ch, Places(0))
  {
  }

  lemma NoneBlocked(s: Sys, ch: Id, j: nat)
    requires In(s, ch, Places(j))
    ensures |IpcDestroy.Blocked(s.i, ch)| == 0
  {
    forall u ensures u !in IpcDestroy.Blocked(s.i, ch) {
      assert !IpcDestroy.OnChannel(s.i.net.chan, I.StOf(s.i.st, u), ch);
    }
    assert IpcDestroy.Blocked(s.i, ch) == {};
  }

  /** Interrupted after every iteration, the call also frees the pulses it has caused. */
  lemma {:induction false} OftenStopped(s: Sys, ch: Id, n: nat, at: Loop, stops: seq<bool>)
    requires In(s, ch, at) && (at != Senders ==> I.Q(s.i.sendq, ch) == [])
    requires |stops| >= |IpcDestroy.Blocked(s.i, ch)| && forall i :: 0 <= i < |stops| ==> stops[i]
    ensures I.Q(Walk(s, ch, n, at, stops).i.sendq, ch) == []
    decreases |stops|, IpcDestroy.Blocked(s.i, ch), |I.Q(s.i.sendq, ch)|, Rank(at, n)
  {
    hide In, SendStep, RecvStep, ReplyStep, PlaceStep, IpcDestroy.Blocked, Walk, Joined, Torn, I.Q;
    WalkOn(s, ch, n, at, stops);
    match at
    case Senders =>
      if I.Q(s.i.sendq, ch) == [] {
        OftenStopped(s, ch, n, Receivers, stops);
      } else {
        WalkSend(s, ch, n, stops);
        SendStepKeeps(s, ch);
        IpcDestroy.Smaller(IpcDestroy.Blocked(SendStep(s, ch).i, ch), IpcDestroy.Blocked(s.i, ch));
        OftenStopped(SendStep(s, ch), ch, n, Senders, stops);
      }
    case Receivers =>
      if I.Q(s.i.recvq, ch) == [] {
        OftenStopped(s, ch, n, Repliers, stops);
      } else {
        WalkReceive(s, ch, n, stops);
        RecvStepKeeps(s, ch);
        IpcDestroy.Smaller(IpcDestroy.Blocked(RecvStep(s, ch).i, ch), IpcDestroy.Blocked(s.i, ch));
        OftenStopped(RecvStep(s, ch), ch, n, Senders, Later(stops));
      }
    case Repliers =>
      if I.Q(s.i.replyq, ch) == [] {
        OftenStopped(s, ch, n, Places(0), stops);
      } else {
        WalkReply(s, ch, n, stops);
        ReplyStepKeeps(s, ch);
        IpcDestroy.Smaller(IpcDestroy.Blocked(ReplyStep(s, ch).i, ch), IpcDestroy.Blocked(s.i, ch));
        OftenStopped(ReplyStep(s, ch), ch, n, Senders, Later(stops));
      }
    case Places(j) =>
      if j < n {
        NoneBlocked(s, ch, j);
        WalkPlace(s, ch, n, j, stops);
        SameThreads(s, ch, j);
        OftenStopped(PlaceStep(s, ch, j), ch, n, Next(Places(j + 1), stops), Later(stops));
      }
  }

  /** Interrupting the call, after any iteration of any of its loops, and starting it over never
      matters exactly if no connection to the channel is orphaned when the call is made. */
  lemma RestartsAgree(s: Sys, ch: Id, n: nat)
    requires In(s, ch, Senders)
    ensures (forall stops :: Destroy(s, ch, n, stops) == Destroy(s, ch, n, [])) <==> forall m :: !Orphaned(s, m, ch)
  {
    hide In, Walk, I.Q, Orphans, Orphaned, IpcDestroy.PulsesOn, IpcDestroy.Blocked;
    PulsesLeft(s, ch, n);
    NoneOrphaned(s, ch);
    if forall m :: !Orphaned(s, m, ch) {
      forall stops: seq<bool> ensures Destroy(s, ch, n, stops) == Destroy(s, ch, n, []) {
        BehindTop(s, ch, n);
        SameResult(s, ch, n, Senders, stops);
      }
    } else {
      var stops := seq(|IpcDestroy.Blocked(s.i, ch)|, i => true);
      OftenStopped(s, ch, n, Senders, stops);
      assert I.Q(Destroy(s, ch, n, stops).i.sendq, ch) == [];
    }
  }
}
