/**
 What one iteration of the loops of `ker_channel_destroy` does to message passing: a pulse is
 dropped, or a thread that is blocked on the channel is made ready. If that took away the last
 link of a connection, the channel may be told of it by a disconnect pulse.
 */
module IpcDestroy {
  import opened Base
  import opened Pril
  import opened Ipc
  import opened IpcPairing

  /** Whether a thread in state `a` is blocked on channel `ch`, in any of the three ways. */
  predicate OnChannel(chan: map<Id, Id>, a: TState, ch: Id) {
    match a
    case Ready => false
    case SendOn(c) => Lookup(chan, c) == Some(ch)
    case ReplyOn(c) => Lookup(chan, c) == Some(ch)
    case ReceiveOn(n) => n == ch
  }

  function Blocked(s: State, ch: Id): set<Id> {
    set u | u in s.st && OnChannel(s.net.chan, s.st[u], ch)
  }

  /** The queued pulses of the channel. */
  function PulsesOn(s: State, ch: Id): set<Id> {
    set x | x in s.pulses && s.pulses[x].ch == ch
  }

  // ---------------------------------------------------------------- releasing a thread

  /** A pulse from the pool: any identity that is not in use. */
  function FreshPulse(used: set<Id>, k: Id): (x: Id)
    requires k < 0
    ensures x <= k && x !in used
    decreases |used|
  {
    if k in used then FreshPulse(used - {k}, k - 1) else k
  }

  /** The part of `connect_detach` that tells the channel of a lost client, at the priority of
      the released thread `x` and before every message. */
  function Tell(s: State, ch: Id, x: Id, tell: bool): State {
    if tell then SendPulse(s, ch, FreshPulse(s.pulses.Keys, -1), P(s.prio, x), true, false, false, false) else s
  }

  /** `force_ready` on a thread blocked on the channel. */
  function Release(s: State, ch: Id, x: Id, tell: bool): State {
    Tell(Unblock(s, x), ch, x, tell)
  }

  // ---------------------------------------------------------------- one iteration

  /** Only threads blocked on `ch` change, and they become ready; other channels keep what they
      have queued. */
  ghost predicate Frame(s: State, s': State, ch: Id) {
    && s'.net == s.net
    && (forall u :: StOf(s'.st, u) == StOf(s.st, u) ||
                    (OnChannel(s.net.chan, StOf(s.st, u), ch) && StOf(s'.st, u) == Ready))
    && (forall n :: n != ch ==> Q(s'.recvq, n) == Q(s.recvq, n) && Q(s'.replyq, n) == Q(s.replyq, n))
    && (forall n, x :: n != ch ==> (x in Q(s'.sendq, n) <==> x in Q(s.sendq, n)))
  }

  lemma FrameTwice(s: State, s1: State, s': State, ch: Id)
    requires Frame(s, s1, ch) && Frame(s1, s', ch)
    ensures Frame(s, s', ch)
  {
    hide Q, StOf;
  }

  lemma FrameBlocked(s: State, s': State, ch: Id)
    requires Frame(s, s', ch)
    ensures Blocked(s', ch) <= Blocked(s, ch)
  {
    forall u | u in Blocked(s', ch) ensures u in Blocked(s, ch) {
      assert StOf(s'.st, u) == s'.st[u];
    }
  }

  /** One thread of the channel becomes ready and at most the channel's own queues change. */
  lemma FrameOne(s: State, s': State, x: Id, ch: Id)
    requires s'.net == s.net && s'.st == s.st[x := Ready] && OnChannel(s.net.chan, StOf(s.st, x), ch)
    requires s'.recvq == s.recvq || s'.recvq == s.recvq[ch := Q(s'.recvq, ch)]
    requires s'.replyq == s.replyq || s'.replyq == s.replyq[ch := Q(s'.replyq, ch)]
    requires s'.sendq == s.sendq || s'.sendq == s.sendq[ch := Q(s'.sendq, ch)]
    ensures Frame(s, s', ch) && StOf(s'.st, x) == Ready
  {
    assert forall u :: StOf(s'.st, u) == if u == x then Ready else StOf(s.st, u);
    hide OnChannel, StOf;
  }

  lemma UnblockReplyParts(s: State, x: Id, c: Id, ch: Id)
    requires StOf(s.st, x) == ReplyOn(c) && Lookup(s.net.chan, c) == Some(ch)
    ensures Unblock(s, x) == s.(st := s.st[x := Ready], replyq := s.replyq[ch := Remove(Q(s.replyq, ch), x)],
                                client := DropServer(s, x).client, server := DropServer(s, x).server)
  {
    hide Q, Remove, DropServer;
    DropServerParts(s, x);
  }

  lemma UnblockParts(s: State, x: Id, ch: Id)
    requires OnChannel(s.net.chan, StOf(s.st, x), ch)
    ensures var s' := Unblock(s, x);
            s' == s.(st := s.st[x := Ready], client := s'.client, server := s'.server, pulseOnly := s'.pulseOnly,
                     recvq := if StOf(s.st, x).ReceiveOn? then s.recvq[ch := Remove(Q(s.recvq, ch), x)] else s.recvq,
                     replyq := if StOf(s.st, x).ReplyOn? then s.replyq[ch := Remove(Q(s.replyq, ch), x)] else s.replyq,
                     sendq := if StOf(s.st, x).SendOn? then s.sendq[ch := Remove(Q(s.sendq, ch), x)] else s.sendq)
  {
    hide Q, Remove, DropServer, ReleaseClient;
    if StOf(s.st, x).ReplyOn? {
      UnblockReplyParts(s, x, StOf(s.st, x).c, ch);
      hide Unblock;
    }
  }

  lemma UnblockFrame(s: State, x: Id, ch: Id)
    requires Inv(s) && OnChannel(s.net.chan, StOf(s.st, x), ch)
    ensures Inv(Unblock(s, x)) && Frame(s, Unblock(s, x), ch) && StOf(Unblock(s, x).st, x) == Ready
  {
    hide RecvAgree, ReplyAgree, SendAgree, RecvOrder, Sane, NoIdle, Unblock, Remove, OnChannel, Frame;
    UnblockKeeps(s, x);
    UnblockParts(s, x, ch);
    FrameOne(s, Unblock(s, x), x, ch);
  }

  /** The channel's server hears of a released client: the pulse is delivered or queued. */
  lemma TellDelivers(s: State, ch: Id, y: Id, p: nat)
    requires Inv(s) && y < 0 && y !in s.pulses && Q(s.recvq, ch) != []
    ensures var s' := SendPulse(s, ch, y, p, true, false, false, false); Frame(s, s', ch) && s'.replyq == s.replyq
  {
    hide Inv, P, BoostServers, FloatPrio;
    ReleaseReceiverKeeps(s, ch);
    var s' := SendPulse(s, ch, y, p, true, false, false, false);
    FrameOne(s, s', Q(s.recvq, ch)[0], ch);
  }

  lemma TellQueues(s: State, ch: Id, y: Id, p: nat)
    requires Inv(s) && y < 0 && y !in s.pulses && Q(s.recvq, ch) == []
    ensures var s' := SendPulse(s, ch, y, p, true, false, false, false);
            && Frame(s, s', ch) && s'.st == s.st && s'.recvq == s.recvq && s'.replyq == s.replyq
            && s'.pulses == s.pulses[y := Pulse(ch, p)]
  {
    hide Inv, P, BoostServers, Insert;
    var s1 := QueuePulse(s, ch, y, p, p + 256);
    QueuePulseKeeps(s, ch, y, p, p + 256);
    BoostServersKeeps(s1, p, ch);
    assert s1.net == s.net && s1.st == s.st && s1.recvq == s.recvq && s1.replyq == s.replyq;
    assert s1.pulses == s.pulses[y := Pulse(ch, p)];
    assert forall n :: n != ch ==> Q(s1.sendq, n) == Q(s.sendq, n);
    assert SendPulse(s, ch, y, p, true, false, false, false) == BoostServers(s1, p, ch);
    hide QueuePulse, Q, StOf, OnChannel, SendPulse;
  }

  lemma TellKeeps(s: State, ch: Id, x: Id, tell: bool)
    requires Inv(s)
    ensures Inv(Tell(s, ch, x, tell)) && Frame(s, Tell(s, ch, x, tell), ch)
    ensures Q(s.recvq, ch) == [] ==> Tell(s, ch, x, tell).st == s.st && Tell(s, ch, x, tell).recvq == s.recvq
    ensures Tell(s, ch, x, tell).replyq == s.replyq
  {
    hide Inv, FreshPulse, P, SendPulse, Q;
    if tell {
      var y, p := FreshPulse(s.pulses.Keys, -1), P(s.prio, x);
      SendPulseKeeps(s, ch, y, p, true, false, false, false);
      if Q(s.recvq, ch) != [] {
        TellDelivers(s, ch, y, p);
      } else {
        TellQueues(s, ch, y, p);
      }
    }
  }

  lemma ReleasedFewer(s: State, s': State, x: Id, ch: Id)
    requires Frame(s, s', ch) && OnChannel(s.net.chan, StOf(s.st, x), ch) && StOf(s'.st, x) == Ready
    ensures Blocked(s', ch) < Blocked(s, ch)
  {
    FrameBlocked(s, s', ch);
    assert x in Blocked(s, ch) && x !in Blocked(s', ch);
  }

  lemma ReleaseKeeps(s: State, x: Id, ch: Id, tell: bool)
    requires Inv(s) && OnChannel(s.net.chan, StOf(s.st, x), ch)
    ensures var s' := Release(s, ch, x, tell);
            Inv(s') && Frame(s, s', ch) && StOf(s'.st, x) == Ready && Blocked(s', ch) < Blocked(s, ch)
  {
    hide Inv, Unblock, Tell, Q, StOf;
    UnblockFrame(s, x, ch);
    var s1 := Unblock(s, x);
    TellKeeps(s1, ch, x, tell);
    FrameTwice(s, s1, Tell(s1, ch, x, tell), ch);
    ReleasedFewer(s, Tell(s1, ch, x, tell), x, ch);
  }

  lemma HasHead(q: seq<Id>)
    ensures q != [] ==> q[0] in q
  {
  }

  lemma NobodyQueued(s: State, ch: Id)
    requires Inv(s) && forall u :: !OnChannel(s.net.chan, StOf(s.st, u), ch)
    ensures Q(s.recvq, ch) == [] && Q(s.replyq, ch) == []
    ensures forall x :: x in Q(s.sendq, ch) <==> x in PulsesOn(s, ch)
  {
    forall x ensures x !in Q(s.recvq, ch) && x !in Q(s.replyq, ch) {
      assert x in Q(s.recvq, ch) <==> StOf(s.st, x) == ReceiveOn(ch);
      assert x in Q(s.replyq, ch) <==> ReplyBlockedAt(s.net.chan, StOf(s.st, x), ch);
    }
    HasHead(Q(s.recvq, ch));
    HasHead(Q(s.replyq, ch));
    forall x ensures x in Q(s.sendq, ch) <==> x in PulsesOn(s, ch) {
      assert x in Q(s.sendq, ch) <==> QueuedAt(s.net.chan, s.st, s.pulses, x, ch);
    }
  }

  // ---------------------------------------------------------------- clients and servers

  lemma ReleasePairs(s: State, x: Id, ch: Id, tell: bool)
    requires Inv(s)
    ensures Pairing(s) ==> Pairing(Release(s, ch, x, tell))
    ensures Linking(s) ==> Linking(Release(s, ch, x, tell))
  {
    hide Inv, Pairing, Linking, Unblock, SendPulse, FreshPulse, P;
    UnblockKeeps(s, x);
    var s1 := Unblock(s, x);
    var y := FreshPulse(s1.pulses.Keys, -1);
    if Pairing(s) {
      UnblockPairs(s, x);
      SendPulsePairs(s1, ch, y, P(s1.prio, x), true, false, false, false);
    }
    if Linking(s) {
      UnblockLinks(s, x);
      SendPulseLinks(s1, ch, y, P(s1.prio, x), true, false, false, false);
    }
  }

  // ---------------------------------------------------------------- heads of queues

  lemma HeadReceives(s: State, ch: Id)
    requires Inv(s) && Q(s.recvq, ch) != []
    ensures StOf(s.st, Q(s.recvq, ch)[0]) == ReceiveOn(ch)
  {
    HasHead(Q(s.recvq, ch));
  }

  lemma HeadReplies(s: State, ch: Id)
    requires Inv(s) && Q(s.replyq, ch) != []
    ensures ReplyBlockedAt(s.net.chan, StOf(s.st, Q(s.replyq, ch)[0]), ch)
    ensures Distinct(Q(s.replyq, ch))
  {
    HasHead(Q(s.replyq, ch));
  }

  /** What a released sender or client leaves as it is. */
  lemma ReleaseParts(s: State, ch: Id, x: Id, tell: bool)
    requires Inv(s) && OnChannel(s.net.chan, StOf(s.st, x), ch)
    ensures StOf(s.st, x).SendOn? ==> Release(s, ch, x, tell).replyq == s.replyq
    ensures StOf(s.st, x).ReplyOn? && Q(s.recvq, ch) == [] ==>
              && Q(Release(s, ch, x, tell).recvq, ch) == []
              && |PulsesOn(Release(s, ch, x, tell), ch)| == |PulsesOn(s, ch)| + (if tell then 1 else 0)
    ensures StOf(s.st, x).ReplyOn? && !tell ==> Release(s, ch, x, tell).sendq == s.sendq
  {
    hide Inv, Remove, Unblock, Tell, OnChannel;
    UnblockParts(s, x, ch);
    UnblockKeeps(s, x);
    var s1 := Unblock(s, x);
    assert PulsesOn(s1, ch) == PulsesOn(s, ch);
    hide PulsesOn, Frame;
    TellKeeps(s1, ch, x, tell);
    TellCounts(s1, ch, x, tell);
  }

  lemma TellCounts(s: State, ch: Id, x: Id, tell: bool)
    requires Inv(s)
    ensures tell && Q(s.recvq, ch) == [] ==> |PulsesOn(Tell(s, ch, x, tell), ch)| == |PulsesOn(s, ch)| + 1
    ensures !tell ==> Tell(s, ch, x, tell) == s
  {
    hide Inv, FreshPulse, SendPulse, P, Q, Frame, PulsesOn;
    if tell && Q(s.recvq, ch) == [] {
      var y, p := FreshPulse(s.pulses.Keys, -1), P(s.prio, x);
      TellQueues(s, ch, y, p);
      PulseAdded(s, Tell(s, ch, x, tell), ch, y, p);
    }
  }

  lemma PulseAdded(s: State, s': State, ch: Id, y: Id, p: nat)
    requires y !in s.pulses && s'.pulses == s.pulses[y := Pulse(ch, p)]
    ensures |PulsesOn(s', ch)| == |PulsesOn(s, ch)| + 1
  {
    assert PulsesOn(s', ch) == PulsesOn(s, ch) + {y};
  }

  lemma NoPulses(s: State, ch: Id)
    requires Inv(s) && Q(s.sendq, ch) == []
    ensures PulsesOn(s, ch) == {}
  {
    forall x ensures x !in PulsesOn(s, ch) {
      assert x in Q(s.sendq, ch) <==> QueuedAt(s.net.chan, s.st, s.pulses, x, ch);
    }
  }

  lemma EmptyQueue(s: State, ch: Id)
    requires forall x :: x in Q(s.sendq, ch) <==> x in PulsesOn(s, ch)
    ensures Q(s.sendq, ch) == [] <==> |PulsesOn(s, ch)| == 0
  {
    var q, on := Q(s.sendq, ch), PulsesOn(s, ch);
    assert forall x :: x in q <==> x in on;
    if q == [] {
      assert on == {};
    } else {
      assert q[0] in on;
    }
  }

  lemma Smaller(a: set<Id>, b: set<Id>)
    ensures a < b ==> |a| < |b|
  {
    if a < b {
      assert b == a + (b - a) && b - a != {};
    }
  }
}
