/**
 What sends through descriptors and the closing of descriptors answer when message passing and
 connections are taken together.
 */
module CoupledAnswers {
  import opened Base
  import opened Coupling
  import I = Ipc
  import IpcAnswers
  import C = Connect
  import ConnectAnswers

  /** Where a send through a descriptor leaves its caller: send-blocked on the connection behind
      the descriptor, reply-blocked on it if a receiver waits and gets the message, or ready. */
  function SendEnds(s: Sys, slot: C.Slot, copy: I.Copy, refused: bool): I.TState
    requires C.BySlot(slot) in s.k.refs && s.k.refs[C.BySlot(slot)] in s.k.conns
  {
    var c := s.k.refs[C.BySlot(slot)];
    var ch := s.k.conns[c].ch;
    if refused || ch == None then I.Ready
    else if !IpcAnswers.ReceiverWaits(s.i, ch.value) then I.SendOn(c)
    else if copy == I.Done then I.ReplyOn(c)
    else I.Ready
  }

  lemma SendLeaves(s: Sys, t: Id, slot: C.Slot, copy: I.Copy, refused: bool)
    requires Inv(s) && t >= 0 && I.StOf(s.i.st, t) == I.Ready
    requires C.BySlot(slot) in s.k.refs && s.k.refs[C.BySlot(slot)] in s.k.conns
    ensures var i := I.Send(s.i, t, s.k.refs[C.BySlot(slot)], copy, refused);
            I.StOf(i.st, t) == SendEnds(s, slot, copy, refused)
  {
    var c := s.k.refs[C.BySlot(slot)];
    assert c in s.i.net.chan <==> s.k.conns[c].ch.Some?;
    if c in s.i.net.chan && IpcAnswers.ReceiverWaits(s.i, s.i.net.chan[c]) {
      I.ReleaseReceiverKeeps(s.i, s.i.net.chan[c]);
    }
    hide I.Inv, C.Inv, I.Send, HoldsLink, OnLiveChannel, ChanOf;
    IpcAnswers.SendAnswers(s.i, t, c, copy, refused);
    hide I.Q, IpcAnswers.Becomes, IpcAnswers.LinksUp, IpcAnswers.Floats;
  }

  /** A send through a descriptor ends as stated; its thread counts as blocked through that
      descriptor exactly if it is blocked, and nobody else's descriptor is touched. */
  lemma SendThrough(s: Sys, t: Id, slot: C.Slot, copy: I.Copy, refused: bool)
    requires Inv(s) && t >= 0 && I.StOf(s.i.st, t) == I.Ready && C.BySlot(slot) in s.k.refs
    ensures s.k.refs[C.BySlot(slot)] in s.k.conns
    ensures var s' := ApplySend(s, t, slot, copy, refused);
            && I.StOf(s'.i.st, t) == SendEnds(s, slot, copy, refused)
            && (C.UsesSlot(s'.k, t, slot, {}) <==> I.StOf(s'.i.st, t) != I.Ready)
            && (forall u, n, kept :: u != t ==> (C.UsesSlot(s'.k, u, n, kept) <==> C.UsesSlot(s.k, u, n, kept)))
            && forall n :: C.BySlot(n) in s'.k.refs <==> C.BySlot(n) in s.k.refs
  {
    C.LinksPositive(s.k, C.BySlot(slot));
    assert Held(s.k.refs, t) == None;
    hide Inv, I.Send, C.BlockOn;
    SendLeaves(s, t, slot, copy, refused);
    BlockedThrough(s, t, slot);
    hide C.UsesSlot;
  }

  lemma BlockedThrough(s: Sys, t: Id, slot: C.Slot)
    requires Inv(s) && C.BySlot(slot) in s.k.refs && Held(s.k.refs, t) == None
    requires s.k.refs[C.BySlot(slot)] in s.k.conns
    ensures var k := C.BlockOn(s.k, t, slot);
            && C.UsesSlot(k, t, slot, {}) && !C.UsesSlot(s.k, t, slot, {})
            && (forall u, n, kept :: u != t ==> (C.UsesSlot(k, u, n, kept) <==> C.UsesSlot(s.k, u, n, kept)))
            && forall n :: C.BySlot(n) in k.refs <==> C.BySlot(n) in s.k.refs
  {
    hide C.InvExcept, I.Inv, Coupled;
    ConnectAnswers.BlockHolds(s.k, t, slot);
    hide C.BlockOn;
  }

  lemma {:induction false} EvictedAreReady(i: I.State, k: C.State, slot: C.Slot, ts: seq<Id>, kept: set<Id>)
    requires I.Inv(i)
    ensures var i' := EvictEach(i, k, slot, ts, kept);
            forall u :: I.StOf(i'.st, u) ==
                        if u in ts && C.UsesSlot(k, u, slot, kept) then I.Ready else I.StOf(i.st, u)
    decreases |ts|
  {
    hide I.Inv, I.Unblock, C.UsesSlot;
    if ts != [] {
      assert forall u :: u in ts <==> u == ts[0] || u in ts[1..];
      if C.UsesSlot(k, ts[0], slot, kept) {
        I.UnblockKeeps(i, ts[0]);
        UnblockReadies(i, ts[0]);
        EvictedAreReady(I.Unblock(i, ts[0]), k, slot, ts[1..], kept);
      } else {
        EvictedAreReady(i, k, slot, ts[1..], kept);
      }
    }
  }

  lemma UnblockReadies(i: I.State, x: Id)
    requires I.Inv(i)
    ensures forall u :: I.StOf(I.Unblock(i, x).st, u) == if u == x then I.Ready else I.StOf(i.st, u)
  {
    hide I.Inv, I.Unblock;
    IpcAnswers.UnblockAnswers(i, x);
    hide I.Q, IpcAnswers.Becomes, IpcAnswers.Dissolves;
  }

  /** Closing a descriptor makes exactly those threads ready that are blocked through it and are
      not left to their server, takes that descriptor, and no other. */
  lemma CloseFrees(s: Sys, slot: C.Slot, ts: seq<Id>, kept: set<Id>)
    requires Inv(s) && C.BySlot(slot) in s.k.refs
    ensures var s' := ApplyClose(s, slot, ts, kept);
            && (forall n :: C.BySlot(n) in s'.k.refs <==> C.BySlot(n) in s.k.refs && n != slot)
            && (forall u :: I.StOf(s'.i.st, u) ==
                            if u in ts && C.UsesSlot(s.k, u, slot, kept) then I.Ready else I.StOf(s.i.st, u))
  {
    assert I.Inv(s.i) && C.Inv(s.k);
    hide Inv, C.Detach, EvictEach, I.StOf;
    EvictedAreReady(s.i, s.k, slot, ts, kept);
    forall n ensures C.BySlot(n) in C.Detach(s.k, slot, ts, kept).refs <==> C.BySlot(n) in s.k.refs && n != slot {
      C.DetachTakes(s.k, slot, ts, kept, C.BySlot(n));
    }
    hide C.UsesSlot;
  }

  /** A send through a descriptor does not outlive it: closed over all threads, with none left to
      its server, the descriptor leaves the sender ready. */
  lemma SendThenClose(s: Sys, t: Id, slot: C.Slot, copy: I.Copy, refused: bool, ts: seq<Id>)
    requires Inv(s) && t >= 0 && I.StOf(s.i.st, t) == I.Ready && C.BySlot(slot) in s.k.refs && t in ts
    ensures var s1 := ApplySend(s, t, slot, copy, refused);
            Inv(s1) && I.StOf(ApplyClose(s1, slot, ts, {}).i.st, t) == I.Ready
  {
    hide Inv, ApplySend, ApplyClose, C.UsesSlot, I.StOf;
    SendStays(s, t, slot, copy, refused);
    SendThrough(s, t, slot, copy, refused);
    CloseFrees(ApplySend(s, t, slot, copy, refused), slot, ts, {});
  }
}
