/**
 Attach, detach and channel destruction in the form of the code: tables updated in place,
 the scan for a connection to share, the loops over threads, server places and shared
 connections, and error exits that undo what has been done so far.
 */
module ConnectKernel {
  import opened Base
  import opened Pril
  import opened Connect
  import opened ChannelDestroy
  import opened ConnectRuns

  datatype Outcome = Shared(c: Id) | Opened | OpenedBeside(m: Id) | Failed

  class Kernel {
    var conns: map<Id, Conn>
    var refs: map<Ref, Id>
    var srv: map<Port, Id>
    var children: map<Id, seq<Id>>
    var nfds: map<Id, nat>
    var chproc: map<Id, Id>
    var disconnect: set<Id>
    var via: map<Id, Slot>

    function View(): State
      reads this
    {
      State(conns, refs, srv, children, nfds, chproc, disconnect, via)
    }

    constructor ()
      ensures Start(View())
    {
      conns, refs, srv, children, nfds, chproc, disconnect, via := map[], map[], map[], map[], map[], map[], {}, map[];
    }

    /** The object at an index of one of the two vectors of process `p`. */
    function Entry(p: Id, side: bool, i: nat): Option<Id>
      reads this
    {
      if BySlot(Slot(p, side, i)) in refs then Some(refs[BySlot(Slot(p, side, i))])
      else if side && Port(p, i) in srv then Some(srv[Port(p, i)])
      else None
    }

    predicate Sharable(p: Id, ch: Id, qos: nat, e: Option<Id>)
      reads this
    {
      e.Some? && Matches(View(), p, ch, e.value) && conns[e.value].qos == qos
    }

    /** A connection of `p` to the channel, of whatever quality of service. */
    predicate Related(p: Id, ch: Id, e: Option<Id>)
      reads this
    {
      e.Some? && Matches(View(), p, ch, e.value)
    }

    /** The connection whose place at the server a related one stands at: its own or its master's. */
    ghost predicate Master(p: Id, ch: Id, e: Option<Id>, m: Id)
      reads this
    {
      && Related(p, ch, e) && m in conns && !conns[m].v && conns[m].links != 0 && conns[m].ch == Some(ch)
      && if conns[e.value].v then ByChild(e.value) in refs && refs[ByChild(e.value)] == m else m == e.value
    }

    ghost predicate HoldsSharable(p: Id, side: bool, n: nat, ch: Id, qos: nat)
      reads this
    {
      exists i :: 0 <= i < n && Sharable(p, ch, qos, Entry(p, side, i))
    }

    ghost predicate HoldsRelated(p: Id, side: bool, n: nat, ch: Id)
      reads this
    {
      exists i :: 0 <= i < n && Related(p, ch, Entry(p, side, i))
    }

    ghost predicate HoldsMaster(p: Id, side: bool, n: nat, ch: Id, m: Id)
      reads this
    {
      exists i :: 0 <= i < n && Master(p, ch, Entry(p, side, i), m)
    }

    ghost predicate HoldsShared(p: Id, side: bool, n: nat, ch: Id, qos: nat, c: Id)
      reads this
    {
      exists i :: 0 <= i < n && Sharable(p, ch, qos, Entry(p, side, i)) && Entry(p, side, i) == Some(c)
    }

    /** One of the two vectors is scanned; `before` is the master the other one gave. */
    method ScanVector(p: Id, side: bool, n: nat, ch: Id, qos: nat, before: Option<Id>) returns (shared: Option<Id>,
                                                                                                master: Option<Id>)
      requires Inv(View())
      ensures shared.Some? <==> HoldsSharable(p, side, n, ch, qos)
      ensures shared.Some? ==> HoldsShared(p, side, n, ch, qos, shared.value)
      ensures before.Some? ==> master == before
      ensures before == None && shared == None ==> (master.Some? <==> HoldsRelated(p, side, n, ch))
      ensures before == None && master.Some? ==> HoldsMaster(p, side, n, ch, master.value)
    {
      master := before;
      for i := 0 to n
        invariant forall j :: 0 <= j < i ==> !Sharable(p, ch, qos, Entry(p, side, j))
        invariant before.Some? ==> master == before
        invariant before == None && master == None ==> forall j :: 0 <= j < i ==> !Related(p, ch, Entry(p, side, j))
        invariant before == None && master.Some? ==> HoldsMaster(p, side, i, ch, master.value)
      {
        hide InvExcept;
        var e := Entry(p, side, i);
        if e.Some? && Matches(View(), p, ch, e.value) {
          if conns[e.value].qos == qos {
            assert Sharable(p, ch, qos, Entry(p, side, i));
            return e, master;
          }
          if master == None {
            if conns[e.value].v {
              ParentFacts(View(), e.value);
              SameChannel(View(), e.value);
              master := Some(refs[ByChild(e.value)]);
            } else {
              master := e;
            }
            assert Master(p, ch, Entry(p, side, i), master.value);
          }
        }
      }
      shared := None;
    }

    /** Scan the descriptors, then the side channels. */
    method FindConnection(p: Id, nfd: nat, nside: nat, ch: Id, qos: nat) returns (shared: Option<Id>,
                                                                                  master: Option<Id>)
      requires Inv(View())
      ensures shared.Some? <==> HoldsSharable(p, false, nfd, ch, qos) || HoldsSharable(p, true, nside, ch, qos)
      ensures shared.Some? ==> HoldsShared(p, false, nfd, ch, qos, shared.value)
                               || HoldsShared(p, true, nside, ch, qos, shared.value)
      ensures shared == None ==>
                (master.Some? <==> HoldsRelated(p, false, nfd, ch) || HoldsRelated(p, true, nside, ch))
      ensures master.Some? ==> HoldsMaster(p, false, nfd, ch, master.value)
                               || HoldsMaster(p, true, nside, ch, master.value)
    {
      hide Inv, HoldsSharable, HoldsShared, HoldsRelated, HoldsMaster;
      shared, master := ScanVector(p, false, nfd, ch, qos, None);
      if shared == None {
        ghost var first := master;
        shared, master := ScanVector(p, true, nside, ch, qos, master);
        assert first.Some? ==> HoldsRelated(p, false, nfd, ch);
      }
    }

    /** The descriptor is entered first and taken back if it is over the limit. */
    method ShareConnection(slot: Slot, over: bool, c: Id) returns (ok: bool)
      requires c in conns && FreeSlot(View(), slot)
      modifies this`conns, this`refs, this`nfds
      ensures ok <==> !over
      ensures View() == if ok then AttachShared(old(View()), slot, c) else old(View())
    {
      ok := !over;
      refs := refs[BySlot(slot) := c];
      if over {
        refs := refs - {BySlot(slot)};
        assert refs == old(refs);
        return;
      }
      conns := conns[c := conns[c].(links := conns[c].links + 1)];
      nfds := nfds[slot.p := N(nfds, slot.p) + 1];
    }

    /** A new connection at a server place; a full vector takes the descriptor back too. */
    method OpenConnection(slot: Slot, over: bool, c: Id, ch: Id, scoid: Option<nat>, qos: nat) returns (ok: bool)
      requires ch in chproc && FreeSlot(View(), slot)
      modifies this`conns, this`refs, this`nfds, this`srv
      ensures ok <==> !over && scoid.Some?
      ensures View() == if ok then AttachNew(old(View()), slot, c, ch, scoid.value, qos) else old(View())
    {
      ok := !over && scoid.Some?;
      refs := refs[BySlot(slot) := c];
      if !ok {
        refs := refs - {BySlot(slot)};
        assert refs == old(refs);
        return;
      }
      srv := srv[Port(chproc[ch], scoid.value) := c];
      conns := conns[c := Conn(Some(slot.p), Some(ch), 1, scoid.value, false, qos)];
      nfds := nfds[slot.p := N(nfds, slot.p) + 1];
    }

    /** A new connection that shares the server place of `m`. */
    method OpenBesideConnection(slot: Slot, over: bool, c: Id, m: Id, qos: nat) returns (ok: bool)
      requires m in conns && c != m && FreeSlot(View(), slot)
      modifies this`conns, this`refs, this`nfds, this`children
      ensures ok <==> !over
      ensures View() == if ok then AttachChild(old(View()), slot, c, m, qos) else old(View())
    {
      ok := !over;
      refs := refs[BySlot(slot) := c];
      if over {
        refs := refs - {BySlot(slot)};
        assert refs == old(refs);
        return;
      }
      conns := conns[c := Conn(Some(slot.p), conns[m].ch, 1, conns[m].scoid, true, qos)];
      conns := conns[m := conns[m].(links := conns[m].links + 1)];
      refs := refs[ByChild(c) := m];
      children := children[m := [c] + Kids(children, m)];
      nfds := nfds[slot.p := N(nfds, slot.p) + 1];
    }

    /** `ker_connect_attach`: `slot` and `scoid` are what the vectors hand out (None when full),
        `c` comes from the pool (None when empty), `over` is the descriptor limit. */
    method Attach(share: bool, nfd: nat, nside: nat, ch: Id, qos: nat, p: Id,
                  slot: Option<Slot>, over: bool, c: Option<Id>, scoid: Option<nat>) returns (r: Outcome)
      requires Inv(View())
      requires slot.Some? ==> slot.value.p == p && FreeSlot(View(), slot.value)
      requires c.Some? ==> c.value !in conns
      modifies this
      ensures r.Shared? <==>
                && old(ch in chproc) && share && slot.Some? && !over
                && old(HoldsSharable(p, false, nfd, ch, qos) || HoldsSharable(p, true, nside, ch, qos))
      ensures r.OpenedBeside? <==>
                && old(ch in chproc) && share && slot.Some? && c.Some? && !over
                && !old(HoldsSharable(p, false, nfd, ch, qos) || HoldsSharable(p, true, nside, ch, qos))
                && old(HoldsRelated(p, false, nfd, ch) || HoldsRelated(p, true, nside, ch))
      ensures r.Opened? <==>
                && old(ch in chproc) && slot.Some? && c.Some? && !over && scoid.Some?
                && !(share && old(HoldsRelated(p, false, nfd, ch) || HoldsRelated(p, true, nside, ch)))
      ensures match r
              case Shared(d) =>
                && old(HoldsShared(p, false, nfd, ch, qos, d) || HoldsShared(p, true, nside, ch, qos, d))
                && View() == AttachShared(old(View()), slot.value, d)
              case OpenedBeside(m) =>
                && old(HoldsMaster(p, false, nfd, ch, m) || HoldsMaster(p, true, nside, ch, m))
                && View() == AttachChild(old(View()), slot.value, c.value, m, qos)
              case Opened => View() == AttachNew(old(View()), slot.value, c.value, ch, scoid.value, qos)
              case Failed => View() == old(View())
      ensures r != Failed ==> Leads(View(), slot.value, ch, qos)
      ensures !r.Opened? || old(Enabled(View(), Open(slot.value, c.value, ch, scoid.value, qos))) ==> Inv(View())
    {
      hide InvExcept, AttachShared, AttachNew, AttachChild, FreeSlot, HoldsSharable, HoldsShared, HoldsRelated,
           HoldsMaster;
      if ch !in chproc {
        return Failed;
      }
      var shared, master := None, None;
      if share {
        shared, master := FindConnection(p, nfd, nside, ch, qos);
        Found(p, ch, qos);
      }
      if slot == None || (shared == None && c == None) {
        return Failed;
      }
      var ok := false;
      ghost var s := View();
      if shared.Some? {
        ShareLeads(s, slot.value, shared.value, ch);
        ok := ShareConnection(slot.value, over, shared.value);
        r := if ok then Shared(shared.value) else Failed;
      } else if master.Some? {
        BesideLeads(s, slot.value, c.value, master.value, qos);
        ok := OpenBesideConnection(slot.value, over, c.value, master.value, qos);
        r := if ok then OpenedBeside(master.value) else Failed;
      } else {
        OpenLeads(s, slot.value, c.value, ch, scoid, qos);
        ok := OpenConnection(slot.value, over, c.value, ch, scoid, qos);
        r := if ok then Opened else Failed;
      }
    }

    /** What a search finds exists; a connection that can be shared is a related one. */
    lemma Found(p: Id, ch: Id, qos: nat)
      ensures forall side, n :: HoldsSharable(p, side, n, ch, qos) ==> HoldsRelated(p, side, n, ch)
      ensures forall side, n, d :: HoldsShared(p, side, n, ch, qos, d) ==> Sharable(p, ch, qos, Some(d))
      ensures forall side, n, m :: HoldsMaster(p, side, n, ch, m) ==>
                m in conns && conns[m].ch == Some(ch) && !conns[m].v && conns[m].links != 0
    {
      forall side, n: nat | HoldsSharable(p, side, n, ch, qos) ensures HoldsRelated(p, side, n, ch) {
        var i :| 0 <= i < n && Sharable(p, ch, qos, Entry(p, side, i));
        assert Related(p, ch, Entry(p, side, i));
      }
    }

    /** `connect_detach` for a connection with its own server place. */
    method DetachOwn(c: Id)
      requires c in conns
      modifies this`conns, this`srv, this`children
      ensures View() == DetachPlain(old(View()), c)
    {
      var conn := conns[c];
      if conn.ch.Some? && conn.ch.value in chproc {
        if conn.ch.value in disconnect {
          conns := conns[c := conn.(proc := None)];
          return;
        }
        srv := srv - {Port(chproc[conn.ch.value], conn.scoid)};
      }
      conns := conns - {c};
      children := children - {c};
    }

    /** The count of the connection that `c` shares with goes down, and `c` is freed. */
    method DetachShared(c: Id)
      requires ByChild(c) in refs && refs[ByChild(c)] in conns && refs[ByChild(c)] != c
      requires conns[refs[ByChild(c)]].links > 0
      modifies this
      ensures View() == Free(DropPlain(old(View()), ByChild(c)), c)
    {
      var m := refs[ByChild(c)];
      children := children[m := Remove(Kids(children, m), c)];
      refs := refs - {ByChild(c)};
      conns := conns[m := conns[m].(links := conns[m].links - 1)];
      if conns[m].links == 0 {
        DetachOwn(m);
      }
      conns := conns - {c};
      children := children - {c};
    }

    /** A reference is given up: the count goes down, and at zero the connection is detached. */
    method Release(r: Ref)
      requires Inv(View()) && r in refs && !r.ByChild?
      modifies this
      ensures View() == Drop(old(View()), r)
    {
      hide InvExcept, DropPlain, Discharge, Free;
      LinksPositive(View(), r);
      var c := refs[r];
      if conns[c].links == 1 && conns[c].v {
        ParentFacts(View(), c);
        DropOrder(View(), r, c);
        refs := refs - {r};
        nfds := Discharge(nfds, r);
        DetachShared(c);
      } else {
        ReleasePlain(r);
      }
    }

    method ReleasePlain(r: Ref)
      requires r in refs && !r.ByChild? && refs[r] in conns && conns[refs[r]].links > 0
      modifies this
      ensures View() == DropPlain(old(View()), r)
    {
      hide DetachPlain, Discharge;
      var c := refs[r];
      refs := refs - {r};
      nfds := Discharge(nfds, r);
      conns := conns[c := conns[c].(links := conns[c].links - 1)];
      if conns[c].links == 0 {
        DetachOwn(c);
      }
    }

    /** The threads blocked through the descriptor are made ready. */
    method EvictThreads(slot: Slot, ts: seq<Id>, kept: set<Id>)
      requires Inv(View())
      modifies this
      ensures View() == Evict(old(View()), slot, ts, kept)
    {
      var i := 0;
      while i < |ts|
        invariant 0 <= i <= |ts|
        invariant Inv(View())
        invariant Evict(View(), slot, ts[i..], kept) == Evict(old(View()), slot, ts, kept)
      {
        hide InvExcept, Drop;
        assert ts[i..][1..] == ts[i + 1..];
        if UsesSlot(View(), ts[i], slot, kept) {
          DropKeeps(View(), ByThread(ts[i]));
          Release(ByThread(ts[i]));
        }
        i := i + 1;
      }
    }

    /** `ker_connect_detach` on a client descriptor. */
    method DetachClient(slot: Slot, ts: seq<Id>, kept: set<Id>) returns (ok: bool)
      requires Inv(View())
      modifies this
      ensures ok <==> old(BySlot(slot) in refs)
      ensures View() == Detach(old(View()), slot, ts, kept)
    {
      hide InvExcept, Drop;
      ok := BySlot(slot) in refs;
      if ok {
        EvictSpares(View(), slot, ts, kept, BySlot(slot));
        EvictThreads(slot, ts, kept);
        Release(BySlot(slot));
      }
    }

    /** ... on a server place. */
    method DetachPlace(k: Port) returns (ok: bool)
      requires Inv(View())
      modifies this
      ensures ok <==> old(k in srv && conns[srv[k]].links == 0)
      ensures View() == ServerDetach(old(View()), k)
      ensures if ok then k !in srv && old(srv[k]) !in conns else View() == old(View())
    {
      ok := k in srv && conns[srv[k]].links == 0;
      if ok {
        var c := srv[k];
        srv := srv - {k};
        conns := conns - {c};
        children := children - {c};
      }
    }

    /** The channel pointer is cleared along the list of connections that share a place. */
    method CutList(q: seq<Id>)
      modifies this`conns
      ensures conns == Cut(old(conns), q)
    {
      var i := 0;
      while i < |q|
        invariant 0 <= i <= |q|
        invariant Cut(conns, q[i..]) == Cut(old(conns), q)
      {
        assert q[i..][1..] == q[i + 1..];
        if q[i] in conns {
          conns := conns[q[i] := conns[q[i]].(ch := None)];
        }
        i := i + 1;
      }
    }

    /** What `ker_channel_destroy` does at one server place. */
    method SeverPlace(k: Port, ch: Id)
      modifies this`conns, this`srv, this`children
      ensures View() == SeverSlot(old(View()), k, ch)
    {
      hide Cut, Kids;
      if k in srv && srv[k] in conns && conns[srv[k]].ch == Some(ch) {
        var c := srv[k];
        srv := srv - {k};
        if conns[c].links == 0 {
          conns := conns - {c};
          children := children - {c};
        } else {
          CutList([c] + Kids(children, c));
        }
      }
    }

    /** The entry of a destroyed channel is given up. */
    method ForgetChannel(ch: Id)
      modifies this`chproc, this`disconnect
      ensures View() == old(View()).(chproc := old(chproc) - {ch}, disconnect := old(disconnect) - {ch})
    {
      chproc := chproc - {ch};
      disconnect := disconnect - {ch};
    }
  }

  /** The descriptor leads to a connection of its process to the channel, of that quality of
      service. */
  ghost predicate Leads(s: State, slot: Slot, ch: Id, qos: nat) {
    && BySlot(slot) in s.refs && Matches(s, slot.p, ch, s.refs[BySlot(slot)])
    && s.conns[s.refs[BySlot(slot)]].qos == qos
  }

  lemma ShareLeads(s: State, slot: Slot, c: Id, ch: Id)
    requires Inv(s) && FreeSlot(s, slot) && Matches(s, slot.p, ch, c)
    ensures Leads(AttachShared(s, slot, c), slot, ch, s.conns[c].qos) && Inv(AttachShared(s, slot, c))
  {
    hide InvExcept;
    StepKeeps(s, Share(slot, c));
  }

  lemma BesideLeads(s: State, slot: Slot, c: Id, m: Id, qos: nat)
    requires Inv(s) && FreeSlot(s, slot) && c !in s.conns && m in s.conns && s.conns[m].ch.Some?
    requires !s.conns[m].v && s.conns[m].links != 0
    ensures Leads(AttachChild(s, slot, c, m, qos), slot, s.conns[m].ch.value, qos)
    ensures Inv(AttachChild(s, slot, c, m, qos))
  {
    hide InvExcept;
    StepKeeps(s, OpenBeside(slot, c, m, qos));
  }

  lemma OpenLeads(s: State, slot: Slot, c: Id, ch: Id, scoid: Option<nat>, qos: nat)
    requires Inv(s) && c !in s.conns && ch in s.chproc
    ensures scoid.Some? ==> Leads(AttachNew(s, slot, c, ch, scoid.value, qos), slot, ch, qos)
    ensures scoid.Some? && Enabled(s, Open(slot, c, ch, scoid.value, qos)) ==>
              Inv(AttachNew(s, slot, c, ch, scoid.value, qos))
  {
    hide InvExcept;
    if scoid.Some? && Enabled(s, Open(slot, c, ch, scoid.value, qos)) {
      StepKeeps(s, Open(slot, c, ch, scoid.value, qos));
    }
  }

  /** A connection and the one it shares a place with are on the same channel. */
  lemma SameChannel(s: State, c: Id)
    requires Inv(s) && c in s.conns && s.conns[c].v && ByChild(c) in s.refs && s.refs[ByChild(c)] in s.conns
    ensures s.conns[s.refs[ByChild(c)]].ch == s.conns[c].ch
  {
  }

  /** Giving up the last reference before or after the shared connection is told makes no
      difference. */
  lemma DropOrder(s: State, r: Ref, c: Id)
    requires Inv(s) && r in s.refs && !r.ByChild? && s.refs[r] == c && c in s.conns && s.conns[c].v
    requires s.conns[c].links == 1
    requires ByChild(c) in s.refs && s.refs[ByChild(c)] in s.conns && s.conns[s.refs[ByChild(c)]].links > 0
    requires s.refs[ByChild(c)] != c
    ensures Free(DropPlain(s.(refs := s.refs - {r}, nfds := Discharge(s.nfds, r)), ByChild(c)), c) == Drop(s, r)
  {
    hide InvExcept, Discharge, DropPlain;
    DropPlainLater(s, r, ByChild(c), Discharge(s.nfds, r));
    assert Discharge(DropPlain(s, ByChild(c)).nfds, r) == Discharge(s.nfds, r) by {
      DropPlainParts(s, ByChild(c));
    }
  }

  lemma DropPlainParts(s: State, q: Ref)
    requires q.ByChild? && q in s.refs && s.refs[q] in s.conns && s.conns[s.refs[q]].links > 0
    ensures DropPlain(s, q).nfds == s.nfds
    ensures DropPlain(s, q).refs == s.refs - {q}
  {
    hide Unlink;
  }

  lemma DropPlainLater(s: State, r: Ref, q: Ref, nfds: map<Id, nat>)
    requires q.ByChild? && r != q && q in s.refs && s.refs[q] in s.conns && s.conns[s.refs[q]].links > 0
    ensures DropPlain(s.(refs := s.refs - {r}, nfds := nfds), q) ==
            DropPlain(s, q).(refs := DropPlain(s, q).refs - {r}, nfds := nfds)
  {
    var m := s.refs[q];
    var conn := s.conns[m];
    assert (s.refs - {r}) - {q} == (s.refs - {q}) - {r};
    hide Unlink, DetachPlain;
    var a := s.(refs := s.refs - {q}, children := Unlink(s.children, q, m),
                conns := s.conns[m := conn.(links := conn.links - 1)]);
    var b := a.(refs := a.refs - {r}, nfds := nfds);
    DetachPlainLater(a, m, b.refs, nfds);
  }

  lemma DetachPlainLater(s: State, c: Id, refs: map<Ref, Id>, nfds: map<Id, nat>)
    requires c in s.conns
    ensures DetachPlain(s.(refs := refs, nfds := nfds), c) == DetachPlain(s, c).(refs := refs, nfds := nfds)
    ensures DetachPlain(s, c).refs == s.refs
  {
    var conn := s.conns[c];
    var s' := s.(refs := refs, nfds := nfds);
    if conn.ch == None || conn.ch.value !in s.chproc {
      assert DetachPlain(s, c) == Free(s, c) && DetachPlain(s', c) == Free(s', c);
    } else if conn.ch.value in s.disconnect {
    } else {
      var srv' := s.srv - {Port(s.chproc[conn.ch.value], conn.scoid)};
      assert DetachPlain(s, c) == Free(s.(srv := srv'), c) && DetachPlain(s', c) == Free(s'.(srv := srv'), c);
    }
  }
}
