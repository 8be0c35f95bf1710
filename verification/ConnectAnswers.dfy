/**
 What the calls on connections answer: where an attach leads, what becomes of a connection when
 a reference to it goes, and that closing undoes opening.
 */
module ConnectAnswers {
  import opened Base
  import opened Pril
  import opened Connect
  import opened ConnectRuns

  predicate Attaches(e: Event) {
    e.Share? || e.Open? || e.OpenBeside?
  }

  /** The links a connection has; none if it does not exist. */
  function LinksOf(conns: map<Id, Conn>, c: Id): nat {
    if c in conns then conns[c].links else 0
  }

  /** After an attach the descriptor leads to the connection asked for: of the caller, to the
      channel, of the quality of service, with one link more. No other descriptor and no thread
      is touched, and no connection but the one shared with gains a link. */
  lemma AttachReaches(s: State, e: Event)
    requires Inv(s) && Enabled(s, e) && Attaches(e)
    ensures var s' := Apply(s, e);
            && BySlot(e.slot) in s'.refs && s'.refs[BySlot(e.slot)] == e.c && e.c in s'.conns
            && s'.conns[e.c].proc == Some(e.slot.p) && s'.conns[e.c].links == LinksOf(s.conns, e.c) + 1
            && (e.Open? ==> s'.conns[e.c].ch == Some(e.ch) && s'.conns[e.c].qos == e.qos)
            && (e.OpenBeside? ==> s'.conns[e.c].ch == s.conns[e.m].ch && s'.conns[e.c].qos == e.qos)
            && (e.Share? ==> s'.conns[e.c] == s.conns[e.c].(links := s'.conns[e.c].links))
    ensures var s' := Apply(s, e);
            && (forall q: Ref :: !q.ByChild? && q != BySlot(e.slot) ==>
                  (q in s'.refs <==> q in s.refs) && (q in s.refs ==> s'.refs[q] == s.refs[q]))
            && (forall d :: d != e.c ==>
                  LinksOf(s'.conns, d) == LinksOf(s.conns, d) + if e.OpenBeside? && d == e.m then 1 else 0)
            && (forall p :: N(s'.nfds, p) == N(s.nfds, p) + if p == e.slot.p then 1 else 0)
  {
    hide InvExcept, FreeSlot;
  }

  /** A new connection takes exactly the place at the server that was handed out; the other two
      ways to attach take none. */
  lemma AttachPlaces(s: State, e: Event, k: Port)
    requires Inv(s) && Enabled(s, e) && Attaches(e)
    ensures k in Apply(s, e).srv <==> k in s.srv || (e.Open? && k == Port(s.chproc[e.ch], e.scoid))
    ensures k in s.srv ==> Apply(s, e).srv[k] == s.srv[k]
    ensures e.Open? && k == Port(s.chproc[e.ch], e.scoid) ==> Apply(s, e).srv[k] == e.c
  {
    hide InvExcept;
  }

  /** A thread that blocks through a descriptor holds the connection behind it, and is known to
      have come through that descriptor; nobody else's link or descriptor changes. */
  lemma BlockHolds(s: State, t: Id, slot: Slot)
    requires Inv(s) && BySlot(slot) in s.refs && ByThread(t) !in s.refs && s.refs[BySlot(slot)] in s.conns
    ensures var s', c := BlockOn(s, t, slot), s.refs[BySlot(slot)];
            && ByThread(t) in s'.refs && s'.refs[ByThread(t)] == c && UsesSlot(s', t, slot, {})
            && (forall q :: q != ByThread(t) ==>
                  (q in s'.refs <==> q in s.refs) && (q in s.refs ==> s'.refs[q] == s.refs[q]))
            && (forall u, n, kept :: u != t ==> (UsesSlot(s', u, n, kept) <==> UsesSlot(s, u, n, kept)))
            && forall d :: LinksOf(s'.conns, d) == LinksOf(s.conns, d) + if d == c then 1 else 0
  {
    hide InvExcept;
  }

  /** Closing the descriptor sends the thread home that blocked through it, unless its server has
      been told to. */
  lemma CloseEvicts(s: State, t: Id, slot: Slot, ts: seq<Id>, kept: set<Id>)
    requires Inv(s) && BySlot(slot) in s.refs && ByThread(t) !in s.refs && t in ts
    ensures s.refs[BySlot(slot)] in s.conns && Inv(BlockOn(s, t, slot))
    ensures ByThread(t) in Detach(BlockOn(s, t, slot), slot, ts, kept).refs <==> t in kept
  {
    BlockOnKeeps(s, t, slot);
    BlockHolds(s, t, slot);
    hide Inv, BlockOn, Detach;
    DetachTakes(BlockOn(s, t, slot), slot, ts, kept, ByThread(t));
  }

  // ---------------------------------------------------------------- giving up a reference

  /** The connection of a live channel that wants to be told stays at its place for the server. */
  predicate Lingers(s: State, c: Id)
    requires c in s.conns
  {
    !s.conns[c].v && s.conns[c].ch.Some? && s.conns[c].ch.value in s.chproc && s.conns[c].ch.value in s.disconnect
  }

  /** A connection loses one link, and is gone with its last one exactly unless it lingers. */
  ghost predicate LosesLink(s: State, s': State, c: Id)
    requires c in s.conns && s.conns[c].links > 0
  {
    && (c in s'.conns <==> s.conns[c].links > 1 || Lingers(s, c))
    && (c in s'.conns ==> s'.conns[c] == s.conns[c].(links := s.conns[c].links - 1, proc := s'.conns[c].proc))
    && (c in s'.conns ==> s'.conns[c].proc == if s.conns[c].links > 1 then s.conns[c].proc else None)
  }

  lemma DropPlainLoses(s: State, r: Ref)
    requires r in s.refs && s.refs[r] in s.conns && s.conns[s.refs[r]].links > 0
    requires s.conns[s.refs[r]].v ==> s.conns[s.refs[r]].links > 1
    ensures LosesLink(s, DropPlain(s, r), s.refs[r]) && DropPlain(s, r).refs == s.refs - {r}
    ensures forall d :: d != s.refs[r] ==>
              && (d in DropPlain(s, r).conns <==> d in s.conns)
              && (d in s.conns ==> DropPlain(s, r).conns[d] == s.conns[d])
  {
    hide Unlink, Discharge;
  }

  /** Giving up a reference: the connection loses the link. The last link of a sharing connection
      takes a link from the one it shares with, too. Nobody else's links change. */
  lemma DropAnswers(s: State, r: Ref)
    requires Inv(s) && r in s.refs && !r.ByChild?
    ensures var c, s' := s.refs[r], Drop(s, r);
            && c in s.conns && s.conns[c].links > 0 && LosesLink(s, s', c) && r !in s'.refs
            && if s.conns[c].v && s.conns[c].links == 1 then
                 && ByChild(c) in s.refs && ByChild(c) !in s'.refs && var m := s.refs[ByChild(c)];
                 && m in s.conns && s.conns[m].links > 0 && LosesLink(s, s', m)
                 && forall d :: d != c && d != m ==> LinksOf(s'.conns, d) == LinksOf(s.conns, d)
               else forall d :: d != c ==> LinksOf(s'.conns, d) == LinksOf(s.conns, d)
  {
    LinksPositive(s, r);
    var c := s.refs[r];
    if s.conns[c].links == 1 && s.conns[c].v {
      ParentFacts(s, c);
      hide InvExcept, DropPlain, Discharge;
      DropPlainLoses(s, ByChild(c));
    } else {
      hide InvExcept, DropPlain, Discharge;
      DropPlainLoses(s, r);
    }
  }

  // ---------------------------------------------------------------- closing undoes opening

  /** The same connections, references, places and lists, and the same charges. */
  ghost predicate SameTables(s: State, s': State) {
    && s'.conns == s.conns && s'.refs == s.refs && s'.srv == s.srv && s'.chproc == s.chproc
    && (forall d :: Kids(s'.children, d) == Kids(s.children, d))
    && forall p :: N(s'.nfds, p) == N(s.nfds, p)
  }

  lemma NoKids(s: State, c: Id)
    requires Inv(s) && c !in s.conns
    ensures Kids(s.children, c) == [] && ByChild(c) !in s.refs
  {
    var q := Kids(s.children, c);
    assert |q| > 0 ==> q[0] in q;
    forall v ensures v !in q {
      assert v in q <==> ByChild(v) in s.refs && s.refs[ByChild(v)] == c;
    }
  }

  lemma LastLink(s: State, r: Ref)
    requires r.BySlot? && r in s.refs && s.refs[r] in s.conns && s.conns[s.refs[r]].links == 1
    requires var conn := s.conns[s.refs[r]]; !conn.v && conn.ch.Some? && conn.ch.value in s.chproc
    ensures var c, conn, s' := s.refs[r], s.conns[s.refs[r]], DropPlain(s, r);
            && s'.refs == s.refs - {r} && s'.nfds == Discharge(s.nfds, r) && s'.chproc == s.chproc
            && if conn.ch.value in s.disconnect then
                 && s'.conns == s.conns[c := conn.(links := 0, proc := None)]
                 && s'.srv == s.srv && s'.children == s.children
               else
                 && s'.conns == s.conns - {c} && s'.children == s.children - {c}
                 && s'.srv == s.srv - {Port(s.chproc[conn.ch.value], conn.scoid)}
  {
    hide Discharge;
    var c, conn := s.refs[r], s.conns[s.refs[r]];
    assert s.conns[c := conn.(links := 0)] - {c} == s.conns - {c};
  }

  /** A new connection is gone after its descriptor has been closed, unless the channel wants to
      be told; then the server's detach of its place completes the closing. */
  lemma OpenThenClose(s: State, e: Event, ts: seq<Id>, kept: set<Id>)
    requires Inv(s) && Enabled(s, e) && e.Open?
    requires forall t :: ByThread(t) in s.refs && t in s.via ==> s.via[t] != e.slot
    ensures Inv(Apply(s, e))
    ensures var s2 := Detach(Apply(s, e), e.slot, ts, kept);
            if e.ch in s.disconnect then SameTables(s, ServerDetach(s2, Port(s.chproc[e.ch], e.scoid)))
            else SameTables(s, s2)
  {
    hide InvExcept;
    var s1, r := Apply(s, e), BySlot(e.slot);
    StepKeeps(s, e);
    NoKids(s, e.c);
    EvictNothing(s1, e.slot, ts, kept);
    LastLink(s1, r);
    assert Detach(s1, e.slot, ts, kept) == DropPlain(s1, r);
    hide DropPlain, Detach, Evict, Drop;
    if e.ch in s.disconnect {
      ClosesLate(s, s1, DropPlain(s1, r), e);
    } else {
      ClosesAtOnce(s, s1, DropPlain(s1, r), e);
    }
  }

  /** Tables with the entries of `e` added and taken away again. */
  lemma OpenedTables(s: State, e: Event)
    requires Inv(s) && Enabled(s, e) && e.Open?
    ensures var s1, r, k := Apply(s, e), BySlot(e.slot), Port(s.chproc[e.ch], e.scoid);
            && s1.refs - {r} == s.refs && s1.conns - {e.c} == s.conns && s1.srv - {k} == s.srv
            && s1.chproc == s.chproc && s1.children == s.children
            && k in s1.srv && s1.srv[k] == e.c && e.c in s1.conns
            && forall p :: N(Discharge(s1.nfds, r), p) == N(s.nfds, p)
  {
    hide InvExcept;
    var s1 := Apply(s, e);
    assert s1.refs - {BySlot(e.slot)} == s.refs;
    assert s1.conns - {e.c} == s.conns;
    assert s1.srv - {Port(s.chproc[e.ch], e.scoid)} == s.srv;
  }

  /** The server gives up a place without links: the connection goes with it; a place that still
      has links stays. */
  lemma PlaceGoes(s: State, k: Port)
    requires k in s.srv && s.srv[k] in s.conns
    ensures var c, s' := s.srv[k], ServerDetach(s, k);
            if s.conns[c].links > 0 then s' == s
            else && s'.srv == s.srv - {k} && s'.conns == s.conns - {c} && s'.children == s.children - {c}
                 && s'.refs == s.refs && s'.nfds == s.nfds && s'.chproc == s.chproc
  {
  }

  lemma ClosesAtOnce(s: State, s1: State, s2: State, e: Event)
    requires Inv(s) && Enabled(s, e) && e.Open? && s1 == Apply(s, e) && Kids(s.children, e.c) == []
    requires s2.refs == s1.refs - {BySlot(e.slot)} && s2.nfds == Discharge(s1.nfds, BySlot(e.slot))
    requires s2.chproc == s1.chproc && s2.conns == s1.conns - {e.c} && s2.children == s1.children - {e.c}
    requires s2.srv == s1.srv - {Port(s.chproc[e.ch], e.scoid)}
    ensures SameTables(s, s2)
  {
    OpenedTables(s, e);
    hide Inv, Apply, Discharge, N;
  }

  lemma ClosesLate(s: State, s1: State, s2: State, e: Event)
    requires Inv(s) && Enabled(s, e) && e.Open? && s1 == Apply(s, e) && Kids(s.children, e.c) == [] && e.c in s1.conns
    requires s2.refs == s1.refs - {BySlot(e.slot)} && s2.nfds == Discharge(s1.nfds, BySlot(e.slot))
    requires s2.chproc == s1.chproc && s2.srv == s1.srv && s2.children == s1.children
    requires s2.conns == s1.conns[e.c := s1.conns[e.c].(links := 0, proc := None)]
    ensures SameTables(s, ServerDetach(s2, Port(s.chproc[e.ch], e.scoid)))
  {
    OpenedTables(s, e);
    hide Inv, Apply, Discharge, N, ServerDetach;
    assert s2.conns - {e.c} == s1.conns - {e.c};
    PlaceGoes(s2, Port(s.chproc[e.ch], e.scoid));
  }

  lemma BesideTables(s: State, e: Event)
    requires Inv(s) && Enabled(s, e) && e.OpenBeside? && ByChild(e.c) !in s.refs
    ensures var s1, r, q := Apply(s, e), BySlot(e.slot), ByChild(e.c);
            && q in s1.refs && s1.refs[q] == e.m && r in s1.refs && s1.refs[r] == e.c
            && e.m in s1.conns && e.c in s1.conns
            && s1.refs - {q} - {r} == s.refs && s1.conns[e.m := s.conns[e.m]] - {e.c} == s.conns
            && s1.conns[e.m] == s.conns[e.m].(links := s.conns[e.m].links + 1) && s1.srv == s.srv
            && s1.conns[e.c].v && s1.conns[e.c].links == 1 && s1.chproc == s.chproc
            && s1.children == s.children[e.m := [e.c] + Kids(s.children, e.m)]
            && forall p :: N(Discharge(s1.nfds, r), p) == N(s.nfds, p)
  {
    hide InvExcept;
    var s1 := Apply(s, e);
    assert s1.refs - {ByChild(e.c)} - {BySlot(e.slot)} == s.refs;
    assert s1.conns[e.m := s.conns[e.m]] - {e.c} == s.conns;
  }

  lemma ShareLeaves(s: State, r: Ref, c: Id)
    requires Inv(s) && r.BySlot? && r in s.refs && s.refs[r] == c
    requires c in s.conns && s.conns[c].v && s.conns[c].links == 1
    requires ByChild(c) in s.refs && s.refs[ByChild(c)] in s.conns && s.conns[s.refs[ByChild(c)]].links > 1
    ensures var m, s' := s.refs[ByChild(c)], Drop(s, r);
            && s'.refs == s.refs - {ByChild(c)} - {r} && s'.srv == s.srv && s'.chproc == s.chproc
            && s'.nfds == Discharge(s.nfds, r)
            && s'.conns == s.conns[m := s.conns[m].(links := s.conns[m].links - 1)] - {c}
            && s'.children == s.children[m := Remove(Kids(s.children, m), c)] - {c}
  {
    hide InvExcept, Remove;
  }

  lemma CloseIsDrop(s: State, slot: Slot, ts: seq<Id>, kept: set<Id>)
    requires Inv(s) && BySlot(slot) in s.refs && forall t :: !UsesSlot(s, t, slot, kept)
    ensures Detach(s, slot, ts, kept) == Drop(s, BySlot(slot))
  {
    hide InvExcept, Drop;
    EvictNothing(s, slot, ts, kept);
  }

  lemma NobodyUses(s: State, e: Event, kept: set<Id>)
    requires Inv(s) && Enabled(s, e) && Attaches(e)
    requires forall t :: ByThread(t) in s.refs && t in s.via ==> s.via[t] != e.slot
    ensures forall t :: !UsesSlot(Apply(s, e), t, e.slot, kept)
  {
    hide InvExcept;
  }

  lemma ClosesBeside(s: State, s1: State, s2: State, e: Event)
    requires Inv(s) && Enabled(s, e) && e.OpenBeside? && s1 == Apply(s, e) && Kids(s.children, e.c) == []
    requires ByChild(e.c) !in s.refs
    requires e.m in s1.conns && s1.conns[e.m].links > 0
    requires s2.refs == s1.refs - {ByChild(e.c)} - {BySlot(e.slot)} && s2.srv == s1.srv && s2.chproc == s1.chproc
    requires s2.nfds == Discharge(s1.nfds, BySlot(e.slot))
    requires s2.conns == s1.conns[e.m := s1.conns[e.m].(links := s1.conns[e.m].links - 1)] - {e.c}
    requires s2.children == s1.children[e.m := Remove(Kids(s1.children, e.m), e.c)] - {e.c}
    ensures SameTables(s, s2)
  {
    BesideTables(s, e);
    hide Inv, Apply, Discharge, N;
    assert s1.conns[e.m].(links := s1.conns[e.m].links - 1) == s.conns[e.m];
  }

  /** Closing a connection that stands beside another gives back everything. */
  lemma BesideThenClose(s: State, e: Event, ts: seq<Id>, kept: set<Id>)
    requires Inv(s) && Enabled(s, e) && e.OpenBeside?
    requires forall t :: ByThread(t) in s.refs && t in s.via ==> s.via[t] != e.slot
    ensures Inv(Apply(s, e)) && SameTables(s, Detach(Apply(s, e), e.slot, ts, kept))
  {
    hide Inv, Detach, Drop, UsesSlot, SameTables;
    var s1, r := Apply(s, e), BySlot(e.slot);
    StepKeeps(s, e);
    NoKids(s, e.c);
    NobodyUses(s, e, kept);
    BesideTables(s, e);
    hide Apply, Discharge, N;
    CloseIsDrop(s1, e.slot, ts, kept);
    ShareLeaves(s1, r, e.c);
    ClosesBeside(s, s1, Drop(s1, r), e);
  }
}
