/**
 The calls on connections and channels that involve no blocked thread: the three ways to
 attach, the detach of a server's place, and the creation of a channel.
 */
module ConnectRuns {
  import opened Base
  import opened Pril
  import opened Connect

  datatype Event =
    | Share(slot: Slot, c: Id)
    | Open(slot: Slot, c: Id, ch: Id, scoid: nat, qos: nat)
    | OpenBeside(slot: Slot, c: Id, m: Id, qos: nat)
    | CloseServer(k: Port)
    | CreateChannel(ch: Id, p: Id, tellServer: bool)

  /** What the scan for an existing connection looks for. */
  predicate Matches(s: State, p: Id, ch: Id, c: Id) {
    c in s.conns && s.conns[c].proc == Some(p) && s.conns[c].ch == Some(ch) && s.conns[c].links != 0
  }

  /** Indices come from the vectors, which hand out free ones; objects come from the pool. */
  ghost predicate Enabled(s: State, e: Event) {
    match e
    case Share(slot, c) => FreeSlot(s, slot) && exists ch :: Matches(s, slot.p, ch, c)
    case Open(slot, c, ch, scoid, _) =>
      && c !in s.conns && ch in s.chproc && FreeSlot(s, slot)
      && Port(s.chproc[ch], scoid) !in s.srv && FreeSlot(s, Slot(s.chproc[ch], true, scoid))
      && slot != Slot(s.chproc[ch], true, scoid)
    case OpenBeside(slot, c, m, _) =>
      c !in s.conns && m in s.conns && !s.conns[m].v && s.conns[m].links != 0 && FreeSlot(s, slot)
    case CloseServer(_) => true
    case CreateChannel(ch, _, _) => ch !in s.chproc
  }

  ghost function Apply(s: State, e: Event): (s': State)
    requires Inv(s) && Enabled(s, e)
  {
    match e
    case Share(slot, c) => AttachShared(s, slot, c)
    case Open(slot, c, ch, scoid, qos) => AttachNew(s, slot, c, ch, scoid, qos)
    case OpenBeside(slot, c, m, qos) => AttachChild(s, slot, c, m, qos)
    case CloseServer(k) => ServerDetach(s, k)
    case CreateChannel(ch, p, tellServer) =>
      s.(chproc := s.chproc[ch := p], disconnect := if tellServer then s.disconnect + {ch} else s.disconnect - {ch})
  }

  lemma CreateKeeps(s: State, ch: Id, p: Id)
    requires Inv(s) && ch !in s.chproc
    ensures Served(s.conns, s.srv, s.chproc[ch := p])
  {
    var chproc' := s.chproc[ch := p];
    hide Counted, Live, Charged, Nested, Listed, Apart, Noted, Idle;
    forall c, k | c in s.conns && AtPort(chproc', s.conns[c], k) ensures k in s.srv && s.srv[k] == c {
      assert AtPort(s.chproc, s.conns[c], k);
    }
    forall k | k in s.srv ensures s.srv[k] in s.conns && AtPort(chproc', s.conns[s.srv[k]], k) {
      assert AtPort(s.chproc, s.conns[s.srv[k]], k);
    }
  }

  lemma StepKeeps(s: State, e: Event)
    requires Inv(s) && Enabled(s, e)
    ensures Inv(Apply(s, e))
  {
    hide Counted, Live, Charged, Nested, Listed, Served, Apart, Noted, Idle;
    match e
    case Share(slot, c) => HoldKeeps(s, BySlot(slot), c);
    case Open(slot, c, ch, scoid, qos) => AttachNewKeeps(s, slot, c, ch, scoid, qos);
    case OpenBeside(slot, c, m, qos) => AttachChildKeeps(s, slot, c, m, qos);
    case CloseServer(k) => ServerDetachKeeps(s, k);
    case CreateChannel(ch, p, _) => CreateKeeps(s, ch, p);
  }

  ghost predicate Start(s: State) {
    s.conns == map[] && s.refs == map[] && s.srv == map[] && s.children == map[] && s.nfds == map[] && s.via == map[]
  }

  lemma StartHolds(s: State)
    requires Start(s)
    ensures Inv(s)
  {
    assert forall c :: Holders(s.refs, c) == {};
    assert forall p :: SlotsOf(s.refs, p) == {};
  }

  /** Opening a descriptor and closing it again, while nobody blocks on it, changes nothing
      for anybody else: the charge and the links go back to what they were. */
  lemma ShareThenClose(s: State, slot: Slot, c: Id, ts: seq<Id>, kept: set<Id>)
    requires Inv(s) && FreeSlot(s, slot) && c in s.conns && s.conns[c].links != 0
    requires forall t :: ByThread(t) in s.refs && t in s.via ==> s.via[t] != slot
    ensures Inv(AttachShared(s, slot, c))
    ensures var s' := Detach(AttachShared(s, slot, c), slot, ts, kept);
            s'.conns == s.conns && s'.refs == s.refs && s'.srv == s.srv && s'.children == s.children
              && forall p :: N(s'.nfds, p) == N(s.nfds, p)
  {
    var s1 := AttachShared(s, slot, c);
    HoldKeeps(s, BySlot(slot), c);
    hide InvExcept;
    EvictNothing(s1, slot, ts, kept);
    var s' := Drop(s1, BySlot(slot));
    assert s1.conns[c].links > 1;
    assert s'.refs == s.refs;
    assert s'.conns == s.conns;
    forall p ensures N(s'.nfds, p) == N(s.nfds, p) {
    }
  }

  lemma {:induction false} EvictNothing(s: State, slot: Slot, ts: seq<Id>, kept: set<Id>)
    requires Inv(s) && forall t :: !UsesSlot(s, t, slot, kept)
    ensures Evict(s, slot, ts, kept) == s
    decreases |ts|
  {
    hide Inv;
    if ts != [] {
      EvictNothing(s, slot, ts[1..], kept);
    }
  }
}
