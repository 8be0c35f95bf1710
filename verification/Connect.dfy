/**
 Connections and channels: who holds a connection object, when it is freed, and what is left
 of it when the channel goes.

 A connection is held by file-descriptor slots of its client process, by threads that are
 send- or reply-blocked on it, and by connections of another quality of service that share
 its place at the server. The place in the server's channel vector is not counted.
 */
module Connect {
  import opened Base
  import opened Pril

  datatype Slot = Slot(p: Id, side: bool, i: nat)   // in the client's fdcons or (side) chancons

  datatype Ref = BySlot(slot: Slot) | ByThread(t: Id) | ByChild(c: Id)

  datatype Port = Port(p: Id, i: nat)               // a place in a server's chancons

  datatype Conn = Conn(
    proc: Option<Id>,     // client process; None after the last link has gone
    ch: Option<Id>,       // None after the channel has gone
    links: nat,
    scoid: nat,
    v: bool,              // shares the server place of another connection
    qos: nat)

  datatype State = State(
    conns: map<Id, Conn>,
    refs: map<Ref, Id>,           // holder -> connection
    srv: map<Port, Id>,           // server place -> connection
    children: map<Id, seq<Id>>,   // the `next` list of a shared connection
    nfds: map<Id, nat>,
    chproc: map<Id, Id>,          // channel -> server process
    disconnect: set<Id>,          // channels that want a pulse when a client goes
    via: map<Id, Slot>)           // the descriptor a blocked thread used

  function Holders(refs: map<Ref, Id>, c: Id): set<Ref> {
    set r | r in refs && refs[r] == c
  }

  function SlotsOf(refs: map<Ref, Id>, p: Id): set<Ref> {
    set r | r in refs && r.BySlot? && r.slot.p == p
  }

  function Kids(children: map<Id, seq<Id>>, c: Id): seq<Id> {
    if c in children then children[c] else []
  }

  function N(m: map<Id, nat>, p: Id): nat {
    if p in m then m[p] else 0
  }

  // ---------------------------------------------------------------- invariants

  /** The link count is the number of holders. */
  ghost predicate Counted(conns: map<Id, Conn>, refs: map<Ref, Id>) {
    forall c :: c in conns ==> conns[c].links == |Holders(refs, c)|
  }

  /** Nothing refers to a freed connection. */
  ghost predicate Live(conns: map<Id, Conn>, refs: map<Ref, Id>) {
    forall r :: r in refs ==> refs[r] in conns
  }

  /** A process is charged for its descriptors. */
  ghost predicate Charged(refs: map<Ref, Id>, nfds: map<Id, nat>) {
    forall p :: N(nfds, p) == |SlotsOf(refs, p)|
  }

  /** Sharing is one level deep, within one channel, and on record at both ends; `orphan` has
      just been cut off. */
  ghost predicate Nested(conns: map<Id, Conn>, refs: map<Ref, Id>, orphan: Option<Id>) {
    && (forall v :: ByChild(v) in refs <==> v in conns && conns[v].v && orphan != Some(v))
    && (forall v :: ByChild(v) in refs && refs[ByChild(v)] in conns && v in conns ==>
          !conns[refs[ByChild(v)]].v && conns[refs[ByChild(v)]].ch == conns[v].ch)
  }

  ghost predicate Listed(refs: map<Ref, Id>, children: map<Id, seq<Id>>) {
    && (forall c :: Distinct(Kids(children, c)))
    && (forall v, c :: v in Kids(children, c) <==> ByChild(v) in refs && refs[ByChild(v)] == c)
  }

  predicate AtPort(chproc: map<Id, Id>, conn: Conn, k: Port) {
    !conn.v && conn.ch.Some? && conn.ch.value in chproc && k == Port(chproc[conn.ch.value], conn.scoid)
  }

  /** A connection to a live channel is at its own place at the server, and nothing else is. */
  ghost predicate Served(conns: map<Id, Conn>, srv: map<Port, Id>, chproc: map<Id, Id>) {
    && (forall c :: c in conns && conns[c].ch.Some? ==> conns[c].ch.value in chproc)
    && (forall c, k :: c in conns && AtPort(chproc, conns[c], k) ==> k in srv && srv[k] == c)
    && (forall k :: k in srv ==> srv[k] in conns && AtPort(chproc, conns[srv[k]], k))
  }

  /** A connection without links waits for its server to notice. */
  ghost predicate Idle(conns: map<Id, Conn>) {
    forall c :: c in conns ==>
      (conns[c].links == 0 <==> conns[c].proc == None) && (conns[c].links == 0 ==> !conns[c].v && conns[c].ch.Some?)
  }

  /** Descriptors and server places do not share an index. */
  ghost predicate Apart(refs: map<Ref, Id>, srv: map<Port, Id>) {
    forall k :: k in srv ==> BySlot(Slot(k.p, true, k.i)) !in refs
  }

  ghost predicate Noted(refs: map<Ref, Id>, via: map<Id, Slot>) {
    forall t :: ByThread(t) in refs ==> t in via
  }

  ghost predicate InvExcept(s: State, orphan: Option<Id>) {
    && Counted(s.conns, s.refs)
    && Live(s.conns, s.refs)
    && Charged(s.refs, s.nfds)
    && Nested(s.conns, s.refs, orphan)
    && Listed(s.refs, s.children)
    && Served(s.conns, s.srv, s.chproc)
    && Idle(s.conns)
    && Apart(s.refs, s.srv)
    && Noted(s.refs, s.via)
  }

  ghost predicate Inv(s: State) {
    InvExcept(s, None)
  }

  /** No leak: whatever is allocated is held by somebody or waits at its server place. */
  lemma NothingLeaks(s: State, c: Id)
    requires Inv(s) && c in s.conns
    ensures (exists r :: r in s.refs && s.refs[r] == c) || (exists k :: k in s.srv && s.srv[k] == c)
  {
    var conn := s.conns[c];
    if conn.links > 0 {
      var r :| r in Holders(s.refs, c);
      assert r in s.refs && s.refs[r] == c;
    } else {
      var k := Port(s.chproc[conn.ch.value], conn.scoid);
      assert AtPort(s.chproc, conn, k);
      assert k in s.srv && s.srv[k] == c;
    }
  }

  // ---------------------------------------------------------------- giving up a reference

  function Free(s: State, c: Id): State {
    s.(conns := s.conns - {c}, children := s.children - {c})
  }

  /** `connect_detach` on a connection that has its own place at the server. */
  function DetachPlain(s: State, c: Id): State
    requires c in s.conns
  {
    var conn := s.conns[c];
    if conn.ch == None || conn.ch.value !in s.chproc then Free(s, c)
    else if conn.ch.value in s.disconnect then s.(conns := s.conns[c := conn.(proc := None)])
    else Free(s.(srv := s.srv - {Port(s.chproc[conn.ch.value], conn.scoid)}), c)
  }

  function Unlink(children: map<Id, seq<Id>>, r: Ref, m: Id): map<Id, seq<Id>> {
    if r.ByChild? then children[m := Remove(Kids(children, m), r.c)] else children
  }

  function Discharge(nfds: map<Id, nat>, r: Ref): map<Id, nat> {
    if r.BySlot? && N(nfds, r.slot.p) > 0 then nfds[r.slot.p := N(nfds, r.slot.p) - 1] else nfds
  }

  /** The holder `r` lets go; the connection follows if that was the last link. */
  function DropPlain(s: State, r: Ref): State
    requires r in s.refs && s.refs[r] in s.conns && s.conns[s.refs[r]].links > 0
  {
    var c := s.refs[r];
    var conn := s.conns[c];
    var s1 := s.(refs := s.refs - {r}, children := Unlink(s.children, r, c), nfds := Discharge(s.nfds, r),
                 conns := s.conns[c := conn.(links := conn.links - 1)]);
    if conn.links == 1 then DetachPlain(s1, c) else s1
  }

  /** ... in general: a sharing connection passes the loss on to the one it shares with. */
  function Drop(s: State, r: Ref): State
    requires Inv(s) && r in s.refs && !r.ByChild?
  {
    var c := s.refs[r];
    var conn := s.conns[c];
    LinksPositive(s, r);
    if conn.links == 1 && conn.v then
      LinksPositive(s, ByChild(c));
      var s1 := DropPlain(s, ByChild(c));
      Free(s1.(refs := s1.refs - {r}, nfds := Discharge(s1.nfds, r)), c)
    else DropPlain(s, r)
  }

  lemma LinksPositive(s: State, r: Ref)
    requires Inv(s) && r in s.refs
    ensures s.refs[r] in s.conns && s.conns[s.refs[r]].links > 0
    ensures s.conns[s.refs[r]].v ==> ByChild(s.refs[r]) in s.refs
  {
    assert r in Holders(s.refs, s.refs[r]);
  }

  // ---------------------------------------------------------------- counting holders

  lemma HoldersDrop(refs: map<Ref, Id>, r: Ref, c: Id)
    requires r in refs
    ensures |Holders(refs, c)| == |Holders(refs - {r}, c)| + if refs[r] == c then 1 else 0
  {
    var h, h' := Holders(refs, c), Holders(refs - {r}, c);
    if refs[r] == c {
      assert h == h' + {r};
    } else {
      assert h == h';
    }
  }

  lemma HoldersAdd(refs: map<Ref, Id>, r: Ref, c: Id, d: Id)
    requires r !in refs
    ensures |Holders(refs[r := c], d)| == |Holders(refs, d)| + if c == d then 1 else 0
  {
    var refs' := refs[r := c];
    HoldersDrop(refs', r, d);
    assert refs' - {r} == refs;
  }

  lemma SlotsDrop(refs: map<Ref, Id>, r: Ref, p: Id)
    requires r in refs
    ensures |SlotsOf(refs, p)| == |SlotsOf(refs - {r}, p)| + if r.BySlot? && r.slot.p == p then 1 else 0
  {
    var h, h' := SlotsOf(refs, p), SlotsOf(refs - {r}, p);
    if r.BySlot? && r.slot.p == p {
      assert h == h' + {r};
    } else {
      assert h == h';
    }
  }

  lemma SlotsAdd(refs: map<Ref, Id>, r: Ref, c: Id, p: Id)
    requires r !in refs
    ensures |SlotsOf(refs[r := c], p)| == |SlotsOf(refs, p)| + if r.BySlot? && r.slot.p == p then 1 else 0
  {
    var refs' := refs[r := c];
    SlotsDrop(refs', r, p);
    assert refs' - {r} == refs;
  }

  // ---------------------------------------------------------------- one reference less

  /** `conn` with a new count; nothing else that the invariants see but the process. */
  predicate Recounted(conn: Conn, conn': Conn) {
    conn' == conn.(links := conn'.links, proc := conn'.proc)
  }

  lemma DropCounted(conns: map<Id, Conn>, refs: map<Ref, Id>, r: Ref, conn': Conn)
    requires Counted(conns, refs) && Live(conns, refs) && r in refs
    requires conn'.links == conns[refs[r]].links - 1
    ensures Counted(conns[refs[r] := conn'], refs - {r}) && Live(conns[refs[r] := conn'], refs - {r})
  {
    var conns' := conns[refs[r] := conn'];
    forall c | c in conns' ensures conns'[c].links == |Holders(refs - {r}, c)| {
      HoldersDrop(refs, r, c);
    }
  }

  /** A connection that nobody holds can be forgotten. */
  lemma FreeCounted(conns: map<Id, Conn>, refs: map<Ref, Id>, c: Id)
    requires Counted(conns, refs) && Live(conns, refs) && c in conns && conns[c].links == 0
    ensures Counted(conns - {c}, refs) && Live(conns - {c}, refs)
    ensures forall r :: r in refs ==> refs[r] != c
  {
    forall r | r in refs ensures refs[r] != c {
      assert r in Holders(refs, refs[r]);
    }
  }

  lemma DropCharged(refs: map<Ref, Id>, nfds: map<Id, nat>, r: Ref)
    requires Charged(refs, nfds) && r in refs
    ensures Charged(refs - {r}, Discharge(nfds, r))
  {
    var nfds' := Discharge(nfds, r);
    forall p ensures N(nfds', p) == |SlotsOf(refs - {r}, p)| {
      SlotsDrop(refs, r, p);
      assert N(nfds, p) == |SlotsOf(refs, p)|;
    }
  }

  /** Who is cut off once `r` has gone. */
  function Orphan(r: Ref, orphan: Option<Id>): Option<Id> {
    if r.ByChild? then Some(r.c) else orphan
  }

  lemma DropNested(conns: map<Id, Conn>, refs: map<Ref, Id>, r: Ref, orphan: Option<Id>)
    requires Nested(conns, refs, orphan) && r in refs && (orphan == None || !r.ByChild?)
    ensures Nested(conns, refs - {r}, Orphan(r, orphan))
  {
  }

  lemma RecountNested(conns: map<Id, Conn>, refs: map<Ref, Id>, orphan: Option<Id>, c: Id, conn': Conn)
    requires Nested(conns, refs, orphan) && c in conns && Recounted(conns[c], conn')
    ensures Nested(conns[c := conn'], refs, orphan)
  {
    var conns' := conns[c := conn'];
    forall v ensures ByChild(v) in refs <==> v in conns' && conns'[v].v && orphan != Some(v) {
      assert ByChild(v) in refs <==> v in conns && conns[v].v && orphan != Some(v);
    }
  }

  lemma FreeNested(conns: map<Id, Conn>, refs: map<Ref, Id>, orphan: Option<Id>, c: Id)
    requires Nested(conns, refs, orphan) && c in conns && (conns[c].v ==> orphan == Some(c))
    ensures Nested(conns - {c}, refs, if orphan == Some(c) then None else orphan)
  {
    var conns' := conns - {c};
    var orphan' := if orphan == Some(c) then None else orphan;
    forall v ensures ByChild(v) in refs <==> v in conns' && conns'[v].v && orphan' != Some(v) {
      assert ByChild(v) in refs <==> v in conns && conns[v].v && orphan != Some(v);
    }
  }

  lemma DropListed(refs: map<Ref, Id>, children: map<Id, seq<Id>>, r: Ref)
    requires Listed(refs, children) && r in refs
    ensures Listed(refs - {r}, Unlink(children, r, refs[r]))
  {
    var refs', children' := refs - {r}, Unlink(children, r, refs[r]);
    if r.ByChild? {
      RemoveMembers(Kids(children, refs[r]), r.c);
      RemoveKeepsDistinct(Kids(children, refs[r]), r.c);
    }
    forall v, c ensures v in Kids(children', c) <==> ByChild(v) in refs' && refs'[ByChild(v)] == c {
      assert v in Kids(children, c) <==> ByChild(v) in refs && refs[ByChild(v)] == c;
    }
    forall d ensures Distinct(Kids(children', d)) {
      assert Distinct(Kids(children, d));
    }
  }

  lemma RemoveKeepsDistinct(q: seq<Id>, t: Id)
    requires Distinct(q)
    ensures Distinct(Remove(q, t))
  {
    if t in q {
      RemoveOrder(q, map[], t);
    }
  }

  lemma FreeListed(refs: map<Ref, Id>, children: map<Id, seq<Id>>, c: Id)
    requires Listed(refs, children) && forall r :: r in refs ==> refs[r] != c
    ensures Listed(refs, children - {c})
  {
    var children' := children - {c};
    forall v, d ensures v in Kids(children', d) <==> ByChild(v) in refs && refs[ByChild(v)] == d {
      assert v in Kids(children, d) <==> ByChild(v) in refs && refs[ByChild(v)] == d;
    }
    forall d ensures Distinct(Kids(children', d)) {
      assert Distinct(Kids(children, d));
    }
  }

  lemma RecountServed(conns: map<Id, Conn>, srv: map<Port, Id>, chproc: map<Id, Id>, c: Id, conn': Conn)
    requires Served(conns, srv, chproc) && c in conns && Recounted(conns[c], conn')
    ensures Served(conns[c := conn'], srv, chproc)
  {
    var conns' := conns[c := conn'];
    forall d, k | d in conns' && AtPort(chproc, conns'[d], k) ensures k in srv && srv[k] == d {
      assert AtPort(chproc, conns[d], k);
    }
    forall k | k in srv ensures srv[k] in conns' && AtPort(chproc, conns'[srv[k]], k) {
      assert AtPort(chproc, conns[srv[k]], k);
    }
  }

  /** A connection without a place of its own leaves the places alone. */
  lemma FreeUnserved(conns: map<Id, Conn>, srv: map<Port, Id>, chproc: map<Id, Id>, c: Id)
    requires Served(conns, srv, chproc) && c in conns && (conns[c].v || conns[c].ch == None)
    ensures Served(conns - {c}, srv, chproc)
  {
    var conns' := conns - {c};
    forall k | k in srv ensures srv[k] in conns' && AtPort(chproc, conns'[srv[k]], k) {
      assert AtPort(chproc, conns[srv[k]], k);
    }
    forall d, k | d in conns' && AtPort(chproc, conns'[d], k) ensures k in srv && srv[k] == d {
      assert AtPort(chproc, conns[d], k);
    }
  }

  lemma FreeServed(conns: map<Id, Conn>, srv: map<Port, Id>, chproc: map<Id, Id>, c: Id, k: Port)
    requires Served(conns, srv, chproc) && c in conns && AtPort(chproc, conns[c], k)
    ensures Served(conns - {c}, srv - {k}, chproc)
  {
    var conns', srv' := conns - {c}, srv - {k};
    assert srv[k] == c;
    forall n | n in srv' ensures srv'[n] in conns' && AtPort(chproc, conns'[srv'[n]], n) {
      assert AtPort(chproc, conns[srv[n]], n);
    }
    forall d, n | d in conns' && AtPort(chproc, conns'[d], n) ensures n in srv' && srv'[n] == d {
      assert AtPort(chproc, conns[d], n);
    }
  }

  /** The reference goes, the connection stays. */
  lemma DropHolderKeeps(s: State, r: Ref, conn': Conn, orphan: Option<Id>)
    requires InvExcept(s, orphan) && r in s.refs && s.refs[r] in s.conns && (orphan == None || !r.ByChild?)
    requires Recounted(s.conns[s.refs[r]], conn') && conn'.links == s.conns[s.refs[r]].links - 1
    ensures var c := s.refs[r];
            var s' := s.(refs := s.refs - {r}, children := Unlink(s.children, r, c), nfds := Discharge(s.nfds, r),
                         conns := s.conns[c := conn']);
            && Counted(s'.conns, s'.refs) && Live(s'.conns, s'.refs) && Charged(s'.refs, s'.nfds)
            && Nested(s'.conns, s'.refs, Orphan(r, orphan)) && Listed(s'.refs, s'.children)
            && Served(s'.conns, s'.srv, s'.chproc) && Apart(s'.refs, s'.srv) && Noted(s'.refs, s'.via)
  {
    var c := s.refs[r];
    assert Apart(s.refs - {r}, s.srv) && Noted(s.refs - {r}, s.via);
    hide Counted, Live, Charged, Nested, Listed, Served, Apart, Noted, Unlink, Discharge;
    DropCounted(s.conns, s.refs, r, conn');
    DropCharged(s.refs, s.nfds, r);
    DropNested(s.conns, s.refs, r, orphan);
    RecountNested(s.conns, s.refs - {r}, Orphan(r, orphan), c, conn');
    DropListed(s.refs, s.children, r);
    RecountServed(s.conns, s.srv, s.chproc, c, conn');
  }

  /** A connection without holders is freed. */
  lemma FreeKeeps(s: State, orphan: Option<Id>, c: Id, srv: map<Port, Id>)
    requires c in s.conns && s.conns[c].links == 0 && (s.conns[c].v ==> orphan == Some(c))
    requires Counted(s.conns, s.refs) && Live(s.conns, s.refs) && Charged(s.refs, s.nfds)
    requires Nested(s.conns, s.refs, orphan) && Listed(s.refs, s.children)
    requires Served(s.conns - {c}, srv, s.chproc) && Apart(s.refs, srv) && Noted(s.refs, s.via)
    requires Idle(s.conns - {c})
    ensures InvExcept(Free(s.(srv := srv), c), if orphan == Some(c) then None else orphan)
  {
    hide Counted, Live, Charged, Nested, Listed, Served, Apart, Noted, Idle;
    FreeCounted(s.conns, s.refs, c);
    FreeNested(s.conns, s.refs, orphan, c);
    FreeListed(s.refs, s.children, c);
  }

  lemma IdleRecount(conns: map<Id, Conn>, c: Id, conn': Conn)
    requires Idle(conns) && c in conns && Recounted(conns[c], conn')
    requires conn'.links == 0 <==> conn'.proc == None
    requires conn'.links == 0 ==> !conn'.v && conn'.ch.Some?
    ensures Idle(conns[c := conn'])
  {
  }

  lemma IdleFree(conns: map<Id, Conn>, c: Id, conn': Conn)
    requires Idle(conns)
    ensures Idle(conns[c := conn'] - {c})
  {
  }

  lemma DropPlainKeeps(s: State, r: Ref)
    requires Inv(s) && r in s.refs && s.refs[r] in s.conns && s.conns[s.refs[r]].links > 0
    requires s.conns[s.refs[r]].links > 1 || !s.conns[s.refs[r]].v
    requires s.conns[s.refs[r]].links == 1 ==> Orphan(r, None) != Some(s.refs[r])
    ensures InvExcept(DropPlain(s, r), Orphan(r, None))
  {
    var c := s.refs[r];
    var conn := s.conns[c];
    var conn' := conn.(links := conn.links - 1);
    var s1 := s.(refs := s.refs - {r}, children := Unlink(s.children, r, c), nfds := Discharge(s.nfds, r),
                 conns := s.conns[c := conn']);
    DropHolderKeeps(s, r, conn', None);
    assert conn.ch.Some? ==> conn.ch.value in s.chproc;
    assert Idle(s.conns) && (conn.links == 1 ==> conn.proc.Some?);
    hide Counted, Live, Charged, Nested, Listed, Served, Apart, Noted, Unlink, Discharge, Free;
    if conn.links > 1 {
      IdleRecount(s.conns, c, conn');
    } else if conn.ch == None {
      FreeUnserved(s1.conns, s1.srv, s1.chproc, c);
      IdleFree(s.conns, c, conn');
      FreeKeeps(s1, Orphan(r, None), c, s1.srv);
    } else if conn.ch.value in s.disconnect {
      var gone := conn'.(proc := None);
      DropHolderKeeps(s, r, gone, None);
      IdleRecount(s.conns, c, gone);
      assert s1.conns[c := gone] == s.conns[c := gone];
    } else {
      var k := Port(s.chproc[conn.ch.value], conn.scoid);
      FreeServed(s1.conns, s1.srv, s1.chproc, c, k);
      IdleFree(s.conns, c, conn');
      ApartShrinks(s1.refs, s1.srv, k);
      FreeKeeps(s1, Orphan(r, None), c, s1.srv - {k});
    }
  }

  lemma ApartShrinks(refs: map<Ref, Id>, srv: map<Port, Id>, k: Port)
    requires Apart(refs, srv)
    ensures Apart(refs, srv - {k})
  {
  }

  /** The last holder of a connection that has been cut off goes. */
  lemma DropOrphanKeeps(s: State, r: Ref)
    requires r in s.refs && !r.ByChild? && s.refs[r] in s.conns
    requires s.conns[s.refs[r]].links == 1 && s.conns[s.refs[r]].v
    requires InvExcept(s, Some(s.refs[r]))
    ensures Inv(Free(s.(refs := s.refs - {r}, nfds := Discharge(s.nfds, r)), s.refs[r]))
  {
    var c := s.refs[r];
    var conn' := s.conns[c].(links := 0);
    DropHolderKeeps(s, r, conn', Some(c));
    assert Idle(s.conns);
    hide Counted, Live, Charged, Nested, Listed, Served, Apart, Noted, Discharge, Idle;
    var s1 := s.(refs := s.refs - {r}, nfds := Discharge(s.nfds, r), conns := s.conns[c := conn']);
    FreeUnserved(s1.conns, s1.srv, s1.chproc, c);
    IdleFree(s.conns, c, conn');
    FreeKeeps(s1, Some(c), c, s1.srv);
    assert s1.conns - {c} == s.conns - {c};
  }

  lemma ParentFacts(s: State, c: Id)
    requires Inv(s) && c in s.conns && s.conns[c].v
    ensures ByChild(c) in s.refs && s.refs[ByChild(c)] in s.conns && s.refs[ByChild(c)] != c
    ensures !s.conns[s.refs[ByChild(c)]].v && s.conns[s.refs[ByChild(c)]].links > 0
  {
    assert ByChild(c) in s.refs;
    LinksPositive(s, ByChild(c));
  }

  lemma DropPlainSpares(s: State, r: Ref, c: Id, q: Ref)
    requires r in s.refs && s.refs[r] in s.conns && s.conns[s.refs[r]].links > 0
    requires c in s.conns && c != s.refs[r] && q in s.refs && q != r
    ensures c in DropPlain(s, r).conns && DropPlain(s, r).conns[c] == s.conns[c]
    ensures q in DropPlain(s, r).refs && DropPlain(s, r).refs[q] == s.refs[q]
  {
    hide Unlink, Discharge;
  }

  /** Letting go of any reference keeps all counts right and frees what nobody holds. */
  lemma DropKeeps(s: State, r: Ref)
    requires Inv(s) && r in s.refs && !r.ByChild?
    ensures Inv(Drop(s, r))
  {
    LinksPositive(s, r);
    var c := s.refs[r];
    if s.conns[c].links == 1 && s.conns[c].v {
      ParentFacts(s, c);
      hide InvExcept, DropPlain, Free, Discharge;
      DropPlainKeeps(s, ByChild(c));
      DropPlainSpares(s, ByChild(c), c, r);
      DropOrphanKeeps(DropPlain(s, ByChild(c)), r);
    } else {
      DropPlainKeeps(s, r);
    }
  }

  // ---------------------------------------------------------------- one reference more

  function Charge(nfds: map<Id, nat>, r: Ref): map<Id, nat> {
    if r.BySlot? then nfds[r.slot.p := N(nfds, r.slot.p) + 1] else nfds
  }

  /** One more holder for an existing connection. */
  function Hold(s: State, r: Ref, c: Id): State
    requires c in s.conns
  {
    s.(refs := s.refs[r := c], nfds := Charge(s.nfds, r),
       conns := s.conns[c := s.conns[c].(links := s.conns[c].links + 1)])
  }

  /** `ConnectAttach` for process `slot.p` finds an existing connection to share. */
  function AttachShared(s: State, slot: Slot, c: Id): State
    requires c in s.conns
  {
    Hold(s, BySlot(slot), c)
  }

  /** ... or makes a new one with its own place at the server ... */
  function AttachNew(s: State, slot: Slot, c: Id, ch: Id, scoid: nat, qos: nat): State
    requires ch in s.chproc
  {
    s.(conns := s.conns[c := Conn(Some(slot.p), Some(ch), 1, scoid, false, qos)],
       refs := s.refs[BySlot(slot) := c], nfds := Charge(s.nfds, BySlot(slot)),
       srv := s.srv[Port(s.chproc[ch], scoid) := c])
  }

  /** ... or one that shares the place of `m`, for another quality of service. */
  function AttachChild(s: State, slot: Slot, c: Id, m: Id, qos: nat): State
    requires m in s.conns
  {
    var s1 := s.(conns := s.conns[c := Conn(Some(slot.p), s.conns[m].ch, 1, s.conns[m].scoid, true, qos)],
                 refs := s.refs[BySlot(slot) := c], nfds := Charge(s.nfds, BySlot(slot)));
    Hold(s1, ByChild(c), m).(children := s.children[m := [c] + Kids(s.children, m)])
  }

  /** A thread blocks in a send through the descriptor `slot`. */
  function BlockOn(s: State, t: Id, slot: Slot): State
    requires BySlot(slot) in s.refs && s.refs[BySlot(slot)] in s.conns
  {
    Hold(s, ByThread(t), s.refs[BySlot(slot)]).(via := s.via[t := slot])
  }

  lemma AddCounted(conns: map<Id, Conn>, refs: map<Ref, Id>, r: Ref, c: Id, conn': Conn)
    requires Counted(conns, refs) && Live(conns, refs) && r !in refs && c in conns
    requires conn'.links == conns[c].links + 1
    ensures Counted(conns[c := conn'], refs[r := c]) && Live(conns[c := conn'], refs[r := c])
  {
    var conns', refs' := conns[c := conn'], refs[r := c];
    forall d | d in conns' ensures conns'[d].links == |Holders(refs', d)| {
      HoldersAdd(refs, r, c, d);
    }
  }

  lemma NewCounted(conns: map<Id, Conn>, refs: map<Ref, Id>, r: Ref, c: Id, conn: Conn)
    requires Counted(conns, refs) && Live(conns, refs) && r !in refs && c !in conns && conn.links == 1
    ensures Counted(conns[c := conn], refs[r := c]) && Live(conns[c := conn], refs[r := c])
  {
    var conns', refs' := conns[c := conn], refs[r := c];
    forall d | d in conns' ensures conns'[d].links == |Holders(refs', d)| {
      HoldersAdd(refs, r, c, d);
      if d == c {
        assert Holders(refs, c) == {};
      }
    }
  }

  lemma AddCharged(refs: map<Ref, Id>, nfds: map<Id, nat>, r: Ref, c: Id)
    requires Charged(refs, nfds) && r !in refs
    ensures Charged(refs[r := c], Charge(nfds, r))
  {
    var refs', nfds' := refs[r := c], Charge(nfds, r);
    forall p ensures N(nfds', p) == |SlotsOf(refs', p)| {
      SlotsAdd(refs, r, c, p);
      assert N(nfds, p) == |SlotsOf(refs, p)|;
    }
  }

  lemma AddNested(conns: map<Id, Conn>, refs: map<Ref, Id>, orphan: Option<Id>, r: Ref, c: Id)
    requires Nested(conns, refs, orphan) && r !in refs && !r.ByChild?
    ensures Nested(conns, refs[r := c], orphan)
  {
  }

  lemma NewNested(conns: map<Id, Conn>, refs: map<Ref, Id>, c: Id, conn: Conn)
    requires Nested(conns, refs, None) && Live(conns, refs) && c !in conns
    ensures Nested(conns[c := conn], refs, if conn.v then Some(c) else None)
  {
    var conns' := conns[c := conn];
    var orphan' := if conn.v then Some(c) else None;
    forall v ensures ByChild(v) in refs <==> v in conns' && conns'[v].v && orphan' != Some(v) {
      assert ByChild(v) in refs <==> v in conns && conns[v].v;
    }
  }

  lemma AdoptNested(conns: map<Id, Conn>, refs: map<Ref, Id>, c: Id, m: Id)
    requires Nested(conns, refs, Some(c)) && c in conns && m in conns && conns[c].v && !conns[m].v
    requires conns[c].ch == conns[m].ch
    ensures Nested(conns, refs[ByChild(c) := m], None)
  {
    var refs' := refs[ByChild(c) := m];
    forall v ensures ByChild(v) in refs' <==> v in conns && conns[v].v {
      assert ByChild(v) in refs <==> v in conns && conns[v].v && Some(c) != Some(v);
    }
  }

  lemma AddListed(refs: map<Ref, Id>, children: map<Id, seq<Id>>, r: Ref, c: Id)
    requires Listed(refs, children) && r !in refs && !r.ByChild?
    ensures Listed(refs[r := c], children)
  {
    var refs' := refs[r := c];
    forall v, d ensures v in Kids(children, d) <==> ByChild(v) in refs' && refs'[ByChild(v)] == d {
      assert v in Kids(children, d) <==> ByChild(v) in refs && refs[ByChild(v)] == d;
    }
  }

  lemma AdoptListed(refs: map<Ref, Id>, children: map<Id, seq<Id>>, c: Id, m: Id)
    requires Listed(refs, children) && ByChild(c) !in refs
    ensures Listed(refs[ByChild(c) := m], children[m := [c] + Kids(children, m)])
  {
    var refs', children' := refs[ByChild(c) := m], children[m := [c] + Kids(children, m)];
    forall v, d ensures v in Kids(children', d) <==> ByChild(v) in refs' && refs'[ByChild(v)] == d {
      assert v in Kids(children, d) <==> ByChild(v) in refs && refs[ByChild(v)] == d;
    }
    forall d ensures Distinct(Kids(children', d)) {
      assert Distinct(Kids(children, d));
      assert c !in Kids(children, m);
    }
  }

  lemma NewServed(conns: map<Id, Conn>, srv: map<Port, Id>, chproc: map<Id, Id>, c: Id, conn: Conn)
    requires Served(conns, srv, chproc) && c !in conns && conn.v && (conn.ch.Some? ==> conn.ch.value in chproc)
    ensures Served(conns[c := conn], srv, chproc)
  {
    var conns' := conns[c := conn];
    forall d, k | d in conns' && AtPort(chproc, conns'[d], k) ensures k in srv && srv[k] == d {
      assert AtPort(chproc, conns[d], k);
    }
    forall k | k in srv ensures srv[k] in conns' && AtPort(chproc, conns'[srv[k]], k) {
      assert AtPort(chproc, conns[srv[k]], k);
    }
  }

  lemma NewServedAt(conns: map<Id, Conn>, srv: map<Port, Id>, chproc: map<Id, Id>, c: Id, conn: Conn, k: Port)
    requires Served(conns, srv, chproc) && c !in conns && k !in srv && AtPort(chproc, conn, k)
    ensures Served(conns[c := conn], srv[k := c], chproc)
  {
    var conns', srv' := conns[c := conn], srv[k := c];
    forall d, n | d in conns' && AtPort(chproc, conns'[d], n) ensures n in srv' && srv'[n] == d {
      if d != c {
        assert AtPort(chproc, conns[d], n);
      }
    }
    forall n | n in srv' ensures srv'[n] in conns' && AtPort(chproc, conns'[srv'[n]], n) {
      if n != k {
        assert AtPort(chproc, conns[srv[n]], n);
      }
    }
  }

  /** A descriptor is free if its index is used neither by a descriptor nor as a server place. */
  predicate FreeSlot(s: State, slot: Slot) {
    BySlot(slot) !in s.refs && (slot.side ==> Port(slot.p, slot.i) !in s.srv)
  }

  lemma HoldKeeps(s: State, r: Ref, c: Id)
    requires Inv(s) && c in s.conns && s.conns[c].links > 0 && r !in s.refs && !r.ByChild?
    requires r.BySlot? ==> FreeSlot(s, r.slot)
    requires r.ByThread? ==> r.t in s.via
    ensures Inv(Hold(s, r, c))
  {
    var conn' := s.conns[c].(links := s.conns[c].links + 1);
    assert Apart(s.refs[r := c], s.srv) && Noted(s.refs[r := c], s.via);
    assert Idle(s.conns[c := conn']);
    hide Counted, Live, Charged, Nested, Listed, Served, Apart, Noted, Idle, Charge;
    AddCounted(s.conns, s.refs, r, c, conn');
    AddCharged(s.refs, s.nfds, r, c);
    AddNested(s.conns, s.refs, None, r, c);
    RecountNested(s.conns, s.refs[r := c], None, c, conn');
    AddListed(s.refs, s.children, r, c);
    RecountServed(s.conns, s.srv, s.chproc, c, conn');
  }

  lemma AttachNewKeeps(s: State, slot: Slot, c: Id, ch: Id, scoid: nat, qos: nat)
    requires Inv(s) && c !in s.conns && ch in s.chproc && FreeSlot(s, slot)
    requires Port(s.chproc[ch], scoid) !in s.srv && FreeSlot(s, Slot(s.chproc[ch], true, scoid))
    requires slot != Slot(s.chproc[ch], true, scoid)
    ensures Inv(AttachNew(s, slot, c, ch, scoid, qos))
  {
    var conn := Conn(Some(slot.p), Some(ch), 1, scoid, false, qos);
    var k := Port(s.chproc[ch], scoid);
    var r := BySlot(slot);
    assert Apart(s.refs[r := c], s.srv[k := c]) && Noted(s.refs[r := c], s.via);
    assert Idle(s.conns[c := conn]);
    hide Counted, Live, Charged, Nested, Listed, Served, Apart, Noted, Idle, Charge;
    NewCounted(s.conns, s.refs, r, c, conn);
    AddCharged(s.refs, s.nfds, r, c);
    NewNested(s.conns, s.refs, c, conn);
    AddNested(s.conns[c := conn], s.refs, None, r, c);
    AddListed(s.refs, s.children, r, c);
    NewServedAt(s.conns, s.srv, s.chproc, c, conn, k);
  }

  lemma AttachChildKeeps(s: State, slot: Slot, c: Id, m: Id, qos: nat)
    requires Inv(s) && c !in s.conns && m in s.conns && !s.conns[m].v && s.conns[m].links > 0 && FreeSlot(s, slot)
    ensures Inv(AttachChild(s, slot, c, m, qos))
  {
    var conn := Conn(Some(slot.p), s.conns[m].ch, 1, s.conns[m].scoid, true, qos);
    var r := BySlot(slot);
    var conns1, refs1 := s.conns[c := conn], s.refs[r := c];
    var master := s.conns[m].(links := s.conns[m].links + 1);
    var conns2, refs2 := conns1[m := master], refs1[ByChild(c) := m];
    assert ByChild(c) !in refs1;
    assert Apart(refs2, s.srv) && Noted(refs2, s.via);
    assert Idle(conns2);
    assert conn.ch.Some? ==> conn.ch.value in s.chproc;
    hide Counted, Live, Charged, Nested, Listed, Served, Apart, Noted, Idle;
    NewCounted(s.conns, s.refs, r, c, conn);
    AddCounted(conns1, refs1, ByChild(c), m, master);
    AddCharged(s.refs, s.nfds, r, c);
    AddCharged(refs1, Charge(s.nfds, r), ByChild(c), m);
    NewNested(s.conns, s.refs, c, conn);
    AddNested(conns1, s.refs, Some(c), r, c);
    RecountNested(conns1, refs1, Some(c), m, master);
    AdoptNested(conns2, refs1, c, m);
    AddListed(s.refs, s.children, r, c);
    AdoptListed(refs1, s.children, c, m);
    NewServed(s.conns, s.srv, s.chproc, c, conn);
    RecountServed(conns1, s.srv, s.chproc, m, master);
  }

  lemma BlockOnKeeps(s: State, t: Id, slot: Slot)
    requires Inv(s) && BySlot(slot) in s.refs && ByThread(t) !in s.refs
    ensures s.refs[BySlot(slot)] in s.conns && Inv(BlockOn(s, t, slot))
  {
    LinksPositive(s, BySlot(slot));
    var s1 := s.(via := s.via[t := slot]);
    assert Inv(s1);
    hide Inv;
    HoldKeeps(s1, ByThread(t), s.refs[BySlot(slot)]);
  }

  // ---------------------------------------------------------------- detaching

  /** Whatever else is held stays held. */
  lemma DropSpares(s: State, r: Ref, q: Ref)
    requires Inv(s) && r in s.refs && !r.ByChild? && !q.ByChild? && q != r
    ensures q in Drop(s, r).refs <==> q in s.refs
    ensures q in s.refs ==> Drop(s, r).refs[q] == s.refs[q]
    ensures r !in Drop(s, r).refs
  {
    LinksPositive(s, r);
    var c := s.refs[r];
    if s.conns[c].links == 1 && s.conns[c].v {
      ParentFacts(s, c);
      hide InvExcept, DropPlain, Discharge;
      DropPlainRefs(s, ByChild(c));
    } else {
      hide InvExcept, DropPlain, Discharge;
      DropPlainRefs(s, r);
    }
  }

  lemma DropPlainRefs(s: State, r: Ref)
    requires r in s.refs && s.refs[r] in s.conns && s.conns[s.refs[r]].links > 0
    ensures DropPlain(s, r).refs == s.refs - {r}
  {
    hide Unlink, Discharge;
  }

  /** Nothing but the count, the process and the existence of a connection changes. */
  ghost predicate Thinned(s: State, s': State) {
    && s'.chproc == s.chproc && s'.disconnect == s.disconnect && s'.via == s.via
    && (forall c :: c in s'.conns ==> c in s.conns && Recounted(s.conns[c], s'.conns[c]))
    && (forall k :: k in s'.srv ==> k in s.srv && s'.srv[k] == s.srv[k])
  }

  lemma DropPlainThins(s: State, r: Ref)
    requires r in s.refs && s.refs[r] in s.conns && s.conns[s.refs[r]].links > 0
    ensures Thinned(s, DropPlain(s, r))
  {
    hide Unlink, Discharge, DetachPlain;
    var c := s.refs[r];
    var conn := s.conns[c];
    var s1 := s.(refs := s.refs - {r}, children := Unlink(s.children, r, c), nfds := Discharge(s.nfds, r),
                 conns := s.conns[c := conn.(links := conn.links - 1)]);
    DetachThins(s1, c);
    ThinnedTwice(s, s1, DetachPlain(s1, c));
  }

  lemma DetachThins(s: State, c: Id)
    requires c in s.conns
    ensures Thinned(s, DetachPlain(s, c))
  {
  }

  lemma ThinnedTwice(a: State, b: State, c: State)
    requires Thinned(a, b) && Thinned(b, c)
    ensures Thinned(a, c)
  {
  }

  lemma DropThins(s: State, r: Ref)
    requires Inv(s) && r in s.refs && !r.ByChild?
    ensures Thinned(s, Drop(s, r))
  {
    LinksPositive(s, r);
    var c := s.refs[r];
    if s.conns[c].links == 1 && s.conns[c].v {
      ParentFacts(s, c);
      hide InvExcept, DropPlain, Discharge;
      DropPlainThins(s, ByChild(c));
    } else {
      hide InvExcept, DropPlain, Discharge;
      DropPlainThins(s, r);
    }
  }

  predicate UsesSlot(s: State, t: Id, slot: Slot, kept: set<Id>) {
    ByThread(t) in s.refs && t in s.via && s.via[t] == slot && t !in kept
  }

  /** The loop of `ConnectDetach`: threads blocked through the descriptor are made ready, except
      those (`kept`) whose server is told to unblock them. */
  function Evict(s: State, slot: Slot, ts: seq<Id>, kept: set<Id>): (s': State)
    requires Inv(s)
    ensures Inv(s')
    decreases |ts|
  {
    if ts == [] then s
    else if UsesSlot(s, ts[0], slot, kept) then
      DropKeeps(s, ByThread(ts[0]));
      Evict(Drop(s, ByThread(ts[0])), slot, ts[1..], kept)
    else Evict(s, slot, ts[1..], kept)
  }

  function Detach(s: State, slot: Slot, ts: seq<Id>, kept: set<Id>): State
    requires Inv(s)
  {
    if BySlot(slot) !in s.refs then s
    else
      var s1 := Evict(s, slot, ts, kept);
      EvictSpares(s, slot, ts, kept, BySlot(slot));
      Drop(s1, BySlot(slot))
  }

  /** The loop keeps every descriptor, so the connection lives until the descriptor goes. */
  lemma {:induction false} EvictSpares(s: State, slot: Slot, ts: seq<Id>, kept: set<Id>, q: Ref)
    requires Inv(s) && !q.ByChild?
    ensures var s' := Evict(s, slot, ts, kept);
            && (q in s'.refs ==> q in s.refs && s'.refs[q] == s.refs[q])
            && (q in s.refs ==> q in s'.refs || (q.ByThread? && q.t in ts && UsesSlot(s, q.t, slot, kept)))
            && (q.ByThread? && q.t in ts && UsesSlot(s, q.t, slot, kept) ==> q !in s'.refs)
            && s'.via == s.via
    decreases |ts|
  {
    if ts != [] {
      var s1 := s;
      if UsesSlot(s, ts[0], slot, kept) {
        var r := ByThread(ts[0]);
        DropKeeps(s, r);
        DropThins(s, r);
        if q != r {
          DropSpares(s, r, q);
        } else {
          DropSpares(s, r, BySlot(slot));
        }
        s1 := Drop(s, r);
      }
      hide Inv, Drop;
      EvictSpares(s1, slot, ts[1..], kept, q);
    }
  }

  lemma DetachKeeps(s: State, slot: Slot, ts: seq<Id>, kept: set<Id>)
    requires Inv(s)
    ensures Inv(Detach(s, slot, ts, kept))
  {
    if BySlot(slot) in s.refs {
      EvictSpares(s, slot, ts, kept, BySlot(slot));
      DropKeeps(Evict(s, slot, ts, kept), BySlot(slot));
    }
  }

  /** What a detach takes away: the descriptor, and the threads blocked through it that are
      not left to their server; no other descriptor and no other thread. */
  lemma DetachTakes(s: State, slot: Slot, ts: seq<Id>, kept: set<Id>, q: Ref)
    requires Inv(s) && BySlot(slot) in s.refs && !q.ByChild?
    ensures q in Detach(s, slot, ts, kept).refs <==>
            q in s.refs && q != BySlot(slot) && !(q.ByThread? && q.t in ts && UsesSlot(s, q.t, slot, kept))
  {
    EvictSpares(s, slot, ts, kept, BySlot(slot));
    EvictSpares(s, slot, ts, kept, q);
    var s1 := Evict(s, slot, ts, kept);
    hide InvExcept, Drop, Evict;
    if q != BySlot(slot) {
      DropSpares(s1, BySlot(slot), q);
    } else {
      DropSpares(s1, BySlot(slot), ByThread(0));
    }
  }

  /** The server gives up a place; only one that no client holds any more. */
  function ServerDetach(s: State, k: Port): State {
    if k in s.srv && s.srv[k] in s.conns && s.conns[s.srv[k]].links == 0
    then Free(s.(srv := s.srv - {k}), s.srv[k])
    else s
  }

  lemma ServerDetachKeeps(s: State, k: Port)
    requires Inv(s)
    ensures Inv(ServerDetach(s, k))
  {
    if k in s.srv && s.conns[s.srv[k]].links == 0 {
      var c := s.srv[k];
      assert AtPort(s.chproc, s.conns[c], k);
      assert Idle(s.conns - {c});
      hide Counted, Live, Charged, Nested, Listed, Served, Apart, Noted, Idle, Free;
      FreeServed(s.conns, s.srv, s.chproc, c, k);
      ApartShrinks(s.refs, s.srv, k);
      FreeKeeps(s, None, c, s.srv - {k});
    }
  }
}
