/**
 Destroying a channel: the blocked threads are let go one at a time, then the connections are
 cut off one server place at a time. The call may be interrupted between any two of these
 steps and is then started over.
 */
module ChannelDestroy {
  import opened Base
  import opened Pril
  import opened Connect

  predicate BlockedAt(s: State, t: Id, ch: Id) {
    ByThread(t) in s.refs && s.refs[ByThread(t)] in s.conns && s.conns[s.refs[ByThread(t)]].ch == Some(ch)
  }

  /** The loops over the send and reply queues. */
  function Drain(s: State, ch: Id, ts: seq<Id>): (s': State)
    requires Inv(s)
    ensures Inv(s')
    decreases |ts|
  {
    if ts == [] then s
    else if BlockedAt(s, ts[0], ch) then
      DropKeeps(s, ByThread(ts[0]));
      Drain(Drop(s, ByThread(ts[0])), ch, ts[1..])
    else Drain(s, ch, ts[1..])
  }

  /** The channel pointer is cleared along the list `q`. */
  function Cut(conns: map<Id, Conn>, q: seq<Id>): map<Id, Conn>
    decreases |q|
  {
    if q == [] then conns
    else if q[0] in conns then Cut(conns[q[0] := conns[q[0]].(ch := None)], q[1..])
    else Cut(conns, q[1..])
  }

  /** What happens to the connection at one server place. */
  function SeverSlot(s: State, k: Port, ch: Id): State {
    if k in s.srv && s.srv[k] in s.conns && s.conns[s.srv[k]].ch == Some(ch) then
      var c := s.srv[k];
      var s1 := s.(srv := s.srv - {k});
      if s.conns[c].links == 0 then Free(s1, c)
      else s1.(conns := Cut(s.conns, [c] + Kids(s.children, c)))
    else s
  }

  function SeverTo(s: State, p: Id, ch: Id, n: nat): State {
    if n == 0 then s else SeverSlot(SeverTo(s, p, ch, n - 1), Port(p, n - 1), ch)
  }

  /** `ChannelDestroy`: `ts` are the threads on the channel's queues, `n` the length of the
      server's channel vector. */
  function Destroy(s: State, ch: Id, ts: seq<Id>, n: nat): State
    requires Inv(s)
  {
    if ch !in s.chproc then s
    else
      var s1 := SeverTo(Drain(s, ch, ts), s.chproc[ch], ch, n);
      s1.(chproc := s1.chproc - {ch}, disconnect := s1.disconnect - {ch})
  }

  // ---------------------------------------------------------------- letting threads go

  lemma BlockedStays(s: State, r: Ref, t: Id, ch: Id)
    requires Inv(s) && r in s.refs && r.ByThread? && r != ByThread(t)
    ensures BlockedAt(Drop(s, r), t, ch) <==> BlockedAt(s, t, ch)
  {
    DropKeeps(s, r);
    DropSpares(s, r, ByThread(t));
    DropThins(s, r);
    var s' := Drop(s, r);
    assert ByThread(t) in s.refs ==> s.refs[ByThread(t)] in s.conns;
    assert ByThread(t) in s'.refs ==> s'.refs[ByThread(t)] in s'.conns;
    hide InvExcept, Drop;
  }

  /** Exactly the threads of `ts` that are blocked on the channel let go. */
  lemma {:induction false} DrainTakes(s: State, ch: Id, ts: seq<Id>, q: Ref)
    requires Inv(s) && !q.ByChild?
    ensures var s' := Drain(s, ch, ts);
            && (q in s'.refs <==> q in s.refs && !(q.ByThread? && q.t in ts && BlockedAt(s, q.t, ch)))
            && (q in s'.refs ==> s'.refs[q] == s.refs[q])
            && Thinned(s, s')
    decreases |ts|
  {
    if ts != [] {
      var r := ByThread(ts[0]);
      if BlockedAt(s, ts[0], ch) {
        DropKeeps(s, r);
        DropThins(s, r);
        if q == r {
          DropSpares(s, r, ByThread(ts[0] + 1));
        } else {
          DropSpares(s, r, q);
          if q.ByThread? {
            BlockedStays(s, r, q.t, ch);
          }
        }
        hide Inv, Drop;
        DrainTakes(Drop(s, r), ch, ts[1..], q);
        ThinnedTwice(s, Drop(s, r), Drain(s, ch, ts));
      } else {
        hide Inv;
        DrainTakes(s, ch, ts[1..], q);
      }
    }
  }

  // ---------------------------------------------------------------- cutting connections off

  lemma {:induction false} CutAt(conns: map<Id, Conn>, q: seq<Id>, c: Id)
    ensures c in Cut(conns, q) <==> c in conns
    ensures c in conns ==> Cut(conns, q)[c] == if c in q then conns[c].(ch := None) else conns[c]
    decreases |q|
  {
    if q != [] {
      var conns' := if q[0] in conns then conns[q[0] := conns[q[0]].(ch := None)] else conns;
      CutAt(conns', q[1..], c);
      assert c in q <==> c == q[0] || c in q[1..];
    }
  }

  lemma CutKeeps(s: State, k: Port, ch: Id)
    requires Inv(s) && k in s.srv && s.srv[k] in s.conns && s.conns[s.srv[k]].links > 0
    ensures Inv(s.(srv := s.srv - {k}, conns := Cut(s.conns, [s.srv[k]] + Kids(s.children, s.srv[k]))))
  {
    var c := s.srv[k];
    var q := [c] + Kids(s.children, c);
    var conns' := Cut(s.conns, q);
    forall d ensures d in conns' <==> d in s.conns {
      CutAt(s.conns, q, d);
    }
    forall d | d in s.conns ensures conns'[d] == if d in q then s.conns[d].(ch := None) else s.conns[d] {
      CutAt(s.conns, q, d);
    }
    assert forall d :: d in q <==> d == c || (ByChild(d) in s.refs && s.refs[ByChild(d)] == c);
    assert AtPort(s.chproc, s.conns[c], k);
    hide Cut, Kids;
    CutNested(s.conns, conns', s.refs, c, q);
    CutServed(s.conns, conns', s.srv, s.chproc, c, q, k);
    CutIdle(s.conns, conns', s.refs, c, q);
    ApartShrinks(s.refs, s.srv, k);
    assert Counted(conns', s.refs) && Live(conns', s.refs);
    hide Counted, Live, Charged, Nested, Listed, Served, Apart, Noted, Idle;
  }

  lemma CutNested(conns: map<Id, Conn>, conns': map<Id, Conn>, refs: map<Ref, Id>, c: Id, q: seq<Id>)
    requires Nested(conns, refs, None) && Live(conns, refs) && c in conns && !conns[c].v
    requires forall d :: d in q <==> d == c || (ByChild(d) in refs && refs[ByChild(d)] == c)
    requires forall d :: d in conns' <==> d in conns
    requires forall d :: d in conns ==> conns'[d] == if d in q then conns[d].(ch := None) else conns[d]
    ensures Nested(conns', refs, None)
  {
    forall v ensures ByChild(v) in refs <==> v in conns' && conns'[v].v {
      assert ByChild(v) in refs <==> v in conns && conns[v].v;
    }
    forall v | ByChild(v) in refs && refs[ByChild(v)] in conns' && v in conns'
      ensures !conns'[refs[ByChild(v)]].v && conns'[refs[ByChild(v)]].ch == conns'[v].ch
    {
      var m := refs[ByChild(v)];
      assert !conns[m].v && conns[m].ch == conns[v].ch;
      assert ByChild(m) !in refs;
      assert v in q <==> m == c;
      assert m in q <==> m == c;
    }
  }

  lemma CutServed(conns: map<Id, Conn>, conns': map<Id, Conn>, srv: map<Port, Id>, chproc: map<Id, Id>, c: Id,
                  q: seq<Id>, k: Port)
    requires Served(conns, srv, chproc) && c in conns && AtPort(chproc, conns[c], k) && c in q
    requires forall d :: d in q && d in conns && d != c ==> conns[d].v
    requires forall d :: d in conns' <==> d in conns
    requires forall d :: d in conns ==> conns'[d] == if d in q then conns[d].(ch := None) else conns[d]
    ensures Served(conns', srv - {k}, chproc)
  {
    var srv' := srv - {k};
    forall d, n | d in conns' && AtPort(chproc, conns'[d], n) ensures n in srv' && srv'[n] == d {
      assert d !in q && AtPort(chproc, conns[d], n);
      assert srv[k] == c;
    }
    forall n | n in srv' ensures srv'[n] in conns' && AtPort(chproc, conns'[srv'[n]], n) {
      var d := srv[n];
      assert n in srv && srv'[n] == d;
      assert AtPort(chproc, conns[d], n);
      assert n != k && d !in q;
    }
  }

  lemma CutIdle(conns: map<Id, Conn>, conns': map<Id, Conn>, refs: map<Ref, Id>, c: Id, q: seq<Id>)
    requires Idle(conns) && c in conns && conns[c].links > 0
    requires forall d :: d in q && d in conns && d != c ==> conns[d].v
    requires forall d :: d in conns' <==> d in conns
    requires forall d :: d in conns ==> conns'[d] == if d in q then conns[d].(ch := None) else conns[d]
    ensures Idle(conns')
  {
  }

  lemma SeverSlotKeeps(s: State, k: Port, ch: Id)
    requires Inv(s)
    ensures Inv(SeverSlot(s, k, ch))
  {
    hide InvExcept, Cut, Kids;
    if k in s.srv && s.srv[k] in s.conns && s.conns[s.srv[k]].ch == Some(ch) {
      if s.conns[s.srv[k]].links == 0 {
        ServerDetachKeeps(s, k);
      } else {
        CutKeeps(s, k, ch);
      }
    }
  }

  lemma SeverSlotFrame(s: State, k: Port, ch: Id)
    ensures SeverSlot(s, k, ch).chproc == s.chproc && SeverSlot(s, k, ch).refs == s.refs
    ensures forall n :: n in SeverSlot(s, k, ch).srv ==> n in s.srv
  {
    hide Cut, Kids;
  }

  lemma {:induction false} SeverToKeeps(s: State, p: Id, ch: Id, n: nat)
    requires Inv(s)
    ensures Inv(SeverTo(s, p, ch, n))
    ensures SeverTo(s, p, ch, n).chproc == s.chproc && SeverTo(s, p, ch, n).refs == s.refs
  {
    hide Inv, SeverSlot;
    if n > 0 {
      SeverToKeeps(s, p, ch, n - 1);
      SeverSlotKeeps(SeverTo(s, p, ch, n - 1), Port(p, n - 1), ch);
      SeverSlotFrame(SeverTo(s, p, ch, n - 1), Port(p, n - 1), ch);
    }
  }

  /** A connection that still points to the channel has its place at `n` or later. */
  ghost predicate CutOffBelow(s: State, ch: Id, n: nat) {
    forall c :: c in s.conns && !s.conns[c].v && s.conns[c].ch == Some(ch) ==> s.conns[c].scoid >= n
  }

  lemma SeverSlotChanges(s: State, k: Port, ch: Id, c: Id)
    ensures c in SeverSlot(s, k, ch).conns ==>
              c in s.conns && (SeverSlot(s, k, ch).conns[c] == s.conns[c] ||
                               SeverSlot(s, k, ch).conns[c] == s.conns[c].(ch := None))
    ensures k in s.srv && s.srv[k] == c && c in s.conns && s.conns[c].ch == Some(ch) &&
            c in SeverSlot(s, k, ch).conns ==>
              SeverSlot(s, k, ch).conns[c].ch == None
  {
    if k in s.srv {
      CutAt(s.conns, [s.srv[k]] + Kids(s.children, s.srv[k]), c);
    }
    hide Cut, Kids;
  }

  lemma SeverSlotCuts(s: State, ch: Id, j: nat)
    requires Inv(s) && ch in s.chproc && CutOffBelow(s, ch, j)
    ensures CutOffBelow(SeverSlot(s, Port(s.chproc[ch], j), ch), ch, j + 1)
  {
    var k := Port(s.chproc[ch], j);
    var s' := SeverSlot(s, k, ch);
    forall c | c in s'.conns && !s'.conns[c].v && s'.conns[c].ch == Some(ch) ensures s'.conns[c].scoid >= j + 1 {
      SeverSlotChanges(s, k, ch, c);
      assert s.conns[c].scoid >= j;
      assert AtPort(s.chproc, s.conns[c], Port(s.chproc[ch], s.conns[c].scoid));
    }
  }

  lemma {:induction false} SeverToCuts(s: State, p: Id, ch: Id, n: nat)
    requires Inv(s) && ch in s.chproc && s.chproc[ch] == p
    ensures CutOffBelow(SeverTo(s, p, ch, n), ch, n)
  {
    hide Inv, SeverSlot;
    if n > 0 {
      SeverToKeeps(s, p, ch, n - 1);
      SeverToCuts(s, p, ch, n - 1);
      SeverSlotCuts(SeverTo(s, p, ch, n - 1), ch, n - 1);
    }
  }

  // ---------------------------------------------------------------- the whole call

  /** Every server place of the process is inside its vector. */
  ghost predicate Within(s: State, p: Id, n: nat) {
    forall k :: k in s.srv && k.p == p ==> k.i < n
  }

  lemma AllCut(s: State, ch: Id, n: nat)
    requires Inv(s) && CutOffBelow(s, ch, n) && ch in s.chproc && Within(s, s.chproc[ch], n)
    ensures forall c :: c in s.conns ==> s.conns[c].ch != Some(ch)
  {
    forall c | c in s.conns ensures s.conns[c].ch != Some(ch) {
      if s.conns[c].ch == Some(ch) {
        var m := c;
        if s.conns[c].v {
          ParentFacts(s, c);
          m := s.refs[ByChild(c)];
          assert s.conns[m].ch == s.conns[c].ch;
        }
        var k := Port(s.chproc[ch], s.conns[m].scoid);
        assert AtPort(s.chproc, s.conns[m], k);
      }
    }
  }

  lemma {:induction false} SeverToWithin(s: State, p: Id, ch: Id, n: nat, l: nat)
    requires Within(s, p, l)
    ensures Within(SeverTo(s, p, ch, n), p, l)
  {
    hide SeverSlot;
    if n > 0 {
      SeverToWithin(s, p, ch, n - 1, l);
      SeverSlotFrame(SeverTo(s, p, ch, n - 1), Port(p, n - 1), ch);
    }
  }

  lemma ForgetChannel(s: State, ch: Id)
    requires Inv(s) && forall c :: c in s.conns ==> s.conns[c].ch != Some(ch)
    ensures Inv(s.(chproc := s.chproc - {ch}, disconnect := s.disconnect - {ch}))
  {
    var chproc' := s.chproc - {ch};
    assert Served(s.conns, s.srv, chproc') by {
      hide Counted, Live, Charged, Nested, Listed, Apart, Noted, Idle;
      forall c, k | c in s.conns && AtPort(chproc', s.conns[c], k) ensures k in s.srv && s.srv[k] == c {
        assert AtPort(s.chproc, s.conns[c], k);
      }
      forall k | k in s.srv ensures s.srv[k] in s.conns && AtPort(chproc', s.conns[s.srv[k]], k) {
        var c := s.srv[k];
        assert AtPort(s.chproc, s.conns[c], k);
        assert c in s.conns && s.conns[c].ch != Some(ch);
      }
    }
    hide Counted, Live, Charged, Nested, Listed, Served, Apart, Noted, Idle;
  }

  /** After the call no connection points to the channel, no thread holds a link of one that did,
      every descriptor of every client still stands, and all counts are right. */
  lemma DestroyCuts(s: State, ch: Id, ts: seq<Id>, n: nat, q: Ref)
    requires Inv(s) && ch in s.chproc && Within(s, s.chproc[ch], n) && !q.ByChild?
    requires forall t :: BlockedAt(s, t, ch) ==> t in ts
    ensures var s' := Destroy(s, ch, ts, n);
            && Inv(s')
            && ch !in s'.chproc && (forall c :: c in s'.conns ==> s'.conns[c].ch != Some(ch))
            && (q in s'.refs <==> q in s.refs && !(q.ByThread? && BlockedAt(s, q.t, ch)))
  {
    var p := s.chproc[ch];
    var s1 := Drain(s, ch, ts);
    DrainTakes(s, ch, ts, q);
    assert Within(s1, p, n);
    hide Inv, Drain, BlockedAt;
    var s2 := SeverTo(s1, p, ch, n);
    SeverToKeeps(s1, p, ch, n);
    SeverToCuts(s1, p, ch, n);
    SeverToWithin(s1, p, ch, n, n);
    AllCut(s2, ch, n);
    ForgetChannel(s2, ch);
  }

  // ---------------------------------------------------------------- starting over

  lemma {:induction false} DrainAppend(s: State, ch: Id, a: seq<Id>, b: seq<Id>)
    requires Inv(s)
    ensures Drain(s, ch, a + b) == Drain(Drain(s, ch, a), ch, b)
    decreases |a|
  {
    hide Inv, Drop;
    if a == [] {
      assert a + b == b;
    } else {
      assert (a + b)[0] == a[0] && (a + b)[1..] == a[1..] + b;
      if BlockedAt(s, a[0], ch) {
        DropKeeps(s, ByThread(a[0]));
        DrainAppend(Drop(s, ByThread(a[0])), ch, a[1..], b);
      } else {
        DrainAppend(s, ch, a[1..], b);
      }
    }
  }

  lemma {:induction false} DrainNothing(s: State, ch: Id, ts: seq<Id>)
    requires Inv(s) && forall t :: t in ts ==> !BlockedAt(s, t, ch)
    ensures Drain(s, ch, ts) == s
    decreases |ts|
  {
    hide Inv, BlockedAt;
    if ts != [] {
      assert ts[0] in ts;
      DrainNothing(s, ch, ts[1..]);
    }
  }

  lemma DrainedStay(s: State, ch: Id, ts: seq<Id>, t: Id)
    requires Inv(s) && t in ts
    ensures !BlockedAt(Drain(s, ch, ts), t, ch)
  {
    DrainTakes(s, ch, ts, ByThread(t));
    hide Inv, Drain;
  }

  /** Letting the threads go, interrupted after `k` of them and started over. */
  lemma DrainRestarts(s: State, ch: Id, ts: seq<Id>, k: nat)
    requires Inv(s) && k <= |ts|
    ensures Drain(Drain(s, ch, ts[..k]), ch, ts) == Drain(s, ch, ts)
  {
    var s1 := Drain(s, ch, ts[..k]);
    hide Inv, Drain, BlockedAt;
    forall t | t in ts[..k] ensures !BlockedAt(s1, t, ch) {
      DrainedStay(s, ch, ts[..k], t);
    }
    DrainNothing(s1, ch, ts[..k]);
    DrainAppend(s1, ch, ts[..k], ts[k..]);
    DrainAppend(s, ch, ts[..k], ts[k..]);
    assert ts[..k] + ts[k..] == ts;
  }

  lemma SeverNothing(s: State, p: Id, ch: Id, i: nat, j: nat)
    requires Inv(s) && CutOffBelow(s, ch, i) && j < i
    ensures SeverSlot(s, Port(p, j), ch) == s
  {
    var k := Port(p, j);
    assert k in s.srv ==> AtPort(s.chproc, s.conns[s.srv[k]], k);
    hide Cut, Kids;
  }

  lemma {:induction false} SeverToAgain(s: State, p: Id, ch: Id, i: nat, n: nat)
    requires Inv(s) && ch in s.chproc && s.chproc[ch] == p
    ensures SeverTo(SeverTo(s, p, ch, i), p, ch, n) == if n <= i then SeverTo(s, p, ch, i) else SeverTo(s, p, ch, n)
    decreases n
  {
    SeverToKeeps(s, p, ch, i);
    SeverToCuts(s, p, ch, i);
    hide Inv, SeverSlot, CutOffBelow;
    if n > 0 {
      SeverToAgain(s, p, ch, i, n - 1);
      if n <= i {
        SeverNothing(SeverTo(s, p, ch, i), p, ch, i, n - 1);
      }
    }
  }

  lemma {:induction false} SeverToChanges(s: State, p: Id, ch: Id, n: nat, c: Id)
    ensures var s' := SeverTo(s, p, ch, n);
            c in s'.conns ==> c in s.conns && (s'.conns[c] == s.conns[c] || s'.conns[c] == s.conns[c].(ch := None))
  {
    hide SeverSlot;
    if n > 0 {
      SeverToChanges(s, p, ch, n - 1, c);
      SeverSlotChanges(SeverTo(s, p, ch, n - 1), Port(p, n - 1), ch, c);
    }
  }

  lemma SeveredNothing(s: State, ch: Id, ts: seq<Id>, i: nat)
    requires Inv(s) && ch in s.chproc
    ensures var d := Drain(s, ch, ts);
            var s1 := SeverTo(d, s.chproc[ch], ch, i);
            Inv(s1) && Drain(s1, ch, ts) == s1
  {
    var p := s.chproc[ch];
    var d := Drain(s, ch, ts);
    SeverToKeeps(d, p, ch, i);
    var s1 := SeverTo(d, p, ch, i);
    hide Inv, Drain, SeverTo;
    forall t | t in ts ensures !BlockedAt(s1, t, ch) {
      DrainedStay(s, ch, ts, t);
      if ByThread(t) in s1.refs {
        SeverToChanges(d, p, ch, i, s1.refs[ByThread(t)]);
      }
    }
    DrainNothing(s1, ch, ts);
  }

  /** Interrupted anywhere, among the threads or among the server places, and started over,
      the call ends in the state it would have reached in one go. */
  lemma DestroyRestarts(s: State, ch: Id, ts: seq<Id>, n: nat, k: nat, i: nat)
    requires Inv(s) && ch in s.chproc && k <= |ts| && i <= n
    ensures Inv(SeverTo(Drain(s, ch, ts), s.chproc[ch], ch, i))
    ensures Destroy(Drain(s, ch, ts[..k]), ch, ts, n) == Destroy(s, ch, ts, n)
    ensures Destroy(SeverTo(Drain(s, ch, ts), s.chproc[ch], ch, i), ch, ts, n) == Destroy(s, ch, ts, n)
  {
    hide Inv, Drain, SeverTo, BlockedAt;
    DrainTakes(s, ch, ts[..k], ByThread(0));
    DrainTakes(s, ch, ts, ByThread(0));
    DrainRestarts(s, ch, ts, k);
    var d := Drain(s, ch, ts);
    SeverToKeeps(d, s.chproc[ch], ch, i);
    SeveredNothing(s, ch, ts, i);
    SeverToAgain(d, s.chproc[ch], ch, i, n);
  }

  /** Other calls may run before the call is started over: from any state with right counts in
      which the channel is still there and nobody has newly blocked on it, the call completes. */
  lemma DestroyResumes(s: State, s2: State, ch: Id, ts: seq<Id>, n: nat, k: nat, i: nat, q: Ref)
    requires Inv(s) && ch in s.chproc && k <= |ts| && i <= n && !q.ByChild?
    requires forall t :: BlockedAt(s, t, ch) ==> t in ts
    requires Inv(s2) && ch in s2.chproc && Within(s2, s2.chproc[ch], n)
    requires var s1 := if k < |ts| then Drain(s, ch, ts[..k]) else SeverTo(Drain(s, ch, ts), s.chproc[ch], ch, i);
             forall t :: BlockedAt(s2, t, ch) ==> BlockedAt(s1, t, ch)
    ensures var s' := Destroy(s2, ch, ts, n);
            && Inv(s')
            && ch !in s'.chproc && (forall c :: c in s'.conns ==> s'.conns[c].ch != Some(ch))
            && (q in s'.refs <==> q in s2.refs && !(q.ByThread? && BlockedAt(s2, q.t, ch)))
  {
    forall t ensures BlockedAt(s2, t, ch) ==> t in ts {
      InterruptedBlocks(s, ch, ts, k, i, t);
    }
    hide Inv, Drain, SeverTo, BlockedAt, Destroy;
    DestroyCuts(s2, ch, ts, n, q);
  }

  lemma InterruptedBlocks(s: State, ch: Id, ts: seq<Id>, k: nat, i: nat, t: Id)
    requires Inv(s) && ch in s.chproc && k <= |ts|
    ensures BlockedAt(Drain(s, ch, ts[..k]), t, ch) ==> BlockedAt(s, t, ch)
    ensures BlockedAt(SeverTo(Drain(s, ch, ts), s.chproc[ch], ch, i), t, ch) ==> BlockedAt(s, t, ch)
  {
    DrainBlocks(s, ch, ts[..k], t);
    DrainBlocks(s, ch, ts, t);
    var d := Drain(s, ch, ts);
    SeverToKeeps(d, s.chproc[ch], ch, i);
    hide Inv, Drain, SeverTo;
    if ByThread(t) in d.refs {
      SeverToChanges(d, s.chproc[ch], ch, i, d.refs[ByThread(t)]);
    }
  }

  lemma DrainBlocks(s: State, ch: Id, ts: seq<Id>, t: Id)
    requires Inv(s)
    ensures BlockedAt(Drain(s, ch, ts), t, ch) ==> BlockedAt(s, t, ch)
  {
    DrainTakes(s, ch, ts, ByThread(t));
    hide Inv, Drain;
  }
}
