/**
 The pool of trace event handlers: a fixed array of slots, a count of the slots in use, and
 registration points that hold a pointer to their slot.
 */
module TracePool {
  import opened Base

  datatype Slot = Slot(handler: Option<Id>, loc: Option<Id>, proc: Option<Id>)

  const EMPTY := Slot(None, None, None)

  datatype State = State(
    slots: seq<Slot>,       // eh_storage
    num: nat,               // eh_num
    locs: map<Id, nat>)     // registration point -> slot it points to

  function InUse(slots: seq<Slot>): nat {
    if slots == [] then 0 else InUse(slots[..|slots| - 1]) + if slots[|slots| - 1].handler.Some? then 1 else 0
  }

  /** The count is the number of slots in use; a free slot is empty; and a registration point
      points to a slot in use that points back, so two points never share a slot. */
  ghost predicate Inv(s: State) {
    && s.num == InUse(s.slots)
    && (forall i :: 0 <= i < |s.slots| && s.slots[i].handler == None ==> s.slots[i] == EMPTY)
    && (forall i :: 0 <= i < |s.slots| && s.slots[i].handler.Some? ==> s.slots[i].loc.Some? && s.slots[i].proc.Some?)
    && (forall l :: l in s.locs ==>
          s.locs[l] < |s.slots| && s.slots[s.locs[l]].handler.Some? && s.slots[s.locs[l]].loc == Some(l))
  }

  /** No slot is lost: each one in use is the one its registration point points to. */
  ghost predicate Tight(s: State) {
    forall i :: 0 <= i < |s.slots| && s.slots[i].handler.Some? && s.slots[i].loc.Some? ==>
      s.slots[i].loc.value in s.locs && s.locs[s.slots[i].loc.value] == i
  }

  /** The first free slot from `i` on. */
  function FirstFree(slots: seq<Slot>, i: nat): nat
    requires i <= |slots|
    decreases |slots| - i
  {
    if i == |slots| || slots[i].handler == None then i else FirstFree(slots, i + 1)
  }

  lemma {:induction false} InUseBound(slots: seq<Slot>)
    ensures InUse(slots) <= |slots|
    ensures (forall i :: 0 <= i < |slots| ==> slots[i].handler.Some?) ==> InUse(slots) == |slots|
  {
    if slots != [] {
      InUseBound(slots[..|slots| - 1]);
    }
  }

  lemma {:induction false} FirstFreeStops(slots: seq<Slot>, i: nat)
    requires i <= |slots| && forall j :: 0 <= j < i ==> slots[j].handler.Some?
    ensures var k := FirstFree(slots, i);
            && i <= k <= |slots| && (forall j :: 0 <= j < k ==> slots[j].handler.Some?)
            && (k < |slots| ==> slots[k].handler == None)
    decreases |slots| - i
  {
    if i < |slots| && slots[i].handler.Some? {
      FirstFreeStops(slots, i + 1);
    }
  }

  /** Fewer slots in use than there are slots: the search finds a free one inside the array. */
  lemma SearchStopsInside(s: State)
    requires Slack(s) && s.num < |s.slots|
    ensures FirstFree(s.slots, 0) < |s.slots| && s.slots[FirstFree(s.slots, 0)].handler == None
  {
    FirstFreeStops(s.slots, 0);
    TakenBound(s.slots);
  }

  // ---------------------------------------------------------------- what every caller keeps

  /** Slots that carry a registration, with a handler or with a null one. */
  function Taken(slots: seq<Slot>): nat {
    if slots == [] then 0 else Taken(slots[..|slots| - 1]) + if slots[|slots| - 1].loc.Some? then 1 else 0
  }

  /** Registration points that point to a slot which is no longer theirs. */
  function Strays(slots: seq<Slot>, locs: map<Id, nat>): set<Id> {
    set l | l in locs && !(locs[l] < |slots| && slots[locs[l]].loc == Some(l))
  }

  /** The count covers the slots that carry a registration and the points that have lost theirs.
      Null handlers and repeated registrations do not break this. */
  ghost predicate Slack(s: State) {
    && Taken(s.slots) + |Strays(s.slots, s.locs)| <= s.num
    && (forall l :: l in s.locs ==> s.locs[l] < |s.slots|)
    && (forall i :: 0 <= i < |s.slots| && (s.slots[i].handler.Some? || s.slots[i].proc.Some?) ==> s.slots[i].loc.Some?)
  }

  lemma {:induction false} TakenBound(slots: seq<Slot>)
    ensures Taken(slots) <= |slots|
    ensures (forall i :: 0 <= i < |slots| ==> slots[i].loc.Some?) ==> Taken(slots) == |slots|
  {
    if slots != [] {
      TakenBound(slots[..|slots| - 1]);
    }
  }

  lemma {:induction false} TakenUpdate(slots: seq<Slot>, i: nat, e: Slot)
    requires i < |slots|
    ensures Taken(slots[i := e]) ==
            Taken(slots) - (if slots[i].loc.Some? then 1 else 0) + (if e.loc.Some? then 1 else 0)
  {
    var n := |slots| - 1;
    var slots' := slots[i := e];
    if i == n {
      assert slots'[..n] == slots[..n];
    } else {
      assert slots'[..n] == slots[..n][i := e];
      TakenUpdate(slots[..n], i, e);
    }
  }

  lemma {:induction false} TakenOne(slots: seq<Slot>, i: nat)
    requires i < |slots| && slots[i].loc.Some?
    ensures Taken(slots) > 0
  {
    if i < |slots| - 1 {
      TakenOne(slots[..|slots| - 1], i);
    }
  }

  /** At most one point loses its slot when the slot changes hands: the one it belonged to. */
  function Loser(e: Slot): set<Id> {
    if e.loc.Some? then {e.loc.value} else {}
  }

  lemma FewerStrays(a: set<Id>, b: set<Id>)
    requires a <= b
    ensures |a| <= |b|
  {
    assert b == a + (b - a);
  }

  lemma AddSlack(s: State, loc: Id, handler: Option<Id>, proc: Option<Id>)
    requires Slack(s)
    ensures Slack(Add(s, loc, handler, proc))
  {
    if Accepts(s, proc) {
      SearchStopsInside(s);
      var k := FirstFree(s.slots, 0);
      var e := Slot(handler, Some(loc), proc);
      var slots', locs' := s.slots[k := e], s.locs[loc := k];
      TakenUpdate(s.slots, k, e);
      hide Taken, FirstFree;
      var before, after := Strays(s.slots, s.locs), Strays(slots', locs');
      assert after <= before + Loser(s.slots[k]);
      FewerStrays(after, before + Loser(s.slots[k]));
    }
  }

  /** The count never goes below zero, so the deletion needs no test of its own. */
  lemma PointsCount(s: State, loc: Id)
    requires Slack(s) && loc in s.locs
    ensures s.num > 0
  {
    var i := s.locs[loc];
    if s.slots[i].loc == Some(loc) {
      TakenOne(s.slots, i);
    } else {
      assert loc in Strays(s.slots, s.locs);
      FewerStrays({loc}, Strays(s.slots, s.locs));
    }
  }

  lemma DeleteStrays(slots: seq<Slot>, locs: map<Id, nat>, loc: Id)
    requires loc in locs && locs[loc] < |slots|
    ensures var i := locs[loc];
            var before, after := Strays(slots, locs), Strays(slots[i := EMPTY], locs - {loc});
            if slots[i].loc == Some(loc) then after <= before
            else loc in before && after <= (before - {loc}) + Loser(slots[i])
  {
  }

  lemma DeleteSlack(s: State, loc: Id)
    requires Slack(s)
    ensures Slack(Delete(s, loc))
  {
    if loc in s.locs {
      PointsCount(s, loc);
      var i := s.locs[loc];
      TakenUpdate(s.slots, i, EMPTY);
      DeleteStrays(s.slots, s.locs, loc);
      var before, after := Strays(s.slots, s.locs), Strays(s.slots[i := EMPTY], s.locs - {loc});
      hide Taken, Strays;
      if s.slots[i].loc == Some(loc) {
        FewerStrays(after, before);
      } else {
        FewerStrays(after, (before - {loc}) + Loser(s.slots[i]));
      }
    }
  }

  lemma ReapSlack(s: State, proc: Id, i: nat)
    requires Slack(s) && i < |s.slots|
    ensures Slack(Reap(s, proc, i))
  {
    if s.num > 0 && s.slots[i].proc == Some(proc) {
      var loc := s.slots[i].loc.value;
      var slots', locs' := s.slots[i := EMPTY], s.locs - {loc};
      TakenUpdate(s.slots, i, EMPTY);
      hide Taken;
      assert Strays(slots', locs') <= Strays(s.slots, s.locs);
      FewerStrays(Strays(slots', locs'), Strays(s.slots, s.locs));
    }
  }

  lemma {:induction false} ReapToSlack(s: State, proc: Id, n: nat)
    requires Slack(s) && n <= |s.slots|
    ensures Slack(ReapTo(s, proc, n))
  {
    if n > 0 {
      ReapToSlack(s, proc, n - 1);
      ReapSlack(ReapTo(s, proc, n - 1), proc, n - 1);
      hide Slack, Reap;
    }
  }

  datatype Command = Register(loc: Id, handler: Option<Id>, proc: Option<Id>) | Unregister(loc: Id) | Die(dead: Id)

  function Apply(s: State, c: Command): State {
    match c
    case Register(loc, handler, proc) => Add(s, loc, handler, proc)
    case Unregister(loc) => Delete(s, loc)
    case Die(proc) => ReapTo(s, proc, |s.slots|)
  }

  function After(s: State, cs: seq<Command>): State {
    if cs == [] then s else Apply(After(s, cs[..|cs| - 1]), cs[|cs| - 1])
  }

  /** After any commands by any callers, from an empty pool: as long as the count is below the
      size the search without a bound stops inside the array, and a registration point that is
      set finds the count above zero. */
  lemma {:induction false} SearchAlwaysStops(size: nat, cs: seq<Command>)
    ensures var s := After(State(seq(size, _ => EMPTY), 0, map[]), cs);
            && Slack(s)
            && (s.num < |s.slots| ==> FirstFree(s.slots, 0) < |s.slots|)
            && (forall loc :: loc in s.locs ==> s.num > 0)
  {
    var s0 := State(seq(size, _ => EMPTY), 0, map[]);
    if cs == [] {
      NoneTaken(s0.slots);
      assert Strays(s0.slots, s0.locs) == {};
    } else {
      var s := After(s0, cs[..|cs| - 1]);
      SearchAlwaysStops(size, cs[..|cs| - 1]);
      match cs[|cs| - 1]
      case Register(loc, handler, proc) => AddSlack(s, loc, handler, proc);
      case Unregister(loc) => DeleteSlack(s, loc);
      case Die(proc) => ReapToSlack(s, proc, |s.slots|);
    }
    var s := After(s0, cs);
    if s.num < |s.slots| {
      SearchStopsInside(s);
    }
    forall loc | loc in s.locs ensures s.num > 0 {
      PointsCount(s, loc);
    }
  }

  lemma {:induction false} NoneTaken(slots: seq<Slot>)
    requires forall i :: 0 <= i < |slots| ==> slots[i] == EMPTY
    ensures Taken(slots) == 0
  {
    if slots != [] {
      NoneTaken(slots[..|slots| - 1]);
    }
  }

  /** A pool in order is covered by its count. */
  lemma InvSlack(s: State)
    requires Inv(s)
    ensures Slack(s)
  {
    InUseTaken(s.slots);
    forall l ensures l !in Strays(s.slots, s.locs) {
    }
    assert Strays(s.slots, s.locs) == {};
    hide InUse, Taken;
  }

  lemma {:induction false} InUseTaken(slots: seq<Slot>)
    requires forall i :: 0 <= i < |slots| ==> (slots[i].handler.Some? <==> slots[i].loc.Some?)
    ensures InUse(slots) == Taken(slots)
  {
    if slots != [] {
      InUseTaken(slots[..|slots| - 1]);
    }
  }

  lemma {:induction false} InUseUpdate(slots: seq<Slot>, i: nat, e: Slot)
    requires i < |slots|
    ensures InUse(slots[i := e]) ==
            InUse(slots) - (if slots[i].handler.Some? then 1 else 0) + (if e.handler.Some? then 1 else 0)
  {
    var n := |slots| - 1;
    var slots' := slots[i := e];
    if i == n {
      assert slots'[..n] == slots[..n];
    } else {
      assert slots'[..n] == slots[..n][i := e];
      InUseUpdate(slots[..n], i, e);
    }
  }

  // ---------------------------------------------------------------- commands

  predicate Accepts(s: State, proc: Option<Id>) {
    proc.Some? && s.num < |s.slots|
  }

  /** `add_eh`; `handler` is None for a null handler. */
  function Add(s: State, loc: Id, handler: Option<Id>, proc: Option<Id>): State {
    var k := FirstFree(s.slots, 0);
    if Accepts(s, proc) && k < |s.slots|
    then State(s.slots[k := Slot(handler, Some(loc), proc)], s.num + 1, s.locs[loc := k])
    else s
  }

  /** `delete_eh` */
  function Delete(s: State, loc: Id): State {
    if loc in s.locs && s.locs[loc] < |s.slots| && s.num > 0
    then State(s.slots[s.locs[loc] := EMPTY], s.num - 1, s.locs - {loc})
    else s
  }

  /** One slot of a process that dies. */
  function Reap(s: State, proc: Id, i: nat): State
    requires i < |s.slots|
  {
    if s.num > 0 && s.slots[i].proc == Some(proc) && s.slots[i].loc.Some?
    then State(s.slots[i := EMPTY], s.num - 1, s.locs - {s.slots[i].loc.value})
    else s
  }

  function ReapTo(s: State, proc: Id, n: nat): (s': State)
    requires n <= |s.slots|
    ensures |s'.slots| == |s.slots|
  {
    if n == 0 then s else Reap(ReapTo(s, proc, n - 1), proc, n - 1)
  }

  // ---------------------------------------------------------------- what they keep

  /** A registration keeps the pool in order exactly when its handler is not null (or it is
      refused). */
  lemma AddKeeps(s: State, loc: Id, handler: Option<Id>, proc: Option<Id>)
    requires Inv(s)
    ensures Inv(Add(s, loc, handler, proc)) <==> handler.Some? || !Accepts(s, proc)
  {
    if Accepts(s, proc) {
      InvSlack(s);
      SearchStopsInside(s);
      var k := FirstFree(s.slots, 0);
      InUseUpdate(s.slots, k, Slot(handler, Some(loc), proc));
      hide InUse, FirstFree;
      var s' := Add(s, loc, handler, proc);
      if handler.Some? {
        assert Inv(s');
      }
    }
  }

  /** ... and loses no slot exactly when the point was not registered before. */
  lemma AddTight(s: State, loc: Id, handler: Option<Id>, proc: Option<Id>)
    requires Inv(s) && Tight(s) && handler.Some?
    ensures Tight(Add(s, loc, handler, proc)) <==> loc !in s.locs || !Accepts(s, proc)
  {
    if Accepts(s, proc) {
      InvSlack(s);
      SearchStopsInside(s);
      var k := FirstFree(s.slots, 0);
      hide InUse, FirstFree, Slack;
      var s' := Add(s, loc, handler, proc);
      if loc in s.locs {
        var i := s.locs[loc];
        assert i != k && s'.slots[i] == s.slots[i] && s'.locs[loc] == k;
      } else {
        assert forall i :: 0 <= i < |s.slots| && i != k ==> s'.slots[i] == s.slots[i];
        assert Tight(s');
      }
    }
  }

  lemma DeleteKeeps(s: State, loc: Id)
    requires Inv(s)
    ensures Inv(Delete(s, loc)) && loc !in Delete(s, loc).locs
    ensures Tight(s) ==> Tight(Delete(s, loc))
  {
    if loc in s.locs {
      InUseUpdate(s.slots, s.locs[loc], EMPTY);
      InUseOne(s.slots, s.locs[loc]);
      hide InUse;
      var s' := Delete(s, loc);
      assert forall i :: 0 <= i < |s.slots| && i != s.locs[loc] ==> s'.slots[i] == s.slots[i];
    }
  }

  lemma {:induction false} InUseOne(slots: seq<Slot>, i: nat)
    requires i < |slots| && slots[i].handler.Some?
    ensures InUse(slots) > 0
  {
    if i < |slots| - 1 {
      InUseOne(slots[..|slots| - 1], i);
    }
  }

  lemma ReapKeeps(s: State, proc: Id, i: nat)
    requires Inv(s) && i < |s.slots|
    ensures Inv(Reap(s, proc, i)) && Reap(s, proc, i).slots[i].proc != Some(proc)
    ensures forall j :: 0 <= j < |s.slots| && j != i ==> Reap(s, proc, i).slots[j] == s.slots[j]
  {
    if s.slots[i].proc == Some(proc) {
      InUseUpdate(s.slots, i, EMPTY);
      InUseOne(s.slots, i);
    }
    hide InUse;
  }

  /** After a process has died no slot belongs to it. */
  lemma {:induction false} ReapToKeeps(s: State, proc: Id, n: nat)
    requires Inv(s) && n <= |s.slots|
    ensures Inv(ReapTo(s, proc, n))
    ensures forall j :: 0 <= j < n ==> ReapTo(s, proc, n).slots[j].proc != Some(proc)
  {
    if n > 0 {
      ReapToKeeps(s, proc, n - 1);
      ReapKeeps(ReapTo(s, proc, n - 1), proc, n - 1);
      hide Inv, Reap;
    }
  }

  /** Registration points outside `gone` point where they pointed. */
  ghost predicate PointsKept(locs: map<Id, nat>, locs': map<Id, nat>, gone: Id) {
    forall l :: l != gone ==> (l in locs' <==> l in locs) && (l in locs ==> locs'[l] == locs[l])
  }

  /** An accepted registration puts handler, point and process into the first free slot, to which
      the point points; a refused one does nothing. */
  lemma AddRegisters(s: State, loc: Id, handler: Option<Id>, proc: Option<Id>)
    requires Slack(s)
    ensures var s' := Add(s, loc, handler, proc);
            if !Accepts(s, proc) then s' == s
            else && loc in s'.locs && s'.locs[loc] < |s.slots| && s.slots[s'.locs[loc]].handler == None
                 && s'.slots == s.slots[s'.locs[loc] := Slot(handler, Some(loc), proc)] && s'.num == s.num + 1
                 && (forall j :: 0 <= j < s'.locs[loc] ==> s.slots[j].handler.Some?)
                 && PointsKept(s.locs, s'.locs, loc)
  {
    if Accepts(s, proc) {
      SearchStopsInside(s);
      FirstFreeStops(s.slots, 0);
    }
  }

  /** A deletion empties the slot its point points to, and no other. */
  lemma DeleteEmpties(s: State, loc: Id)
    requires Slack(s)
    ensures var s' := Delete(s, loc);
            if loc !in s.locs then s' == s
            else && s.locs[loc] < |s.slots| && s'.slots == s.slots[s.locs[loc] := EMPTY] && s'.num + 1 == s.num
                 && loc !in s'.locs && PointsKept(s.locs, s'.locs, loc)
  {
    if loc in s.locs {
      PointsCount(s, loc);
    }
  }

  /** The sweep after the death of a process empties exactly the slots of that process, and, if no
      slot was lost before, takes exactly their registration points. */
  lemma {:induction false} ReapTakes(s: State, proc: Id, n: nat)
    requires Inv(s) && n <= |s.slots|
    ensures var s' := ReapTo(s, proc, n);
            forall j :: 0 <= j < |s.slots| ==>
              s'.slots[j] == if j < n && s.slots[j].proc == Some(proc) then EMPTY else s.slots[j]
    ensures var s' := ReapTo(s, proc, n);
            Tight(s) ==> forall l :: l in s'.locs <==>
              l in s.locs && !(s.locs[l] < n && s.slots[s.locs[l]].proc == Some(proc))
    ensures var s' := ReapTo(s, proc, n); forall l :: l in s'.locs ==> l in s.locs && s'.locs[l] == s.locs[l]
  {
    if n > 0 {
      ReapTakes(s, proc, n - 1);
      ReapToKeeps(s, proc, n - 1);
      var s1, s' := ReapTo(s, proc, n - 1), ReapTo(s, proc, n);
      if s.slots[n - 1].proc == Some(proc) {
        InUseOne(s1.slots, n - 1);
        hide InUse;
        assert s' == Reap(s1, proc, n - 1);
      }
    }
  }

  /** The two-handler registration is all or nothing exactly when there is not just one slot
      left. */
  lemma DoubleAddWhole(s: State, l1: Id, l2: Id, handler: Id, proc: Id)
    requires Inv(s)
    ensures var s1 := Add(s, l1, Some(handler), Some(proc));
            var ok := Accepts(s, Some(proc)) && Accepts(s1, Some(proc));
            var s2 := if Accepts(s, Some(proc)) then Add(s1, l2, Some(handler), Some(proc)) else s1;
            (ok || s2 == s) <==> s.num + 1 != |s.slots|
  {
    InUseBound(s.slots);
    if s.num < |s.slots| {
      InvSlack(s);
      SearchStopsInside(s);
      AddKeeps(s, l1, Some(handler), Some(proc));
    }
    hide InUse, FirstFree;
  }

  /** Registering and deleting again leaves the pool as it was. */
  lemma AddThenDelete(s: State, loc: Id, handler: Id, proc: Id)
    requires Inv(s) && loc !in s.locs && s.num < |s.slots|
    ensures Delete(Add(s, loc, Some(handler), Some(proc)), loc) == s
  {
    InvSlack(s);
    SearchStopsInside(s);
    var k := FirstFree(s.slots, 0);
    assert s.slots[k] == EMPTY;
    var s1 := Add(s, loc, Some(handler), Some(proc));
    assert s1.slots[k := EMPTY] == s.slots;
    assert s1.locs - {loc} == s.locs;
  }

  class Pool {
    const slots: array<Slot>
    var num: nat
    var locs: map<Id, nat>

    function View(): State
      reads this, slots
    {
      State(slots[..], num, locs)
    }

    constructor (size: nat)
      ensures slots.Length == size && num == 0 && Inv(View()) && Tight(View()) && Slack(View())
    {
      slots := new Slot[size](_ => EMPTY);
      num, locs := 0, map[];
      new;
      AllFree(slots[..]);
      InvSlack(View());
    }

    /** `add_eh`: the search has no bound of its own. */
    method Register(loc: Id, handler: Option<Id>, proc: Option<Id>) returns (ok: bool)
      requires Slack(View())
      modifies this, slots
      ensures ok <==> old(Accepts(View(), proc))
      ensures View() == Add(old(View()), loc, handler, proc)
      ensures Slack(View())
      ensures ok ==> loc in locs && locs[loc] < slots.Length && slots[locs[loc]] == Slot(handler, Some(loc), proc)
      ensures ok ==> forall j :: 0 <= j < slots.Length && j != locs[loc] ==> slots[j] == old(slots[j])
    {
      AddSlack(View(), loc, handler, proc);
      ok := proc.Some? && num < slots.Length;
      if ok {
        SearchStopsInside(View());
        num := num + 1;
        var i := 0;
        while slots[i].handler != None
          invariant slots[..] == old(slots[..]) && num == old(num) + 1 && locs == old(locs)
          invariant 0 <= i <= FirstFree(slots[..], 0) < slots.Length
          invariant FirstFree(slots[..], i) == FirstFree(slots[..], 0)
          decreases slots.Length - i
        {
          FirstFreeMoves(slots[..], i);
          i := i + 1;
        }
        assert i == FirstFree(slots[..], 0);
        slots[i] := Slot(handler, Some(loc), proc);
        locs := locs[loc := i];
      }
    }

    /** `delete_eh` */
    method Unregister(loc: Id)
      requires Slack(View())
      modifies this, slots
      ensures View() == Delete(old(View()), loc)
      ensures Slack(View()) && loc !in locs
      ensures forall j :: 0 <= j < slots.Length ==>
                slots[j] == if old(loc in locs) && j == old(locs)[loc] then EMPTY else old(slots[j])
    {
      DeleteSlack(View(), loc);
      if loc in locs {
        var i := locs[loc];
        PointsCount(View(), loc);
        locs := locs - {loc};
        slots[i] := EMPTY;
        num := num - 1;
      }
    }

    /** The sweep when a process dies; it ends early once nothing is in use. */
    method Sweep(proc: Id)
      requires Slack(View())
      modifies this, slots
      ensures View() == ReapTo(old(View()), proc, slots.Length)
      ensures Slack(View())
      ensures Inv(old(View())) ==>
                forall j :: 0 <= j < slots.Length ==>
                  slots[j] == if old(slots[j]).proc == Some(proc) then EMPTY else old(slots[j])
    {
      ghost var s := View();
      if Inv(s) {
        ReapTakes(s, proc, slots.Length);
        assert forall j :: 0 <= j < slots.Length ==> s.slots[j] == slots[j];
      }
      var i := 0;
      while num > 0 && i < slots.Length
        invariant 0 <= i <= slots.Length
        invariant Slack(View()) && View() == ReapTo(s, proc, i)
      {
        ReapSlack(View(), proc, i);
        SweepOne(proc, i);
        i := i + 1;
      }
      ReapNothing(s, proc, i, slots.Length);
      assert forall j :: 0 <= j < slots.Length ==> View().slots[j] == slots[j];
    }

    method SweepOne(proc: Id, i: nat)
      requires Slack(View()) && i < slots.Length && num > 0
      modifies this, slots
      ensures View() == Reap(old(View()), proc, i)
    {
      hide Taken, Strays;
      if slots[i].proc == Some(proc) {
        locs := locs - {slots[i].loc.value};
        slots[i] := EMPTY;
        num := num - 1;
      }
    }
  }

  lemma {:induction false} AllFree(slots: seq<Slot>)
    requires forall i :: 0 <= i < |slots| ==> slots[i] == EMPTY
    ensures InUse(slots) == 0
  {
    if slots != [] {
      AllFree(slots[..|slots| - 1]);
    }
  }

  lemma FirstFreeMoves(slots: seq<Slot>, i: nat)
    requires i < |slots| && slots[i].handler.Some?
    ensures FirstFree(slots, i) == FirstFree(slots, i + 1) && i < FirstFree(slots, i)
  {
    FirstFreeLater(slots, i + 1);
  }

  lemma {:induction false} FirstFreeLater(slots: seq<Slot>, i: nat)
    requires i <= |slots|
    ensures i <= FirstFree(slots, i)
    decreases |slots| - i
  {
    if i < |slots| && slots[i].handler.Some? {
      FirstFreeLater(slots, i + 1);
    }
  }

  lemma {:induction false} ReapNothing(s: State, proc: Id, i: nat, n: nat)
    requires i <= n <= |s.slots| && (ReapTo(s, proc, i).num == 0 || i == n)
    ensures ReapTo(s, proc, n) == ReapTo(s, proc, i)
    decreases n
  {
    if i < n {
      ReapNothing(s, proc, i, n - 1);
    }
  }
}
