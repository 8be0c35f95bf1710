/**
 The mutex and condition-variable protocol: user-mode atomic operations on the owner
 word, on any number of processors, interleaved with the kernel's lock, unlock, condvar
 wait and condvar signal calls.

 Every user-mode atomic is one step. Kernel calls are serialised: the kernel is held by
 one thread at a time, and a call preempted before it locked the kernel starts again
 from the top. Within a kernel lock marking, reading, exchanging and storing the word are
 steps of their own, so user-mode steps of other threads fall between them. An unlock, by
 the unlock call or by a condvar wait, is one step although it writes the word twice;
 `UnlockInTwo` shows that a user-mode step between the two writes has the effect it would have
 had before the first.
 */
module MutexProtocol {
  import opened Base
  import opened Pril
  import opened SyncWord

  /** How far a thread is in locking, unlocking or waiting. */
  datatype Pc =
    | Idle
    | Entering(acquire: bool)            // about to run the kernel lock; acquire: woken to take the mutex
    | Retry                              // inside the kernel lock, about to set WAITING once more
    | Marked(acquire: bool)              // has set WAITING
    | Seen(acquire: bool, seen: Word)    // has read the word after that
    | Took                               // won the exchange, owner not stored yet
    | Queued                             // blocked on the mutex
    | Holding
    | Owing                              // unlocked in user mode, saw WAITING, owes the kernel call
    | Released                           // condvar wait: gave the mutex up, not on the condvar yet
    | CondQueued                         // blocked on the condvar

  datatype State = State(
    word: Word,
    waiting: seq<Id>,
    cond: seq<Id>,
    pc: map<Id, Pc>,
    prio: map<Id, nat>,
    kernel: Option<Id>)

  function At(pc: map<Id, Pc>, t: Id): Pc {
    if t in pc then pc[t] else Idle
  }

  datatype Event =
    | UserLock(t: Id)
    | UserTryLock(t: Id)
    | UserUnlock(t: Id)
    | Mark(t: Id)
    | Preempt(t: Id)
    | ReadWord(t: Id)
    | Choose(t: Id, timeout: bool)
    | Store(t: Id)
    | KernelUnlock(t: Id)
    | CondRelease(t: Id)
    | CondEnqueue(t: Id, timeout: bool)
    | CondSignal(t: Id, all: bool)
    | ForceReady(t: Id)
    | SetPriority(t: Id, p: nat)

  /** Which steps a thread can take. Only a holder unlocks in user mode; the kernel calls
      need the kernel. */
  predicate Enabled(s: State, e: Event) {
    match e
    case UserLock(t) => At(s.pc, t) == Idle
    case UserTryLock(t) => At(s.pc, t) == Idle
    case UserUnlock(t) => At(s.pc, t) == Holding
    case Mark(t) => (At(s.pc, t).Entering? && s.kernel == None) || At(s.pc, t) == Retry
    case Preempt(t) => At(s.pc, t).Marked?
    case ReadWord(t) => At(s.pc, t).Marked?
    case Choose(t, _) => At(s.pc, t).Seen?
    case Store(t) => At(s.pc, t) == Took
    case KernelUnlock(t) => s.kernel == None && At(s.pc, t) in {Idle, Holding, Owing}
    case CondRelease(t) => s.kernel == None && At(s.pc, t) == Holding
    case CondEnqueue(t, _) => At(s.pc, t) == Released
    case CondSignal(t, _) => s.kernel == None && At(s.pc, t) in {Idle, Holding}
    case ForceReady(t) => s.kernel == None && At(s.pc, t) in {Queued, CondQueued}
    case SetPriority(t, _) => s.kernel == None
  }

  /** `sync_wakeup` of the first waiter: ready, with the order to acquire the mutex. */
  function WakeFirst(s: State): State {
    if s.waiting == [] then s
    else s.(pc := s.pc[s.waiting[0] := Entering(true)], waiting := s.waiting[1..])
  }

  /** `sync_mutex_unlock`, seen from the caller's new position. */
  function Unlock(s: State, t: Id): State {
    var s1 := if s.word.owner == Some(t) then s.(word := Word(None, s.waiting != [])) else s;
    var s2 := WakeFirst(s1);
    if s2.waiting != [] then s2.(word := s2.word.(waiting := true)) else s2
  }

  /** The end of a kernel lock that did not get the mutex: time out or block. */
  function Park(s: State, t: Id, timeout: bool): State {
    if timeout then s.(pc := s.pc[t := Idle], kernel := None)
    else s.(pc := s.pc[t := Queued], waiting := Insert(s.waiting, s.prio, t), kernel := None)
  }

  predicate MayTake(s: State, t: Id, acquire: bool) {
    s.waiting == [] || P(s.prio, s.waiting[0]) < P(s.prio, t) || acquire
  }

  /** The decision of `sync_mutex_lock` for a thread that has read `seen`. */
  function Decide(s: State, t: Id, acquire: bool, seen: Word, timeout: bool): State {
    if MayTake(s, t, acquire) then
      if s.word == Word(None, true) then s.(pc := s.pc[t := Took])
      else Park(if s.word == FREE then s.(word := Word(None, true)) else s, t, timeout)
    else if seen == FREE then s.(pc := s.pc[t := Retry])
    else if seen == Word(None, true) then Park(WakeFirst(s), t, timeout)
    else Park(s, t, timeout)
  }

  function WakeAll(pc: map<Id, Pc>, q: seq<Id>): (r: map<Id, Pc>)
    ensures forall t :: At(r, t) == if t in q then Entering(true) else At(pc, t)
    decreases |q|
  {
    if q == [] then pc else WakeAll(pc[q[0] := Entering(true)], q[1..])
  }

  function Apply(s: State, e: Event): State
    requires Enabled(s, e)
  {
    match e
    case UserLock(t) =>
      if s.word == FREE then s.(word := Word(Some(t), false), pc := s.pc[t := Holding])
      else s.(pc := s.pc[t := Entering(false)])
    case UserTryLock(t) =>
      if s.word == FREE then s.(word := Word(Some(t), false), pc := s.pc[t := Holding]) else s
    case UserUnlock(t) =>
      s.(word := FREE, pc := s.pc[t := if s.word.waiting then Owing else Idle])
    case Mark(t) =>
      var acquire := At(s.pc, t) == Entering(true);
      s.(word := s.word.(waiting := true), pc := s.pc[t := Marked(acquire)], kernel := Some(t))
    case Preempt(t) =>
      s.(pc := s.pc[t := Entering(At(s.pc, t).acquire)], kernel := None)
    case ReadWord(t) =>
      s.(pc := s.pc[t := Seen(At(s.pc, t).acquire, s.word)])
    case Choose(t, timeout) =>
      Decide(s, t, At(s.pc, t).acquire, At(s.pc, t).seen, timeout)
    case Store(t) =>
      s.(word := Word(Some(t), s.waiting != []), pc := s.pc[t := Holding], kernel := None)
    case KernelUnlock(t) =>
      Unlock(s.(pc := s.pc[t := Idle]), t)
    case CondRelease(t) =>
      Unlock(s.(pc := s.pc[t := Released]), t).(kernel := Some(t))
    case CondEnqueue(t, timeout) =>
      if timeout then s.(pc := s.pc[t := Entering(true)], kernel := None)
      else s.(pc := s.pc[t := CondQueued], cond := Insert(s.cond, s.prio, t), kernel := None)
    case CondSignal(t, all) =>
      if s.cond == [] then s
      else if all then s.(pc := WakeAll(s.pc, s.cond), cond := [])
      else s.(pc := s.pc[s.cond[0] := Entering(true)], cond := s.cond[1..])
    case ForceReady(t) =>
      if At(s.pc, t) == Queued then s.(pc := s.pc[t := Idle], waiting := Remove(s.waiting, t))
      else s.(pc := s.pc[t := Entering(true)], cond := Remove(s.cond, t))
    case SetPriority(t, p) =>
      s.(prio := s.prio[t := p],
         waiting := if t in s.waiting then Reposition(s.waiting, s.prio, t, p) else s.waiting,
         cond := if t in s.cond then Reposition(s.cond, s.prio, t, p) else s.cond)
  }

  // ---------------------------------------------------------------- invariants

  /** Inside a kernel call, past the point where another kernel call could start. */
  predicate InKernel(p: Pc) {
    p == Retry || p.Marked? || p.Seen? || p == Took || p == Released
  }

  /** On its way to take the mutex after a wakeup, or about to store its ownership. */
  predicate Coming(p: Pc) {
    p == Took || (p.Entering? && p.acquire) || (p.Marked? && p.acquire) || (p.Seen? && p.acquire)
  }

  ghost predicate SomeOwing(s: State) {
    exists t :: At(s.pc, t) == Owing
  }

  ghost predicate SomeComing(s: State) {
    exists t :: Coming(At(s.pc, t))
  }

  /** A thread holds the mutex exactly when the word names it. */
  ghost predicate Exclusion(s: State) {
    forall t :: At(s.pc, t) == Holding <==> s.word.owner == Some(t)
  }

  ghost predicate QueuesAgree(s: State) {
    && Distinct(s.waiting) && Sorted(s.waiting, s.prio)
    && Distinct(s.cond) && Sorted(s.cond, s.prio)
    && (forall t :: t in s.waiting <==> At(s.pc, t) == Queued)
    && (forall t :: t in s.cond <==> At(s.pc, t) == CondQueued)
  }

  ghost predicate Serialised(s: State) {
    forall t :: InKernel(At(s.pc, t)) <==> s.kernel == Some(t)
  }

  /** What a kernel lock may rely on between its own accesses to the word. */
  ghost predicate LockerFacts(s: State) {
    && (forall t :: At(s.pc, t).Marked? || At(s.pc, t).Seen? ==> s.word.waiting || SomeOwing(s))
    && (forall t :: At(s.pc, t).Seen? && At(s.pc, t).seen.owner.Some? ==>
          (s.word.owner.Some? && s.word.waiting) || SomeOwing(s))
    && (forall t :: At(s.pc, t).Seen? && At(s.pc, t).seen == Word(None, true) ==> s.word == Word(None, true))
    && (forall t :: At(s.pc, t) == Took ==> s.word == Word(None, true))
  }

  /** No lost wakeup: whenever a thread is queued, the mutex has an owner who will see
      WAITING, or an unlocker still owes its kernel call, or a thread is on its way to
      take the mutex. */
  ghost predicate NoLostWakeup(s: State) {
    s.waiting != [] ==> (s.word.owner.Some? && s.word.waiting) || SomeOwing(s) || SomeComing(s)
  }

  /** Whenever a thread is queued, the next user-mode unlock will go to the kernel, or one
      is already on its way there. */
  ghost predicate Announced(s: State) {
    s.waiting != [] ==> s.word.waiting || SomeOwing(s)
  }

  ghost predicate Inv(s: State) {
    && Exclusion(s) && QueuesAgree(s) && Serialised(s)
    && LockerFacts(s) && NoLostWakeup(s) && Announced(s)
  }

  // ---------------------------------------------------------------- preservation

  lemma UserUnlockKeeps(s: State, t: Id)
    requires Inv(s) && At(s.pc, t) == Holding
    ensures Inv(Apply(s, UserUnlock(t)))
  {
    var s' := Apply(s, UserUnlock(t));
    assert forall u :: u != t ==> At(s'.pc, u) == At(s.pc, u);
    if s.word.waiting {
      assert At(s'.pc, t) == Owing;
    }
  }

  lemma UserStepKeeps(s: State, e: Event)
    requires Inv(s) && Enabled(s, e) && (e.UserLock? || e.UserTryLock? || e.UserUnlock?)
    ensures Inv(Apply(s, e))
  {
    if e.UserUnlock? {
      UserUnlockKeeps(s, e.t);
    } else {
      hide Sorted, Distinct, P;
      var s' := Apply(s, e);
      assert forall u :: u != e.t ==> At(s'.pc, u) == At(s.pc, u);
    }
  }

  lemma LockStepKeeps(s: State, e: Event)
    requires Inv(s) && Enabled(s, e) && (e.Mark? || e.Preempt? || e.ReadWord? || e.Store?)
    ensures Inv(Apply(s, e))
  {
    hide Sorted, Distinct, P, Insert;
    var s' := Apply(s, e);
    assert forall u :: u != e.t ==> At(s'.pc, u) == At(s.pc, u);
    assert Coming(At(s.pc, e.t)) && !e.Store? ==> Coming(At(s'.pc, e.t));
  }

  lemma WakeFirstFacts(s: State)
    requires QueuesAgree(s)
    ensures QueuesAgree(WakeFirst(s))
    ensures forall t :: At(WakeFirst(s).pc, t) ==
                        if s.waiting != [] && t == s.waiting[0] then Entering(true) else At(s.pc, t)
    ensures s.waiting != [] ==> SomeComing(WakeFirst(s)) && At(s.pc, s.waiting[0]) == Queued
  {
    if s.waiting != [] {
      TailKeeps(s.waiting, s.prio);
      assert s.waiting[0] in s.waiting;
      assert Coming(At(WakeFirst(s).pc, s.waiting[0]));
    }
  }

  /** Blocking is safe when the wakeup is secured by someone else. */
  lemma ParkKeeps(s: State, t: Id, timeout: bool)
    requires Exclusion(s) && QueuesAgree(s) && Serialised(s) && LockerFacts(s)
    requires At(s.pc, t).Seen?
    requires (s.word.owner.Some? && s.word.waiting) || SomeOwing(s)
             || (s.word.waiting && exists u :: u != t && Coming(At(s.pc, u)))
    ensures Inv(Park(s, t, timeout))
  {
    InsertKeeps(s.waiting, s.prio, t);
    var s' := Park(s, t, timeout);
    assert forall u :: u != t ==> At(s'.pc, u) == At(s.pc, u);
    assert SomeOwing(s) ==> SomeOwing(s');
    assert QueuesAgree(s');
  }

  lemma TakeKeeps(s: State, e: Event)
    requires Inv(s) && Enabled(s, e) && e.Choose? && MayTake(s, e.t, At(s.pc, e.t).acquire)
    requires s.word == Word(None, true)
    ensures Inv(Apply(s, e))
  {
    assert forall u :: u != e.t ==> At(Apply(s, e).pc, u) == At(s.pc, u);
    assert Coming(At(Apply(s, e).pc, e.t));
  }

  lemma ChooseKeeps(s: State, e: Event)
    requires Inv(s) && Enabled(s, e) && e.Choose?
    ensures Inv(Apply(s, e))
  {
    var t, p := e.t, At(s.pc, e.t);
    if MayTake(s, t, p.acquire) {
      if s.word == Word(None, true) {
        TakeKeeps(s, e);
      } else {
        ParkKeeps(if s.word == FREE then s.(word := Word(None, true)) else s, t, e.timeout);
      }
    } else if p.seen == FREE {
      assert forall u :: u != t ==> At(Apply(s, e).pc, u) == At(s.pc, u);
    } else if p.seen == Word(None, true) {
      WakeFirstFacts(s);
      var s1 := WakeFirst(s);
      assert Coming(At(s1.pc, s.waiting[0]));
      assert SomeOwing(s) ==> SomeOwing(s1);
      ParkKeeps(s1, t, e.timeout);
    } else {
      ParkKeeps(s, t, e.timeout);
    }
  }

  lemma UnlockFacts(s: State, t: Id)
    requires QueuesAgree(s)
    ensures var s' := Unlock(s, t);
            && QueuesAgree(s') && s'.pc == WakeFirst(s).pc && s'.kernel == s.kernel
            && s'.word.owner == (if s.word.owner == Some(t) then None else s.word.owner)
            && (s'.waiting != [] ==> s.waiting != [] && s'.word.waiting)
            && (s.word.owner != Some(t) && s.word.waiting ==> s'.word.waiting)
  {
    WakeFirstFacts(s);
    assert WakeFirst(s.(word := Word(None, s.waiting != []))).waiting == WakeFirst(s).waiting;
  }

  /** Any step that makes `t` give up its claim and wakes the first waiter, leaving WAITING
      set for the others. */
  lemma HandOverKeeps(s: State, s': State, t: Id)
    requires Inv(s) && s.kernel == None && At(s.pc, t) in {Idle, Holding, Owing}
    requires QueuesAgree(s')
    requires forall u :: At(s'.pc, u) == if u == t then At(s'.pc, t)
                                         else if s.waiting != [] && u == s.waiting[0] then Entering(true)
                                         else At(s.pc, u)
    requires (At(s'.pc, t) == Idle && s'.kernel == None) || (At(s'.pc, t) == Released && s'.kernel == Some(t))
    requires s'.word.owner == if s.word.owner == Some(t) then None else s.word.owner
    requires s'.waiting != [] ==> s.waiting != [] && s'.word.waiting
    ensures Inv(s')
  {
    if s.waiting != [] {
      assert s.waiting[0] in s.waiting;
      assert Coming(At(s'.pc, s.waiting[0]));
    }
    assert forall u :: !At(s'.pc, u).Marked? && !At(s'.pc, u).Seen? && At(s'.pc, u) != Took;
  }

  lemma UnlockKeeps(s: State, e: Event)
    requires Inv(s) && Enabled(s, e) && (e.KernelUnlock? || e.CondRelease?)
    ensures Inv(Apply(s, e))
  {
    var t := e.t;
    var s0 := s.(pc := s.pc[t := if e.KernelUnlock? then Idle else Released]);
    assert forall u :: u != t ==> At(s0.pc, u) == At(s.pc, u);
    assert QueuesAgree(s0);
    WakeFirstFacts(s0);
    UnlockFacts(s0, t);
    HandOverKeeps(s, Apply(s, e), t);
  }

  lemma CondEnqueueKeeps(s: State, e: Event)
    requires Inv(s) && Enabled(s, e) && e.CondEnqueue?
    ensures Inv(Apply(s, e))
  {
    InsertKeeps(s.cond, s.prio, e.t);
    assert forall u :: u != e.t ==> At(Apply(s, e).pc, u) == At(s.pc, u);
  }

  lemma CondSignalKeeps(s: State, e: Event)
    requires Inv(s) && Enabled(s, e) && e.CondSignal?
    ensures Inv(Apply(s, e))
  {
    var s' := Apply(s, e);
    if s.cond != [] {
      TailKeeps(s.cond, s.prio);
      assert s.cond[0] in s.cond;
      assert forall u :: At(s.pc, u) != CondQueued ==> At(s'.pc, u) == At(s.pc, u);
      assert QueuesAgree(s');
    }
  }

  lemma ForceReadyKeeps(s: State, e: Event)
    requires Inv(s) && Enabled(s, e) && e.ForceReady?
    ensures Inv(Apply(s, e))
  {
    RemoveKeeps(s.waiting, s.prio, e.t);
    RemoveKeeps(s.cond, s.prio, e.t);
    assert forall u :: u != e.t ==> At(Apply(s, e).pc, u) == At(s.pc, u);
  }

  lemma SetPriorityKeeps(s: State, e: Event)
    requires Inv(s) && Enabled(s, e) && e.SetPriority?
    ensures Inv(Apply(s, e))
  {
    ReorderKeeps(s.waiting, s.prio, e.t, e.p);
    ReorderKeeps(s.cond, s.prio, e.t, e.p);
  }

  lemma ReorderKeeps(q: seq<Id>, prio: map<Id, nat>, t: Id, p: nat)
    requires Distinct(q) && Sorted(q, prio)
    ensures var r := if t in q then Reposition(q, prio, t, p) else q;
            Distinct(r) && Sorted(r, prio[t := p]) && forall x :: x in r <==> x in q
  {
    if t in q {
      RepositionKeeps(q, prio, t, p);
    } else {
      SortedFrame(q, prio, prio[t := p]);
    }
  }

  // ---------------------------------------------------------------- whole runs

  ghost predicate Init(s: State) {
    && s.word == FREE && s.waiting == [] && s.cond == [] && s.kernel == None
    && forall t :: At(s.pc, t) == Idle
  }

  /** A run: any interleaving of enabled steps of any threads. */
  ghost predicate Run(states: seq<State>, events: seq<Event>) {
    && |states| == |events| + 1 && Init(states[0])
    && forall i :: 0 <= i < |events| ==> Enabled(states[i], events[i]) && states[i + 1] == Apply(states[i], events[i])
  }

  lemma StepKeeps(s: State, e: Event)
    requires Inv(s) && Enabled(s, e)
    ensures Inv(Apply(s, e))
  {
    match e
    case UserLock(_) => UserStepKeeps(s, e);
    case UserTryLock(_) => UserStepKeeps(s, e);
    case UserUnlock(_) => UserStepKeeps(s, e);
    case Mark(_) => LockStepKeeps(s, e);
    case Preempt(_) => LockStepKeeps(s, e);
    case ReadWord(_) => LockStepKeeps(s, e);
    case Store(_) => LockStepKeeps(s, e);
    case Choose(_, _) => ChooseKeeps(s, e);
    case KernelUnlock(_) => UnlockKeeps(s, e);
    case CondRelease(_) => UnlockKeeps(s, e);
    case CondEnqueue(_, _) => CondEnqueueKeeps(s, e);
    case CondSignal(_, _) => CondSignalKeeps(s, e);
    case ForceReady(_) => ForceReadyKeeps(s, e);
    case SetPriority(_, _) => SetPriorityKeeps(s, e);
  }

  lemma {:induction false} RunKeepsInv(states: seq<State>, events: seq<Event>, n: nat)
    requires Run(states, events) && n < |states|
    ensures Inv(states[n])
  {
    if n > 0 {
      RunKeepsInv(states, events, n - 1);
      StepKeeps(states[n - 1], events[n - 1]);
    }
  }

  /** Mutual exclusion in every run: two threads never hold the mutex together, the word names
      the holder, and a thread becomes holder only in a step that starts with no owner in the
      word. */
  lemma MutualExclusion(states: seq<State>, events: seq<Event>, n: nat, t: Id, u: Id)
    requires Run(states, events) && n < |states|
    ensures At(states[n].pc, t) == Holding && At(states[n].pc, u) == Holding ==> t == u
    ensures At(states[n].pc, t) == Holding <==> states[n].word.owner == Some(t)
    ensures n > 0 && At(states[n].pc, t) == Holding && At(states[n - 1].pc, t) != Holding
            ==> states[n - 1].word.owner == None
  {
    RunKeepsInv(states, events, n);
    if n > 0 {
      RunKeepsInv(states, events, n - 1);
      AcquireStep(states[n - 1], events[n - 1], t);
    }
  }

  lemma AcquireStep(s: State, e: Event, t: Id)
    requires Inv(s) && Enabled(s, e)
    ensures At(Apply(s, e).pc, t) == Holding && At(s.pc, t) != Holding ==> s.word.owner == None
  {
    StepKeeps(s, e);
    OwnerChange(s, e);
    assert Exclusion(s) && Exclusion(Apply(s, e));
  }

  /** Only its holder takes the mutex away from a thread. */
  lemma OwnerChange(s: State, e: Event)
    requires Inv(s) && Enabled(s, e)
    ensures s.word.owner.Some? && Apply(s, e).word.owner != s.word.owner ==>
              Apply(s, e).word.owner == None && s.word.owner == Some(e.t)
              && (e.UserUnlock? || e.KernelUnlock? || e.CondRelease?)
  {
  }

  /** The first write of an unlock, with the wakeup, and the second. */
  function UnlockFirst(s: State, t: Id): State {
    WakeFirst(if s.word.owner == Some(t) then s.(word := Word(None, s.waiting != [])) else s)
  }

  function UnlockSecond(s: State): State {
    if s.waiting != [] then s.(word := s.word.(waiting := true)) else s
  }

  /** The caller of an unlock, or of a condvar wait that unlocks, just before the first write. */
  function Unlocking(s: State, o: Event): State {
    s.(pc := s.pc[o.t := if o.KernelUnlock? then Idle else Released],
       kernel := if o.KernelUnlock? then s.kernel else Some(o.t))
  }

  ghost predicate Commutes(s: State, o: Event, e: Event)
    requires (o.KernelUnlock? || o.CondRelease?) && Enabled(UnlockFirst(Unlocking(s, o), o.t), e)
  {
    && Enabled(s, e) && Enabled(Apply(s, e), o)
    && UnlockSecond(Apply(UnlockFirst(Unlocking(s, o), o.t), e)) == Apply(Apply(s, e), o)
  }

  lemma KernelUnlockCommutes(s: State, t: Id, e: Event)
    requires Inv(s) && Enabled(s, KernelUnlock(t)) && s.waiting != []
    requires (e.UserLock? || e.UserTryLock? || e.UserUnlock?) && e.t != t
    requires Enabled(UnlockFirst(Unlocking(s, KernelUnlock(t)), t), e)
    ensures Commutes(s, KernelUnlock(t), e)
  {
    hide LockerFacts, NoLostWakeup, Announced, Serialised, Sorted, Distinct;
    var w, u := s.waiting[0], e.t;
    assert w in s.waiting && At(s.pc, w) == Queued;
    var v := At(Apply(s, e).pc, u);
    assert s.pc[t := Idle][w := Entering(true)][u := v] == s.pc[u := v][t := Idle][w := Entering(true)];
  }

  lemma CondReleaseCommutes(s: State, t: Id, e: Event)
    requires Inv(s) && Enabled(s, CondRelease(t)) && s.waiting != []
    requires (e.UserLock? || e.UserTryLock? || e.UserUnlock?) && e.t != t
    requires Enabled(UnlockFirst(Unlocking(s, CondRelease(t)), t), e)
    ensures Commutes(s, CondRelease(t), e)
  {
    hide LockerFacts, NoLostWakeup, Announced, Serialised, Sorted, Distinct;
    var w, u := s.waiting[0], e.t;
    assert w in s.waiting && At(s.pc, w) == Queued;
    var v := At(Apply(s, e).pc, u);
    assert s.pc[t := Released][w := Entering(true)][u := v] == s.pc[u := v][t := Released][w := Entering(true)];
  }

  /** A user-mode step of another thread between the two writes of an unlock, made by the unlock
      call or by a condvar wait, commutes to the front, so nothing is lost by taking the unlock as
      one step. */
  lemma UnlockInTwo(s: State, o: Event, e: Event)
    requires Inv(s) && (o.KernelUnlock? || o.CondRelease?) && Enabled(s, o) && s.waiting != []
    requires (e.UserLock? || e.UserTryLock? || e.UserUnlock?) && e.t != o.t
    requires Enabled(UnlockFirst(Unlocking(s, o), o.t), e)
    ensures Enabled(s, e) && Enabled(Apply(s, e), o)
    ensures UnlockSecond(Apply(UnlockFirst(Unlocking(s, o), o.t), e)) == Apply(Apply(s, e), o)
  {
    hide Inv, Apply, Enabled, Unlocking, UnlockFirst, UnlockSecond;
    match o
    case KernelUnlock(t) => KernelUnlockCommutes(s, t, e);
    case CondRelease(t) => CondReleaseCommutes(s, t, e);
  }

  /** No lost wakeup in any run. When every thread is at rest (neither holding, nor
      unlocking, nor inside a call) no thread is left blocked on the mutex. */
  lemma NoWakeupIsLost(states: seq<State>, events: seq<Event>, n: nat)
    requires Run(states, events) && n < |states|
    ensures NoLostWakeup(states[n]) && Announced(states[n])
    ensures (forall t :: At(states[n].pc, t) in {Idle, Queued, CondQueued}) ==> states[n].waiting == []
  {
    RunKeepsInv(states, events, n);
    var s := states[n];
    assert s.word.owner.Some? ==> At(s.pc, s.word.owner.value) == Holding;
  }

  /** A queued thread is released when the unlocker pays its debt: left alone, the steps of
      the unlock and of the woken thread hand the mutex to the first waiter. */
  lemma HandOverCompletes(s: State, t: Id)
    requires Inv(s) && s.kernel == None && s.word.owner == None && At(s.pc, t) == Owing && s.waiting != []
    ensures var w := s.waiting[0];
            && Enabled(s, KernelUnlock(t)) && var s1 := Apply(s, KernelUnlock(t));
            && Enabled(s1, Mark(w)) && var s2 := Apply(s1, Mark(w));
            && Enabled(s2, ReadWord(w)) && var s3 := Apply(s2, ReadWord(w));
            && Enabled(s3, Choose(w, false)) && var s4 := Apply(s3, Choose(w, false));
            && Enabled(s4, Store(w)) && var s5 := Apply(s4, Store(w));
            && At(s5.pc, w) == Holding && s5.word == Word(Some(w), s.waiting[1..] != [])
            && s5.waiting == s.waiting[1..]
  {
    UnlockWakes(s, t);
    hide Inv, Unlock;
    WokenTakes(Apply(s, KernelUnlock(t)), s.waiting[0]);
  }

  /** The kernel's unlock of a free mutex wakes the first waiter and leaves the rest. */
  lemma UnlockWakes(s: State, t: Id)
    requires Inv(s) && s.kernel == None && s.word.owner == None && At(s.pc, t) == Owing && s.waiting != []
    ensures var s1 := Apply(s, KernelUnlock(t));
            && s1.kernel == None && s1.word.owner == None && s1.waiting == s.waiting[1..]
            && At(s1.pc, s.waiting[0]) == Entering(true)
  {
    assert s.waiting[0] in s.waiting;
    var s0 := s.(pc := s.pc[t := Idle]);
    assert forall u :: u != t ==> At(s0.pc, u) == At(s.pc, u);
    WakeFirstFacts(s0);
    UnlockFacts(s0, t);
  }

  /** A woken thread that is left alone takes a free mutex. */
  lemma WokenTakes(s: State, w: Id)
    requires s.kernel == None && s.word.owner == None && At(s.pc, w) == Entering(true)
    ensures && Enabled(s, Mark(w)) && var s2 := Apply(s, Mark(w));
            && Enabled(s2, ReadWord(w)) && var s3 := Apply(s2, ReadWord(w));
            && Enabled(s3, Choose(w, false)) && var s4 := Apply(s3, Choose(w, false));
            && Enabled(s4, Store(w)) && var s5 := Apply(s4, Store(w));
            && At(s5.pc, w) == Holding && s5.word == Word(Some(w), s.waiting != []) && s5.waiting == s.waiting
  {
  }

  /** Priority order: a thread that was not woken takes the mutex only past waiters of
      strictly lower priority, and an unlock wakes a waiter of the highest priority. */
  lemma TakesInPriorityOrder(s: State, e: Event)
    requires Inv(s) && Enabled(s, e)
    ensures e.Choose? && !At(s.pc, e.t).acquire && At(Apply(s, e).pc, e.t) == Took ==>
              forall w :: w in s.waiting ==> P(s.prio, w) < P(s.prio, e.t)
    ensures e.KernelUnlock? && s.waiting != [] ==>
              exists w :: w in s.waiting && At(Apply(s, e).pc, w) == Entering(true)
                       && forall u :: u in s.waiting ==> P(s.prio, u) <= P(s.prio, w)
  {
    if e.Choose? && !At(s.pc, e.t).acquire && At(Apply(s, e).pc, e.t) == Took {
      assert MayTake(s, e.t, false);
    }
    if e.KernelUnlock? && s.waiting != [] {
      var w := s.waiting[0];
      assert w in s.waiting;
      var s0 := s.(pc := s.pc[e.t := Idle]);
      assert forall u :: u != e.t ==> At(s0.pc, u) == At(s.pc, u);
      WakeFirstFacts(s0);
      UnlockFacts(s0, e.t);
    }
  }

  /** The step from `n` ends the condvar wait of `t`: a signal, a timeout or a forced unblock. */
  ghost predicate EndsWait(states: seq<State>, events: seq<Event>, n: nat, t: Id)
    requires n < |events| && |states| == |events| + 1
  {
    At(states[n].pc, t) in {Released, CondQueued} && At(states[n + 1].pc, t) == Entering(true)
  }

  /** Condvar atomicity, in every run: a signal call made at any time after a waiter has
      released the mutex finds that waiter queued, unless its wait has already ended. */
  lemma SignalFindsWaiter(states: seq<State>, events: seq<Event>, i: nat, j: nat, t: Id)
    requires Run(states, events) && i < j < |events|
    requires events[i] == CondRelease(t) && events[j].CondSignal?
    ensures t in states[j].cond || exists k :: i < k < j && EndsWait(states, events, k, t)
  {
    StillWaiting(states, events, i, j, t);
    RunKeepsInv(states, events, j);
  }

  lemma {:induction false} StillWaiting(states: seq<State>, events: seq<Event>, i: nat, j: nat, t: Id)
    requires Run(states, events) && i < j < |states| && events[i] == CondRelease(t)
    ensures At(states[j].pc, t) in {Released, CondQueued}
            || exists k :: i < k < j && EndsWait(states, events, k, t)
  {
    hide Inv, Apply, Enabled;
    RunKeepsInv(states, events, j - 1);
    if j == i + 1 {
      ReleaseStep(states[i], t);
    } else {
      StillWaiting(states, events, i, j - 1, t);
      if At(states[j - 1].pc, t) in {Released, CondQueued} {
        WaiterStep(states[j - 1], events[j - 1], t);
        assert At(states[j].pc, t) == Entering(true) ==> EndsWait(states, events, j - 1, t);
      } else {
        var k :| i < k < j - 1 && EndsWait(states, events, k, t);
      }
    }
  }

  lemma ReleaseStep(s: State, t: Id)
    requires Inv(s) && Enabled(s, CondRelease(t))
    ensures At(Apply(s, CondRelease(t)).pc, t) == Released
  {
    assert t !in s.waiting;
    if s.waiting != [] {
      assert s.waiting[0] in s.waiting;
    }
  }

  lemma WaiterStep(s: State, e: Event, t: Id)
    requires Inv(s) && Enabled(s, e) && At(s.pc, t) in {Released, CondQueued}
    ensures At(Apply(s, e).pc, t) in {Released, CondQueued, Entering(true)}
  {
    assert t !in s.waiting;
  }
}
