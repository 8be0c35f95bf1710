/**
 What the mutex and condvar calls answer: where a call leaves its caller, whom it wakes, and
 how a lock ends.
 */
module MutexCalls {
  import opened Base
  import opened Pril
  import opened SyncWord
  import opened MutexProtocol

  // ---------------------------------------------------------------- locking

  /** A thread that was not woken may not pass a waiter of its own or a higher priority. */
  predicate MustWait(s: State, t: Id)
    requires At(s.pc, t).Seen?
  {
    s.waiting != [] && P(s.prio, s.waiting[0]) >= P(s.prio, t) && !At(s.pc, t).acquire
  }

  /** ... and goes round once more if the word it read was free without WAITING. */
  predicate GoesRound(s: State, t: Id)
    requires At(s.pc, t).Seen?
  {
    MustWait(s, t) && At(s.pc, t).seen == FREE
  }

  /** Nothing but `t` and the wait queue is touched. */
  ghost predicate OnlyMoves(s: State, s': State, t: Id) {
    s'.cond == s.cond && s'.prio == s.prio && forall u :: u != t ==> At(s'.pc, u) == At(s.pc, u)
  }

  /** `t` has given the kernel up and is blocked at its place in the queue, or has timed out. */
  ghost predicate Parked(q: seq<Id>, s': State, t: Id, timeout: bool) {
    && s'.kernel == None
    && if timeout then At(s'.pc, t) == Idle && s'.waiting == q
       else At(s'.pc, t) == Queued && Placed(q, s'.waiting, s'.prio, t)
  }

  lemma ParkParts(s: State, t: Id, timeout: bool)
    requires Sorted(s.waiting, s.prio)
    ensures var s' := Park(s, t, timeout);
            s'.word == s.word && OnlyMoves(s, s', t) && Parked(s.waiting, s', t, timeout)
  {
    InsertJoins(s.waiting, s.prio, t);
    hide Sorted, Insert, Placed;
  }

  lemma Choices(s: State, t: Id, timeout: bool)
    requires At(s.pc, t).Seen?
    ensures var s' := Apply(s, Choose(t, timeout));
            var seen := At(s.pc, t).seen;
            if MustWait(s, t) then
              s' == if seen == FREE then s.(pc := s.pc[t := Retry])
                    else Park(if seen == Word(None, true) then WakeFirst(s) else s, t, timeout)
            else if s.word == Word(None, true) then s' == s.(pc := s.pc[t := Took])
            else s' == Park(if s.word == FREE then s.(word := Word(None, true)) else s, t, timeout)
  {
  }

  /** A kernel lock of a mutex that has an owner blocks, or times out, exactly unless it goes
      round once more. */
  lemma OwnedBlocks(s: State, t: Id, timeout: bool)
    requires Inv(s) && At(s.pc, t).Seen? && s.word.owner.Some?
    ensures s.word.owner != Some(t)
    ensures var s' := Apply(s, Choose(t, timeout));
            && s'.word == s.word && OnlyMoves(s, s', t)
            && if GoesRound(s, t) then At(s'.pc, t) == Retry && s'.waiting == s.waiting && s'.kernel == s.kernel
               else Parked(s.waiting, s', t, timeout)
  {
    hide Sorted, Distinct, Park, Parked, P, NoLostWakeup, Announced, WakeFirst, Apply, MustWait;
    Choices(s, t, timeout);
    ParkParts(s, t, timeout);
  }

  /** A kernel lock of a free mutex by a thread that need not wait takes it if WAITING is set;
      if not, an unlocker has yet to come to the kernel: the lock sets WAITING and parks. */
  lemma FreeAnswers(s: State, t: Id, timeout: bool)
    requires Inv(s) && At(s.pc, t).Seen? && s.word.owner == None && !MustWait(s, t)
    ensures var s' := Apply(s, Choose(t, timeout));
            && s'.word == Word(None, true) && OnlyMoves(s, s', t)
            && if s.word.waiting then At(s'.pc, t) == Took && s'.waiting == s.waiting && s'.kernel == Some(t)
               else Parked(s.waiting, s', t, timeout) && SomeOwing(s)
  {
    hide Sorted, Distinct, Park, Parked, P, NoLostWakeup, Announced, WakeFirst, Apply, MustWait;
    Choices(s, t, timeout);
    ParkParts(s.(word := Word(None, true)), t, timeout);
  }

  /** A kernel lock of a free mutex by a thread that must wait does not take it: it goes round,
      or parks, after waking the first waiter if the word it read was free with WAITING. */
  lemma FreePasses(s: State, t: Id, timeout: bool)
    requires Inv(s) && At(s.pc, t).Seen? && s.word.owner == None && MustWait(s, t)
    ensures var s' := Apply(s, Choose(t, timeout));
            var first := s.waiting[0];
            && s'.word == s.word
            && if GoesRound(s, t) then At(s'.pc, t) == Retry && s'.waiting == s.waiting && OnlyMoves(s, s', t)
               else if At(s.pc, t).seen.owner.Some? then OnlyMoves(s, s', t) && Parked(s.waiting, s', t, timeout)
               else && At(s'.pc, first) == Entering(true) && Parked(s.waiting[1..], s', t, timeout)
                    && forall u :: u != t && u != first ==> At(s'.pc, u) == At(s.pc, u)
  {
    assert s.waiting[0] in s.waiting;
    assert At(s.pc, s.waiting[0]) == Queued;
    WakeFirstFacts(s);
    hide Sorted, Distinct, Park, Parked, P, NoLostWakeup, Announced, Apply, MustWait;
    Choices(s, t, timeout);
    ParkParts(if At(s.pc, t).seen == Word(None, true) then WakeFirst(s) else s, t, timeout);
  }

  /** A lock can find an owner and still go round: thread 3 reads the word while 1, which has
      unlocked, is on its way to the kernel, and 4 takes the free word meanwhile. */
  lemma OwnedGoesRound(s: State)
    requires Init(s) && P(s.prio, 3) <= P(s.prio, 2)
    ensures && Enabled(s, UserLock(1)) && var s1 := Apply(s, UserLock(1));
            && Enabled(s1, UserLock(2)) && var s2 := Apply(s1, UserLock(2));
            && Enabled(s2, Mark(2)) && var s3 := Apply(s2, Mark(2));
            && Enabled(s3, ReadWord(2)) && var s4 := Apply(s3, ReadWord(2));
            && Enabled(s4, Choose(2, false)) && var s5 := Apply(s4, Choose(2, false));
            && Enabled(s5, UserLock(3)) && var s6 := Apply(s5, UserLock(3));
            && Enabled(s6, Mark(3)) && var s7 := Apply(s6, Mark(3));
            && Enabled(s7, UserUnlock(1)) && var s8 := Apply(s7, UserUnlock(1));
            && Enabled(s8, ReadWord(3)) && var s9 := Apply(s8, ReadWord(3));
            && Enabled(s9, UserLock(4)) && var s10 := Apply(s9, UserLock(4));
            && At(s10.pc, 3).Seen? && s10.word.owner == Some(4) && GoesRound(s10, 3)
            && At(Apply(s10, Choose(3, false)).pc, 3) == Retry
  {
    FirstWaiter(s);
    hide Init, P;
    var s5 := Apply(Apply(Apply(Apply(Apply(s, UserLock(1)), UserLock(2)), Mark(2)), ReadWord(2)), Choose(2, false));
    ReadsBetween(s5);
  }

  lemma FirstWaiter(s: State)
    requires Init(s)
    ensures && Enabled(s, UserLock(1)) && var s1 := Apply(s, UserLock(1));
            && Enabled(s1, UserLock(2)) && var s2 := Apply(s1, UserLock(2));
            && Enabled(s2, Mark(2)) && var s3 := Apply(s2, Mark(2));
            && Enabled(s3, ReadWord(2)) && var s4 := Apply(s3, ReadWord(2));
            && Enabled(s4, Choose(2, false)) && var s5 := Apply(s4, Choose(2, false));
            && s5.waiting == [2] && s5.word == Word(Some(1), true) && s5.kernel == None && s5.prio == s.prio
            && At(s5.pc, 1) == Holding && At(s5.pc, 3) == Idle && At(s5.pc, 4) == Idle
  {
    assert At(s.pc, 1) == Idle && At(s.pc, 2) == Idle && At(s.pc, 3) == Idle && At(s.pc, 4) == Idle;
    hide Init;
    var s2 := Apply(Apply(s, UserLock(1)), UserLock(2));
    assert s2.word == Word(Some(1), false) && At(s2.pc, 2) == Entering(false) && At(s2.pc, 1) == Holding;
    var s4 := Apply(Apply(s2, Mark(2)), ReadWord(2));
    assert s4.word == Word(Some(1), true) && At(s4.pc, 2) == Seen(false, s4.word) && s4.waiting == [];
    assert Insert([], s.prio, 2) == [2];
  }

  lemma ReadsBetween(s5: State)
    requires s5.waiting == [2] && s5.word == Word(Some(1), true) && s5.kernel == None
    requires At(s5.pc, 1) == Holding && At(s5.pc, 3) == Idle && At(s5.pc, 4) == Idle
    requires P(s5.prio, 3) <= P(s5.prio, 2)
    ensures && Enabled(s5, UserLock(3)) && var s6 := Apply(s5, UserLock(3));
            && Enabled(s6, Mark(3)) && var s7 := Apply(s6, Mark(3));
            && Enabled(s7, UserUnlock(1)) && var s8 := Apply(s7, UserUnlock(1));
            && Enabled(s8, ReadWord(3)) && var s9 := Apply(s8, ReadWord(3));
            && Enabled(s9, UserLock(4)) && var s10 := Apply(s9, UserLock(4));
            && At(s10.pc, 3).Seen? && s10.word.owner == Some(4) && GoesRound(s10, 3)
            && At(Apply(s10, Choose(3, false)).pc, 3) == Retry
  {
    hide P;
  }

  /** Going round ends in the queue as well: left alone, the second attempt on an owned mutex
      parks. */
  lemma SecondRoundParks(s: State, t: Id, timeout: bool)
    requires Inv(s) && At(s.pc, t) == Retry && s.word.owner.Some?
    ensures && Enabled(s, Mark(t)) && var s1 := Apply(s, Mark(t));
            && Enabled(s1, ReadWord(t)) && var s2 := Apply(s1, ReadWord(t));
            && Enabled(s2, Choose(t, timeout)) && var s3 := Apply(s2, Choose(t, timeout));
            && s3.word == s.word.(waiting := true) && OnlyMoves(s, s3, t) && Parked(s.waiting, s3, t, timeout)
  {
    var s1 := Apply(s, Mark(t));
    var s2 := Apply(s1, ReadWord(t));
    StepKeeps(s, Mark(t));
    StepKeeps(s1, ReadWord(t));
    OwnedBlocks(s2, t, timeout);
    hide Inv, Parked;
  }

  /** In a lock or a condvar wait that has not ended. */
  predicate InCall(p: Pc) {
    p != Idle && p != Holding && p != Owing
  }

  /** The two ways out of a lock without the mutex: a timeout and a forced unblock. */
  predicate GivesUp(s: State, e: Event, t: Id) {
    e == Choose(t, true) || (e == ForceReady(t) && At(s.pc, t) == Queued)
  }

  lemma CallStep(s: State, e: Event, t: Id)
    requires Inv(s) && Enabled(s, e) && InCall(At(s.pc, t)) && !GivesUp(s, e, t)
    ensures InCall(At(Apply(s, e).pc, t)) || At(Apply(s, e).pc, t) == Holding
  {
    if e.KernelUnlock? || e.CondRelease? {
      UnlockAnswers(s, e);
      UnlockSends(s, e);
    } else if e.CondSignal? {
      SignalWakes(s, e.t, e.all);
    } else {
      hide Inv, P, Insert, Remove, Reposition, Unlock;
    }
  }

  /** Over every run, a lock or a condvar wait ends only by holding the mutex, if it neither
      times out nor is forced out. */
  lemma {:induction false} CallEndsHolding(states: seq<State>, events: seq<Event>, i: nat, j: nat, t: Id)
    requires Run(states, events) && i <= j < |states| && InCall(At(states[i].pc, t))
    requires forall k :: i <= k < j ==> !GivesUp(states[k], events[k], t)
    ensures InCall(At(states[j].pc, t)) || exists k :: i < k <= j && At(states[k].pc, t) == Holding
    decreases j
  {
    hide Inv, Apply, Enabled, InCall, GivesUp;
    if i < j {
      CallEndsHolding(states, events, i, j - 1, t);
      if InCall(At(states[j - 1].pc, t)) {
        RunKeepsInv(states, events, j - 1);
        CallStep(states[j - 1], events[j - 1], t);
      }
    }
  }

  // ---------------------------------------------------------------- unlocking, waiting and signalling

  /** Both unlocks take the mutex from a caller that holds it and leave WAITING set while others
      are queued ... */
  lemma UnlockAnswers(s: State, e: Event)
    requires Inv(s) && Enabled(s, e) && (e.KernelUnlock? || e.CondRelease?)
    ensures var s' := Apply(s, e);
            && s'.cond == s.cond && s'.prio == s.prio
            && s'.word.owner == (if s.word.owner == Some(e.t) then None else s.word.owner)
            && (s'.waiting != [] ==> s'.word.waiting)
            && At(s'.pc, e.t) == (if e.KernelUnlock? then Idle else Released)
            && s'.kernel == if e.KernelUnlock? then None else Some(e.t)
  {
    var s0 := s.(pc := s.pc[e.t := if e.KernelUnlock? then Idle else Released]);
    assert s.waiting != [] ==> s.waiting[0] in s.waiting;
    assert forall u :: u != e.t ==> At(s0.pc, u) == At(s.pc, u);
    assert QueuesAgree(s0);
    hide NoLostWakeup, Announced, LockerFacts, Exclusion;
    WakeFirstFacts(s0);
    UnlockFacts(s0, e.t);
  }

  /** ... and send the first waiter, one of the highest priority, and nobody else on its way. */
  lemma UnlockSends(s: State, e: Event)
    requires Inv(s) && Enabled(s, e) && (e.KernelUnlock? || e.CondRelease?)
    ensures var s' := Apply(s, e);
            if s.waiting == [] then OnlyMoves(s, s', e.t) && s'.waiting == []
            else && At(s'.pc, s.waiting[0]) == Entering(true) && s'.waiting == s.waiting[1..]
                 && (forall u :: u in s.waiting ==> P(s.prio, u) <= P(s.prio, s.waiting[0]))
                 && forall u :: u != e.t && u != s.waiting[0] ==> At(s'.pc, u) == At(s.pc, u)
  {
    assert s.waiting != [] ==> s.waiting[0] in s.waiting;
    var s0 := s.(pc := s.pc[e.t := if e.KernelUnlock? then Idle else Released]);
    assert forall u :: u != e.t ==> At(s0.pc, u) == At(s.pc, u);
    assert QueuesAgree(s0);
    hide NoLostWakeup, Announced, LockerFacts, Exclusion;
    WakeFirstFacts(s0);
    UnlockFacts(s0, e.t);
  }

  /** A condvar wait that has given the mutex up goes to its place on the condvar, or, timed
      out, back for the mutex. */
  lemma WaitAnswers(s: State, t: Id, timeout: bool)
    requires Inv(s) && Enabled(s, CondEnqueue(t, timeout))
    ensures var s' := Apply(s, CondEnqueue(t, timeout));
            && s'.word == s.word && s'.waiting == s.waiting && s'.prio == s.prio && s'.kernel == None
            && (forall u :: u != t ==> At(s'.pc, u) == At(s.pc, u))
            && if timeout then At(s'.pc, t) == Entering(true) && s'.cond == s.cond
               else At(s'.pc, t) == CondQueued && Placed(s.cond, s'.cond, s.prio, t)
  {
    InsertJoins(s.cond, s.prio, t);
    hide Inv, Insert, Placed;
  }

  /** A broadcast wakes everybody on the condvar; a signal wakes one thread, of the highest
      priority and the first of that priority, and the others stay as they are. */
  lemma SignalWakes(s: State, t: Id, all: bool)
    requires Inv(s) && Enabled(s, CondSignal(t, all))
    ensures var s' := Apply(s, CondSignal(t, all));
            && s'.word == s.word && s'.waiting == s.waiting && s'.prio == s.prio && s'.kernel == s.kernel
            && (all ==> s'.cond == [])
            && (all ==> forall u :: At(s'.pc, u) == if u in s.cond then Entering(true) else At(s.pc, u))
            && (s.cond == [] ==> s' == s)
    ensures !all && s.cond != [] ==>
              var s', w := Apply(s, CondSignal(t, all)), s.cond[0];
              && s.cond == [w] + s'.cond && At(s'.pc, w) == Entering(true) && w !in s'.cond
              && (forall u :: u in s'.cond ==> P(s.prio, u) <= P(s.prio, w))
              && forall u :: u != w ==> At(s'.pc, u) == At(s.pc, u)
  {
    hide NoLostWakeup, Announced, LockerFacts, Exclusion, Serialised;
    if !all && s.cond != [] {
      TailKeeps(s.cond, s.prio);
      forall u | u in s.cond[1..] ensures P(s.prio, u) <= P(s.prio, s.cond[0]) {
        var i :| 0 < i < |s.cond| && s.cond[i] == u;
      }
    }
  }

  /** A thread forced out of the mutex is at rest, one forced out of the condvar goes for the
      mutex; the others keep their places. */
  lemma ForcedAnswers(s: State, t: Id)
    requires Inv(s) && Enabled(s, ForceReady(t))
    ensures var s' := Apply(s, ForceReady(t));
            && s'.word == s.word && s'.prio == s.prio && s'.kernel == None
            && (forall u :: u != t ==> At(s'.pc, u) == At(s.pc, u))
            && (At(s.pc, t) == Queued ==> At(s'.pc, t) == Idle && Left(s.waiting, s'.waiting, t) && s'.cond == s.cond)
            && (At(s.pc, t) != Queued ==>
                  At(s'.pc, t) == Entering(true) && Left(s.cond, s'.cond, t) && s'.waiting == s.waiting)
  {
    if At(s.pc, t) == Queued {
      var k := RemoveSplits(s.waiting, t);
    } else {
      var k := RemoveSplits(s.cond, t);
    }
  }

  /** A change of priority touches no word and no position; on the queue it waits in, the thread
      moves to its new place. */
  lemma PriorityAnswers(s: State, t: Id, p: nat)
    requires Inv(s) && Enabled(s, SetPriority(t, p))
    ensures var s' := Apply(s, SetPriority(t, p));
            && s'.word == s.word && s'.pc == s.pc && s'.kernel == s.kernel
            && (forall u :: P(s'.prio, u) == if u == t then p else P(s.prio, u))
            && Moved(s.waiting, s'.waiting, s'.prio, t) && Moved(s.cond, s'.cond, s'.prio, t)
  {
    UpdatePrio(s.prio, t, p);
    RepositionMoves(s.waiting, s.prio, t, p);
    RepositionMoves(s.cond, s.prio, t, p);
    hide Inv, Reposition, Moved, P;
  }
}
