/**
 The mutex and condition-variable calls in the form of the code: an object whose methods are
 the atomic sections of the user-mode macros and of the kernel calls, working on the 32-bit
 owner word with the masks and comparisons of the source. Each method is proved to make the
 protocol's step on the word read back, and so to keep what the protocol keeps.
 */
module MutexKernel {
  import opened Base
  import opened Pril
  import opened SyncWord
  import opened MutexProtocol
  import opened MutexCalls

  /** The ACQUIRE_MUTEX flag is set from the wakeup, or the condvar wait, to the end of the lock. */
  ghost predicate Flagged(pc: map<Id, Pc>, acquire: set<Id>) {
    forall t :: t in acquire <==> Acquiring(At(pc, t))
  }

  predicate Acquiring(p: Pc) {
    match p
    case Entering(a) => a
    case Marked(a) => a
    case Seen(a, _) => a
    case CondQueued => true
    case _ => false
  }

  /** A thread that has read the word has it in its local variable. */
  ghost predicate Read(pc: map<Id, Pc>, seen: map<Id, bv32>, names: map<Id, (bv32, bv32)>) {
    forall t :: At(pc, t).Seen? ==>
      t in seen && Named(At(pc, t).seen, names) && seen[t] == Encode(At(pc, t).seen, names)
  }

  /** A thread moves; its flag goes with its new place. */
  lemma Moves(pc: map<Id, Pc>, acquire: set<Id>, acquire': set<Id>, seen: map<Id, bv32>, names: map<Id,
              (bv32, bv32)>, t: Id, v: Pc)
    requires Flagged(pc, acquire) && Read(pc, seen, names) && !v.Seen?
    requires (t in acquire' <==> Acquiring(v)) && forall u :: u != t ==> (u in acquire' <==> u in acquire)
    ensures Flagged(pc[t := v], acquire') && Read(pc[t := v], seen, names)
  {
    var pc' := pc[t := v];
    forall u ensures u in acquire' <==> Acquiring(At(pc', u)) {
      assert u in acquire <==> Acquiring(At(pc, u));
    }
  }

  /** A broadcast wakes everybody in the queue, a signal its first. */
  predicate Woken(q: seq<Id>, all: bool, t: Id) {
    t in q && (all || t == q[0])
  }

  class Mutex {
    const names: map<Id, (bv32, bv32)>   // process id and thread index of every thread
    var owner: bv32                      // sync->__owner
    var waiting: seq<Id>
    var cond: seq<Id>
    var prio: map<Id, nat>
    var acquire: set<Id>                 // threads with the ACQUIRE_MUTEX flag
    var seen: map<Id, bv32>              // the local variable `owner` of sync_mutex_lock
    var kernel: Option<Id>
    ghost var pc: map<Id, Pc>            // where each thread is in its call

    ghost predicate Valid()
      reads this
    {
      ValidNames(names) && Encodes(owner, names) && Flagged(pc, acquire) && Read(pc, seen, names)
    }

    ghost function View(): State
      requires Valid()
      reads this
    {
      State(Decode(owner, names), waiting, cond, pc, prio, kernel)
    }

    function Self(t: Id): bv32
      requires t in names
    {
      OwnerBits(names[t].0, names[t].1)
    }

    constructor (names: map<Id, (bv32, bv32)>)
      requires ValidNames(names)
      ensures Valid() && Init(View()) && this.names == names
    {
      this.names := names;
      owner, waiting, cond, prio, acquire, seen, kernel := 0, [], [], map[], {}, map[], None;
      pc := map[];
      new;
      DecodeEncode(FREE, names);
    }

    /** The compare-and-exchange primitive: returns the old value. */
    method CompareExchange(expected: bv32, replacement: bv32) returns (was: bv32)
      modifies this`owner
      ensures was == old(owner)
      ensures owner == if old(owner) == expected then replacement else old(owner)
    {
      was := owner;
      if was == expected {
        owner := replacement;
      }
    }

    /** `__mutex_lock` */
    method UserLockStep(t: Id) returns (acquired: bool)
      requires Valid() && t in names && Enabled(View(), UserLock(t))
      modifies this
      ensures Valid() && View() == Apply(old(View()), UserLock(t))
      ensures acquired <==> old(owner) == 0
      ensures owner == if acquired then Self(t) else old(owner)
      ensures At(pc, t) == if acquired then Holding else Entering(false)
    {
      hide ValidNames, Encode, OwnerBits, MarkWaiting, IsWaiting, OwnerPart;
      DecodeTests(owner, names);
      DecodeStores(names, t);
      var was := CompareExchange(0, Self(t));
      acquired := was == 0;
      Moves(pc, acquire, acquire, seen, names, t, if acquired then Holding else Entering(false));
      hide Flagged, Read;
      pc := pc[t := if acquired then Holding else Entering(false)];
    }

    /** `__mutex_trylock` */
    method UserTryLockStep(t: Id) returns (acquired: bool)
      requires Valid() && t in names && Enabled(View(), UserTryLock(t))
      modifies this
      ensures Valid() && View() == Apply(old(View()), UserTryLock(t))
      ensures acquired <==> old(owner) == 0
      ensures owner == if acquired then Self(t) else old(owner)
      ensures At(pc, t) == if acquired then Holding else Idle
    {
      hide ValidNames, Encode, OwnerBits, MarkWaiting, IsWaiting, OwnerPart;
      DecodeTests(owner, names);
      DecodeStores(names, t);
      var was := CompareExchange(0, Self(t));
      acquired := was == 0;
      Moves(pc, acquire, acquire, seen, names, t, Holding);
      hide Flagged, Read;
      if acquired {
        pc := pc[t := Holding];
      }
    }

    /** `__mutex_unlock` */
    method UserUnlockStep(t: Id) returns (callKernel: bool)
      requires Valid() && t in names && Enabled(View(), UserUnlock(t))
      modifies this
      ensures Valid() && View() == Apply(old(View()), UserUnlock(t))
      ensures callKernel <==> IsWaiting(old(owner))
      ensures owner == 0 && At(pc, t) == if callKernel then Owing else Idle
    {
      hide ValidNames, Encode, OwnerBits, MarkWaiting, IsWaiting, OwnerPart;
      DecodeTests(owner, names);
      DecodeStores(names, t);
      var was := owner;
      owner := 0;
      callKernel := IsWaiting(was);
      Moves(pc, acquire, acquire, seen, names, t, if callKernel then Owing else Idle);
      hide Flagged, Read;
      pc := pc[t := if callKernel then Owing else Idle];
    }

    /** The head of `sync_mutex_lock`, up to its exchange of the WAITING bit. */
    method LockMark(t: Id)
      requires Valid() && Enabled(View(), Mark(t))
      modifies this
      ensures Valid() && View() == Apply(old(View()), Mark(t))
      ensures IsWaiting(owner) && OwnerPart(owner) == OwnerPart(old(owner))
      ensures Inv(old(View())) ==> Inv(View())
    {
      hide ValidNames, Encode, OwnerBits, MarkWaiting, IsWaiting, OwnerPart, Inv;
      DecodeMark(owner, names);
      MarkOnly(owner);
      StepKeepsIfInv(View(), Mark(t));
      Moves(pc, acquire, acquire, seen, names, t, Marked(t in acquire));
      assert t in acquire <==> Acquiring(At(pc, t));
      hide Flagged, Read;
      owner := MarkWaiting(owner);
      pc := pc[t := Marked(t in acquire)];
      kernel := Some(t);
    }

    /** A call preempted before it locked the kernel starts again from the top; what it has done
        to the word stays. */
    method LockPreempted(t: Id)
      requires Valid() && Enabled(View(), Preempt(t)) && Inv(View())
      modifies this
      ensures Valid() && View() == Apply(old(View()), Preempt(t))
      ensures Inv(View()) && kernel == None && owner == old(owner) && (t in acquire <==> t in old(acquire))
    {
      hide ValidNames, Encode, OwnerBits, MarkWaiting, IsWaiting, OwnerPart, Inv;
      StepKeeps(View(), Preempt(t));
      Moves(pc, acquire, acquire, seen, names, t, Entering(t in acquire));
      assert t in acquire <==> Acquiring(At(pc, t));
      hide Flagged, Read;
      pc := pc[t := Entering(t in acquire)];
      kernel := None;
    }

    method LockRead(t: Id)
      requires Valid() && Enabled(View(), ReadWord(t))
      modifies this
      ensures Valid() && View() == Apply(old(View()), ReadWord(t))
      ensures t in seen && seen[t] == owner && At(pc, t).seen == Decode(seen[t], names)
    {
      hide ValidNames, Encode, OwnerBits, MarkWaiting, IsWaiting, OwnerPart;
      seen := seen[t := owner];
      pc := pc[t := Seen(t in acquire, Decode(owner, names))];
    }

    /** `sync_wakeup` on the mutex, for one thread. */
    method Wakeup()
      requires Valid()
      modifies this`waiting, this`pc, this`acquire
      ensures Valid() && View() == WakeFirst(old(View()))
      ensures if old(waiting) == [] then waiting == [] && acquire == old(acquire)
              else old(waiting) == [old(waiting)[0]] + waiting && acquire == old(acquire) + {old(waiting)[0]}
    {
      hide ValidNames, Encode, Flagged, Read;
      if |waiting| > 0 {
        var first := waiting[0];
        waiting := waiting[1..];
        Moves(pc, acquire, acquire + {first}, seen, names, first, Entering(true));
        acquire := acquire + {first};
        pc := pc[first := Entering(true)];
      }
    }

    /** The end of a lock that did not get the mutex. */
    method ParkSelf(t: Id, timeout: bool)
      requires Valid()
      modifies this`waiting, this`pc, this`acquire, this`kernel
      ensures Valid() && View() == Park(old(View()), t, timeout)
      ensures Sorted(old(waiting), prio) ==>
                if timeout then waiting == old(waiting) else Placed(old(waiting), waiting, prio, t)
      ensures At(pc, t) == if timeout then Idle else Queued
      ensures t !in acquire && kernel == None
    {
      if Sorted(waiting, prio) {
        InsertJoins(waiting, prio, t);
      }
      hide ValidNames, Encode, Flagged, Read, Insert, Sorted, Placed;
      kernel := None;
      Moves(pc, acquire, acquire - {t}, seen, names, t, if timeout then Idle else Queued);
      acquire := acquire - {t};
      if timeout {
        pc := pc[t := Idle];
        return;
      }
      pc := pc[t := Queued];
      waiting := Add(waiting, prio, t);
    }

    /** The exchange that wins the mutex exactly when the word is free with WAITING set; a
        word that is free without WAITING gets WAITING. */
    method TryTake(t: Id) returns (took: bool)
      requires Valid() && t in names
      modifies this`owner, this`pc, this`acquire
      ensures Valid()
      ensures took <==> old(View()).word == Word(None, true)
      ensures took ==> View() == old(View()).(pc := old(pc)[t := Took])
      ensures !took ==>
                View() == if old(View()).word == FREE then old(View()).(word := Word(None, true)) else old(View())
    {
      DecodeTests(owner, names);
      DecodeStores(names, t);
      var was := CompareExchange(0, 0x8000_0000);
      took := was == 0x8000_0000;
      if took {
        Moves(pc, acquire, acquire - {t}, seen, names, t, Took);
        acquire := acquire - {t};
        pc := pc[t := Took];
      }
    }

    /** The middle of `sync_mutex_lock`: try to take the mutex, retry, or block. */
    method LockChoose(t: Id, timeout: bool)
      requires Valid() && t in names && Enabled(View(), Choose(t, timeout))
      modifies this
      ensures Valid() && View() == Apply(old(View()), Choose(t, timeout))
      ensures Inv(old(View())) && old(owner) != 0 && old(owner) != 0x8000_0000 && !GoesRound(old(View()), t) ==>
                && owner == old(owner) && kernel == None && At(pc, t) == (if timeout then Idle else Queued)
                && if timeout then waiting == old(waiting) else Placed(old(waiting), waiting, prio, t)
      ensures Inv(old(View())) && old(owner) == 0x8000_0000 && !MustWait(old(View()), t) ==>
                At(pc, t) == Took && waiting == old(waiting)
    {
      ghost var s := View();
      TakeOrPark(t, timeout);
      if Inv(s) {
        DecodeTests(old(owner), names);
        if s.word.owner.Some? {
          OwnedBlocks(s, t, timeout);
        } else if !MustWait(s, t) {
          FreeAnswers(s, t, timeout);
        }
      }
    }

    method TakeOrPark(t: Id, timeout: bool)
      requires Valid() && t in names && Enabled(View(), Choose(t, timeout))
      modifies this
      ensures Valid() && View() == Apply(old(View()), Choose(t, timeout))
    {
      SeenTests(this, t);
      var mine := seen[t];
      if |waiting| == 0 || P(prio, waiting[0]) < P(prio, t) || t in acquire {
        var took := TryTake(t);
        if took {
          return;
        }
      } else if mine == 0 {
        Moves(pc, acquire, acquire, seen, names, t, Retry);
        pc := pc[t := Retry];
        return;
      } else if mine == 0x8000_0000 {
        Wakeup();
      }
      ParkSelf(t, timeout);
    }

    /** The thread that won the exchange stores its ownership. */
    method LockStore(t: Id)
      requires Valid() && t in names && Enabled(View(), Store(t))
      modifies this
      ensures Valid() && View() == Apply(old(View()), Store(t))
      ensures OwnerPart(owner) == Self(t) && (IsWaiting(owner) <==> waiting != [])
    {
      hide ValidNames, Encode, OwnerBits, MarkWaiting, IsWaiting, OwnerPart;
      DecodeStores(names, t);
      owner := Self(t);
      if |waiting| > 0 {
        DecodeMark(owner, names);
        owner := MarkWaiting(owner);
      }
      DecodeOwned(owner, names, t);
      DecodeTests(owner, names);
      Moves(pc, acquire, acquire, seen, names, t, Holding);
      hide Flagged, Read;
      pc := pc[t := Holding];
      kernel := None;
    }

    /** `sync_mutex_unlock` */
    method SyncUnlock(t: Id)
      requires Valid() && t in names
      modifies this`owner, this`waiting, this`pc, this`acquire
      ensures Valid() && View() == Unlock(old(View()), t)
    {
      hide ValidNames, Encode, OwnerBits, MarkWaiting, IsWaiting, OwnerPart;
      DecodeOwned(owner, names, t);
      DecodeStores(names, t);
      if OwnerPart(owner) == Self(t) {
        if |waiting| > 0 {
          owner := 0x8000_0000;
        } else {
          owner := 0;
        }
      }
      if |waiting| > 0 {
        Wakeup();
        if |waiting| > 0 {
          DecodeMark(owner, names);
          owner := MarkWaiting(owner);
        }
      }
    }

    /** `ker_sync_mutex_unlock`: whoever was first in the queue is on its way, and the word
        tells of the others. */
    method UnlockCall(t: Id)
      requires Valid() && t in names && Enabled(View(), KernelUnlock(t)) && Inv(View())
      modifies this
      ensures Valid() && View() == Apply(old(View()), KernelUnlock(t)) && Inv(View())
      ensures old(waiting) != [] ==> old(waiting)[0] in acquire && waiting == old(waiting)[1..]
      ensures waiting != [] ==> IsWaiting(owner)
      ensures OwnerPart(owner) != Self(t)
    {
      hide ValidNames, Encode, OwnerBits, MarkWaiting, IsWaiting, OwnerPart, Inv;
      ghost var s := View();
      StepKeeps(s, KernelUnlock(t));
      Moves(pc, acquire, acquire, seen, names, t, Idle);
      hide Read;
      pc := pc[t := Idle];
      SyncUnlock(t);
      UnlockMeans(s, t);
      DecodeTests(owner, names);
      DecodeOwned(owner, names, t);
    }

    /** The first half of `ker_sync_condvar_wait`: only the owner may wait (EPERM
        otherwise); it gives the mutex up with the kernel locked. */
    method CondvarRelease(t: Id) returns (permitted: bool)
      requires Valid() && t in names && kernel == None && At(pc, t) in {Idle, Holding} && Exclusion(View())
      modifies this
      ensures Valid()
      ensures permitted <==> OwnerPart(old(owner)) == Self(t)
      ensures permitted ==> old(Enabled(View(), CondRelease(t))) && View() == Apply(old(View()), CondRelease(t))
      ensures permitted && Inv(old(View())) ==>
                && At(pc, t) == Released && kernel == Some(t) && OwnerPart(owner) != Self(t)
                && (old(waiting) != [] ==> old(waiting)[0] in acquire && old(waiting) == [old(waiting)[0]] + waiting)
                && (waiting != [] ==> IsWaiting(owner))
      ensures !permitted ==> View() == old(View())
    {
      hide Inv, IsWaiting, OwnerPart, OwnerBits, Encode, ValidNames, Apply, Exclusion, Enabled, Read, OnlyMoves, P;
      ghost var s := View();
      permitted := Release(t);
      if permitted && Inv(s) {
        UnlockAnswers(s, CondRelease(t));
        UnlockSends(s, CondRelease(t));
        DecodeTests(owner, names);
        DecodeOwned(owner, names, t);
        assert old(waiting) != [] ==> (old(waiting)[0] in acquire <==> Acquiring(At(pc, old(waiting)[0])));
      }
    }

    method Release(t: Id) returns (permitted: bool)
      requires Valid() && t in names && kernel == None && At(pc, t) in {Idle, Holding} && Exclusion(View())
      modifies this
      ensures Valid()
      ensures permitted <==> OwnerPart(old(owner)) == Self(t)
      ensures permitted ==> old(Enabled(View(), CondRelease(t))) && View() == Apply(old(View()), CondRelease(t))
      ensures !permitted ==> View() == old(View())
    {
      hide ValidNames, Encode, OwnerBits, MarkWaiting, IsWaiting, OwnerPart;
      DecodeOwned(owner, names, t);
      if OwnerPart(owner) != Self(t) {
        return false;
      }
      Moves(pc, acquire, acquire, seen, names, t, Released);
      hide Flagged, Read;
      pc := pc[t := Released];
      SyncUnlock(t);
      kernel := Some(t);
      permitted := true;
    }

    /** The second half of `ker_sync_condvar_wait`. */
    method CondvarEnqueue(t: Id, timeout: bool)
      requires Valid() && Enabled(View(), CondEnqueue(t, timeout))
      modifies this
      ensures Valid() && View() == Apply(old(View()), CondEnqueue(t, timeout))
      ensures t in acquire && kernel == None && At(pc, t) == if timeout then Entering(true) else CondQueued
      ensures Sorted(old(cond), prio) ==>
                if timeout then cond == old(cond) else Placed(old(cond), cond, prio, t)
    {
      if Sorted(cond, prio) {
        InsertJoins(cond, prio, t);
      }
      hide ValidNames, Encode, Flagged, Read, Insert, Sorted, Placed, P, Encodes;
      Moves(pc, acquire, acquire + {t}, seen, names, t, if timeout then Entering(true) else CondQueued);
      acquire := acquire + {t};
      kernel := None;
      if timeout {
        pc := pc[t := Entering(true)];
        return;
      }
      pc := pc[t := CondQueued];
      cond := Add(cond, prio, t);
    }

    /** `ker_sync_condvar_signal`: the wakeup loop over the condvar's waiters. */
    method CondvarSignal(t: Id, all: bool)
      requires Valid() && Enabled(View(), CondSignal(t, all))
      modifies this
      ensures Valid() && View() == Apply(old(View()), CondSignal(t, all))
      ensures all || old(cond) == [] ==> cond == []
      ensures !all && old(cond) != [] ==> old(cond) == [old(cond)[0]] + cond
      ensures forall u :: u in acquire <==> u in old(acquire) || Woken(old(cond), all, u)
      ensures forall u :: At(pc, u) == if Woken(old(cond), all, u) then Entering(true) else At(old(pc), u)
    {
      hide ValidNames, Encode, OwnerBits, MarkWaiting, IsWaiting, OwnerPart;
      var more := true;
      while more && |cond| > 0
        invariant Valid()
        invariant more ==> WakeAll(pc, cond) == WakeAll(old(pc), old(cond))
        invariant more && !all ==> cond == old(cond) && pc == old(pc)
        invariant !more ==> !all && old(cond) != [] && cond == old(cond)[1..]
                            && pc == old(pc)[old(cond)[0] := Entering(true)]
        invariant owner == old(owner) && waiting == old(waiting) && prio == old(prio) && kernel == old(kernel)
        decreases more, |cond|
      {
        hide Flagged, Read, Encodes;
        var first := cond[0];
        cond := cond[1..];
        Moves(pc, acquire, acquire + {first}, seen, names, first, Entering(true));
        acquire := acquire + {first};
        pc := pc[first := Entering(true)];
        more := all;
      }
      assert forall u :: u in old(acquire) <==> Acquiring(At(old(pc), u));
    }

    /** `force_ready` on a thread blocked on the mutex or on the condvar. */
    method Unblock(t: Id)
      requires Valid() && Enabled(View(), ForceReady(t)) && Inv(View())
      modifies this
      ensures Valid() && View() == Apply(old(View()), ForceReady(t))
      ensures Inv(View()) && t !in waiting && t !in cond && (t in acquire <==> t in old(cond))
      ensures if t in old(cond) then waiting == old(waiting) && Left(old(cond), cond, t)
              else cond == old(cond) && Left(old(waiting), waiting, t)
    {
      hide ValidNames, Encode, OwnerBits, MarkWaiting, IsWaiting, OwnerPart, Inv;
      StepKeeps(View(), ForceReady(t));
      ForcedOut(View(), t);
      assert t in acquire <==> Acquiring(At(pc, t));
      Moves(pc, acquire, acquire, seen, names, t, if t in acquire then Entering(true) else Idle);
      hide Flagged, Read, Remove, Left, Encodes;
      if t !in acquire {
        waiting := Remove(waiting, t);
        pc := pc[t := Idle];
      } else {
        cond := Remove(cond, t);
        pc := pc[t := Entering(true)];
      }
    }
  }

  lemma StepKeepsIfInv(s: State, e: Event)
    requires Enabled(s, e)
    ensures Inv(s) ==> Inv(Apply(s, e))
  {
    if Inv(s) {
      StepKeeps(s, e);
    }
  }

  /** Which of the two queues the thread is on, and that it leaves it. */
  lemma ForcedOut(s: State, t: Id)
    requires Inv(s) && Enabled(s, ForceReady(t))
    ensures t in s.cond <==> At(s.pc, t) == CondQueued
    ensures t !in Apply(s, ForceReady(t)).waiting && t !in Apply(s, ForceReady(t)).cond
    ensures var s' := Apply(s, ForceReady(t));
            if t in s.cond then s'.waiting == s.waiting && Left(s.cond, s'.cond, t)
            else s'.cond == s.cond && Left(s.waiting, s'.waiting, t)
  {
    ForcedAnswers(s, t);
    hide Left;
    StepKeeps(s, ForceReady(t));
    var s' := Apply(s, ForceReady(t));
    assert At(s'.pc, t) == Idle || At(s'.pc, t) == Entering(true);
    assert t in s'.waiting <==> At(s'.pc, t) == Queued;
    assert t in s'.cond <==> At(s'.pc, t) == CondQueued;
  }

  lemma SeenTests(m: Mutex, t: Id)
    requires m.Valid() && At(m.pc, t).Seen?
    ensures m.seen[t] == 0 <==> At(m.pc, t).seen == FREE
    ensures m.seen[t] == 0x8000_0000 <==> At(m.pc, t).seen == Word(None, true)
  {
    EncodeTests(At(m.pc, t).seen, m.names);
  }

  lemma UnlockMeans(s: State, t: Id)
    requires Inv(s) && Enabled(s, KernelUnlock(t))
    ensures var s' := Apply(s, KernelUnlock(t));
            && (s.waiting != [] ==> At(s'.pc, s.waiting[0]) == Entering(true) && s'.waiting == s.waiting[1..])
            && (s'.waiting != [] ==> s'.word.waiting) && s'.word.owner != Some(t)
  {
    var s0 := s.(pc := s.pc[t := Idle]);
    assert s.waiting != [] ==> s.waiting[0] in s.waiting;
    assert forall u :: u != t ==> At(s0.pc, u) == At(s.pc, u);
    WakeFirstFacts(s0);
    UnlockFacts(s0, t);
  }
}
