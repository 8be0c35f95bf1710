/**
 The trace commands in the form of the code: mask arrays rewritten in loops, the call table
 rebuilt from them, and scans that decide whether a switch can go off.
 */
module TraceKernel {
  import opened TraceMasks

  class Tracer {
    const calls: array<Mask>
    const comm: array<bool>
    const rmsg: nat
    const rpulse: nat
    const ints: array<Mask>
    const handlers: array<Mask>
    const table: array<bool>
    var kerExit: bool
    var intEnter: bool
    var intExit: bool

    function View(): State
      reads this, calls, comm, ints, handlers, table
    {
      State(calls[..], comm[..], rmsg, rpulse, ints[..], handlers[..], table[..], kerExit, intEnter, intExit)
    }

    ghost predicate Valid()
      reads this, calls, comm, ints, handlers, table
    {
      && calls != ints && calls != handlers && ints != handlers && comm != table
      && table.Length == calls.Length && Shape(View())
    }

    /** Nothing is traced. */
    constructor (ncalls: nat, ncomm: nat, nints: nat, rmsg: nat, rpulse: nat)
      requires rmsg < ncomm && rpulse < ncomm && nints > 0
      ensures Valid() && Inv(View()) && SwitchesComplete(View())
    {
      this.rmsg, this.rpulse := rmsg, rpulse;
      calls := new Mask[ncalls](_ => Mask(false, false));
      comm := new bool[ncomm](_ => false);
      ints := new Mask[nints](_ => Mask(false, false));
      handlers := new Mask[nints](_ => Mask(false, false));
      table := new bool[ncalls](_ => false);
      kerExit, intEnter, intExit := false, false, false;
    }

    static method PutRange(a: array<Mask>, cl: Class, on: bool)
      modifies a
      ensures a[..] == PutAll(old(a[..]), cl, on)
    {
      for i := 0 to a.Length
        invariant forall j :: 0 <= j < i ==> a[j] == Put(old(a[j]), cl, on)
        invariant forall j :: i <= j < a.Length ==> a[j] == old(a[j])
      {
        a[i] := Put(a[i], cl, on);
      }
    }

    static method FillRange(a: array<bool>, on: bool)
      modifies a
      ensures a[..] == Fill(a.Length, on)
    {
      for i := 0 to a.Length
        invariant forall j :: 0 <= j < i ==> a[j] == on
      {
        a[i] := on;
      }
    }

    static method ScanEnter(a: array<Mask>) returns (found: bool)
      ensures found <==> AnyEnter(a[..])
    {
      for i := 0 to a.Length
        invariant forall j :: 0 <= j < i ==> !a[j].enter
      {
        if a[i].enter {
          assert a[..][i].enter;
          return true;
        }
      }
      found := false;
    }

    static method ScanExit(a: array<Mask>) returns (found: bool)
      ensures found <==> AnyExit(a[..])
    {
      for i := 0 to a.Length
        invariant forall j :: 0 <= j < i ==> !a[j].exit
      {
        if a[i].exit {
          assert a[..][i].exit;
          return true;
        }
      }
      found := false;
    }

    /** `check_call_masks` */
    method CheckCallMasks()
      requires Valid()
      modifies this`kerExit, table
      ensures Valid() && View() == CheckCalls(old(View()))
    {
      var j := 0;
      for i := 0 to calls.Length
        invariant calls[..] == old(calls[..]) && comm[..] == old(comm[..])
        invariant forall k :: 0 <= k < i ==> (table[k] <==> calls[k].enter || calls[k].exit)
        invariant j > 0 <==> exists k :: 0 <= k < i && (calls[k].enter || calls[k].exit)
        invariant j >= 0
      {
        table[i] := calls[i].enter || calls[i].exit;
        if calls[i].enter || calls[i].exit {
          j := j + 1;
        }
      }
      if comm[rmsg] || comm[rpulse] {
        j := j + 1;
      }
      kerExit := j > 0;
      assert table[..] == Traced(calls[..]);
      SomeBit(calls[..]);
    }

    lemma SomeBit(q: seq<Mask>)
      ensures AnyEnter(q) || AnyExit(q) <==> exists k :: 0 <= k < |q| && (q[k].enter || q[k].exit)
    {
      if k :| 0 <= k < |q| && (q[k].enter || q[k].exit) {
        assert q[k].enter || q[k].exit;
      }
    }

    method SwitchTo(cl: Class, on: bool)
      requires Valid()
      modifies this`intEnter, this`intExit
      ensures Valid() && View() == Switch(old(View()), cl, on)
    {
      if Enters(cl) {
        intEnter := on;
      }
      if Exits(cl) {
        intExit := on;
      }
    }

    /** The scans after an interrupt event has been deleted. */
    method RecheckSwitches(cl: Class)
      requires Valid()
      modifies this`intEnter, this`intExit
      ensures Valid() && View() == Recheck(old(View()), cl)
    {
      if Enters(cl) {
        var a := ScanEnter(ints);
        var b := ScanEnter(handlers);
        if !a && !b {
          intEnter := false;
        }
      }
      if Exits(cl) {
        var a := ScanExit(ints);
        var b := ScanExit(handlers);
        if !a && !b {
          intExit := false;
        }
      }
    }

    /** _NTO_TRACE_ADDCLASS and _NTO_TRACE_DELCLASS */
    method ClassCommand(cl: Class, on: bool)
      requires Valid()
      modifies this, calls, comm, ints, handlers, table
      ensures Valid() && View() == PutClass(old(View()), cl, on)
    {
      hide PutAll, Fill, CheckCalls, Switch, Put;
      match cl
      case KerCall | KerCallEnter | KerCallExit =>
        PutRange(calls, cl, on);
        CheckCallMasks();
      case Int =>
        PutRange(ints, cl, on);
        PutRange(handlers, cl, on);
        SwitchTo(cl, on);
      case IntEnter | IntExit =>
        PutRange(ints, cl, on);
        SwitchTo(cl, on);
      case HandlerEnter | HandlerExit =>
        PutRange(handlers, cl, on);
        SwitchTo(cl, on);
      case System =>
        CheckCallMasks();
      case Comm =>
        FillRange(comm, on);
        CheckCallMasks();
      case Other =>
    }

    /** _NTO_TRACE_ADDEVENT and _NTO_TRACE_DELEVENT */
    method EventCommand(cl: Class, i: nat, on: bool)
      requires Valid()
      modifies this, calls, comm, ints, handlers, table
      ensures Valid() && View() == PutEvent(old(View()), cl, i, on)
    {
      hide CheckCalls, Switch, Recheck, Put;
      match cl
      case KerCall | KerCallEnter | KerCallExit =>
        if i < calls.Length {
          calls[i] := Put(calls[i], cl, on);
          CheckCallMasks();
        }
      case Int | IntEnter | IntExit =>
        if i < ints.Length {
          ints[i] := Put(ints[i], cl, on);
          if on {
            SwitchTo(cl, on);
          } else {
            RecheckSwitches(cl);
          }
        }
      case HandlerEnter | HandlerExit =>
        if i < handlers.Length {
          handlers[i] := Put(handlers[i], cl, on);
          if on {
            SwitchTo(cl, on);
          } else {
            RecheckSwitches(cl);
          }
        }
      case System =>
        CheckCallMasks();
      case Comm =>
        if i < comm.Length {
          comm[i] := on;
          CheckCallMasks();
        }
      case Other =>
    }

    /** _NTO_TRACE_ADDALLCLASSES and _NTO_TRACE_DELALLCLASSES */
    method AllClassesCommand(on: bool)
      requires Valid()
      modifies this, calls, comm, ints, handlers, table
      ensures Valid() && View() == PutEverything(old(View()), on)
    {
      hide PutAll, Fill, Put;
      intEnter, intExit, kerExit := on, on, on;
      FillRange(comm, on);
      PutRange(ints, Int, on);
      PutRange(handlers, Int, on);
      PutRange(calls, KerCall, on);
      FillRange(table, on);
    }
  }
}
