/**
 Kernel tracing: per-event masks, and what is derived from them: the table that sends a
 kernel call to its traced version, and three summary switches that the exit and interrupt
 paths test.
 */
module TraceMasks {
  /** The enter and exit bits of a mask. */
  datatype Mask = Mask(enter: bool, exit: bool)

  datatype State = State(
    calls: seq<Mask>,       // ker_call_masks
    comm: seq<bool>,        // comm_mask
    rmsg: nat,              // the codes of a received message and a received pulse
    rpulse: nat,
    ints: seq<Mask>,        // int_masks
    handlers: seq<Mask>,    // int_handler_masks
    table: seq<bool>,       // which entries of the call table are the traced ones
    kerExit: bool,          // ker_exit_enable_mask
    intEnter: bool,         // int_enter_enable_mask
    intExit: bool)          // int_exit_enable_mask

  datatype Class =
    | KerCall | KerCallEnter | KerCallExit
    | Int | IntEnter | IntExit
    | HandlerEnter | HandlerExit
    | System | Comm | Other

  datatype Command =
    | AllClasses(on: bool)
    | OneClass(cl: Class, on: bool)
    | OneEvent(cl: Class, i: nat, on: bool)

  predicate Enters(cl: Class) {
    cl == KerCall || cl == KerCallEnter || cl == Int || cl == IntEnter || cl == HandlerEnter
  }

  predicate Exits(cl: Class) {
    cl == KerCall || cl == KerCallExit || cl == Int || cl == IntExit || cl == HandlerExit
  }

  function Put(m: Mask, cl: Class, on: bool): Mask {
    Mask(if Enters(cl) then on else m.enter, if Exits(cl) then on else m.exit)
  }

  function PutAll(q: seq<Mask>, cl: Class, on: bool): (r: seq<Mask>)
    ensures |r| == |q| && forall i :: 0 <= i < |q| ==> r[i] == Put(q[i], cl, on)
  {
    if q == [] then [] else PutAll(q[..|q| - 1], cl, on) + [Put(q[|q| - 1], cl, on)]
  }

  function Fill(n: nat, on: bool): (r: seq<bool>)
    ensures |r| == n && forall i :: 0 <= i < n ==> r[i] == on
  {
    if n == 0 then [] else Fill(n - 1, on) + [on]
  }

  predicate AnyEnter(q: seq<Mask>) {
    exists i :: 0 <= i < |q| && q[i].enter
  }

  predicate AnyExit(q: seq<Mask>) {
    exists i :: 0 <= i < |q| && q[i].exit
  }

  function Traced(q: seq<Mask>): (r: seq<bool>)
    ensures |r| == |q| && forall i :: 0 <= i < |q| ==> (r[i] <==> q[i].enter || q[i].exit)
  {
    if q == [] then [] else Traced(q[..|q| - 1]) + [q[|q| - 1].enter || q[|q| - 1].exit]
  }

  predicate Shape(s: State) {
    s.rmsg < |s.comm| && s.rpulse < |s.comm| && |s.ints| == |s.handlers| > 0
  }

  predicate SameShape(s: State, s': State) {
    && s'.rmsg == s.rmsg && s'.rpulse == s.rpulse && |s'.calls| == |s.calls| && |s'.comm| == |s.comm|
    && |s'.ints| == |s.ints| && |s'.handlers| == |s.handlers|
  }

  // ---------------------------------------------------------------- commands

  /** `check_call_masks` */
  function CheckCalls(s: State): (s': State)
    requires Shape(s)
    ensures SameShape(s, s')
  {
    s.(table := Traced(s.calls),
       kerExit := AnyEnter(s.calls) || AnyExit(s.calls) || s.comm[s.rmsg] || s.comm[s.rpulse])
  }

  /** After bits have been taken away the switches of the class are turned off if nothing is
      left to trace. */
  function Recheck(s: State, cl: Class): (s': State)
    ensures SameShape(s, s')
  {
    s.(intEnter := if Enters(cl) && !AnyEnter(s.ints) && !AnyEnter(s.handlers) then false else s.intEnter,
       intExit := if Exits(cl) && !AnyExit(s.ints) && !AnyExit(s.handlers) then false else s.intExit)
  }

  function Switch(s: State, cl: Class, on: bool): (s': State)
    ensures SameShape(s, s')
  {
    s.(intEnter := if Enters(cl) then on else s.intEnter, intExit := if Exits(cl) then on else s.intExit)
  }

  function PutClass(s: State, cl: Class, on: bool): State
    requires Shape(s)
  {
    match cl
    case KerCall | KerCallEnter | KerCallExit => CheckCalls(s.(calls := PutAll(s.calls, cl, on)))
    case Int => Switch(s.(ints := PutAll(s.ints, cl, on), handlers := PutAll(s.handlers, cl, on)), cl, on)
    case IntEnter | IntExit => Switch(s.(ints := PutAll(s.ints, cl, on)), cl, on)
    case HandlerEnter | HandlerExit => Switch(s.(handlers := PutAll(s.handlers, cl, on)), cl, on)
    case System => CheckCalls(s)
    case Comm => CheckCalls(s.(comm := Fill(|s.comm|, on)))
    case Other => s
  }

  function PutEvent(s: State, cl: Class, i: nat, on: bool): State
    requires Shape(s)
  {
    match cl
    case KerCall | KerCallEnter | KerCallExit =>
      if i < |s.calls| then CheckCalls(s.(calls := s.calls[i := Put(s.calls[i], cl, on)])) else s
    case Int | IntEnter | IntExit =>
      if i >= |s.ints| then s
      else
        var s1 := s.(ints := s.ints[i := Put(s.ints[i], cl, on)]);
        if on then Switch(s1, cl, on) else Recheck(s1, cl)
    case HandlerEnter | HandlerExit =>
      if i >= |s.handlers| then s
      else
        var s1 := s.(handlers := s.handlers[i := Put(s.handlers[i], cl, on)]);
        if on then Switch(s1, cl, on) else Recheck(s1, cl)
    case System => CheckCalls(s)
    case Comm => if i < |s.comm| then CheckCalls(s.(comm := s.comm[i := on])) else s
    case Other => s
  }

  function PutEverything(s: State, on: bool): State {
    State(PutAll(s.calls, KerCall, on), Fill(|s.comm|, on), s.rmsg, s.rpulse, PutAll(s.ints, Int, on),
          PutAll(s.handlers, Int, on),
          Fill(|s.calls|, on), on, on, on)
  }

  function Apply(s: State, c: Command): State
    requires Shape(s)
  {
    match c
    case AllClasses(on) => PutEverything(s, on)
    case OneClass(cl, on) => PutClass(s, cl, on)
    case OneEvent(cl, i, on) => PutEvent(s, cl, i, on)
  }

  // ---------------------------------------------------------------- derived state agrees

  /** A call goes to its traced version exactly when one of its bits is on. */
  predicate TableAgrees(s: State) {
    |s.table| == |s.calls| && forall i :: 0 <= i < |s.calls| ==> (s.table[i] <==> s.calls[i].enter || s.calls[i].exit)
  }

  /** The exit path is traced exactly when some call or received message or pulse is. */
  predicate ExitAgrees(s: State)
    requires Shape(s)
  {
    s.kerExit <==> AnyEnter(s.calls) || AnyExit(s.calls) || s.comm[s.rmsg] || s.comm[s.rpulse]
  }

  /** An interrupt switch is never on without a bit to look for. */
  predicate SwitchesSound(s: State) {
    && (s.intEnter ==> AnyEnter(s.ints) || AnyEnter(s.handlers))
    && (s.intExit ==> AnyExit(s.ints) || AnyExit(s.handlers))
  }

  /** ... and never off with one. */
  predicate SwitchesComplete(s: State) {
    && (AnyEnter(s.ints) || AnyEnter(s.handlers) ==> s.intEnter)
    && (AnyExit(s.ints) || AnyExit(s.handlers) ==> s.intExit)
  }

  predicate Inv(s: State) {
    Shape(s) && TableAgrees(s) && ExitAgrees(s) && SwitchesSound(s)
  }

  lemma PutAllAny(q: seq<Mask>, cl: Class, on: bool)
    ensures Enters(cl) && !on ==> !AnyEnter(PutAll(q, cl, on))
    ensures Exits(cl) && !on ==> !AnyExit(PutAll(q, cl, on))
    ensures Enters(cl) && on && q != [] ==> AnyEnter(PutAll(q, cl, on))
    ensures Exits(cl) && on && q != [] ==> AnyExit(PutAll(q, cl, on))
    ensures !Enters(cl) ==> (AnyEnter(PutAll(q, cl, on)) <==> AnyEnter(q))
    ensures !Exits(cl) ==> (AnyExit(PutAll(q, cl, on)) <==> AnyExit(q))
  {
    var r := PutAll(q, cl, on);
    if q != [] {
      assert r[0] == Put(q[0], cl, on);
    }
    forall i | 0 <= i < |q| ensures r[i] == Put(q[i], cl, on) {
    }
    if !Enters(cl) && AnyEnter(q) {
      var i :| 0 <= i < |q| && q[i].enter;
      assert r[i].enter;
    }
    if !Exits(cl) && AnyExit(q) {
      var i :| 0 <= i < |q| && q[i].exit;
      assert r[i].exit;
    }
  }

  lemma PutOneAny(q: seq<Mask>, i: nat, cl: Class, on: bool)
    requires i < |q|
    ensures var r := q[i := Put(q[i], cl, on)];
            && (Enters(cl) && on ==> AnyEnter(r)) && (Exits(cl) && on ==> AnyExit(r))
            && (!Enters(cl) ==> (AnyEnter(r) <==> AnyEnter(q)))
            && (!Exits(cl) ==> (AnyExit(r) <==> AnyExit(q)))
            && (!on && AnyEnter(r) ==> AnyEnter(q)) && (!on && AnyExit(r) ==> AnyExit(q))
  {
    var r := q[i := Put(q[i], cl, on)];
    assert r[i] == Put(q[i], cl, on);
    if AnyEnter(q) {
      var j :| 0 <= j < |q| && q[j].enter;
      assert !Enters(cl) ==> r[j].enter;
    }
    if AnyExit(q) {
      var j :| 0 <= j < |q| && q[j].exit;
      assert !Exits(cl) ==> r[j].exit;
    }
    if AnyEnter(r) {
      var j :| 0 <= j < |r| && r[j].enter;
      assert j != i ==> q[j].enter;
    }
    if AnyExit(r) {
      var j :| 0 <= j < |r| && r[j].exit;
      assert j != i ==> q[j].exit;
    }
  }

  lemma ClassKeeps(s: State, cl: Class, on: bool)
    requires Inv(s)
    ensures Inv(PutClass(s, cl, on))
  {
    hide AnyEnter, AnyExit, PutAll, Fill, Enters, Exits, CheckCalls, Switch, TableAgrees, ExitAgrees;
    PutAllAny(s.ints, cl, on);
    PutAllAny(s.handlers, cl, on);
    match cl
    case KerCall | KerCallEnter | KerCallExit => CheckCallsKeeps(s.(calls := PutAll(s.calls, cl, on)));
    case System => CheckCallsKeeps(s);
    case Comm => CheckCallsKeeps(s.(comm := Fill(|s.comm|, on)));
    case Int =>
      SwitchingKeeps(s, s.(ints := PutAll(s.ints, cl, on), handlers := PutAll(s.handlers, cl, on)), cl, on);
    case IntEnter | IntExit => SwitchingKeeps(s, s.(ints := PutAll(s.ints, cl, on)), cl, on);
    case HandlerEnter | HandlerExit => SwitchingKeeps(s, s.(handlers := PutAll(s.handlers, cl, on)), cl, on);
    case Other =>
  }

  lemma CheckCallsKeeps(s: State)
    requires Shape(s) && SwitchesSound(s)
    ensures Inv(CheckCalls(s))
  {
  }

  lemma SwitchingKeeps(s: State, s1: State, cl: Class, on: bool)
    requires Inv(s) && SameShape(s, s1) && s1 == s.(ints := s1.ints, handlers := s1.handlers)
    requires on && Enters(cl) ==> AnyEnter(s1.ints) || AnyEnter(s1.handlers)
    requires on && Exits(cl) ==> AnyExit(s1.ints) || AnyExit(s1.handlers)
    requires !Enters(cl) ==> (AnyEnter(s1.ints) <==> AnyEnter(s.ints))
    requires !Enters(cl) ==> (AnyEnter(s1.handlers) <==> AnyEnter(s.handlers))
    requires !Exits(cl) ==> (AnyExit(s1.ints) <==> AnyExit(s.ints)) && (AnyExit(s1.handlers) <==> AnyExit(s.handlers))
    ensures Inv(Switch(s1, cl, on))
    ensures !on ==> Inv(Recheck(s1, cl))
  {
    hide AnyEnter, AnyExit, Enters, Exits;
  }

  lemma EventKeeps(s: State, cl: Class, i: nat, on: bool)
    requires Inv(s)
    ensures Inv(PutEvent(s, cl, i, on))
  {
    hide AnyEnter, AnyExit, Put, Enters, Exits, Switch, Recheck, CheckCalls, TableAgrees, ExitAgrees;
    match cl
    case KerCall | KerCallEnter | KerCallExit =>
      if i < |s.calls| {
        CheckCallsKeeps(s.(calls := s.calls[i := Put(s.calls[i], cl, on)]));
      }
    case Int | IntEnter | IntExit =>
      if i < |s.ints| {
        PutOneAny(s.ints, i, cl, on);
        SwitchingKeeps(s, s.(ints := s.ints[i := Put(s.ints[i], cl, on)]), cl, on);
      }
    case HandlerEnter | HandlerExit =>
      if i < |s.handlers| {
        PutOneAny(s.handlers, i, cl, on);
        SwitchingKeeps(s, s.(handlers := s.handlers[i := Put(s.handlers[i], cl, on)]), cl, on);
      }
    case System => CheckCallsKeeps(s);
    case Comm =>
      if i < |s.comm| {
        CheckCallsKeeps(s.(comm := s.comm[i := on]));
      }
    case Other =>
  }

  /** Every command keeps table, exit switch and interrupt switches in agreement. */
  lemma CommandKeeps(s: State, c: Command)
    requires Inv(s)
    ensures Inv(Apply(s, c))
  {
    match c
    case AllClasses(on) =>
      PutAllAny(s.calls, KerCall, on);
      PutAllAny(s.ints, Int, on);
      hide AnyEnter, AnyExit;
    case OneClass(cl, on) => ClassKeeps(s, cl, on);
    case OneEvent(cl, i, on) => EventKeeps(s, cl, i, on);
  }

  // ---------------------------------------------------------------- which bits a command sets

  /** One trace bit: the enter or exit bit of a call, an interrupt or an interrupt handler, or the
      bit of a communication event. */
  datatype Bit =
    | CallBit(i: nat, exit: bool)
    | IntBit(i: nat, exit: bool)
    | HandlerBit(i: nat, exit: bool)
    | CommBit(i: nat)

  function MaskBit(q: seq<Mask>, i: nat, exit: bool): bool {
    i < |q| && if exit then q[i].exit else q[i].enter
  }

  predicate IsOn(s: State, b: Bit) {
    match b
    case CallBit(i, exit) => MaskBit(s.calls, i, exit)
    case IntBit(i, exit) => MaskBit(s.ints, i, exit)
    case HandlerBit(i, exit) => MaskBit(s.handlers, i, exit)
    case CommBit(i) => i < |s.comm| && s.comm[i]
  }

  predicate Exists(s: State, b: Bit) {
    match b
    case CallBit(i, _) => i < |s.calls|
    case IntBit(i, _) => i < |s.ints|
    case HandlerBit(i, _) => i < |s.handlers|
    case CommBit(i) => i < |s.comm|
  }

  /** The class to which a bit belongs when it is named alone, and together with its partner. An
      interrupt class covers the handlers' bits too when it is named as a whole. */
  predicate OfClass(b: Bit, cl: Class, whole: bool) {
    match b
    case CallBit(_, exit) => cl == KerCall || cl == if exit then KerCallExit else KerCallEnter
    case IntBit(_, exit) => cl == Int || cl == if exit then IntExit else IntEnter
    case HandlerBit(_, exit) => (whole && cl == Int) || cl == if exit then HandlerExit else HandlerEnter
    case CommBit(_) => cl == Comm
  }

  /** The bits a command speaks of. */
  predicate Names(c: Command, b: Bit) {
    match c
    case AllClasses(_) => true
    case OneClass(cl, _) => OfClass(b, cl, true)
    case OneEvent(cl, i, _) => OfClass(b, cl, false) && b.i == i
  }

  /** Rebuilding what is derived from the masks leaves the masks alone. */
  predicate SameMasks(s: State, s': State) {
    s'.calls == s.calls && s'.comm == s.comm && s'.ints == s.ints && s'.handlers == s.handlers
  }

  lemma DerivedOnly(s: State, cl: Class, on: bool)
    ensures Shape(s) ==> SameMasks(s, CheckCalls(s))
    ensures SameMasks(s, Switch(s, cl, on)) && SameMasks(s, Recheck(s, cl))
  {
  }

  lemma CallEventSets(s: State, cl: Class, i: nat, on: bool, b: Bit)
    requires Shape(s) && Exists(s, b) && (cl == KerCall || cl == KerCallEnter || cl == KerCallExit)
    ensures Exists(PutEvent(s, cl, i, on), b)
    ensures IsOn(PutEvent(s, cl, i, on), b) <==> if OfClass(b, cl, false) && b.i == i then on else IsOn(s, b)
  {
    hide CheckCalls;
    if i < |s.calls| {
      DerivedOnly(s.(calls := s.calls[i := Put(s.calls[i], cl, on)]), cl, on);
    }
  }

  lemma IntEventSets(s: State, cl: Class, i: nat, on: bool, b: Bit)
    requires Shape(s) && Exists(s, b) && (cl == Int || cl == IntEnter || cl == IntExit)
    ensures Exists(PutEvent(s, cl, i, on), b)
    ensures IsOn(PutEvent(s, cl, i, on), b) <==> if OfClass(b, cl, false) && b.i == i then on else IsOn(s, b)
  {
    hide Switch, Recheck;
    if i < |s.ints| {
      DerivedOnly(s.(ints := s.ints[i := Put(s.ints[i], cl, on)]), cl, on);
    }
  }

  lemma HandlerEventSets(s: State, cl: Class, i: nat, on: bool, b: Bit)
    requires Shape(s) && Exists(s, b) && (cl == HandlerEnter || cl == HandlerExit)
    ensures Exists(PutEvent(s, cl, i, on), b)
    ensures IsOn(PutEvent(s, cl, i, on), b) <==> if OfClass(b, cl, false) && b.i == i then on else IsOn(s, b)
  {
    hide Switch, Recheck;
    if i < |s.handlers| {
      DerivedOnly(s.(handlers := s.handlers[i := Put(s.handlers[i], cl, on)]), cl, on);
    }
  }

  lemma OtherEventSets(s: State, cl: Class, i: nat, on: bool, b: Bit)
    requires Shape(s) && Exists(s, b) && (cl == System || cl == Comm || cl == Other)
    ensures Exists(PutEvent(s, cl, i, on), b)
    ensures IsOn(PutEvent(s, cl, i, on), b) <==> if OfClass(b, cl, false) && b.i == i then on else IsOn(s, b)
  {
    hide CheckCalls;
    DerivedOnly(s, cl, on);
    if i < |s.comm| {
      DerivedOnly(s.(comm := s.comm[i := on]), cl, on);
    }
  }

  lemma ClassSets(s: State, cl: Class, on: bool, b: Bit)
    requires Shape(s) && Exists(s, b)
    ensures Exists(PutClass(s, cl, on), b)
    ensures IsOn(PutClass(s, cl, on), b) <==> if OfClass(b, cl, true) then on else IsOn(s, b)
  {
    hide CheckCalls, Switch;
    match cl
    case KerCall | KerCallEnter | KerCallExit => DerivedOnly(s.(calls := PutAll(s.calls, cl, on)), cl, on);
    case Int => DerivedOnly(s.(ints := PutAll(s.ints, cl, on), handlers := PutAll(s.handlers, cl, on)), cl, on);
    case IntEnter | IntExit => DerivedOnly(s.(ints := PutAll(s.ints, cl, on)), cl, on);
    case HandlerEnter | HandlerExit => DerivedOnly(s.(handlers := PutAll(s.handlers, cl, on)), cl, on);
    case System => DerivedOnly(s, cl, on);
    case Comm => DerivedOnly(s.(comm := Fill(|s.comm|, on)), cl, on);
    case Other =>
  }

  lemma EventSets(s: State, cl: Class, i: nat, on: bool, b: Bit)
    requires Shape(s) && Exists(s, b)
    ensures Exists(PutEvent(s, cl, i, on), b)
    ensures IsOn(PutEvent(s, cl, i, on), b) <==> if OfClass(b, cl, false) && b.i == i then on else IsOn(s, b)
  {
    hide PutEvent, IsOn, Exists, OfClass, Shape;
    match cl
    case KerCall | KerCallEnter | KerCallExit => CallEventSets(s, cl, i, on, b);
    case Int | IntEnter | IntExit => IntEventSets(s, cl, i, on, b);
    case HandlerEnter | HandlerExit => HandlerEventSets(s, cl, i, on, b);
    case System | Comm | Other => OtherEventSets(s, cl, i, on, b);
  }

  lemma AllSet(s: State, on: bool, b: Bit)
    requires Exists(s, b)
    ensures Exists(PutEverything(s, on), b) && (IsOn(PutEverything(s, on), b) <==> on)
  {
  }

  /** A command turns exactly the bits it names on, or off, and leaves all others alone. */
  lemma CommandSets(s: State, c: Command, b: Bit)
    requires Shape(s) && Exists(s, b)
    ensures Exists(Apply(s, c), b)
    ensures IsOn(Apply(s, c), b) <==> if Names(c, b) then c.on else IsOn(s, b)
  {
    hide PutEverything, PutClass, PutEvent, Exists, IsOn, OfClass;
    match c
    case AllClasses(on) => AllSet(s, on, b);
    case OneClass(cl, on) => ClassSets(s, cl, on, b);
    case OneEvent(cl, i, on) => EventSets(s, cl, i, on, b);
  }

  /** The commands that turn a switch off while bits of the other kind stay on. */
  predicate Forgets(s: State, c: Command) {
    c.OneClass? && !c.on &&
    match c.cl
    case IntEnter => AnyEnter(s.handlers)
    case IntExit => AnyExit(s.handlers)
    case HandlerEnter => AnyEnter(s.ints)
    case HandlerExit => AnyExit(s.ints)
    case _ => false
  }

  lemma ClassForgets(s: State, cl: Class, on: bool)
    requires Inv(s) && SwitchesComplete(s)
    ensures SwitchesComplete(PutClass(s, cl, on)) <==> !Forgets(s, OneClass(cl, on))
  {
    PutAllAny(s.ints, cl, on);
    PutAllAny(s.handlers, cl, on);
    hide AnyEnter, AnyExit, PutAll, Fill, Traced, TableAgrees, ExitAgrees;
  }

  lemma EventRemembers(s: State, cl: Class, i: nat, on: bool)
    requires Inv(s) && SwitchesComplete(s)
    ensures SwitchesComplete(PutEvent(s, cl, i, on))
  {
    if i < |s.ints| {
      PutOneAny(s.ints, i, cl, on);
      PutOneAny(s.handlers, i, cl, on);
    }
    hide AnyEnter, AnyExit, Put, Traced, TableAgrees, ExitAgrees;
  }

  /** The switches keep covering every bit exactly unless such a command comes. */
  lemma SwitchesStayComplete(s: State, c: Command)
    requires Inv(s) && SwitchesComplete(s)
    ensures SwitchesComplete(Apply(s, c)) <==> !Forgets(s, c)
  {
    match c
    case AllClasses(on) =>
      PutAllAny(s.ints, Int, on);
      PutAllAny(s.handlers, Int, on);
      hide AnyEnter, AnyExit;
    case OneClass(cl, on) => ClassForgets(s, cl, on);
    case OneEvent(cl, i, on) => EventRemembers(s, cl, i, on);
  }

  ghost predicate Run(states: seq<State>, commands: seq<Command>) {
    && |states| == |commands| + 1
    && Inv(states[0])
    && forall i :: 0 <= i < |commands| ==> Shape(states[i]) ==> states[i + 1] == Apply(states[i], commands[i])
  }

  /** ... over any sequence of commands. */
  lemma {:induction false} RunsAgree(states: seq<State>, commands: seq<Command>, i: nat)
    requires Run(states, commands) && i < |states|
    ensures Inv(states[i])
  {
    if i > 0 {
      RunsAgree(states, commands, i - 1);
      CommandKeeps(states[i - 1], commands[i - 1]);
    }
  }

  /** Two commands after which an interrupt handler's bit is on and its switch is off. */
  lemma SwitchForgets(s: State)
    requires Inv(s)
    ensures var s1 := Apply(s, OneClass(Int, true));
            var s2 := Apply(s1, OneClass(IntEnter, false));
            SwitchesComplete(s1) && AnyEnter(s2.handlers) && !s2.intEnter
  {
    var s1 := Apply(s, OneClass(Int, true));
    PutAllAny(s.ints, Int, true);
    PutAllAny(s.handlers, Int, true);
  }
}
