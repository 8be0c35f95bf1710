/**
 The ready-queue bitmap: three levels of bytes that record which of the 256 priorities have
 ready threads, and a table that finds the highest one in constant time. The two-dimensional
 lowest level lo[4][8] is kept in row order.
 */
module Dispatch {
  const NUM_PRI: nat := 256

  function Mask(i: nat): bv8
    requires i < 8
  {
    if i == 0 then 1 else if i == 1 then 2 else if i == 2 then 4 else if i == 3 then 8
    else if i == 4 then 16 else if i == 5 then 32 else if i == 6 then 64 else 128
  }

  predicate Bit(b: bv8, i: nat)
    requires i < 8
  {
    b & Mask(i) != 0
  }

  function WithBit(b: bv8, i: nat): bv8
    requires i < 8
  {
    b | Mask(i)
  }

  function WithoutBit(b: bv8, i: nat): bv8
    requires i < 8
  {
    b & !Mask(i)
  }

  /** The table byte_log2, which is constant on runs of bytes. */
  function ByteLog2(b: bv8): nat {
    if b < 2 then 0 else if b < 4 then 1 else if b < 8 then 2 else if b < 16 then 3
    else if b < 32 then 4 else if b < 64 then 5 else if b < 128 then 6 else 7
  }

  lemma SetByte(b: bv8, i: nat, j: nat)
    requires i < 8 && j < 8
    ensures Bit(WithBit(b, i), j) <==> i == j || Bit(b, j)
    ensures WithBit(b, i) != 0
  {
  }

  lemma ClearByte(b: bv8, i: nat, j: nat)
    requires i < 8 && j < 8
    ensures Bit(WithoutBit(b, i), j) <==> i != j && Bit(b, j)
    ensures !Bit(b, i) ==> WithoutBit(b, i) == b
  {
  }

  lemma ZeroByte(b: bv8, i: nat)
    requires i < 8
    ensures b == 0 ==> !Bit(b, i)
  {
  }

  /** The table entry of a byte is its highest bit, and 0 for the zero byte. */
  lemma ByteLog2IsHighest(b: bv8, j: nat)
    requires j < 8
    ensures ByteLog2(b) < 8
    ensures b != 0 ==> Bit(b, ByteLog2(b))
    ensures b == 0 ==> ByteLog2(b) == 0
    ensures Bit(b, j) ==> j <= ByteLog2(b)
  {
  }

  datatype Levels = Levels(hi: bv8, mid: seq<bv8>, lo: seq<bv8>)

  /** A priority in its three octal digits. */
  datatype Pri = Pri(h: nat, m: nat, l: nat)

  predicate InRange(p: Pri) {
    p.h < 4 && p.m < 8 && p.l < 8
  }

  function Digits(p: nat): Pri {
    Pri(p / 64, p / 8 % 8, p % 8)
  }

  function Value(p: Pri): nat {
    64 * p.h + 8 * p.m + p.l
  }

  lemma DigitsOfValue(p: nat)
    requires p < NUM_PRI
    ensures InRange(Digits(p)) && Value(Digits(p)) == p
  {
    var k := p / 8;
    assert p == 8 * k + p % 8 && k < 32;
    assert k == 8 * (k / 8) + k % 8;
    assert p / 64 == k / 8;
  }

  lemma SameDigits(p: Pri, q: Pri)
    requires InRange(p) && InRange(q) && Value(p) == Value(q)
    ensures p == q
  {
  }

  predicate Shape(v: Levels) {
    |v.mid| == 4 && |v.lo| == 32
  }

  function Byte(v: Levels, h: nat, m: nat): bv8
    requires Shape(v) && h < 4 && m < 8
  {
    v.lo[8 * h + m]
  }

  /** Every summary bit is on exactly when the byte below it is not zero. */
  ghost predicate Agree(v: Levels)
    requires Shape(v)
  {
    && (forall h :: 0 <= h < 4 ==> (Bit(v.hi, h) <==> v.mid[h] != 0))
    && (forall h :: 4 <= h < 8 ==> !Bit(v.hi, h))
    && (forall h, m :: 0 <= h < 4 && 0 <= m < 8 ==> (Bit(v.mid[h], m) <==> Byte(v, h, m) != 0))
  }

  predicate On(v: Levels, p: Pri)
    requires Shape(v) && InRange(p)
  {
    Bit(Byte(v, p.h, p.m), p.l)
  }

  /** DISPATCH_SET */
  function SetPriority(v: Levels, p: Pri): (v': Levels)
    requires Shape(v) && InRange(p)
    ensures Shape(v')
  {
    var k := 8 * p.h + p.m;
    Levels(WithBit(v.hi, p.h), v.mid[p.h := WithBit(v.mid[p.h], p.m)], v.lo[k := WithBit(v.lo[k], p.l)])
  }

  /** DISPATCH_CLR */
  function ClearPriority(v: Levels, p: Pri): (v': Levels)
    requires Shape(v) && InRange(p)
    ensures Shape(v')
  {
    var k := 8 * p.h + p.m;
    var lo := v.lo[k := WithoutBit(v.lo[k], p.l)];
    if lo[k] != 0 then v.(lo := lo)
    else
      var mid := v.mid[p.h := WithoutBit(v.mid[p.h], p.m)];
      if mid[p.h] != 0 then v.(lo := lo, mid := mid) else Levels(WithoutBit(v.hi, p.h), mid, lo)
  }

  lemma SetBits(b: bv8, i: nat)
    requires i < 8
    ensures forall j :: 0 <= j < 8 ==> (Bit(WithBit(b, i), j) <==> i == j || Bit(b, j))
    ensures WithBit(b, i) != 0
  {
    forall j | 0 <= j < 8 ensures Bit(WithBit(b, i), j) <==> i == j || Bit(b, j) {
      SetByte(b, i, j);
    }
    SetByte(b, i, 0);
  }

  lemma ClearBits(b: bv8, i: nat)
    requires i < 8
    ensures forall j :: 0 <= j < 8 ==> (Bit(WithoutBit(b, i), j) <==> i != j && Bit(b, j))
    ensures b == 0 ==> WithoutBit(b, i) == 0
  {
    forall j | 0 <= j < 8 ensures Bit(WithoutBit(b, i), j) <==> i != j && Bit(b, j) {
      ClearByte(b, i, j);
    }
  }

  /** One bit is turned on at each level; the bytes are given by what they hold. */
  lemma RaiseAgrees(v: Levels, p: Pri, hi: bv8, b: bv8, c: bv8)
    requires Shape(v) && Agree(v) && InRange(p) && b != 0 && c != 0
    requires forall j :: 0 <= j < 8 ==> (Bit(hi, j) <==> p.h == j || Bit(v.hi, j))
    requires forall j :: 0 <= j < 8 ==> (Bit(b, j) <==> p.m == j || Bit(v.mid[p.h], j))
    ensures Agree(Levels(hi, v.mid[p.h := b], v.lo[8 * p.h + p.m := c]))
  {
    hide Bit;
    var v' := Levels(hi, v.mid[p.h := b], v.lo[8 * p.h + p.m := c]);
    forall h, m | 0 <= h < 4 && 0 <= m < 8 ensures Bit(v'.mid[h], m) <==> Byte(v', h, m) != 0 {
      assert Bit(v.mid[h], m) <==> Byte(v, h, m) != 0;
    }
  }

  lemma SetAgrees(v: Levels, p: Pri)
    requires Shape(v) && Agree(v) && InRange(p)
    ensures Agree(SetPriority(v, p))
  {
    hide Agree;
    SetBits(v.hi, p.h);
    SetBits(v.mid[p.h], p.m);
    SetBits(Byte(v, p.h, p.m), p.l);
    hide Bit, WithBit, WithoutBit;
    RaiseAgrees(v, p, WithBit(v.hi, p.h), WithBit(v.mid[p.h], p.m), WithBit(Byte(v, p.h, p.m), p.l));
  }

  lemma SetTurnsOn(v: Levels, p: Pri, q: Pri)
    requires Shape(v) && InRange(p) && InRange(q)
    ensures On(SetPriority(v, p), q) <==> q == p || On(v, q)
  {
    SetBits(Byte(v, p.h, p.m), p.l);
    hide Bit, WithBit, WithoutBit;
  }

  lemma LowerAgrees(v: Levels, p: Pri, hi: bv8, b: bv8, c: bv8)
    requires Shape(v) && Agree(v) && InRange(p) && (Byte(v, p.h, p.m) == 0 ==> c == 0)
    requires if c != 0 then b == v.mid[p.h]
             else forall j :: 0 <= j < 8 ==> (Bit(b, j) <==> p.m != j && Bit(v.mid[p.h], j))
    requires v.mid[p.h] == 0 ==> b == 0
    requires if b != 0 || c != 0 then hi == v.hi
             else forall j :: 0 <= j < 8 ==> (Bit(hi, j) <==> p.h != j && Bit(v.hi, j))
    ensures Agree(Levels(hi, v.mid[p.h := b], v.lo[8 * p.h + p.m := c]))
  {
    hide Bit;
    var v' := Levels(hi, v.mid[p.h := b], v.lo[8 * p.h + p.m := c]);
    assert Bit(v.mid[p.h], p.m) <==> Byte(v, p.h, p.m) != 0;
    forall h, m | 0 <= h < 4 && 0 <= m < 8 ensures Bit(v'.mid[h], m) <==> Byte(v', h, m) != 0 {
      assert Bit(v.mid[h], m) <==> Byte(v, h, m) != 0;
    }
  }

  lemma ClearAgrees(v: Levels, p: Pri)
    requires Shape(v) && Agree(v) && InRange(p)
    ensures Agree(ClearPriority(v, p))
  {
    hide Agree;
    ClearBits(v.hi, p.h);
    ClearBits(v.mid[p.h], p.m);
    ClearBits(Byte(v, p.h, p.m), p.l);
    hide Bit, WithBit, WithoutBit;
    var c := WithoutBit(Byte(v, p.h, p.m), p.l);
    var b := if c == 0 then WithoutBit(v.mid[p.h], p.m) else v.mid[p.h];
    var hi := if c == 0 && b == 0 then WithoutBit(v.hi, p.h) else v.hi;
    LowerAgrees(v, p, hi, b, c);
    assert v.mid[p.h := v.mid[p.h]] == v.mid;
  }

  lemma ClearTurnsOff(v: Levels, p: Pri, q: Pri)
    requires Shape(v) && InRange(p) && InRange(q)
    ensures On(ClearPriority(v, p), q) <==> q != p && On(v, q)
  {
    ClearBits(Byte(v, p.h, p.m), p.l);
    hide Bit, WithBit, WithoutBit;
  }

  lemma HighestBit(b: bv8)
    ensures ByteLog2(b) < 8
    ensures b != 0 ==> Bit(b, ByteLog2(b))
    ensures b == 0 ==> ByteLog2(b) == 0 && forall j :: 0 <= j < 8 ==> !Bit(b, j)
    ensures forall j :: 0 <= j < 8 && Bit(b, j) ==> j <= ByteLog2(b)
  {
    ByteLog2IsHighest(b, 0);
    forall j | 0 <= j < 8 ensures (Bit(b, j) ==> j <= ByteLog2(b)) && (b == 0 ==> !Bit(b, j)) {
      ByteLog2IsHighest(b, j);
      ZeroByte(b, j);
    }
  }

  /** DISPATCH_HIGHEST_PRI */
  function Highest(v: Levels): (p: Pri)
    requires Shape(v) && Agree(v)
    ensures InRange(p)
  {
    HighestBit(v.hi);
    var h := ByteLog2(v.hi);
    HighestBit(v.mid[h]);
    var m := ByteLog2(v.mid[h]);
    HighestBit(Byte(v, h, m));
    Pri(h, m, ByteLog2(Byte(v, h, m)))
  }

  lemma HighestDigits(v: Levels)
    requires Shape(v) && Agree(v)
    ensures ByteLog2(v.hi) < 4 && ByteLog2(v.mid[ByteLog2(v.hi)]) < 8
    ensures var h := ByteLog2(v.hi);
            var m := ByteLog2(v.mid[h]);
            Highest(v) == Pri(h, m, ByteLog2(v.lo[8 * h + m]))
  {
    HighestBit(v.hi);
    HighestBit(v.mid[ByteLog2(v.hi)]);
    hide Bit, ByteLog2;
  }

  /** A priority that is on shows at both levels above it. */
  lemma UpperBits(v: Levels, q: Pri)
    requires Shape(v) && Agree(v) && InRange(q) && On(v, q)
    ensures Bit(v.mid[q.h], q.m) && Bit(v.hi, q.h) && v.hi != 0
  {
    HighestBit(Byte(v, q.h, q.m));
    HighestBit(v.mid[q.h]);
    HighestBit(v.hi);
    hide Bit, ByteLog2;
  }

  lemma HighestIsOn(v: Levels)
    requires Shape(v) && Agree(v) && v.hi != 0
    ensures On(v, Highest(v))
  {
    HighestBit(v.hi);
    var h := ByteLog2(v.hi);
    HighestBit(v.mid[h]);
    var m := ByteLog2(v.mid[h]);
    HighestBit(Byte(v, h, m));
    hide Bit, ByteLog2;
    assert Bit(v.mid[h], m) <==> Byte(v, h, m) != 0;
  }

  lemma DigitsBelow(p: Pri, q: Pri)
    requires InRange(p) && InRange(q) && q.h <= p.h && (q.h == p.h ==> q.m <= p.m && (q.m == p.m ==> q.l <= p.l))
    ensures Value(q) <= Value(p)
  {
  }

  /** Three table look-ups find the highest priority that is on. */
  lemma HighestIsMaximum(v: Levels, q: Pri)
    requires Shape(v) && Agree(v) && InRange(q) && On(v, q)
    ensures On(v, Highest(v)) && Value(q) <= Value(Highest(v))
  {
    hide Bit, ByteLog2, Agree, Value;
    UpperBits(v, q);
    HighestIsOn(v);
    HighestBit(v.hi);
    HighestBit(v.mid[q.h]);
    HighestBit(Byte(v, q.h, q.m));
    DigitsBelow(Highest(v), q);
  }

  lemma HighestOfNothing(v: Levels)
    requires Shape(v) && Agree(v) && forall q :: InRange(q) ==> !On(v, q)
    ensures Highest(v) == Pri(0, 0, 0)
  {
    HighestBit(v.hi);
    var h := ByteLog2(v.hi);
    HighestBit(v.mid[h]);
    var m := ByteLog2(v.mid[h]);
    HighestBit(Byte(v, h, m));
    hide Bit, ByteLog2;
    assert !On(v, Highest(v));
    assert Bit(v.mid[h], m) <==> Byte(v, h, m) != 0;
  }

  predicate IsReady(v: Levels, p: nat)
    requires Shape(v) && p < NUM_PRI
  {
    DigitsOfValue(p);
    On(v, Digits(p))
  }

  /** The priorities that are on. */
  function ReadySet(v: Levels): set<nat>
    requires Shape(v)
  {
    set p: nat | p < NUM_PRI && IsReady(v, p)
  }

  /** The bitmap refines a set: turning on is insertion. */
  lemma SetInserts(v: Levels, p: nat)
    requires Shape(v) && Agree(v) && p < NUM_PRI
    ensures InRange(Digits(p)) && Agree(SetPriority(v, Digits(p)))
    ensures ReadySet(SetPriority(v, Digits(p))) == ReadySet(v) + {p}
  {
    hide Agree, On, SetPriority, Digits;
    DigitsOfValue(p);
    SetAgrees(v, Digits(p));
    var v' := SetPriority(v, Digits(p));
    forall q: nat | q < NUM_PRI ensures IsReady(v', q) <==> q == p || IsReady(v, q) {
      DigitsOfValue(q);
      SetTurnsOn(v, Digits(p), Digits(q));
    }
  }

  /** ... turning off is removal ... */
  lemma ClearRemoves(v: Levels, p: nat)
    requires Shape(v) && Agree(v) && p < NUM_PRI
    ensures InRange(Digits(p)) && Agree(ClearPriority(v, Digits(p)))
    ensures ReadySet(ClearPriority(v, Digits(p))) == ReadySet(v) - {p}
  {
    hide Agree, On, ClearPriority, Digits;
    DigitsOfValue(p);
    ClearAgrees(v, Digits(p));
    var v' := ClearPriority(v, Digits(p));
    forall q: nat | q < NUM_PRI ensures IsReady(v', q) <==> q != p && IsReady(v, q) {
      DigitsOfValue(q);
      ClearTurnsOff(v, Digits(p), Digits(q));
    }
  }

  /** ... and the look-up is the maximum, or 0 of the empty set. */
  lemma HighestOfReady(v: Levels)
    requires Shape(v) && Agree(v)
    ensures ReadySet(v) == {} ==> Value(Highest(v)) == 0
    ensures ReadySet(v) != {} ==> Value(Highest(v)) in ReadySet(v)
    ensures forall q :: q in ReadySet(v) ==> q <= Value(Highest(v))
  {
    hide Agree, On, Highest, Digits;
    var d := Highest(v);
    DigitsOfValue(Value(d));
    SameDigits(Digits(Value(d)), d);
    forall q | q in ReadySet(v) ensures Value(d) in ReadySet(v) && q <= Value(d) {
      DigitsOfValue(q);
      HighestIsMaximum(v, Digits(q));
    }
    if ReadySet(v) == {} {
      forall q | InRange(q) ensures !On(v, q) {
        DigitsOfValue(Value(q));
        SameDigits(Digits(Value(q)), q);
        assert Value(q) !in ReadySet(v);
      }
      HighestOfNothing(v);
    }
  }

  class Bitmap {
    var hi: bv8
    const mid: array<bv8>
    const lo: array<bv8>

    function View(): Levels
      reads this, mid, lo
    {
      Levels(hi, mid[..], lo[..])
    }

    ghost predicate Valid()
      reads this, mid, lo
    {
      mid != lo && Shape(View()) && Agree(View())
    }

    ghost function Ready(): set<nat>
      requires Valid()
      reads this, mid, lo
    {
      ReadySet(View())
    }

    constructor ()
      ensures Valid() && Ready() == {} && fresh(mid) && fresh(lo)
    {
      hi := 0;
      mid := new bv8[4](_ => 0);
      lo := new bv8[32](_ => 0);
      new;
      HighestBit(0);
      hide Bit;
    }

    method IsSet(p: nat) returns (on: bool)
      requires Valid() && p < NUM_PRI
      ensures on <==> p in Ready()
    {
      DigitsOfValue(p);
      on := lo[8 * (p / 64) + p / 8 % 8] & Mask(p % 8) != 0;
    }

    method Set(p: nat)
      requires Valid() && p < NUM_PRI
      modifies this, mid, lo
      ensures Valid() && Ready() == old(Ready()) + {p}
    {
      hide Bit, WithBit, WithoutBit, Agree, ReadySet, Digits;
      ghost var v := View();
      SetInserts(v, p);
      var d := Digits(p);
      var k := 8 * d.h + d.m;
      hi := WithBit(hi, d.h);
      mid[d.h] := WithBit(mid[d.h], d.m);
      lo[k] := WithBit(lo[k], d.l);
      assert View() == SetPriority(v, d);
    }

    method Clear(p: nat)
      requires Valid() && p < NUM_PRI
      modifies this, mid, lo
      ensures Valid() && Ready() == old(Ready()) - {p}
    {
      hide Bit, WithBit, WithoutBit, Agree, ReadySet, Digits;
      ghost var v := View();
      ClearRemoves(v, p);
      var d := Digits(p);
      var k := 8 * d.h + d.m;
      lo[k] := WithoutBit(lo[k], d.l);
      if lo[k] == 0 {
        mid[d.h] := WithoutBit(mid[d.h], d.m);
        if mid[d.h] == 0 {
          hi := WithoutBit(hi, d.h);
        }
      }
      assert View() == ClearPriority(v, d);
    }

    /** The highest ready priority; 0 if nothing is ready. */
    method HighestReady() returns (p: nat)
      requires Valid()
      ensures Ready() == {} ==> p == 0
      ensures Ready() != {} ==> p in Ready()
      ensures forall q :: q in Ready() ==> q <= p
    {
      hide Bit, Agree, ByteLog2, Highest, ReadySet;
      HighestDigits(View());
      HighestOfReady(View());
      var h := ByteLog2(hi);
      var m := ByteLog2(mid[h]);
      p := 64 * h + 8 * m + ByteLog2(lo[8 * h + m]);
    }
  }
}
