/**
 Multi-part messages: the length check over the parts and the copy of a short message into
 the sender's buffer. Part lengths are 64 bits wide; the running total is a signed 32-bit
 variable.
 */
module Iov {
  const WORD32: nat := 0x1_0000_0000
  const WORD64: nat := 0x1_0000_0000_0000_0000
  const INT_MAX: nat := 0x7fff_ffff

  type byte = b: int | 0 <= b < 256

  /** A part: its address and the bytes it spans. */
  datatype Part = Part(base: nat, data: seq<byte>)

  function Len(p: Part): nat {
    |p.data|
  }

  predicate Word(p: Part) {
    p.base < WORD64 && Len(p) < WORD64
  }

  /** Conversion of an unsigned value to a signed 32-bit variable. */
  function Signed32(n: nat): int {
    var r := n % WORD32;
    if r <= INT_MAX then r else r - WORD32
  }

  /** The address test of the loop; `last` wraps around. */
  predicate AddressTest(p: Part, boundary: nat) {
    var last := (p.base + Len(p) + (WORD64 - 1)) % WORD64;
    Len(p) == 0 || (p.base <= last && p.base <= boundary && last <= boundary)
  }

  /** A part passes the address test exactly when all its bytes lie below the boundary. */
  lemma AddressTestExact(p: Part, boundary: nat)
    requires Word(p) && boundary < WORD64
    ensures AddressTest(p, boundary) <==> Len(p) == 0 || p.base + Len(p) - 1 <= boundary
  {
  }

  /** What one part adds to the 32-bit total. */
  function Residue(p: Part): nat {
    Len(p) % WORD32
  }

  function ResidueSum(parts: seq<Part>): nat {
    if parts == [] then 0 else ResidueSum(parts[..|parts| - 1]) + Residue(parts[|parts| - 1])
  }

  function TrueSum(parts: seq<Part>): nat {
    if parts == [] then 0 else TrueSum(parts[..|parts| - 1]) + Len(parts[|parts| - 1])
  }

  /** One step of the running total: it goes down exactly when the sum leaves the range. */
  lemma StepExact(len: nat, p: Part)
    requires len <= INT_MAX
    ensures Signed32(len + Len(p)) >= len <==> len + Residue(p) <= INT_MAX
    ensures len + Residue(p) <= INT_MAX ==> Signed32(len + Len(p)) == len + Residue(p)
  {
    var q, r := Len(p) / WORD32, Residue(p);
    assert Len(p) == q * WORD32 + r;
    assert len + Len(p) == q * WORD32 + (len + r);
    if len + r < WORD32 {
      Modulo(q, len + r);
    } else {
      Modulo(q + 1, len + r - WORD32);
      assert len + Len(p) == (q + 1) * WORD32 + (len + r - WORD32);
    }
  }

  lemma Modulo(q: nat, r: nat)
    requires r < WORD32
    ensures (q * WORD32 + r) % WORD32 == r
  {
  }

  datatype Verdict = Accepted(total: nat) | Overflow | Fault

  ghost predicate Passes(parts: seq<Part>, boundary: nat) {
    ResidueSum(parts) <= INT_MAX && forall i :: 0 <= i < |parts| ==> AddressTest(parts[i], boundary)
  }

  /** The check over the parts. It stops at the first part that makes the total leave the
      range or that fails the address test, and says which. */
  method CheckParts(parts: seq<Part>, boundary: nat) returns (v: Verdict)
    ensures v.Accepted? <==> Passes(parts, boundary)
    ensures v.Accepted? ==> v.total == ResidueSum(parts)
    ensures v.Overflow? ==>
              exists k :: 0 <= k < |parts| && Passes(parts[..k], boundary) && ResidueSum(parts[..k + 1]) > INT_MAX
    ensures v.Fault? ==>
              exists k :: 0 <= k < |parts| && Passes(parts[..k], boundary) && ResidueSum(parts[..k + 1]) <= INT_MAX
                                     && !AddressTest(parts[k], boundary)
  {
    var len, last := 0, 0;
    var i := 0;
    while i < |parts|
      invariant 0 <= i <= |parts|
      invariant len == last == ResidueSum(parts[..i]) <= INT_MAX
      invariant forall j :: 0 <= j < i ==> AddressTest(parts[j], boundary)
    {
      assert parts[..i + 1][..i] == parts[..i];
      assert Passes(parts[..i], boundary);
      StepExact(len, parts[i]);
      var next := Signed32(len + Len(parts[i]));
      if next < last {
        SumGrows(parts, i + 1);
        return Overflow;
      }
      len := next;
      last := len;
      if !AddressTest(parts[i], boundary) {
        return Fault;
      }
      i := i + 1;
    }
    assert parts[..i] == parts;
    v := Accepted(len);
  }

  lemma {:induction false} SumGrows(parts: seq<Part>, k: nat)
    requires k <= |parts|
    ensures ResidueSum(parts[..k]) <= ResidueSum(parts)
    decreases |parts|
  {
    if k < |parts| {
      var init := parts[..|parts| - 1];
      assert init[..k] == parts[..k];
      SumGrows(init, k);
    } else {
      assert parts[..k] == parts;
    }
  }

  lemma {:induction false} SumBelow(parts: seq<Part>)
    ensures ResidueSum(parts) <= TrueSum(parts)
    ensures ResidueSum(parts) == TrueSum(parts) <==> forall i :: 0 <= i < |parts| ==> Len(parts[i]) < WORD32
  {
    if parts != [] {
      var n := |parts| - 1;
      var init := parts[..n];
      SumBelow(init);
      ResidueBelow(parts[n]);
      assert forall i :: 0 <= i < n ==> init[i] == parts[i];
      if forall i :: 0 <= i < n ==> Len(init[i]) < WORD32 {
        assert forall i :: 0 <= i < n ==> Len(parts[i]) < WORD32;
      } else {
        var i :| 0 <= i < n && Len(init[i]) >= WORD32;
        assert Len(parts[i]) >= WORD32;
      }
    }
  }

  lemma ResidueBelow(p: Part)
    ensures Residue(p) <= Len(p) && (Residue(p) == Len(p) <==> Len(p) < WORD32)
  {
  }

  /** The accepted total is the length of the message exactly when no part reaches 2^32. */
  lemma TotalIsLength(parts: seq<Part>, boundary: nat, total: nat)
    requires Passes(parts, boundary) && total == ResidueSum(parts)
    ensures total == TrueSum(parts) <==> forall i :: 0 <= i < |parts| ==> Len(parts[i]) < WORD32
    ensures (forall i :: 0 <= i < |parts| ==> Len(parts[i]) < WORD32) ==> TrueSum(parts) <= INT_MAX
  {
    SumBelow(parts);
  }

  /** Below 2^32 per part, a message is accepted exactly when its length fits and every part
      is below the boundary. */
  lemma ShortPartsExact(parts: seq<Part>, boundary: nat)
    requires forall i :: 0 <= i < |parts| ==> Len(parts[i]) < WORD32
    ensures Passes(parts, boundary) <==>
            TrueSum(parts) <= INT_MAX && forall i :: 0 <= i < |parts| ==> AddressTest(parts[i], boundary)
  {
    SumBelow(parts);
  }

  /** Without that bound the total can be anything smaller: one part of 2^32 bytes counts 0. */
  lemma HugePartCountsNothing(p: Part, boundary: nat)
    requires Len(p) == WORD32 && p.base + WORD32 <= boundary < WORD64
    ensures Passes([p], boundary) && ResidueSum([p]) == 0 && TrueSum([p]) == WORD32
  {
    assert [p][..0] == [];
    AddressTestExact(p, boundary);
  }

  // ---------------------------------------------------------------- the copy

  /** What the copy takes of each part, in order. */
  function Gathered(parts: seq<Part>): seq<byte> {
    if parts == [] then [] else Gathered(parts[..|parts| - 1]) + parts[|parts| - 1].data[..Residue(parts[|parts| - 1])]
  }

  /** The message: all bytes of all parts. */
  function Message(parts: seq<Part>): seq<byte> {
    if parts == [] then [] else Message(parts[..|parts| - 1]) + parts[|parts| - 1].data
  }

  lemma {:induction false} GatheredLength(parts: seq<Part>)
    ensures |Gathered(parts)| == ResidueSum(parts)
  {
    if parts != [] {
      GatheredLength(parts[..|parts| - 1]);
      ResidueBelow(parts[|parts| - 1]);
    }
  }

  lemma {:induction false} GatheredIsMessage(parts: seq<Part>)
    requires forall i :: 0 <= i < |parts| ==> Len(parts[i]) < WORD32
    ensures Gathered(parts) == Message(parts)
  {
    if parts != [] {
      var p := parts[|parts| - 1];
      GatheredIsMessage(parts[..|parts| - 1]);
      assert p.data[..Residue(p)] == p.data;
    }
  }

  /** Where the bytes of a part stand in the message: behind all bytes of the parts before it. */
  lemma {:induction false} MessageAt(parts: seq<Part>, i: nat, j: nat)
    requires i < |parts| && j < Len(parts[i])
    ensures TrueSum(parts[..i]) + j < |Message(parts)|
    ensures Message(parts)[TrueSum(parts[..i]) + j] == parts[i].data[j]
  {
    var n := |parts| - 1;
    MessageLength(parts[..n]);
    MessageLength(parts);
    if i < n {
      assert parts[..n][..i] == parts[..i];
      MessageAt(parts[..n], i, j);
    }
  }

  /** ... and in what the copy takes, of which a part gives only its length modulo 2^32. */
  lemma {:induction false} GatheredAt(parts: seq<Part>, i: nat, j: nat)
    requires i < |parts| && j < Residue(parts[i])
    ensures ResidueSum(parts[..i]) + j < |Gathered(parts)|
    ensures Residue(parts[i]) <= Len(parts[i]) && Gathered(parts)[ResidueSum(parts[..i]) + j] == parts[i].data[j]
  {
    var n := |parts| - 1;
    GatheredLength(parts[..n]);
    GatheredLength(parts);
    ResidueBelow(parts[i]);
    ResidueBelow(parts[n]);
    if i < n {
      assert parts[..n][..i] == parts[..i];
      GatheredAt(parts[..n], i, j);
    }
  }

  /** Copies the parts of an accepted message that fits into the buffer. Nothing is written
      behind the total, and nothing outside the buffer. */
  method Gather(parts: seq<Part>, buff: array<byte>)
    requires ResidueSum(parts) <= buff.Length <= INT_MAX
    modifies buff
    ensures buff[..] == Gathered(parts) + old(buff[..])[ResidueSum(parts)..]
  {
    GatheredLength(parts);
    var pos := 0;
    var i := 0;
    while i < |parts|
      invariant 0 <= i <= |parts|
      invariant pos == ResidueSum(parts[..i]) == |Gathered(parts[..i])| <= ResidueSum(parts)
      invariant buff[..pos] == Gathered(parts[..i])
      invariant buff[pos..] == old(buff[..])[pos..]
    {
      assert parts[..i + 1][..i] == parts[..i];
      SumGrows(parts, i + 1);
      GatheredLength(parts[..i + 1]);
      ResidueBelow(parts[i]);
      var ilen := Signed32(Len(parts[i]));
      assert ilen == Residue(parts[i]);
      CopyIn(buff, pos, parts[i].data[..ilen]);
      pos := pos + ilen;
      i := i + 1;
    }
    assert parts[..i] == parts;
    assert buff[..] == buff[..pos] + buff[pos..];
  }

  method CopyIn(buff: array<byte>, pos: nat, data: seq<byte>)
    requires pos + |data| <= buff.Length
    modifies buff
    ensures buff[..pos] == old(buff[..pos])
    ensures buff[..pos + |data|] == old(buff[..pos]) + data
    ensures buff[pos + |data|..] == old(buff[pos + |data|..])
  {
    var j := 0;
    while j < |data|
      invariant 0 <= j <= |data|
      invariant forall k :: 0 <= k < pos ==> buff[k] == old(buff[k])
      invariant forall k :: pos <= k < pos + j ==> buff[k] == data[k - pos]
      invariant forall k :: pos + j <= k < buff.Length ==> buff[k] == old(buff[k])
    {
      buff[pos + j] := data[j];
      j := j + 1;
    }
  }

  /** The multi-part path of the send call: a message that fits is kept in the buffer. */
  method SendParts(parts: seq<Part>, boundary: nat, buff: array<byte>) returns (v: Verdict, short: bool)
    requires buff.Length <= INT_MAX
    modifies buff
    ensures v.Accepted? <==> Passes(parts, boundary)
    ensures v.Accepted? ==> v.total == ResidueSum(parts)
    ensures short <==> v.Accepted? && v.total <= buff.Length
    ensures short ==> buff[..v.total] == Gathered(parts)
    ensures !short ==> buff[..] == old(buff[..])
  {
    v := CheckParts(parts, boundary);
    short := v.Accepted? && v.total <= buff.Length;
    if short {
      GatheredLength(parts);
      Gather(parts, buff);
    }
  }

  // ---------------------------------------------------------------- the reply's copy

  lemma {:induction false} PartWithin(parts: seq<Part>, i: nat)
    requires i < |parts|
    ensures Len(parts[i]) <= TrueSum(parts)
  {
    if i < |parts| - 1 {
      PartWithin(parts[..|parts| - 1], i);
    }
  }

  /** The reply copies parts at their full length. A reply whose 32-bit total fits also fits
      at full length exactly when no part reaches 2^32. */
  lemma WholeFits(parts: seq<Part>, capacity: nat)
    requires ResidueSum(parts) <= capacity < WORD32
    ensures TrueSum(parts) <= capacity <==> forall i :: 0 <= i < |parts| ==> Len(parts[i]) < WORD32
  {
    SumBelow(parts);
    forall i | 0 <= i < |parts| ensures Len(parts[i]) <= TrueSum(parts) {
      PartWithin(parts, i);
    }
  }

  lemma {:induction false} MessageLength(parts: seq<Part>)
    ensures |Message(parts)| == TrueSum(parts)
  {
    if parts != [] {
      MessageLength(parts[..|parts| - 1]);
    }
  }

  lemma {:induction false} TrueSumGrows(parts: seq<Part>, k: nat)
    requires k <= |parts|
    ensures TrueSum(parts[..k]) <= TrueSum(parts)
    decreases |parts|
  {
    if k < |parts| {
      var init := parts[..|parts| - 1];
      assert init[..k] == parts[..k];
      TrueSumGrows(init, k);
    } else {
      assert parts[..k] == parts;
    }
  }

  /** The reply's copy, which takes parts at their full length once the 32-bit total has been
      found to fit. It stops here in front of the first part that would leave the buffer; there
      is one exactly when some part reaches 2^32. */
  method GatherReply(parts: seq<Part>, buff: array<byte>) returns (done: nat)
    requires ResidueSum(parts) <= buff.Length < WORD32
    modifies buff
    ensures done <= |parts|
    ensures done == |parts| <==> forall i :: 0 <= i < |parts| ==> Len(parts[i]) < WORD32
    ensures done < |parts| ==> TrueSum(parts[..done + 1]) > buff.Length
    ensures TrueSum(parts[..done]) <= buff.Length
    ensures buff[..] == Message(parts[..done]) + old(buff[..])[TrueSum(parts[..done])..]
  {
    var pos := 0;
    done := 0;
    while done < |parts| && pos + Len(parts[done]) <= buff.Length
      invariant 0 <= done <= |parts|
      invariant pos == TrueSum(parts[..done]) == |Message(parts[..done])| <= buff.Length
      invariant buff[..pos] == Message(parts[..done])
      invariant buff[pos..] == old(buff[..])[pos..]
      decreases |parts| - done
    {
      assert parts[..done + 1][..done] == parts[..done];
      MessageLength(parts[..done + 1]);
      CopyIn(buff, pos, parts[done].data);
      pos := pos + Len(parts[done]);
      done := done + 1;
    }
    assert buff[..] == buff[..pos] + buff[pos..];
    WholeFits(parts, buff.Length);
    if done < |parts| {
      assert parts[..done + 1][..done] == parts[..done];
      TrueSumGrows(parts, done + 1);
    } else {
      assert parts[..done] == parts;
    }
  }
}
