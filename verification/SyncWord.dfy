/**
 The owner word of a mutex: a 32-bit word holding the owner's identity, the
 WAITING bit (0x80000000), or one of a few reserved values.
 */
module SyncWord {
  import opened Base

  /** The word as the locking protocol sees it. */
  datatype Word = Word(owner: Option<Id>, waiting: bool)

  const FREE := Word(None, false)

  // The macros work on 32-bit words; masks are written out for the bit-vector solver.

  /** `SYNC_OWNER_BITS` */
  function OwnerBits(pid: bv32, tid: bv32): bv32 {
    ((pid << 16) | (tid + 1)) & 0x7fff_ffff
  }

  /** `SYNC_PINDEX` */
  function ProcessIndex(owner: bv32): bv32 {
    ((owner & 0x7fff_ffff) >> 16) & 0xfff
  }

  /** `SYNC_TID` */
  function ThreadIndex(owner: bv32): bv32 {
    (owner & 0xffff) - 1
  }

  /** `owner | QRV_SYNC_WAITING` */
  function MarkWaiting(b: bv32): bv32 {
    b | 0x8000_0000
  }

  /** `owner & QRV_SYNC_WAITING` */
  predicate IsWaiting(b: bv32) {
    b & 0x8000_0000 != 0
  }

  /** `owner & ~QRV_SYNC_WAITING` */
  function OwnerPart(b: bv32): bv32 {
    b & 0x7fff_ffff
  }

  /** Owner bits are never zero and never carry WAITING. A thread vector has at most
      0xfffe entries, so 0xfffd is the highest thread index. */
  lemma OwnerClean(pid: bv32, tid: bv32)
    requires tid <= 0xfffd
    ensures OwnerBits(pid, tid) != 0 && OwnerBits(pid, tid) & 0x8000_0000 == 0
  {
  }

  /** Owner bits give back the process index and the thread index. */
  lemma OwnerDecodes(pid: bv32, tid: bv32)
    requires tid <= 0xfffd
    ensures ProcessIndex(OwnerBits(pid, tid)) == pid & 0xfff
    ensures ThreadIndex(OwnerBits(pid, tid)) == tid
  {
  }

  /** ... and so does the word with WAITING set. */
  lemma WaitingOwnerDecodes(pid: bv32, tid: bv32)
    requires tid <= 0xfffd
    ensures ProcessIndex(OwnerBits(pid, tid) | 0x8000_0000) == pid & 0xfff
    ensures ThreadIndex(OwnerBits(pid, tid) | 0x8000_0000) == tid
  {
  }

  /** Two threads share owner bits only if they share process index and thread index. */
  lemma OwnerInjective(pid: bv32, tid: bv32, pid': bv32, tid': bv32)
    requires tid <= 0xfffd && tid' <= 0xfffd
    requires OwnerBits(pid, tid) == OwnerBits(pid', tid')
    ensures pid & 0xfff == pid' & 0xfff && tid == tid'
  {
    OwnerDecodes(pid, tid);
    OwnerDecodes(pid', tid');
  }

  /** An owned word with WAITING set equals a reserved value (destroyed, named semaphore,
      semaphore, condvar, spin lock, dead) exactly for these threads, and is never the
      initializer; so the kernel's tests for such words cannot be fooled by any other owner. */
  lemma OwnerAliasesReserved(pid: bv32, tid: bv32)
    requires tid <= 0xfffd
    ensures OwnerBits(pid, tid) | 0x8000_0000 == 0xffff_fffe <==> pid & 0x7fff == 0x7fff && tid == 0xfffd
    ensures OwnerBits(pid, tid) | 0x8000_0000 == 0xffff_fffd <==> pid & 0x7fff == 0x7fff && tid == 0xfffc
    ensures OwnerBits(pid, tid) | 0x8000_0000 == 0xffff_fffc <==> pid & 0x7fff == 0x7fff && tid == 0xfffb
    ensures OwnerBits(pid, tid) | 0x8000_0000 == 0xffff_fffb <==> pid & 0x7fff == 0x7fff && tid == 0xfffa
    ensures OwnerBits(pid, tid) | 0x8000_0000 == 0xffff_fffa <==> pid & 0x7fff == 0x7fff && tid == 0xfff9
    ensures OwnerBits(pid, tid) | 0x8000_0000 == 0xffff_ff00 <==> pid & 0x7fff == 0x7fff && tid == 0xfeff
    ensures OwnerBits(pid, tid) | 0x8000_0000 != 0xffff_ffff
  {
  }

  lemma WaitingBit(a: bv32)
    requires a & 0x8000_0000 == 0
    ensures (a | 0x8000_0000) & 0x7fff_ffff == a && a & 0x7fff_ffff == a
    ensures (a | 0x8000_0000) & 0x8000_0000 != 0
    ensures a | 0x8000_0000 != 0
    ensures a | 0x8000_0000 == 0x8000_0000 ==> a == 0
    ensures a != 0x8000_0000
    ensures (a | 0x8000_0000) & 0xffff == a & 0xffff
    ensures (a | 0x8000_0000) | 0x8000_0000 == a | 0x8000_0000
  {
  }

  /** The thread table: process id and index of every thread; indices are in range and no
      two threads share process index and thread index. */
  ghost predicate ValidNames(names: map<Id, (bv32, bv32)>) {
    && (forall t :: t in names ==> names[t].1 <= 0xfffd)
    && (forall t, u :: t in names && u in names && t != u ==>
          names[t].0 & 0xfff != names[u].0 & 0xfff || names[t].1 != names[u].1)
  }

  function Bits(owner: Option<Id>, names: map<Id, (bv32, bv32)>): bv32
    requires owner.Some? ==> owner.value in names
  {
    if owner.Some? then OwnerBits(names[owner.value].0, names[owner.value].1) else 0
  }

  function Encode(w: Word, names: map<Id, (bv32, bv32)>): bv32
    requires w.owner.Some? ==> w.owner.value in names
  {
    if w.waiting then Bits(w.owner, names) | 0x8000_0000 else Bits(w.owner, names)
  }

  lemma NameInRange(names: map<Id, (bv32, bv32)>, t: Id)
    requires ValidNames(names) && t in names
    ensures names[t].1 <= 0xfffd
  {
  }

  lemma BitsClean(a: Option<Id>, names: map<Id, (bv32, bv32)>)
    requires ValidNames(names) && (a.Some? ==> a.value in names)
    ensures Bits(a, names) & 0x8000_0000 == 0
    ensures Bits(a, names) == 0 <==> a == None
  {
    if a.Some? {
      NameInRange(names, a.value);
      OwnerClean(names[a.value].0, names[a.value].1);
    }
  }

  lemma BitsInjective(t: Id, u: Id, names: map<Id, (bv32, bv32)>)
    requires ValidNames(names) && t in names && u in names && t != u
    ensures OwnerBits(names[t].0, names[t].1) != OwnerBits(names[u].0, names[u].1)
  {
    NameInRange(names, t);
    NameInRange(names, u);
    if OwnerBits(names[t].0, names[t].1) == OwnerBits(names[u].0, names[u].1) {
      OwnerInjective(names[t].0, names[t].1, names[u].0, names[u].1);
      assert false;
    }
  }

  /** The tests the code makes on the 32-bit word are the tests the protocol makes on `Word`:
      free, free with waiters, and waiting. */
  lemma EncodeTests(w: Word, names: map<Id, (bv32, bv32)>)
    requires ValidNames(names) && (w.owner.Some? ==> w.owner.value in names)
    ensures Encode(w, names) == 0 <==> w == FREE
    ensures Encode(w, names) == 0x8000_0000 <==> w == Word(None, true)
    ensures Encode(w, names) & 0x8000_0000 != 0 <==> w.waiting
  {
    BitsClean(w.owner, names);
    WaitingBit(Bits(w.owner, names));
  }

  /** "If I own it": the kernel's comparison of the owner bits with the caller's. */
  lemma EncodeOwned(w: Word, names: map<Id, (bv32, bv32)>, t: Id)
    requires ValidNames(names) && t in names && (w.owner.Some? ==> w.owner.value in names)
    ensures Encode(w, names) & 0x7fff_ffff == OwnerBits(names[t].0, names[t].1) <==> w.owner == Some(t)
  {
    assert Encode(w, names) & 0x7fff_ffff == Bits(w.owner, names) by {
      BitsClean(w.owner, names);
      WaitingBit(Bits(w.owner, names));
    }
    if w.owner == None {
      BitsClean(Some(t), names);
    } else if w.owner != Some(t) {
      BitsInjective(w.owner.value, t, names);
    }
  }

  // ---------------------------------------------------------------- reading a word back

  predicate Named(w: Word, names: map<Id, (bv32, bv32)>) {
    w.owner.Some? ==> w.owner.value in names
  }

  /** Two different protocol words have different 32-bit words. */
  lemma EncodeInjective(w: Word, w': Word, names: map<Id, (bv32, bv32)>)
    requires ValidNames(names) && Named(w, names) && Named(w', names) && Encode(w, names) == Encode(w', names)
    ensures w == w'
  {
    EncodeTests(w, names);
    EncodeTests(w', names);
    hide Encode, ValidNames;
    if w.owner.Some? {
      EncodeOwned(w, names, w.owner.value);
      EncodeOwned(w', names, w.owner.value);
    }
  }

  ghost predicate Encodes(b: bv32, names: map<Id, (bv32, bv32)>) {
    exists w :: Named(w, names) && Encode(w, names) == b
  }

  /** The protocol word that a 32-bit word stands for. */
  ghost function Decode(b: bv32, names: map<Id, (bv32, bv32)>): (w: Word)
    requires Encodes(b, names)
    ensures Named(w, names) && Encode(w, names) == b
  {
    var w :| Named(w, names) && Encode(w, names) == b;
    w
  }

  /** What is written is what is read back. */
  lemma DecodeEncode(w: Word, names: map<Id, (bv32, bv32)>)
    requires ValidNames(names) && Named(w, names)
    ensures Encodes(Encode(w, names), names) && Decode(Encode(w, names), names) == w
  {
    EncodeInjective(w, Decode(Encode(w, names), names), names);
  }

  /** The tests the code makes on a word, read back. */
  lemma DecodeTests(b: bv32, names: map<Id, (bv32, bv32)>)
    requires ValidNames(names) && Encodes(b, names)
    ensures b == 0 <==> Decode(b, names) == FREE
    ensures b == 0x8000_0000 <==> Decode(b, names) == Word(None, true)
    ensures IsWaiting(b) <==> Decode(b, names).waiting
  {
    EncodeTests(Decode(b, names), names);
  }

  lemma DecodeOwned(b: bv32, names: map<Id, (bv32, bv32)>, t: Id)
    requires ValidNames(names) && Encodes(b, names) && t in names
    ensures OwnerPart(b) == OwnerBits(names[t].0, names[t].1) <==> Decode(b, names).owner == Some(t)
  {
    EncodeOwned(Decode(b, names), names, t);
  }

  lemma EncodeMark(w: Word, names: map<Id, (bv32, bv32)>)
    requires Named(w, names)
    ensures Encode(w, names) | 0x8000_0000 == Encode(Word(w.owner, true), names)
  {
    hide Bits;
    MarkTwice(Bits(w.owner, names));
  }

  lemma MarkTwice(a: bv32)
    ensures (a | 0x8000_0000) | 0x8000_0000 == a | 0x8000_0000
  {
  }

  /** Setting WAITING. */
  lemma DecodeMark(b: bv32, names: map<Id, (bv32, bv32)>)
    requires ValidNames(names) && Encodes(b, names)
    ensures Encodes(MarkWaiting(b), names) && Decode(MarkWaiting(b), names) == Decode(b, names).(waiting := true)
  {
    hide Encode, ValidNames;
    var w := Decode(b, names);
    EncodeMark(w, names);
    DecodeEncode(Word(w.owner, true), names);
  }

  /** Storing a free word, a free word with WAITING, and one's own identity. */
  lemma DecodeStores(names: map<Id, (bv32, bv32)>, t: Id)
    requires ValidNames(names) && t in names
    ensures Encodes(0, names) && Decode(0, names) == FREE
    ensures Encodes(0x8000_0000, names) && Decode(0x8000_0000, names) == Word(None, true)
    ensures Encodes(OwnerBits(names[t].0, names[t].1), names)
    ensures Decode(OwnerBits(names[t].0, names[t].1), names) == Word(Some(t), false)
  {
    DecodeEncode(FREE, names);
    DecodeEncode(Word(None, true), names);
    DecodeEncode(Word(Some(t), false), names);
  }

  lemma MarkOnly(b: bv32)
    ensures IsWaiting(MarkWaiting(b)) && OwnerPart(MarkWaiting(b)) == OwnerPart(b)
  {
  }

  /** The word names the thread with process id `pid` and index `tid`. */
  predicate Points(b: bv32, pid: bv32, tid: bv32) {
    ProcessIndex(b) == pid & 0xfff && ThreadIndex(b) == tid
  }

  lemma OwnerPoints(pid: bv32, tid: bv32, b: bv32)
    requires tid <= 0xfffd && (b == OwnerBits(pid, tid) || b == MarkWaiting(OwnerBits(pid, tid)))
    ensures Points(b, pid, tid)
  {
    OwnerDecodes(pid, tid);
    WaitingOwnerDecodes(pid, tid);
    hide OwnerBits, ProcessIndex, ThreadIndex;
  }

  lemma PointsOnce(names: map<Id, (bv32, bv32)>, b: bv32, t: Id, u: Id)
    requires ValidNames(names) && t in names && u in names && t != u && Points(b, names[u].0, names[u].1)
    ensures !Points(b, names[t].0, names[t].1)
  {
    hide ProcessIndex, ThreadIndex;
  }

  lemma EncodePoints(w: Word, names: map<Id, (bv32, bv32)>, u: Id)
    requires ValidNames(names) && u in names && w.owner == Some(u)
    ensures Points(Encode(w, names), names[u].0, names[u].1)
  {
    hide OwnerBits, Points, ValidNames;
    NameInRange(names, u);
    OwnerPoints(names[u].0, names[u].1, Encode(w, names));
  }

  /** The inheritance walk finds the holder by the two indices in the word: they are those of
      the owner and of no other thread, WAITING or not. */
  lemma DecodeHolder(b: bv32, names: map<Id, (bv32, bv32)>, t: Id)
    requires ValidNames(names) && Encodes(b, names) && t in names && Decode(b, names).owner.Some?
    ensures Points(b, names[t].0, names[t].1) <==> Decode(b, names).owner == Some(t)
  {
    hide Encode, Points, ValidNames;
    var u := Decode(b, names).owner.value;
    EncodePoints(Decode(b, names), names, u);
    if u != t {
      PointsOnce(names, b, t, u);
    }
  }
}
