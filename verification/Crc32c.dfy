/** CRC-32C (Castagnoli), table-driven, one byte at a time; what it computes and
    which corruptions it cannot miss. */
module Crc32c {
  /** The polynomial, reversed: the lowest bit is the highest power. */
  const POLY: bv32 := 0x82F6_3B78

  // ---------------------------------------------------------------- one bit at a time

  /** `a ^ b`, named so that proofs about whole registers need not look at bits. */
  function Xor(a: bv32, b: bv32): bv32 {
    a ^ b
  }

  predicate Odd(crc: bv32) {
    crc & 1 == 1
  }

  function Halved(crc: bv32): bv32 {
    crc >> 1
  }

  /** Shift one bit out of a reflected register and feed it back. */
  function Step(crc: bv32): bv32 {
    if Odd(crc) then Xor(Halved(crc), POLY) else Halved(crc)
  }

  function Steps(crc: bv32, n: nat): bv32
    decreases n
  {
    if n == 0 then crc else Steps(Step(crc), n - 1)
  }

  function Byte8(crc: bv32): bv32 {
    Step(Step(Step(Step(Step(Step(Step(Step(crc))))))))
  }

  /** The table entry for a byte: eight steps on it alone. */
  function Entry(i: nat): bv32
    requires i < 256
  {
    Byte8(i as bv32)
  }

  method BuildTable() returns (table: array<bv32>)
    ensures fresh(table) && table.Length == 256
    ensures forall i | 0 <= i < 256 :: table[i] == Entry(i)
  {
    hide Entry;
    table := new bv32[256];
    var i := 0;
    while i < 256
      invariant 0 <= i <= 256
      invariant forall j | 0 <= j < i :: table[j] == Entry(j)
    {
      var crc := EightBits(i);
      table[i] := crc;
      i := i + 1;
    }
  }

  /** The inner loop: shift the byte out bit by bit. */
  method EightBits(i: nat) returns (crc: bv32)
    requires i < 256
    ensures crc == Entry(i)
  {
    hide Byte8, Step, Entry;
    crc := i as bv32;
    var bit := 0;
    EntryIs(i);
    while bit < 8
      invariant 0 <= bit <= 8 && Steps(crc, 8 - bit) == Entry(i)
    {
      StepIs(crc);
      crc := if crc & 1 == 1 then (crc >> 1) ^ POLY else crc >> 1;
      bit := bit + 1;
    }
  }

  lemma EntryIs(i: nat)
    requires i < 256
    ensures Steps(i as bv32, 8) == Entry(i)
  {
    Unrolled(i as bv32);
  }

  lemma StepIs(crc: bv32)
    ensures Step(crc) == if crc & 1 == 1 then (crc >> 1) ^ POLY else crc >> 1
  {
  }

  lemma Unrolled(crc: bv32)
    ensures Steps(crc, 8) == Byte8(crc)
  {
    hide Step;
    var two := Step(Step(crc));
    var four := Step(Step(two));
    var six := Step(Step(four));
    assert Steps(crc, 8) == Steps(two, 6) && Steps(two, 6) == Steps(four, 4);
    assert Steps(four, 4) == Steps(six, 2) && Steps(six, 2) == Step(Step(six));
  }

  // ---------------------------------------------------------------- the register is linear

  lemma ShiftIsLinear(a: bv32, b: bv32)
    ensures Halved(Xor(a, b)) == Xor(Halved(a), Halved(b))
    ensures Odd(Xor(a, b)) <==> Odd(a) != Odd(b)
  {
  }

  lemma XorCancels(a: bv32, b: bv32, p: bv32)
    ensures Xor(Xor(a, p), Xor(b, p)) == Xor(a, b)
  {
    calc {
      Xor(Xor(a, p), Xor(b, p));
      Xor(a ^ p, b ^ p);
      (a ^ p) ^ (b ^ p);
      a ^ b;
    }
  }

  lemma XorMoves(a: bv32, b: bv32, p: bv32)
    ensures Xor(Xor(a, p), b) == Xor(Xor(a, b), p)
  {
    calc {
      Xor(Xor(a, p), b);
      (a ^ p) ^ b;
      (a ^ b) ^ p;
      Xor(a ^ b, p);
    }
  }

  lemma XorNests(a: bv32, b: bv32, p: bv32)
    ensures Xor(a, Xor(b, p)) == Xor(Xor(a, b), p)
  {
    calc {
      Xor(a, Xor(b, p));
      a ^ (b ^ p);
      (a ^ b) ^ p;
      Xor(a ^ b, p);
    }
  }

  lemma StepIsLinear(a: bv32, b: bv32)
    ensures Step(Xor(a, b)) == Xor(Step(a), Step(b))
  {
    hide Xor, Odd, Halved;
    ShiftIsLinear(a, b);
    XorCancels(Halved(a), Halved(b), POLY);
    XorMoves(Halved(a), Halved(b), POLY);
    XorNests(Halved(a), Halved(b), POLY);
  }

  lemma ByteIsLinear(a: bv32, b: bv32)
    ensures Byte8(Xor(a, b)) == Xor(Byte8(a), Byte8(b))
  {
    hide Step, Xor;
    var a1, b1 := Step(a), Step(b);
    StepIsLinear(a, b);
    var a2, b2 := Step(a1), Step(b1);
    StepIsLinear(a1, b1);
    var a3, b3 := Step(a2), Step(b2);
    StepIsLinear(a2, b2);
    var a4, b4 := Step(a3), Step(b3);
    StepIsLinear(a3, b3);
    var a5, b5 := Step(a4), Step(b4);
    StepIsLinear(a4, b4);
    var a6, b6 := Step(a5), Step(b5);
    StepIsLinear(a5, b5);
    var a7, b7 := Step(a6), Step(b6);
    StepIsLinear(a6, b6);
    StepIsLinear(a7, b7);
  }

  function Lowered(x: bv32): bv32 {
    x >> 8
  }

  /** Eight zeros shift out without feedback. */
  lemma ZerosShiftOut(h: bv32)
    requires h & 0xFF == 0
    ensures Byte8(h) == Lowered(h)
  {
    assert Step(h) == h >> 1;
    assert Step(h >> 1) == h >> 2;
    assert Step(h >> 2) == h >> 3;
    assert Step(h >> 3) == h >> 4;
    assert Step(h >> 4) == h >> 5;
    assert Step(h >> 5) == h >> 6;
    assert Step(h >> 6) == h >> 7;
    assert Step(h >> 7) == h >> 8;
    hide Step;
  }

  /** One lookup stands for eight steps: the high bytes move down untouched. */
  lemma LookupIsEightSteps(crc: bv32, b: bv8)
    ensures Byte8(Xor(crc, b as bv32)) == Xor(crc >> 8, Byte8((LowByte(crc) ^ b) as bv32))
  {
    var high, low := crc & 0xFFFF_FF00, (LowByte(crc) ^ b) as bv32;
    SplitLow(crc, b);
    ZerosShiftOut(high);
    hide Byte8, Xor;
    ByteIsLinear(high, low);
  }

  /** `crc as u8` */
  function LowByte(crc: bv32): bv8 {
    (crc & 0xFF) as bv8
  }

  lemma SplitLow(crc: bv32, b: bv8)
    ensures var high, low := crc & 0xFFFF_FF00, (LowByte(crc) ^ b) as bv32;
            Xor(crc, b as bv32) == Xor(high, low) && high & 0xFF == 0 && high >> 8 == crc >> 8
  {
  }

  lemma WidenedValue(x: bv8)
    ensures (x as bv32) as int == x as int
  {
  }

  lemma ThereAndBack(b: bv32)
    ensures (b as int) as bv32 == b
  {
  }

  lemma Index(x: bv8)
    ensures 0 <= x as int < 256 && (x as int) as bv32 == x as bv32
  {
    WidenedValue(x);
    ThereAndBack(x as bv32);
  }

  // ---------------------------------------------------------------- a checksum over bytes

  function FeedByte(crc: bv32, b: bv8): bv32 {
    Byte8(Xor(crc, b as bv32))
  }

  function Feed(crc: bv32, bytes: seq<bv8>): bv32 {
    if bytes == [] then crc else FeedByte(Feed(crc, bytes[..|bytes| - 1]), bytes[|bytes| - 1])
  }

  /** The register is complemented before and after. */
  function Updated(crc: bv32, bytes: seq<bv8>): bv32 {
    Inverted(Feed(Inverted(crc), bytes))
  }

  function Inverted(x: bv32): bv32 {
    !x
  }

  predicate IsTable(table: array<bv32>)
    reads table
  {
    table.Length == 256 && forall i | 0 <= i < 256 :: table[i] == Entry(i)
  }

  /** Continue a checksum over another slice, one lookup a byte. */
  method Update(table: array<bv32>, crc: bv32, bytes: seq<bv8>) returns (r: bv32)
    requires IsTable(table)
    ensures r == Updated(crc, bytes)
  {
    var reg := !crc;
    ghost var start := Inverted(crc);
    for i := 0 to |bytes|
      invariant reg == Feed(start, bytes[..i])
    {
      hide IsTable, FeedByte, Feed;
      FeedOn(start, bytes, i);
      reg := LookUp(table, reg, bytes[i]);
    }
    assert bytes[..|bytes|] == bytes;
    r := !reg;
  }

  method LookUp(table: array<bv32>, crc: bv32, b: bv8) returns (next: bv32)
    requires IsTable(table)
    ensures next == FeedByte(crc, b)
  {
    hide FeedByte, Entry, TableIndex, Folded;
    FeedLooksUp(crc, b);
    next := Folded(crc, table[TableIndex(crc, b)]);
  }

  /** `(crc as u8) ^ b`, as an index */
  function TableIndex(crc: bv32, b: bv8): (i: nat)
    ensures i < 256
  {
    EntryOf(LowByte(crc) ^ b);
    (LowByte(crc) ^ b) as int
  }

  function Folded(crc: bv32, entry: bv32): bv32 {
    (crc >> 8) ^ entry
  }

  lemma FeedLooksUp(crc: bv32, b: bv8)
    ensures FeedByte(crc, b) == Folded(crc, Entry(TableIndex(crc, b)))
  {
    EntryOf(LowByte(crc) ^ b);
    LookupIsEightSteps(crc, b);
    hide Byte8, Entry, LowByte;
  }

  lemma EntryOf(x: bv8)
    ensures 0 <= x as int < 256 && Entry(x as int) == Byte8(x as bv32)
  {
    hide Byte8;
    Index(x);
  }

  method Checksum(table: array<bv32>, bytes: seq<bv8>) returns (r: bv32)
    requires IsTable(table)
    ensures r == Updated(0, bytes)
  {
    r := Update(table, 0, bytes);
  }

  lemma FeedOn(crc: bv32, bytes: seq<bv8>, i: nat)
    requires i < |bytes|
    ensures Feed(crc, bytes[..i + 1]) == FeedByte(Feed(crc, bytes[..i]), bytes[i])
  {
    hide FeedByte;
    assert bytes[..i + 1][..i] == bytes[..i];
  }

  lemma {:induction false} FeedConcat(crc: bv32, a: seq<bv8>, b: seq<bv8>)
    ensures Feed(crc, a + b) == Feed(Feed(crc, a), b)
  {
    hide FeedByte;
    if b == [] {
      assert a + b == a;
    } else {
      FeedConcat(crc, a, b[..|b| - 1]);
      assert (a + b)[..|a + b| - 1] == a + b[..|b| - 1];
    }
  }

  lemma InvertedTwice(x: bv32)
    ensures Inverted(Inverted(x)) == x
  {
  }

  /** Continuing a checksum over a second slice is checksumming the whole. */
  lemma UpdateContinues(a: seq<bv8>, b: seq<bv8>)
    ensures Updated(Updated(0, a), b) == Updated(0, a + b)
  {
    hide Feed, Inverted;
    FeedConcat(Inverted(0), a, b);
    InvertedTwice(Feed(Inverted(0), a));
  }

  // ---------------------------------------------------------------- bit-at-a-time division

  /** The bits of a byte, the lowest first. */
  function Bits(b: bv8): (bits: seq<bool>)
    ensures |bits| == 8
  {
    [b & 1 != 0, b & 2 != 0, b & 4 != 0, b & 8 != 0, b & 16 != 0, b & 32 != 0, b & 64 != 0, b & 128 != 0]
  }

  function AllBits(bytes: seq<bv8>): seq<bool> {
    if bytes == [] then [] else AllBits(bytes[..|bytes| - 1]) + Bits(bytes[|bytes| - 1])
  }

  /** The generator's low 32 coefficients, highest power first. */
  const GENERATOR: bv32 := 0x1EDC_6F41

  predicate Top(r: bv32) {
    r & 0x8000_0000 != 0
  }

  /** One step of long division by the generator, highest power first. */
  function Divide(r: bv32, bit: bool): bv32 {
    if Top(r) != bit then Xor(r << 1, GENERATOR) else r << 1
  }

  function DivideAll(r: bv32, bits: seq<bool>): bv32 {
    if bits == [] then r else Divide(DivideAll(r, bits[..|bits| - 1]), bits[|bits| - 1])
  }

  /** The same 32 bits, last first. */
  function Reversed(x: bv32): bv32 {
    ((x & 0x1) << 31) | ((x & 0x2) << 29) | ((x & 0x4) << 27) | ((x & 0x8) << 25)
    | ((x & 0x10) << 23) | ((x & 0x20) << 21) | ((x & 0x40) << 19) | ((x & 0x80) << 17)
    | ((x & 0x100) << 15) | ((x & 0x200) << 13) | ((x & 0x400) << 11) | ((x & 0x800) << 9)
    | ((x & 0x1000) << 7) | ((x & 0x2000) << 5) | ((x & 0x4000) << 3) | ((x & 0x8000) << 1)
    | ((x & 0x10000) >> 1) | ((x & 0x20000) >> 3) | ((x & 0x40000) >> 5) | ((x & 0x80000) >> 7)
    | ((x & 0x100000) >> 9) | ((x & 0x200000) >> 11) | ((x & 0x400000) >> 13) | ((x & 0x800000) >> 15)
    | ((x & 0x1000000) >> 17) | ((x & 0x2000000) >> 19) | ((x & 0x4000000) >> 21) | ((x & 0x8000000) >> 23)
    | ((x & 0x10000000) >> 25) | ((x & 0x20000000) >> 27) | ((x & 0x40000000) >> 29) | ((x & 0x80000000) >> 31)
  }

  lemma ReversedTwice(x: bv32)
    ensures Reversed(Reversed(x)) == x
  {
  }

  lemma ShiftReversed(x: bv32)
    ensures Reversed(x >> 1) == Reversed(x) << 1
  {
  }

  lemma XorReversed(x: bv32)
    ensures Reversed(x ^ 0x82F6_3B78) == Reversed(x) ^ 0x1EDC_6F41
  {
  }

  lemma TopReversed(x: bv32)
    ensures Reversed(x) & 0x8000_0000 != 0 <==> x & 1 == 1
  {
  }

  lemma ReversedParts(x: bv32)
    ensures Reversed(Halved(x)) == Reversed(x) << 1
    ensures Reversed(Xor(x, POLY)) == Xor(Reversed(x), GENERATOR)
    ensures Top(Reversed(x)) <==> Odd(x)
  {
    hide Reversed;
    ShiftReversed(x);
    XorReversed(x);
    TopReversed(x);
  }

  /** Feed one message bit into the reflected register. */
  function FeedBit(crc: bv32, bit: bool): bv32 {
    Step(if bit then Xor(crc, 1) else crc)
  }

  lemma BitIntoLowest(crc: bv32)
    ensures Odd(Xor(crc, 1)) == !Odd(crc) && Halved(Xor(crc, 1)) == Halved(crc)
  {
  }

  /** The reflected register is the long-division register read backwards. */
  lemma FeedBitDivides(crc: bv32, bit: bool)
    ensures Reversed(FeedBit(crc, bit)) == Divide(Reversed(crc), bit)
  {
    hide Reversed, Xor, Halved, Odd, Top;
    BitIntoLowest(crc);
    ReversedParts(crc);
    ReversedParts(Halved(crc));
  }

  lemma SplitLowest(v: bv32)
    ensures var bit, rest := if Odd(v) then 1 else 0, v & 0xFFFF_FFFE;
            Xor(bit, rest) == v && !Odd(rest) && Halved(rest) == Halved(v)
  {
  }

  lemma XorZero(x: bv32)
    ensures Xor(x, 0) == x && Xor(x, x) == 0
  {
  }

  /** A step on a register with a message in it feeds the message's lowest bit
      and leaves the others where the next step will find them. */
  lemma OneBit(crc: bv32, v: bv32)
    ensures Step(Xor(crc, v)) == Xor(FeedBit(crc, Odd(v)), Halved(v))
  {
    var bit: bv32, rest := if Odd(v) then 1 else 0, v & 0xFFFF_FFFE;
    SplitLowest(v);
    XorZero(crc);
    hide Xor, Halved, Odd;
    XorNests(crc, rest, bit);
    XorMoves(crc, rest, bit);
    XorSwaps(bit, rest);
    StepIsLinear(Xor(crc, bit), rest);
  }

  lemma XorSwaps(a: bv32, b: bv32)
    ensures Xor(a, b) == Xor(b, a)
  {
  }

  /** The bits of a byte in a register, as steps shift them down. */
  lemma BitsShiftDown(b: bv8)
    ensures
      var v := b as bv32;
      && Odd(v) == Bits(b)[0] && Odd(v >> 1) == Bits(b)[1] && Odd(v >> 2) == Bits(b)[2] && Odd(v >> 3) == Bits(b)[3]
      && Odd(v >> 4) == Bits(b)[4] && Odd(v >> 5) == Bits(b)[5] && Odd(v >> 6) == Bits(b)[6]
      && Odd(v >> 7) == Bits(b)[7]
      && v >> 8 == 0
  {
  }

  lemma Halvings(v: bv32)
    ensures Halved(v) == v >> 1 && Halved(v >> 1) == v >> 2 && Halved(v >> 2) == v >> 3 && Halved(v >> 3) == v >> 4
    ensures Halved(v >> 4) == v >> 5 && Halved(v >> 5) == v >> 6 && Halved(v >> 6) == v >> 7 && Halved(v >> 7) == v >> 8
  {
  }

  function FeedBits(crc: bv32, bits: seq<bool>): bv32 {
    if bits == [] then crc else FeedBit(FeedBits(crc, bits[..|bits| - 1]), bits[|bits| - 1])
  }

  lemma FeedBitsOn(crc: bv32, bits: seq<bool>, k: nat)
    requires k < |bits|
    ensures FeedBits(crc, bits[..k + 1]) == FeedBit(FeedBits(crc, bits[..k]), bits[k])
  {
    hide FeedBit;
    assert bits[..k + 1][..k] == bits[..k];
  }

  /** A byte in one lookup is its bits in eight steps. */
  lemma ByteIsBits(crc: bv32, b: bv8)
    ensures FeedByte(crc, b) == FeedBits(crc, Bits(b))
  {
    var v, bits := b as bv32, Bits(b);
    BitsShiftDown(b);
    Halvings(v);
    hide Xor, Halved, Odd, Step, FeedBit, FeedBits, Bits;
    assert FeedBits(crc, bits[..0]) == crc by { NoBits(crc, bits); }
    FeedBitsOn(crc, bits, 0); FeedBitsOn(crc, bits, 1); FeedBitsOn(crc, bits, 2); FeedBitsOn(crc, bits, 3);
    FeedBitsOn(crc, bits, 4); FeedBitsOn(crc, bits, 5); FeedBitsOn(crc, bits, 6); FeedBitsOn(crc, bits, 7);
    OneBit(crc, v);
    OneBit(FeedBits(crc, bits[..1]), v >> 1);
    OneBit(FeedBits(crc, bits[..2]), v >> 2);
    OneBit(FeedBits(crc, bits[..3]), v >> 3);
    OneBit(FeedBits(crc, bits[..4]), v >> 4);
    OneBit(FeedBits(crc, bits[..5]), v >> 5);
    OneBit(FeedBits(crc, bits[..6]), v >> 6);
    OneBit(FeedBits(crc, bits[..7]), v >> 7);
    XorZero(FeedBits(crc, bits[..8]));
    assert bits[..8] == bits;
  }

  lemma NoBits(crc: bv32, bits: seq<bool>)
    ensures FeedBits(crc, bits[..0]) == crc
  {
  }

  lemma {:induction false} BitsDivide(crc: bv32, before: seq<bool>, bits: seq<bool>)
    ensures DivideAll(Reversed(crc), before) == Reversed(FeedBits(crc, before)) ==>
              DivideAll(Reversed(crc), before + bits) == Reversed(FeedBits(FeedBits(crc, before), bits))
  {
    hide Reversed, Divide, FeedBit;
    if bits == [] {
      assert before + bits == before;
    } else {
      var rest := bits[..|bits| - 1];
      BitsDivide(crc, before, rest);
      assert (before + bits)[..|before + bits| - 1] == before + rest;
      FeedBitDivides(FeedBits(FeedBits(crc, before), rest), bits[|bits| - 1]);
    }
  }

  lemma {:induction false} FeedIsDivision(crc: bv32, bytes: seq<bv8>)
    ensures Feed(crc, bytes) == FeedBits(crc, AllBits(bytes))
    ensures Reversed(Feed(crc, bytes)) == DivideAll(Reversed(crc), AllBits(bytes))
  {
    hide Reversed, Divide, FeedBit, FeedByte, Bits, DivideAll, FeedBits;
    if bytes == [] {
      Nothing(crc);
    } else {
      var rest, b := bytes[..|bytes| - 1], bytes[|bytes| - 1];
      FeedIsDivision(crc, rest);
      ByteIsBits(Feed(crc, rest), b);
      BitsDivide(crc, AllBits(rest), Bits(b));
      FeedBitsConcat(crc, AllBits(rest), Bits(b));
    }
  }

  lemma Nothing(crc: bv32)
    ensures FeedBits(crc, []) == crc && DivideAll(Reversed(crc), []) == Reversed(crc)
  {
  }

  lemma {:induction false} FeedBitsConcat(crc: bv32, a: seq<bool>, b: seq<bool>)
    ensures FeedBits(crc, a + b) == FeedBits(FeedBits(crc, a), b)
  {
    hide FeedBit;
    if b == [] {
      assert a + b == a;
    } else {
      FeedBitsConcat(crc, a, b[..|b| - 1]);
      assert (a + b)[..|a + b| - 1] == a + b[..|b| - 1];
    }
  }

  /** The checksum is bit-at-a-time division by the Castagnoli generator, the
      register starting from the complement of the value continued from and
      complemented at the end, bits taken lowest first and the remainder read
      backwards: section 12.1 of RFC 3720. */
  lemma ChecksumIsDivision(crc: bv32, bytes: seq<bv8>)
    ensures Updated(crc, bytes) == Inverted(Reversed(DivideAll(Reversed(Inverted(crc)), AllBits(bytes))))
  {
    hide Reversed, DivideAll, AllBits, Feed, Inverted;
    FeedIsDivision(Inverted(crc), bytes);
    ReversedTwice(Feed(Inverted(crc), bytes));
  }

  // ---------------------------------------------------------------- what cannot be missed

  /** Before its last step the register can be told from what it became. */
  function Unstep(next: bv32): bv32 {
    if Top(next) then WithOne(Doubled(Xor(next, POLY))) else Doubled(next)
  }

  function Doubled(x: bv32): bv32 {
    x << 1
  }

  function WithOne(x: bv32): bv32 {
    x | 1
  }

  lemma Restores(crc: bv32)
    ensures Odd(crc) ==> WithOne(Doubled(Halved(crc))) == crc
    ensures !Odd(crc) ==> Doubled(Halved(crc)) == crc
  {
  }

  lemma XorUndone(x: bv32, p: bv32)
    ensures Xor(Xor(x, p), p) == x
  {
    calc {
      Xor(Xor(x, p), p);
      (x ^ p) ^ p;
      x;
    }
  }

  /** The polynomial's top bit says whether there was feedback. */
  lemma FeedbackShows(crc: bv32)
    ensures Top(Xor(Halved(crc), POLY)) && !Top(Halved(crc))
  {
  }

  lemma StepIsInvertible(crc: bv32)
    ensures Unstep(Step(crc)) == crc
  {
    hide Xor, Top, Odd, Halved, Doubled, WithOne;
    Restores(crc);
    XorUndone(Halved(crc), POLY);
    FeedbackShows(crc);
  }

  lemma ByteIsInjective(a: bv32, b: bv32)
    requires Byte8(a) == Byte8(b)
    ensures a == b
  {
    hide Step, Unstep;
    StepIsInvertible(a); StepIsInvertible(b);
    var a1, b1 := Step(a), Step(b);
    StepIsInvertible(a1); StepIsInvertible(b1);
    var a2, b2 := Step(a1), Step(b1);
    StepIsInvertible(a2); StepIsInvertible(b2);
    var a3, b3 := Step(a2), Step(b2);
    StepIsInvertible(a3); StepIsInvertible(b3);
    var a4, b4 := Step(a3), Step(b3);
    StepIsInvertible(a4); StepIsInvertible(b4);
    var a5, b5 := Step(a4), Step(b4);
    StepIsInvertible(a5); StepIsInvertible(b5);
    var a6, b6 := Step(a5), Step(b5);
    StepIsInvertible(a6); StepIsInvertible(b6);
    var a7, b7 := Step(a6), Step(b6);
    StepIsInvertible(a7); StepIsInvertible(b7);
  }

  predicate HighClear(x: bv32) {
    x & 0xFF00_0000 == 0
  }

  predicate Clear(x: bv32, bytes: nat)
    requires bytes <= 4
  {
    match bytes
    case 0 => x == 0
    case 1 => x & 0xFFFF_FF00 == 0
    case 2 => x & 0xFFFF_0000 == 0
    case 3 => HighClear(x)
    case 4 => true
  }

  function Raised(x: bv32): bv32 {
    x << 8
  }

  lemma RaisedIsClear(e: bv32)
    requires HighClear(e)
    ensures Raised(e) & 0xFF == 0 && Lowered(Raised(e)) == e
  {
  }

  lemma RaisedShiftsOut(e: bv32)
    requires HighClear(e)
    ensures Byte8(Raised(e)) == e
  {
    hide Raised, Byte8, Lowered, HighClear;
    RaisedIsClear(e);
    ZerosShiftOut(Raised(e));
  }

  /** How far apart two registers must have been to end `Differing(x, y)` apart. */
  function Differing(x: seq<bv8>, y: seq<bv8>): bv32
    requires |x| == |y|
  {
    if x == [] then 0
    else Xor(Raised(Differing(x[1..], y[1..])), Xor(x[0] as bv32, y[0] as bv32))
  }

  lemma ByteDifference(a: bv8, b: bv8)
    ensures Xor(a as bv32, b as bv32) & 0xFFFF_FF00 == 0
    ensures Xor(a as bv32, b as bv32) == 0 ==> a == b
  {
  }

  lemma RawGrowth(e: bv32, d: bv32)
    requires d & 0xFFFF_FF00 == 0
    ensures e == 0 ==> ((e << 8) ^ d) & 0xFFFF_FF00 == 0
    ensures e & 0xFFFF_FF00 == 0 ==> ((e << 8) ^ d) & 0xFFFF_0000 == 0
    ensures e & 0xFFFF_0000 == 0 ==> ((e << 8) ^ d) & 0xFF00_0000 == 0
  {
  }

  lemma RawZero(e: bv32, d: bv32)
    requires d & 0xFFFF_FF00 == 0 && e & 0xFF00_0000 == 0 && (e << 8) ^ d == 0
    ensures e == 0 && d == 0
  {
  }

  lemma RawNesting(e: bv32)
    ensures e == 0 ==> e & 0xFFFF_FF00 == 0
    ensures e & 0xFFFF_FF00 == 0 ==> e & 0xFFFF_0000 == 0
    ensures e & 0xFFFF_0000 == 0 ==> e & 0xFF00_0000 == 0
  {
  }

  lemma ClearGrows(e: bv32, a: bv8, b: bv8, n: nat)
    requires n <= 3 && Clear(e, n)
    ensures HighClear(e)
    ensures Clear(Xor(Raised(e), Xor(a as bv32, b as bv32)), n + 1)
    ensures Xor(Raised(e), Xor(a as bv32, b as bv32)) == 0 ==> e == 0 && a == b
  {
    var d := Xor(a as bv32, b as bv32);
    ByteDifference(a, b);
    RawNesting(e);
    RawGrowth(e, d);
    RaisedXor(e, d);
    if (e << 8) ^ d == 0 { RawZero(e, d); }
    hide Xor, Raised;
  }

  lemma RaisedXor(e: bv32, d: bv32)
    ensures Xor(Raised(e), d) == (e << 8) ^ d
  {
  }

  /** Registers that end `e` apart after a byte each started `e`, raised by a
      byte, and their bytes' difference apart. */
  lemma OneByteBack(c: bv32, c': bv32, a: bv8, b: bv8, e: bv32)
    requires FeedByte(c, a) == Xor(FeedByte(c', b), e) && HighClear(e)
    ensures Xor(c, c') == Xor(Raised(e), Xor(a as bv32, b as bv32))
  {
    hide Byte8, Xor, Raised, HighClear;
    var u, v := Xor(c, a as bv32), Xor(c', b as bv32);
    RaisedShiftsOut(e);
    ByteIsLinear(v, Raised(e));
    ByteIsInjective(u, Xor(v, Raised(e)));
    Rearrange(c, c', a as bv32, b as bv32, Raised(e));
  }

  lemma Rearrange(c: bv32, c': bv32, a: bv32, b: bv32, e: bv32)
    requires Xor(c, a) == Xor(Xor(c', b), e)
    ensures Xor(c, c') == Xor(e, Xor(a, b))
  {
    calc {
      Xor(c, c');
      { XorUndone(c, a); }
      Xor(Xor(Xor(c, a), a), c');
      Xor(Xor(Xor(Xor(c', b), e), a), c');
      { Regroup(c', b, e, a); }
      Xor(e, Xor(a, b));
    }
  }

  lemma Regroup(c: bv32, b: bv32, e: bv32, a: bv32)
    ensures Xor(Xor(Xor(Xor(c, b), e), a), c) == Xor(e, Xor(a, b))
  {
    hide Xor;
    XorMoves(Xor(Xor(c, b), e), c, a);
    XorMoves(Xor(c, b), c, e);
    XorSwaps(c, b);
    XorUndone(b, c);
    XorSwaps(b, e);
    XorNests(e, b, a);
    XorSwaps(a, b);
  }

  lemma FeedFirst(crc: bv32, x: seq<bv8>)
    requires x != []
    ensures Feed(crc, x) == Feed(FeedByte(crc, x[0]), x[1..])
  {
    hide FeedByte;
    assert x == x[..1] + x[1..] && x[..1][..0] == [];
    FeedConcat(crc, x[..1], x[1..]);
    assert Feed(crc, x[..1]) == FeedByte(crc, x[0]);
  }

  lemma NothingDiffers(c: bv32)
    ensures Differing([], []) == 0 && Clear(0, 0) && Feed(c, []) == c
  {
  }

  lemma FirstDiffers(x: seq<bv8>, y: seq<bv8>)
    requires |x| == |y| && x != []
    ensures Differing(x, y) == Xor(Raised(Differing(x[1..], y[1..])), Xor(x[0] as bv32, y[0] as bv32))
    ensures x[0] == y[0] && x[1..] == y[1..] ==> x == y
  {
    hide Xor, Raised;
    assert x == [x[0]] + x[1..] && y == [y[0]] + y[1..];
  }

  /** A difference of so many bytes reaches no further, and is nothing only for equals. */
  lemma {:induction false} DifferenceReaches(x: seq<bv8>, y: seq<bv8>)
    requires |x| == |y| <= 4
    ensures Clear(Differing(x, y), |x|) && (Differing(x, y) == 0 ==> x == y)
    decreases |x|
  {
    hide Xor, Raised, Differing, Clear, HighClear;
    if x == [] {
      NothingDiffers(0);
    } else {
      DifferenceReaches(x[1..], y[1..]);
      FirstDiffers(x, y);
      ClearGrows(Differing(x[1..], y[1..]), x[0], y[0], |x| - 1);
    }
  }

  lemma {:induction false} FourBytesBack(c: bv32, c': bv32, x: seq<bv8>, y: seq<bv8>)
    requires |x| == |y| <= 4 && Feed(c, x) == Feed(c', y)
    ensures Xor(c, c') == Differing(x, y)
    decreases |x|
  {
    hide Xor, FeedByte, Raised, Differing, Clear, HighClear, Feed;
    if x == [] {
      NothingDiffers(c);
      NothingDiffers(c');
      XorZero(c);
    } else {
      FeedFirst(c, x);
      FeedFirst(c', y);
      var d, d', e := FeedByte(c, x[0]), FeedByte(c', y[0]), Differing(x[1..], y[1..]);
      FourBytesBack(d, d', x[1..], y[1..]);
      DifferenceReaches(x[1..], y[1..]);
      ClearGrows(e, x[0], y[0], |x| - 1);
      Apart(d, d', e);
      OneByteBack(c, c', x[0], y[0], e);
      FirstDiffers(x, y);
    }
  }

  lemma Apart(d: bv32, d': bv32, e: bv32)
    requires Xor(d, d') == e
    ensures d == Xor(d', e)
  {
    XorUndone(d, d');
    hide Xor;
    XorSwaps(d', Xor(d, d'));
  }

  lemma {:induction false} FeedIsInjective(c: bv32, c': bv32, bytes: seq<bv8>)
    requires Feed(c, bytes) == Feed(c', bytes)
    ensures c == c'
  {
    if bytes != [] {
      var rest, b := bytes[..|bytes| - 1], bytes[|bytes| - 1];
      var r, r' := Feed(c, rest), Feed(c', rest);
      hide Byte8, Xor;
      ByteIsInjective(Xor(r, b as bv32), Xor(r', b as bv32));
      XorUndone(r, b as bv32);
      XorUndone(r', b as bv32);
      FeedIsInjective(c, c', rest);
    }
  }

  /** Any change confined to four consecutive bytes of a message of any length
      changes its checksum. */
  lemma BurstsAreSeen(crc: bv32, before: seq<bv8>, x: seq<bv8>, y: seq<bv8>, after: seq<bv8>)
    requires |x| == |y| <= 4 && x != y
    ensures Updated(crc, before + x + after) != Updated(crc, before + y + after)
  {
    hide Feed, Inverted;
    var start := Inverted(crc);
    var u, v := before + x + after, before + y + after;
    FeedConcat(start, before + x, after);
    FeedConcat(start, before + y, after);
    FeedConcat(start, before, x);
    FeedConcat(start, before, y);
    InvertedTwice(Feed(start, u));
    InvertedTwice(Feed(start, v));
    if Updated(crc, u) == Updated(crc, v) {
      var r := Feed(start, before);
      FeedIsInjective(Feed(r, x), Feed(r, y), after);
      FourBytesBack(r, r, x, y);
      DifferenceReaches(x, y);
      XorZero(r);
    }
  }
}
