// The CRC-32 of compile/uboot-tool/crc32.c, the algorithm of section 8 of RFC 1952.

module Crc32 {

  type byte = x: bv32 | x <= 0xff

  const POLY: bv32 := 0xedb8_8320

  function Xor(x: bv32, y: bv32): bv32 { x ^ y }
  function Complement(x: bv32): bv32 { x ^ 0xffff_ffff }
  function Half(x: bv32): bv32 { x >> 1 }
  function Low(x: bv32): bv32 { x & 1 }

  /** The register after one step: multiplication by x modulo the polynomial, lowest power on top. */
  function Shift(c: bv32): bv32
  {
    if Low(c) == 1 then Xor(POLY, Half(c)) else Half(c)
  }

  function Shifts(c: bv32, n: nat): bv32
    decreases n
  {
    if n == 0 then c else Shifts(Shift(c), n - 1)
  }

  // ---- the definition: long division, one message bit at a time ---------------------------

  /** The lowest n bits of b enter the register one by one, lowest first. */
  function FeedBits(c: bv32, b: bv32, n: nat): bv32
    decreases n
  {
    if n == 0 then c else FeedBits(Shift(Xor(c, Low(b))), Half(b), n - 1)
  }

  function Divide(c: bv32, buf: seq<byte>): bv32
    decreases |buf|
  {
    if buf == [] then c else Divide(FeedBits(c, buf[0], 8), buf[1..])
  }

  /** The checksum: the division framed by complements. */
  function Crc(crc: bv32, buf: seq<byte>): bv32
  {
    Complement(Divide(Complement(crc), buf))
  }

  // ---- shifting is linear ---------------------------------------------------------------------

  lemma ShiftAddsEven(x: bv32, y: bv32)
    requires Low(x) == 0 && Low(y) == 0
    ensures Shift(Xor(x, y)) == Xor(Shift(x), Shift(y))
  {
  }

  lemma ShiftAddsMixed(x: bv32, y: bv32)
    requires Low(x) == 1 && Low(y) == 0
    ensures Shift(Xor(x, y)) == Xor(Shift(x), Shift(y))
  {
  }

  lemma ShiftAddsOdd(x: bv32, y: bv32)
    requires Low(x) == 1 && Low(y) == 1
    ensures Shift(Xor(x, y)) == Xor(Shift(x), Shift(y))
  {
  }

  lemma XorCommutes(x: bv32, y: bv32)
    ensures Xor(x, y) == Xor(y, x)
  {
  }

  lemma XorZero(x: bv32)
    ensures Xor(x, 0) == x
  {
  }

  lemma LowIsBit(x: bv32)
    ensures Low(x) == 0 || Low(x) == 1
  {
  }

  lemma ShiftAdds(x: bv32, y: bv32)
    ensures Shift(Xor(x, y)) == Xor(Shift(x), Shift(y))
  {
    hide Shift, Xor, Low;
    LowIsBit(x);
    LowIsBit(y);
    XorCommutes(x, y);
    XorCommutes(Shift(x), Shift(y));
    if Low(x) == 0 && Low(y) == 0 {
      ShiftAddsEven(x, y);
    } else if Low(x) == 1 && Low(y) == 1 {
      ShiftAddsOdd(x, y);
    } else if Low(x) == 1 {
      ShiftAddsMixed(x, y);
    } else {
      ShiftAddsMixed(y, x);
    }
  }

  lemma {:induction false} ShiftsAdd(x: bv32, y: bv32, n: nat)
    ensures Shifts(Xor(x, y), n) == Xor(Shifts(x, n), Shifts(y, n))
    decreases n
  {
    hide Shift, Xor;
    if n == 0 {
    } else {
      ShiftAdds(x, y);
      ShiftsAdd(Shift(x), Shift(y), n - 1);
    }
  }

  lemma {:induction false} ShiftsCompose(x: bv32, m: nat, n: nat)
    ensures Shifts(Shifts(x, m), n) == Shifts(x, m + n)
    decreases m
  {
    hide Shift;
    if m == 0 {
    } else {
      ShiftsCompose(Shift(x), m - 1, n);
    }
  }

  // ---- low zeros just fall out ------------------------------------------------------------------

  function Halves(x: bv32, n: nat): bv32
    decreases n
  {
    if n == 0 then x else Halves(Half(x), n - 1)
  }

  predicate LowZeros(x: bv32, n: nat)
    decreases n
  {
    n == 0 || (Low(x) == 0 && LowZeros(Half(x), n - 1))
  }

  lemma {:induction false} ShiftsOfZeros(x: bv32, n: nat)
    requires LowZeros(x, n)
    ensures Shifts(x, n) == Halves(x, n)
    decreases n
  {
    hide Half, Xor, Low;
    if n == 0 {
    } else {
      assert Low(x) != 1;
      ShiftsOfZeros(Half(x), n - 1);
    }
  }

  lemma ZeroIsEven(x: bv32)
    requires x & 0xff == 0
    ensures LowZeros(x, 8) && Halves(x, 8) == x >> 8
  {
    HalvesOfHigh(x);
    hide Half, Low;
    var x1, x2, x3, x4 := Half(x), Half(Half(x)), Half(Half(Half(x))), Half(Half(Half(Half(x))));
    var x5, x6, x7, x8 := Half(x4), Half(Half(x4)), Half(Half(Half(x4))), Half(Half(Half(Half(x4))));
    assert LowZeros(x8, 0) && LowZeros(x7, 1) && LowZeros(x6, 2) && LowZeros(x5, 3) && LowZeros(x4, 4);
    assert LowZeros(x3, 5) && LowZeros(x2, 6) && LowZeros(x1, 7);
    assert Halves(x, 8) == Halves(x2, 6) == Halves(x4, 4) == Halves(x6, 2) == x8;
  }

  lemma HalvesOfHigh(x: bv32)
    requires x & 0xff == 0
    ensures var x4 := Half(Half(Half(Half(x))));
            && Low(x) == 0 && Low(Half(x)) == 0 && Low(Half(Half(x))) == 0 && Low(Half(Half(Half(x)))) == 0
            && Low(x4) == 0 && Low(Half(x4)) == 0 && Low(Half(Half(x4))) == 0 && Low(Half(Half(Half(x4)))) == 0
            && Half(Half(Half(Half(x4)))) == x >> 8
  {
  }

  /** Shifting a register whose low byte is zero is shifting it right by a byte. */
  lemma ShiftsOfHigh(x: bv32)
    requires x & 0xff == 0
    ensures Shifts(x, 8) == x >> 8
  {
    hide Half, Xor, Low, Shift;
    ZeroIsEven(x);
    ShiftsOfZeros(x, 8);
  }

  // ---- the table-driven step is the bitwise division --------------------------------------------

  /** Feeding bits one by one is adding them all at once and then shifting. */
  lemma {:induction false} FeedAllAtOnce(c: bv32, b: bv32, n: nat)
    requires Halves(b, n) == 0
    ensures FeedBits(c, b, n) == Shifts(Xor(c, b), n)
    decreases n
  {
    hide Half, Xor, Low, Shift;
    if n == 0 {
      XorZero(c);
    } else {
      SplitLowBit(c, b);
      ShiftAdds(Xor(c, Low(b)), Xor(b, Low(b)));
      FeedAllAtOnce(Shift(Xor(c, Low(b))), Half(b), n - 1);
    }
  }

  lemma SplitLowBit(c: bv32, b: bv32)
    ensures Xor(c, b) == Xor(Xor(c, Low(b)), Xor(b, Low(b))) && Shift(Xor(b, Low(b))) == Half(b)
  {
  }

  lemma ByteHalves(b: byte)
    ensures Halves(b, 8) == 0
  {
    var x4 := Half(Half(Half(Half(b))));
    ByteFallsOut(b);
    hide Half;
    assert Halves(b, 8) == Halves(Half(Half(b)), 6) == Halves(x4, 4) == Halves(Half(Half(x4)), 2)
           == Half(Half(Half(Half(x4))));
  }

  lemma ByteFallsOut(b: byte)
    ensures Half(Half(Half(Half(Half(Half(Half(Half(b)))))))) == 0
  {
  }

  /** Entry b of crc_table. */
  function TableEntry(b: bv32): bv32 { Shifts(b, 8) }

  lemma SplitRegister(x: bv32)
    ensures x == Xor(x & 0xff, x & 0xffff_ff00) && (x & 0xffff_ff00) & 0xff == 0
    ensures (x & 0xffff_ff00) >> 8 == x >> 8
  {
  }

  lemma ByteLeavesTop(c: bv32, b: byte)
    ensures Xor(c, b) >> 8 == c >> 8
  {
  }

  /** One table look-up does the work of eight divisions steps. */
  lemma LookUp(c: bv32, b: byte)
    ensures FeedBits(c, b, 8) == Xor(TableEntry(Xor(c, b) & 0xff), c >> 8)
  {
    hide Half, Xor, Low, Shift, Shifts, Halves, FeedBits;
    var x := Xor(c, b);
    ByteHalves(b);
    FeedAllAtOnce(c, b, 8);
    SplitRegister(x);
    ShiftsAdd(x & 0xff, x & 0xffff_ff00, 8);
    ShiftsOfHigh(x & 0xffff_ff00);
    ByteLeavesTop(c, b);
  }

  /** The exponents that make_crc_table turns into the polynomial. */
  const TERMS: seq<nat> := [0, 1, 2, 4, 5, 7, 8, 10, 11, 12, 16, 22, 23, 26]

  function SetBit(x: bv32, exponent: nat): bv32
    requires exponent <= 31
  {
    x | ((1 as bv32) << (31 - exponent))
  }

  /** make_crc_table: entry n is n shifted eight times with the polynomial made from its exponents. */
  method MakeCrcTable() returns (table: array<bv32>)
    ensures IsCrcTable(table) && fresh(table)
  {
    hide Xor, Low, Half, SetBit, PolyStage, Shifts;
    var poly := MakePoly();
    table := new bv32[256](i => 0);
    for n := 0 to 256
      invariant forall x :: 0 <= x < n ==> table[x] == TableEntry(x as bv32)
    {
      table[n] := ShiftEight(n as bv32, poly);
    }
  }

  /** The exponents of the polynomial, set bit by bit. */
  method MakePoly() returns (poly: bv32)
    ensures poly == POLY
  {
    hide SetBit, PolyStage;
    LastStage();
    poly := 0;
    for n := 0 to |TERMS|
      invariant poly == PolyStage(n)
    {
      NextStage(n);
      poly := SetBit(poly, TERMS[n]);
    }
  }

  method ShiftEight(n: bv32, poly: bv32) returns (c: bv32)
    requires poly == POLY
    ensures c == TableEntry(n)
  {
    hide Xor, Low, Half;
    c := n;
    for k := 0 to 8
      invariant Shifts(c, 8 - k) == TableEntry(n)
    {
      c := if Low(c) == 1 then Xor(poly, Half(c)) else Half(c);
    }
  }

  /** The polynomial after its first n terms. */
  function PolyStage(n: nat): bv32
    requires n <= 14
  {
    [0x0, 0x8000_0000, 0xc000_0000, 0xe000_0000, 0xe800_0000, 0xec00_0000, 0xed00_0000, 0xed80_0000,
     0xeda0_0000, 0xedb0_0000, 0xedb8_0000, 0xedb8_8000, 0xedb8_8200, 0xedb8_8300, 0xedb8_8320][n]
  }

  lemma NextStage(n: nat)
    requires n < 14
    ensures TERMS[n] <= 31 && PolyStage(n + 1) == SetBit(PolyStage(n), TERMS[n])
  {
    if n < 7 { EarlyStage(n); } else { LateStage(n); }
  }

  lemma LastStage()
    ensures PolyStage(0) == 0 && PolyStage(14) == POLY
  {
  }

  lemma EarlyStage(n: nat)
    requires n < 7
    ensures TERMS[n] <= 31 && PolyStage(n + 1) == SetBit(PolyStage(n), TERMS[n])
  {
  }

  lemma LateStage(n: nat)
    requires 7 <= n < 14
    ensures TERMS[n] <= 31 && PolyStage(n + 1) == SetBit(PolyStage(n), TERMS[n])
  {
  }

  ghost predicate IsCrcTable(table: array<bv32>)
    reads table
  {
    table.Length == 256 && forall n :: 0 <= n < 256 ==> table[n] == TableEntry(n as bv32)
  }

  lemma IntAndBack(x: bv32)
    ensures (x as int) as bv32 == x
  {
  }

  lemma SmallIsSmall(x: bv32)
    requires x <= 0xff
    ensures x as int < 256
  {
  }

  lemma Masked(x: bv32)
    ensures x & 0xff <= 0xff
  {
  }

  /** DO1: one byte through the table. */
  method NextByte(table: array<bv32>, crc: bv32, b: byte) returns (r: bv32)
    requires IsCrcTable(table)
    ensures r == FeedBits(crc, b, 8)
  {
    hide Xor, FeedBits, TableEntry;
    LookUp(crc, b);
    Masked(Xor(crc, b));
    SmallIsSmall(Xor(crc, b) & 0xff);
    IntAndBack(Xor(crc, b) & 0xff);
    var index := (Xor(crc, b) & 0xff) as int;
    r := Xor(table[index], crc >> 8);
  }

  lemma {:induction false} DivideAppend(c: bv32, a: seq<byte>, b: seq<byte>)
    ensures Divide(c, a + b) == Divide(Divide(c, a), b)
    decreases |a|
  {
    if a == [] {
      assert a + b == b;
    } else {
      assert (a + b)[0] == a[0] && (a + b)[1..] == a[1..] + b;
      DivideAppend(FeedBits(c, a[0], 8), a[1..], b);
    }
  }

  lemma DivideNext(c: bv32, buf: seq<byte>, i: int)
    requires 0 <= i < |buf|
    ensures Divide(c, buf[..i + 1]) == FeedBits(Divide(c, buf[..i]), buf[i], 8)
  {
    assert buf[..i + 1] == buf[..i] + [buf[i]];
    DivideAppend(c, buf[..i], [buf[i]]);
    assert Divide(Divide(c, buf[..i]), [buf[i]]) == Divide(FeedBits(Divide(c, buf[..i]), buf[i], 8), []);
  }

  /** crc32: eight bytes at a time, then the rest one by one. */
  method ComputeCrc(table: array<bv32>, crc0: bv32, buf: seq<byte>) returns (r: bv32)
    requires IsCrcTable(table)
    ensures r == Crc(crc0, buf)
  {
    hide IsCrcTable, FeedBits, Xor;
    var start := Complement(crc0);
    var crc := start;
    var at, len := 0, |buf|;
    while len >= 8
      invariant 0 <= at <= |buf| && len == |buf| - at
      invariant crc == Divide(start, buf[..at])
    {
      crc := EightBytes(table, crc, buf, at, start);
      at := at + 8;
      len := len - 8;
    }
    while len > 0
      invariant 0 <= at <= |buf| && len == |buf| - at
      invariant crc == Divide(start, buf[..at])
    {
      DivideNext(start, buf, at);
      crc := NextByte(table, crc, buf[at]);
      at := at + 1;
      len := len - 1;
    }
    assert buf[..at] == buf;
    r := Complement(crc);
  }

  /** DO8. */
  method EightBytes(table: array<bv32>, crc0: bv32, buf: seq<byte>, at: nat, ghost start: bv32) returns (crc: bv32)
    requires IsCrcTable(table) && at + 8 <= |buf| && crc0 == Divide(start, buf[..at])
    ensures crc == Divide(start, buf[..at + 8])
  {
    hide IsCrcTable, FeedBits, Divide;
    forall i | at <= i < at + 8
      ensures Divide(start, buf[..i + 1]) == FeedBits(Divide(start, buf[..i]), buf[i], 8)
    {
      DivideNext(start, buf, i);
    }
    crc := NextByte(table, crc0, buf[at]);
    crc := NextByte(table, crc, buf[at + 1]);
    crc := NextByte(table, crc, buf[at + 2]);
    crc := NextByte(table, crc, buf[at + 3]);
    crc := NextByte(table, crc, buf[at + 4]);
    crc := NextByte(table, crc, buf[at + 5]);
    crc := NextByte(table, crc, buf[at + 6]);
    crc := NextByte(table, crc, buf[at + 7]);
  }

  /** A checksum can be continued: the parts of a message may be fed one after the other. */
  lemma CrcOfConcatenation(crc: bv32, a: seq<byte>, b: seq<byte>)
    ensures Crc(crc, a + b) == Crc(Crc(crc, a), b)
  {
    hide Divide, Complement;
    DivideAppend(Complement(crc), a, b);
    DoubleComplement(Divide(Complement(crc), a));
  }

  lemma DoubleComplement(x: bv32)
    ensures Complement(Complement(x)) == x
  {
  }

  // ---- errors confined to four consecutive bytes -------------------------------------------------

  /** The top bit of the polynomial tells what came in, so a step can be undone. */
  function Unshift(s: bv32): bv32
  {
    if s & 0x8000_0000 != 0 then ((s ^ POLY) << 1) | 1 else s << 1
  }

  lemma UnshiftShift(x: bv32)
    ensures Unshift(Shift(x)) == x
  {
  }

  lemma {:induction false} ShiftsInjective(x: bv32, y: bv32, n: nat)
    requires Shifts(x, n) == Shifts(y, n)
    ensures x == y
    decreases n
  {
    hide Shift, Unshift;
    if n == 0 {
    } else {
      ShiftsInjective(Shift(x), Shift(y), n - 1);
      UnshiftShift(x);
      UnshiftShift(y);
    }
  }

  lemma XorCancel(x: bv32, y: bv32, z: bv32)
    requires Xor(x, z) == Xor(y, z)
    ensures x == y
  {
  }

  /** For each byte, the step of the register is a bijection. */
  lemma ByteStepInjective(c: bv32, d: bv32, b: byte)
    requires FeedBits(c, b, 8) == FeedBits(d, b, 8)
    ensures c == d
  {
    hide Xor, FeedBits, Shifts, Halves;
    ByteHalves(b);
    FeedAllAtOnce(c, b, 8);
    FeedAllAtOnce(d, b, 8);
    ShiftsInjective(Xor(c, b), Xor(d, b), 8);
    XorCancel(c, d, b);
  }

  lemma {:induction false} DivideInjective(c: bv32, d: bv32, buf: seq<byte>)
    requires Divide(c, buf) == Divide(d, buf)
    ensures c == d
    decreases |buf|
  {
    hide FeedBits;
    if buf == [] {
    } else {
      DivideInjective(FeedBits(c, buf[0], 8), FeedBits(d, buf[0], 8), buf[1..]);
      ByteStepInjective(c, d, buf[0]);
    }
  }

  function Up(x: bv32): bv32 { x << 8 }

  /** Up to four bytes as one word, first byte lowest. */
  function Word(u: seq<byte>): bv32
    decreases |u|
  {
    if u == [] then 0 else Xor(u[0], Up(Word(u[1..])))
  }

  /** Words of n bytes stay below 2^(8n). */
  predicate Fits(x: bv32, n: nat)
    requires n <= 4
  {
    if n == 0 then x == 0 else if n == 1 then x <= 0xff else if n == 2 then x <= 0xffff
       else if n == 3 then x <= 0xff_ffff else true
  }

  lemma FitsUp(b: byte, x: bv32, n: nat)
    requires n < 4 && Fits(x, n)
    ensures Fits(Xor(b, Up(x)), n + 1)
  {
    if n == 0 {
      assert Xor(b, Up(0)) == b;
    } else if n == 1 {
      FitsUp1(b, x);
    } else if n == 2 {
      FitsUp2(b, x);
    }
  }

  lemma FitsUp1(b: byte, x: bv32)
    requires x <= 0xff
    ensures Xor(b, Up(x)) <= 0xffff
  {
  }

  lemma FitsUp2(b: byte, x: bv32)
    requires x <= 0xffff
    ensures Xor(b, Up(x)) <= 0xff_ffff
  {
  }

  lemma {:induction false} WordFits(u: seq<byte>)
    requires |u| <= 4
    ensures Fits(Word(u), |u|)
    decreases |u|
  {
    hide Xor, Up;
    if u == [] {
    } else {
      WordFits(u[1..]);
      FitsUp(u[0], Word(u[1..]), |u| - 1);
    }
  }

  lemma UpAndDown(x: bv32)
    requires x <= 0xff_ffff
    ensures Up(x) & 0xff == 0 && Up(x) >> 8 == x
  {
  }

  lemma FitsThree(x: bv32, n: nat)
    requires n <= 3 && Fits(x, n)
    ensures x <= 0xff_ffff
  {
  }

  lemma XorAssociates(x: bv32, y: bv32, z: bv32)
    ensures Xor(Xor(x, y), z) == Xor(x, Xor(y, z))
  {
  }

  /** Up to four bytes act on the register like one word. */
  lemma {:induction false} DivideWord(c: bv32, u: seq<byte>)
    requires |u| <= 4
    ensures Divide(c, u) == Shifts(Xor(c, Word(u)), 8 * |u|)
    decreases |u|
  {
    hide Xor, Up, FeedBits, Halves, Shift, Fits;
    if u == [] {
      XorZero(c);
    } else {
      var b, rest, w := u[0], u[1..], Word(u[1..]);
      var c' := FeedBits(c, b, 8);
      ByteHalves(b);
      FeedAllAtOnce(c, b, 8);
      DivideWord(c', rest);
      WordFits(rest);
      FitsThree(w, |rest|);
      UpAndDown(w);
      ShiftsOfHigh(Up(w));
      ShiftsAdd(Xor(c, b), Up(w), 8);
      XorAssociates(c, b, Up(w));
      ShiftsCompose(Xor(c, Word(u)), 8, 8 * |rest|);
    }
  }

  lemma SplitWord(b: byte, x: bv32, d: byte, y: bv32)
    requires x <= 0xff_ffff && y <= 0xff_ffff && Xor(b, Up(x)) == Xor(d, Up(y))
    ensures b == d && x == y
  {
  }

  lemma {:induction false} WordInjective(u: seq<byte>, v: seq<byte>)
    requires |u| == |v| <= 4 && Word(u) == Word(v)
    ensures u == v
    decreases |u|
  {
    hide Xor, Up, Fits;
    if u == [] {
    } else {
      WordFits(u[1..]);
      WordFits(v[1..]);
      FitsThree(Word(u[1..]), |u| - 1);
      FitsThree(Word(v[1..]), |u| - 1);
      SplitWord(u[0], Word(u[1..]), v[0], Word(v[1..]));
      WordInjective(u[1..], v[1..]);
      assert u == [u[0]] + u[1..] && v == [v[0]] + v[1..];
    }
  }

  /** Two messages that differ only within four consecutive bytes have different checksums. */
  lemma ShortBurstDetected(crc: bv32, head: seq<byte>, u: seq<byte>, v: seq<byte>, tail: seq<byte>)
    requires |u| == |v| <= 4 && u != v
    ensures Crc(crc, head + u + tail) != Crc(crc, head + v + tail)
  {
    hide Divide, Complement, Xor, Word, Shifts;
    var start := Complement(crc);
    DivideAppend(start, head + u, tail);
    DivideAppend(start, head, u);
    DivideAppend(start, head + v, tail);
    DivideAppend(start, head, v);
    if Crc(crc, head + u + tail) == Crc(crc, head + v + tail) {
      var c := Divide(start, head);
      DoubleComplement(Divide(start, head + u + tail));
      DoubleComplement(Divide(start, head + v + tail));
      DivideInjective(Divide(c, u), Divide(c, v), tail);
      DivideWord(c, u);
      DivideWord(c, v);
      ShiftsInjective(Xor(c, Word(u)), Xor(c, Word(v)), 8 * |u|);
      XorCommutes(c, Word(u));
      XorCommutes(c, Word(v));
      XorCancel(Word(u), Word(v), c);
      WordInjective(u, v);
    }
  }

  // ---- the framing and the polynomial -------------------------------------------------------------

  /** The four bytes of a word, lowest first. */
  function Bytes(x: bv32): (u: seq<byte>)
    ensures |u| == 4
  {
    [x & 0xff, (x >> 8) & 0xff, (x >> 16) & 0xff, x >> 24]
  }

  lemma BytesOfWord(x: bv32)
    ensures Word(Bytes(x)) == x
  {
    hide Up, Xor;
    var u := Bytes(x);
    var v, w, y := u[1..], u[2..], u[3..];
    assert v[1..] == w && w[1..] == y && y[1..] == [];
    assert Word(y) == Xor(u[3], Up(Word([])));
    assert Word(w) == Xor(u[2], Up(Word(y)));
    assert Word(v) == Xor(u[1], Up(Word(w)));
    Pieces(x);
  }

  lemma Pieces(x: bv32)
    ensures Xor(x & 0xff, Up(Xor((x >> 8) & 0xff, Up(Xor((x >> 16) & 0xff, Up(Xor(x >> 24, Up(0)))))))) == x
    ensures Up(0) == 0
  {
  }

  /** A buffer followed by its own checksum always leaves the same register, whatever the buffer. */
  lemma Residue(buf: seq<byte>)
    ensures Divide(0xffff_ffff, buf + Bytes(Crc(0, buf))) == 0xdebb_20e3
  {
    hide Divide, Word, Bytes, Shifts;
    var r, x := Divide(0xffff_ffff, buf), Crc(0, buf);
    assert x == Complement(r);
    assert Xor(r, x) == 0xffff_ffff;
    DivideAppend(0xffff_ffff, buf, Bytes(x));
    DivideWord(r, Bytes(x));
    BytesOfWord(x);
    ResidueValue();
  }

  lemma ResidueValue()
    ensures Shifts(0xffff_ffff, 32) == 0xdebb_20e3
  {
    assert Shifts(0xffff_ffff, 8) == 0x2dfd_1072;
    assert Shifts(0x2dfd_1072, 8) == 0xbe26_ed00;
    assert Shifts(0xbe26_ed00, 8) == 0x00be_26ed;
    assert Shifts(0x00be_26ed, 8) == 0xdebb_20e3;
    ShiftsCompose(0xffff_ffff, 8, 8);
    ShiftsCompose(0xffff_ffff, 16, 8);
    ShiftsCompose(0xffff_ffff, 24, 8);
  }

  /** The check value of CRC-32: the checksum of the digits 1 to 9 in ASCII. */
  lemma CheckValue()
    ensures Crc(0, [49, 50, 51, 52, 53, 54, 55, 56, 57]) == 0xcbf4_3926
  {
    assert FeedBits(0xffff_ffff, 49, 8) == 0x7c23_1048;
    assert FeedBits(0x7c23_1048, 50, 8) == 0xb0ac_bb32;
    assert FeedBits(0xb0ac_bb32, 51, 8) == 0x77b7_9c2d;
    assert FeedBits(0x77b7_9c2d, 52, 8) == 0x641c_1f5c;
    assert FeedBits(0x641c_1f5c, 53, 8) == 0x340a_c5e3;
    assert FeedBits(0x340a_c5e3, 54, 8) == 0xf68d_2c9e;
    assert FeedBits(0xf68d_2c9e, 55, 8) == 0xaffc_9660;
    assert FeedBits(0xaffc_9660, 56, 8) == 0x651f_2550;
    assert FeedBits(0x651f_2550, 57, 8) == 0x340b_c6d9;
  }
}
