// What the checksum means: a remainder of polynomial division over GF(2), and the same as the
// usual shift-and-xor computation on 32-bit integers.
module Crc32Meaning {
  import opened Bytes
  import opened Crc32

  // ------------------------------------------------------------------
  // Polynomials over GF(2), coefficients from the highest power down
  // ------------------------------------------------------------------

  // The exponents of the CRC-32 generator.
  predicate InGenerator(exponent: nat) {
    exponent in {32, 26, 23, 22, 16, 12, 11, 10, 8, 7, 5, 4, 2, 1, 0}
  }

  function Zeros(n: nat): (p: seq<bool>)
    ensures |p| == n && forall i :: 0 <= i < n ==> !p[i]
  {
    if n == 0 then [] else [false] + Zeros(n - 1)
  }

  function Plus(p: seq<bool>, q: seq<bool>): (r: seq<bool>)
    requires |p| == |q|
    ensures |r| == |p| && forall i :: 0 <= i < |p| ==> r[i] == (p[i] != q[i])
  {
    if p == [] then [] else [p[0] != q[0]] + Plus(p[1..], q[1..])
  }

  // The generator times the power that makes a polynomial of n coefficients.
  function Generated(n: nat): (p: seq<bool>)
    requires n > 32
    ensures |p| == n && forall i :: 0 <= i < n ==> p[i] == (i <= 32 && InGenerator(32 - i))
  {
    seq(n, i requires 0 <= i < n => i <= 32 && InGenerator(32 - i))
  }

  // Schoolbook division: the leading coefficient is cancelled until 32 are left.
  function Remainder(d: seq<bool>): (r: seq<bool>)
    requires |d| >= 32
    ensures |r| == 32
    decreases |d|
  {
    if |d| == 32 then d
    else if d[0] then Remainder(Plus(d, Generated(|d|))[1..])
    else Remainder(d[1..])
  }

  function Quotient(d: seq<bool>): (q: seq<bool>)
    requires |d| >= 32
    ensures |q| == |d| - 32
    decreases |d|
  {
    if |d| == 32 then []
    else [d[0]] + Quotient(if d[0] then Plus(d, Generated(|d|))[1..] else d[1..])
  }

  // q times the generator.
  function Times(q: seq<bool>): (p: seq<bool>)
    ensures |p| == |q| + 32
  {
    if q == [] then Zeros(32)
    else Plus(if q[0] then Generated(|q| + 32) else Zeros(|q| + 32), [false] + Times(q[1..]))
  }

  // The division is one: dividend == quotient * generator + remainder.
  lemma {:induction false} DivisionIdentity(d: seq<bool>)
    requires |d| >= 32
    ensures d == Plus(Times(Quotient(d)), Zeros(|d| - 32) + Remainder(d))
    decreases |d|
  {
    hide InGenerator, Times, Plus, Generated, Zeros;
    if |d| > 32 {
      var rest := if d[0] then Plus(d, Generated(|d|))[1..] else d[1..];
      var (q, r) := (Quotient(d), Remainder(d));
      assert InGenerator(32) by { TopExponent(); }
      assert q[1..] == Quotient(rest) && r == Remainder(rest);
      DivisionIdentity(rest);
      DivisionStep(d, rest, q, r);
    } else {
      NothingLeft(d);
    }
  }

  lemma {:induction false} NothingLeft(d: seq<bool>)
    requires |d| == 32
    ensures d == Plus(Times([]), Zeros(0) + d)
  {
    hide Plus;
    assert Zeros(0) + d == d;
  }

  lemma TopExponent()
    ensures InGenerator(32)
  {
  }

  lemma {:induction false} TimesAt(q: seq<bool>, i: nat)
    requires q != [] && i < |q| + 32
    ensures Times(q)[i] == ((q[0] && i <= 32 && InGenerator(32 - i)) != (i > 0 && Times(q[1..])[i - 1]))
  {
    hide InGenerator, Generated, Zeros, Plus;
  }

  lemma {:induction false} DivisionStep(d: seq<bool>, rest: seq<bool>, q: seq<bool>, r: seq<bool>)
    requires |d| > 32 && |q| == |d| - 32 && |r| == 32 && q[0] == d[0] && InGenerator(32)
    requires rest == if d[0] then Plus(d, Generated(|d|))[1..] else d[1..]
    requires rest == Plus(Times(q[1..]), Zeros(|d| - 33) + r)
    ensures d == Plus(Times(q), Zeros(|d| - 32) + r)
  {
    hide InGenerator, Generated, Zeros, Plus, Remainder, Quotient, Times;
    forall i | 0 <= i < |d| ensures d[i] == Plus(Times(q), Zeros(|d| - 32) + r)[i] {
      TimesAt(q, i);
      if i > 0 {
        assert rest[i - 1] == (d[i] != (d[0] && i <= 32 && InGenerator(32 - i)));
        assert (Zeros(|d| - 32) + r)[i] == (Zeros(|d| - 33) + r)[i - 1];
      }
    }
  }

  // ------------------------------------------------------------------
  // The checksum as a remainder
  // ------------------------------------------------------------------

  predicate BitSet(x: nat, i: nat) {
    Pow2Positive(i);
    x / Pow2(i) % 2 == 1
  }

  // Least significant bit first.
  function ByteBits(b: byte): (bits: seq<bool>)
    ensures |bits| == 8
  {
    seq(8, i requires 0 <= i < 8 => BitSet(b, i))
  }

  function MessageBits(m: seq<byte>): (bits: seq<bool>)
    ensures |bits| == 8 * |m|
  {
    if m == [] then [] else ByteBits(m[0]) + MessageBits(m[1..])
  }

  // The first 32 coefficients are complemented.
  function Preset(d: seq<bool>): (p: seq<bool>)
    requires |d| >= 32
    ensures |p| == |d| && forall i :: 0 <= i < |d| ==> p[i] == (d[i] != (i < 32))
  {
    seq(|d|, i requires 0 <= i < |d| => d[i] != (i < 32))
  }

  lemma {:induction false} ToBitsAt(n: nat, x: nat, i: nat)
    requires i < n
    ensures ToBits(n, x)[i] <==> BitSet(x, i)
  {
    if i > 0 {
      ToBitsAt(n - 1, x / 2, i - 1);
      Pow2Positive(i - 1);
      HalveFirst(x, Pow2(i - 1));
    }
  }

  lemma {:induction false} ByteBitsAgree(b: byte)
    ensures ToBits(8, b) == ByteBits(b)
  {
    hide BitSet;
    forall i | 0 <= i < 8 ensures ToBits(8, b)[i] == ByteBits(b)[i] {
      ToBitsAt(8, b, i);
    }
  }

  lemma {:induction false} Pow2Positive(n: nat)
    ensures Pow2(n) > 0
  {
    if n > 0 {
      Pow2Positive(n - 1);
    }
  }

  lemma {:induction false} MessageBitsAgree(m: seq<byte>)
    ensures BitsOf(m) == MessageBits(m)
  {
    if m != [] {
      MessageBitsAgree(m[1..]);
      ByteBitsAgree(m[0]);
    }
  }

  // A register in front of bits still to come, as one dividend.
  function Dividend(c: Register, bits: seq<bool>): (d: seq<bool>)
    ensures |d| == |bits| + 32
    ensures forall i :: 0 <= i < |d| ==> d[i] == ((i < |bits| && bits[i]) != (i < 32 && c[i]))
  {
    seq(|bits| + 32, i requires 0 <= i < |bits| + 32 => (i < |bits| && bits[i]) != (i < 32 && c[i]))
  }

  lemma PolynomialIsGenerator()
    ensures forall i :: 0 <= i < 32 ==> Polynomial()[i] == InGenerator(31 - i)
  {
    PolynomialBits();
  }

  lemma PolynomialBits()
    ensures Polynomial() == [false, false, false, false, false, true, false, false,
                             true, true, false, false, false, false, false, true,
                             false, false, false, true, true, true, false, true,
                             true, false, true, true, false, true, true, true]
  {
    hide ToBits;
    LowHalf();
    HighHalf();
  }

  lemma LowHalf()
    ensures ToBits(24, 0xB88320)
         == [false, false, false, false, false, true, false, false, true, true, false, false] + ToBits(12, 0xB88)
  {
    hide ToBits;
    Nibble(20, 0xB88320);
    Nibble(16, 0xB8832);
    Nibble(12, 0xB883);
  }

  lemma HighHalf()
    ensures ToBits(12, 0xB88) == [false, false, false, true, false, false, false, true, true, true, false, true]
  {
    hide ToBits;
    Nibble(8, 0xB88);
    Nibble(4, 0xB8);
    Nibble(0, 0xB);
    NoBits(0);
  }

  lemma {:induction false} NoBits(x: nat)
    ensures ToBits(0, x) == []
  {
  }

  lemma {:induction false} Nibble(n: nat, x: nat)
    ensures ToBits(n + 4, x)
         == [x % 2 == 1, x / 2 % 2 == 1, x / 4 % 2 == 1, x / 8 % 2 == 1] + ToBits(n, x / 16)
  {
    assert x / 2 / 2 == x / 4 && x / 4 / 2 == x / 8 && x / 8 / 2 == x / 16;
    assert ToBits(n + 4, x) == [x % 2 == 1] + ToBits(n + 3, x / 2);
    assert ToBits(n + 3, x / 2) == [x / 2 % 2 == 1] + ToBits(n + 2, x / 4);
    assert ToBits(n + 2, x / 4) == [x / 4 % 2 == 1] + ToBits(n + 1, x / 8);
    assert ToBits(n + 1, x / 8) == [x / 8 % 2 == 1] + ToBits(n, x / 16);
  }

  lemma {:induction false} FeedIsDivision(c: Register, bits: seq<bool>)
    ensures FeedBits(c, bits) == Remainder(Dividend(c, bits))
    decreases bits
  {
    hide InGenerator, Polynomial, FeedBit;
    var d := Dividend(c, bits);
    if bits == [] {
      assert d == c;
    } else {
      var next := FeedBit(c, bits[0]);
      var rest := Dividend(next, bits[1..]);
      FeedBitShape(c, bits[0]);
      PolynomialIsGenerator();
      assert d[0] == (c[0] != bits[0]);
      forall i | 0 <= i < |rest|
        ensures rest[i] == if d[0] then Plus(d, Generated(|d|))[1..][i] else d[1..][i]
      {
        assert i < 31 ==> next[i] == (c[i + 1] != (d[0] && Polynomial()[i]));
        assert i == 31 ==> next[i] == d[0] && Polynomial()[31];
        assert i < |bits| - 1 ==> bits[1..][i] == bits[i + 1];
      }
      assert rest == if d[0] then Plus(d, Generated(|d|))[1..] else d[1..];
      FeedIsDivision(next, bits[1..]);
    }
  }

  // Bit i of the checksum of m is the complement of coefficient 31 - i of the remainder of the
  // message bits, followed by 32 zeros, with the first 32 complemented.
  lemma {:induction false} CrcIsRemainder(m: seq<byte>, i: nat)
    requires i < 32
    ensures Crc(m) < U32
    ensures BitSet(Crc(m), i) <==> !Remainder(Preset(MessageBits(m) + Zeros(32)))[i]
  {
    hide Remainder, FeedBits, BitSet;
    MessageBitsAgree(m);
    RepeatAll(true, 32);
    FeedIsDivision(ONES, BitsOf(m));
    assert Dividend(ONES, BitsOf(m)) == Preset(MessageBits(m) + Zeros(32));
    var r := Feed(ONES, m);
    BitOfFromBits(XorBits(r, ONES), i);
  }

  lemma {:induction false} BitOfFromBits(bits: seq<bool>, i: nat)
    requires i < |bits|
    ensures BitSet(FromBits(bits), i) <==> bits[i]
  {
    var x := FromBits(bits);
    if i > 0 {
      BitOfFromBits(bits[1..], i - 1);
      assert x / 2 == FromBits(bits[1..]);
      Pow2Positive(i - 1);
      HalveFirst(x, Pow2(i - 1));
    }
  }

  lemma {:induction false} HalveFirst(x: nat, p: nat)
    requires p > 0
    ensures x / (2 * p) == x / 2 / p
  {
    var h := x / 2;
    var q, r := h / p, h % p;
    assert x == 2 * h + x % 2 && h == p * q + r;
    QuotientIs(x, 2 * p, q, 2 * r + x % 2);
  }

  lemma {:induction false} NothingFed(c: Register)
    ensures Feed(c, []) == c
  {
  }

  // ------------------------------------------------------------------
  // The checksum on 32-bit words
  // ------------------------------------------------------------------

  // One bit goes in: shift right, and xor with the reflected generator if the bits differ.
  function ShiftIn(x: bv32, bit: bool): bv32 {
    (x >> 1) ^ (if (x & 1 != 0) != bit then 0xEDB88320 else 0)
  }

  function ShiftByte(x: bv32, b: seq<bool>): bv32
    requires |b| == 8
  {
    ShiftIn(ShiftIn(ShiftIn(ShiftIn(ShiftIn(ShiftIn(ShiftIn(ShiftIn(x, b[0]), b[1]), b[2]), b[3]), b[4]), b[5]), b[6]), b[7])
  }

  predicate Same0(c: Register, x: bv32) {
    && (c[0] <==> x & 0x1 != 0) && (c[1] <==> x & 0x2 != 0)
    && (c[2] <==> x & 0x4 != 0) && (c[3] <==> x & 0x8 != 0)
    && (c[4] <==> x & 0x10 != 0) && (c[5] <==> x & 0x20 != 0)
    && (c[6] <==> x & 0x40 != 0) && (c[7] <==> x & 0x80 != 0)
  }

  predicate Same1(c: Register, x: bv32) {
    && (c[8] <==> x & 0x100 != 0) && (c[9] <==> x & 0x200 != 0)
    && (c[10] <==> x & 0x400 != 0) && (c[11] <==> x & 0x800 != 0)
    && (c[12] <==> x & 0x1000 != 0) && (c[13] <==> x & 0x2000 != 0)
    && (c[14] <==> x & 0x4000 != 0) && (c[15] <==> x & 0x8000 != 0)
  }

  predicate Same2(c: Register, x: bv32) {
    && (c[16] <==> x & 0x10000 != 0) && (c[17] <==> x & 0x20000 != 0)
    && (c[18] <==> x & 0x40000 != 0) && (c[19] <==> x & 0x80000 != 0)
    && (c[20] <==> x & 0x100000 != 0) && (c[21] <==> x & 0x200000 != 0)
    && (c[22] <==> x & 0x400000 != 0) && (c[23] <==> x & 0x800000 != 0)
  }

  predicate Same3(c: Register, x: bv32) {
    && (c[24] <==> x & 0x1000000 != 0) && (c[25] <==> x & 0x2000000 != 0)
    && (c[26] <==> x & 0x4000000 != 0) && (c[27] <==> x & 0x8000000 != 0)
    && (c[28] <==> x & 0x10000000 != 0) && (c[29] <==> x & 0x20000000 != 0)
    && (c[30] <==> x & 0x40000000 != 0) && (c[31] <==> x & 0x80000000 != 0)
  }

  // The same 32 bits.
  predicate Same(c: Register, x: bv32) {
    Same0(c, x) && Same1(c, x) && Same2(c, x) && Same3(c, x)
  }

  // The register does what the usual shift-and-xor does to a 32-bit word.
  lemma {:induction false} SameShifted(c: Register, x: bv32, bit: bool)
    requires Same(c, x)
    ensures Same(FeedBit(c, bit), ShiftIn(x, bit))
  {
    hide Same0, Same1, Same2, Same3, FeedBit, ShiftIn;
    SameShifted0(c, x, bit);
    SameShifted1(c, x, bit);
    SameShifted2(c, x, bit);
    SameShifted3(c, x, bit);
  }

  lemma {:induction false} SameShifted0(c: Register, x: bv32, bit: bool)
    requires Same0(c, x) && Same1(c, x)
    ensures Same0(FeedBit(c, bit), ShiftIn(x, bit))
  {
    hide Polynomial, FeedBit;
    FeedBitShape(c, bit);
    PolynomialBits();
  }

  lemma {:induction false} SameShifted1(c: Register, x: bv32, bit: bool)
    requires Same0(c, x) && Same1(c, x) && Same2(c, x)
    ensures Same1(FeedBit(c, bit), ShiftIn(x, bit))
  {
    hide Polynomial, FeedBit;
    FeedBitShape(c, bit);
    PolynomialBits();
  }

  lemma {:induction false} SameShifted2(c: Register, x: bv32, bit: bool)
    requires Same0(c, x) && Same2(c, x) && Same3(c, x)
    ensures Same2(FeedBit(c, bit), ShiftIn(x, bit))
  {
    hide Polynomial, FeedBit;
    FeedBitShape(c, bit);
    PolynomialBits();
  }

  lemma {:induction false} SameShifted3(c: Register, x: bv32, bit: bool)
    requires Same0(c, x) && Same3(c, x)
    ensures Same3(FeedBit(c, bit), ShiftIn(x, bit))
  {
    hide Polynomial, FeedBit;
    FeedBitShape(c, bit);
    PolynomialBits();
  }

  lemma {:induction false} SameByte(c: Register, x: bv32, bits: seq<bool>)
    requires Same(c, x) && |bits| == 8
    ensures Same(FeedBits(c, bits), ShiftByte(x, bits))
  {
    hide FeedBit, ShiftIn, Same;
    var (c1, x1) := (FeedBit(c, bits[0]), ShiftIn(x, bits[0]));
    SameShifted(c, x, bits[0]);
    var (c2, x2) := (FeedBit(c1, bits[1]), ShiftIn(x1, bits[1]));
    SameShifted(c1, x1, bits[1]);
    var (c3, x3) := (FeedBit(c2, bits[2]), ShiftIn(x2, bits[2]));
    SameShifted(c2, x2, bits[2]);
    var (c4, x4) := (FeedBit(c3, bits[3]), ShiftIn(x3, bits[3]));
    SameShifted(c3, x3, bits[3]);
    var (c5, x5) := (FeedBit(c4, bits[4]), ShiftIn(x4, bits[4]));
    SameShifted(c4, x4, bits[4]);
    var (c6, x6) := (FeedBit(c5, bits[5]), ShiftIn(x5, bits[5]));
    SameShifted(c5, x5, bits[5]);
    var (c7, x7) := (FeedBit(c6, bits[6]), ShiftIn(x6, bits[6]));
    SameShifted(c6, x6, bits[6]);
    SameShifted(c7, x7, bits[7]);
    EightFed(c, bits);
  }

  lemma {:induction false} EightFed(c: Register, b: seq<bool>)
    requires |b| == 8
    ensures FeedBits(c, b)
         == FeedBit(FeedBit(FeedBit(FeedBit(FeedBit(FeedBit(FeedBit(FeedBit(c, b[0]), b[1]), b[2]), b[3]), b[4]), b[5]), b[6]), b[7])
  {
    hide FeedBit;
    assert b[1..][1..] == b[2..] && b[2..][1..] == b[3..] && b[3..][1..] == b[4..] && b[4..][1..] == b[5..];
    assert b[5..][1..] == b[6..] && b[6..][1..] == b[7..] && b[7..][1..] == [];
    assert FeedBits(c, b) == FeedBits(FeedBit(FeedBit(c, b[0]), b[1]), b[2..]);
    var c2 := FeedBit(FeedBit(c, b[0]), b[1]);
    assert FeedBits(c2, b[2..]) == FeedBits(FeedBit(FeedBit(c2, b[2]), b[3]), b[4..]);
    var c4 := FeedBit(FeedBit(c2, b[2]), b[3]);
    assert FeedBits(c4, b[4..]) == FeedBits(FeedBit(FeedBit(c4, b[4]), b[5]), b[6..]);
    var c6 := FeedBit(FeedBit(c4, b[4]), b[5]);
    var c7 := FeedBit(c6, b[6]);
    assert FeedBits(c6, b[6..]) == FeedBits(c7, b[7..]) == FeedBits(FeedBit(c7, b[7]), []);
  }

  // ------------------------------------------------------------------
  // The published check value
  // ------------------------------------------------------------------

  // The ASCII digits 1 to 9.
  const DIGITS: seq<byte> := [0x31, 0x32, 0x33, 0x34, 0x35, 0x36, 0x37, 0x38, 0x39]

  lemma {:induction false} DigitFed(x: bv32, k: nat, bits: seq<bool>)
    requires k < |DIGITS| && Same(Feed(ONES, DIGITS[..k]), x) && bits == ToBits(8, DIGITS[k])
    ensures Same(Feed(ONES, DIGITS[..k + 1]), ShiftByte(x, bits))
  {
    hide Same, ShiftByte, FeedBits, ToBits;
    var m := DIGITS;
    assert m[..k + 1] == m[..k] + [m[k]];
    FeedConcat(ONES, m[..k], [m[k]]);
    assert BitsOf([m[k]]) == ToBits(8, m[k]) + BitsOf([]) == ToBits(8, m[k]);
    SameByte(Feed(ONES, m[..k]), x, bits);
  }

  lemma OnesSame()
    ensures Same(ONES, 0xFFFF_FFFF)
  {
    RepeatAll(true, 32);
  }

  // The bits of the digit whose low four bits are given.
  lemma {:induction false} DigitBits(b: byte, low: seq<bool>)
    requires 0x30 <= b < 0x40 && |low| == 4
    requires low == [b % 2 == 1, b / 2 % 2 == 1, b / 4 % 2 == 1, b / 8 % 2 == 1]
    ensures ToBits(8, b) == low + [true, true, false, false]
  {
    hide ToBits;
    Nibble(4, b);
    Nibble(0, 3);
    NoBits(0);
  }

  // The word after each digit.
  lemma {:induction false} Digit0()
    ensures Same(Feed(ONES, DIGITS[..0]), 0xFFFF_FFFF)
  {
    OnesSame();
    NothingFed(ONES);
  }

  lemma Shift1()
    ensures ShiftByte(0xFFFFFFFF, [true, false, false, false] + [true, true, false, false]) == 0x7C231048
  {
  }

  lemma {:induction false} Digit1()
    ensures Same(Feed(ONES, DIGITS[..1]), 0x7C231048)
  {
    hide Same, Feed, ShiftByte, ToBits;
    Digit0();
    Shift1();
    DigitBits(0x31, [true, false, false, false]);
    DigitFed(0xFFFFFFFF, 0, [true, false, false, false] + [true, true, false, false]);
  }

  lemma Shift2()
    ensures ShiftByte(0x7C231048, [false, true, false, false] + [true, true, false, false]) == 0xB0ACBB32
  {
  }

  lemma {:induction false} Digit2()
    ensures Same(Feed(ONES, DIGITS[..2]), 0xB0ACBB32)
  {
    hide Same, Feed, ShiftByte, ToBits;
    Digit1();
    Shift2();
    DigitBits(0x32, [false, true, false, false]);
    DigitFed(0x7C231048, 1, [false, true, false, false] + [true, true, false, false]);
  }

  lemma Shift3()
    ensures ShiftByte(0xB0ACBB32, [true, true, false, false] + [true, true, false, false]) == 0x77B79C2D
  {
  }

  lemma {:induction false} Digit3()
    ensures Same(Feed(ONES, DIGITS[..3]), 0x77B79C2D)
  {
    hide Same, Feed, ShiftByte, ToBits;
    Digit2();
    Shift3();
    DigitBits(0x33, [true, true, false, false]);
    DigitFed(0xB0ACBB32, 2, [true, true, false, false] + [true, true, false, false]);
  }

  lemma Shift4()
    ensures ShiftByte(0x77B79C2D, [false, false, true, false] + [true, true, false, false]) == 0x641C1F5C
  {
  }

  lemma {:induction false} Digit4()
    ensures Same(Feed(ONES, DIGITS[..4]), 0x641C1F5C)
  {
    hide Same, Feed, ShiftByte, ToBits;
    Digit3();
    Shift4();
    DigitBits(0x34, [false, false, true, false]);
    DigitFed(0x77B79C2D, 3, [false, false, true, false] + [true, true, false, false]);
  }

  lemma Shift5()
    ensures ShiftByte(0x641C1F5C, [true, false, true, false] + [true, true, false, false]) == 0x340AC5E3
  {
  }

  lemma {:induction false} Digit5()
    ensures Same(Feed(ONES, DIGITS[..5]), 0x340AC5E3)
  {
    hide Same, Feed, ShiftByte, ToBits;
    Digit4();
    Shift5();
    DigitBits(0x35, [true, false, true, false]);
    DigitFed(0x641C1F5C, 4, [true, false, true, false] + [true, true, false, false]);
  }

  lemma Shift6()
    ensures ShiftByte(0x340AC5E3, [false, true, true, false] + [true, true, false, false]) == 0xF68D2C9E
  {
  }

  lemma {:induction false} Digit6()
    ensures Same(Feed(ONES, DIGITS[..6]), 0xF68D2C9E)
  {
    hide Same, Feed, ShiftByte, ToBits;
    Digit5();
    Shift6();
    DigitBits(0x36, [false, true, true, false]);
    DigitFed(0x340AC5E3, 5, [false, true, true, false] + [true, true, false, false]);
  }

  lemma Shift7()
    ensures ShiftByte(0xF68D2C9E, [true, true, true, false] + [true, true, false, false]) == 0xAFFC9660
  {
  }

  lemma {:induction false} Digit7()
    ensures Same(Feed(ONES, DIGITS[..7]), 0xAFFC9660)
  {
    hide Same, Feed, ShiftByte, ToBits;
    Digit6();
    Shift7();
    DigitBits(0x37, [true, true, true, false]);
    DigitFed(0xF68D2C9E, 6, [true, true, true, false] + [true, true, false, false]);
  }

  lemma Shift8()
    ensures ShiftByte(0xAFFC9660, [false, false, false, true] + [true, true, false, false]) == 0x651F2550
  {
  }

  lemma {:induction false} Digit8()
    ensures Same(Feed(ONES, DIGITS[..8]), 0x651F2550)
  {
    hide Same, Feed, ShiftByte, ToBits;
    Digit7();
    Shift8();
    DigitBits(0x38, [false, false, false, true]);
    DigitFed(0xAFFC9660, 7, [false, false, false, true] + [true, true, false, false]);
  }

  lemma Shift9()
    ensures ShiftByte(0x651F2550, [true, false, false, true] + [true, true, false, false]) == 0x340BC6D9
  {
  }

  lemma {:induction false} Digit9()
    ensures Same(Feed(ONES, DIGITS[..9]), 0x340BC6D9)
  {
    hide Same, Feed, ShiftByte, ToBits;
    Digit8();
    Shift9();
    DigitBits(0x39, [true, false, false, true]);
    DigitFed(0x651F2550, 8, [true, false, false, true] + [true, true, false, false]);
  }

  function Weight(b: seq<bool>, i: nat): nat
    requires i + 4 <= |b|
  {
    (if b[i] then 1 else 0) + (if b[i + 1] then 2 else 0) + (if b[i + 2] then 4 else 0) + (if b[i + 3] then 8 else 0)
  }

  lemma {:induction false} FourBits(b: seq<bool>, i: nat)
    requires i + 4 <= |b|
    ensures FromBits(b[i..]) == Weight(b, i) + 16 * FromBits(b[i + 4..])
  {
    assert b[i..][1..] == b[i + 1..] && b[i + 1..][1..] == b[i + 2..];
    assert b[i + 2..][1..] == b[i + 3..] && b[i + 3..][1..] == b[i + 4..];
    assert FromBits(b[i..]) == (if b[i] then 1 else 0) + 2 * FromBits(b[i + 1..]);
    assert FromBits(b[i + 1..]) == (if b[i + 1] then 1 else 0) + 2 * FromBits(b[i + 2..]);
    assert FromBits(b[i + 2..]) == (if b[i + 2] then 1 else 0) + 2 * FromBits(b[i + 3..]);
  }

  lemma {:induction false} Complemented0(c: Register)
    requires Same0(c, 0x340BC6D9)
    ensures var b := XorBits(c, ONES);
      !b[0] && b[1] && b[2] && !b[3] && !b[4] && b[5] && !b[6] && !b[7]
  {
    RepeatAll(true, 32);
  }

  lemma {:induction false} Complemented1(c: Register)
    requires Same1(c, 0x340BC6D9)
    ensures var b := XorBits(c, ONES);
      b[8] && !b[9] && !b[10] && b[11] && b[12] && b[13] && !b[14] && !b[15]
  {
    RepeatAll(true, 32);
  }

  lemma {:induction false} Complemented2(c: Register)
    requires Same2(c, 0x340BC6D9)
    ensures var b := XorBits(c, ONES);
      !b[16] && !b[17] && b[18] && !b[19] && b[20] && b[21] && b[22] && b[23]
  {
    RepeatAll(true, 32);
  }

  lemma {:induction false} Complemented3(c: Register)
    requires Same3(c, 0x340BC6D9)
    ensures var b := XorBits(c, ONES);
      b[24] && b[25] && !b[26] && b[27] && !b[28] && !b[29] && b[30] && b[31]
  {
    RepeatAll(true, 32);
  }

  // The CRC-32 of the digits.
  lemma {:induction false} CheckValue()
    ensures Crc(DIGITS) == 0xCBF43926
  {
    hide Feed, XorBits, FromBits, Same0, Same1, Same2, Same3;
    Digit9();
    assert DIGITS[..9] == DIGITS;
    var c := Feed(ONES, DIGITS);
    Complemented0(c);
    Complemented1(c);
    Complemented2(c);
    Complemented3(c);
    var b := XorBits(c, ONES);
    FourBits(b, 0);
    FourBits(b, 4);
    FourBits(b, 8);
    FourBits(b, 12);
    FourBits(b, 16);
    FourBits(b, 20);
    FourBits(b, 24);
    FourBits(b, 28);
    NoValue(b[32..]);
    assert b[0..] == b;
  }

  lemma {:induction false} NoValue(bits: seq<bool>)
    requires bits == []
    ensures FromBits(bits) == 0
  {
  }
}
