// CRC-32 as in section 8 of RFC 1952 (the checksum that crc32fast's Hasher computes), in
// its bit-serial form: a 32-bit shift register, reflected polynomial 0xEDB88320, preset
// to all ones, result complemented; each byte enters least significant bit first.
module Crc32 {
  import opened Bytes

  // Bit i of the register has weight 2^i.
  type Register = c: seq<bool> | |c| == 32 witness Repeat(true, 32)

  const ONES: Register := Repeat(true, 32)

  function Repeat(b: bool, n: nat): (bits: seq<bool>)
    ensures |bits| == n
  {
    if n == 0 then [] else Repeat(b, n - 1) + [b]
  }

  // 0xEDB88320: the bits of 0xB88320 and then those of 0xED, least significant first.
  function Polynomial(): (p: Register)
    ensures p[31]
  {
    ToBits(24, 0xB88320) + [true, false, true, true, false, true, true, true]
  }

  // ------------------------------------------------------------------
  // Bits of integers and bytes
  // ------------------------------------------------------------------

  function ToBits(n: nat, x: nat): (bits: seq<bool>)
    ensures |bits| == n
  {
    if n == 0 then [] else [x % 2 == 1] + ToBits(n - 1, x / 2)
  }

  function FromBits(bits: seq<bool>): nat {
    if bits == [] then 0 else (if bits[0] then 1 else 0) + 2 * FromBits(bits[1..])
  }

  function BitsOf(bs: seq<byte>): (bits: seq<bool>)
    ensures |bits| == 8 * |bs|
  {
    if bs == [] then [] else ToBits(8, bs[0]) + BitsOf(bs[1..])
  }

  // ------------------------------------------------------------------
  // The checksum
  // ------------------------------------------------------------------

  function XorBits(a: seq<bool>, b: seq<bool>): (c: seq<bool>)
    requires |a| == |b|
    ensures |c| == |a| && forall i :: 0 <= i < |a| ==> c[i] == (a[i] != b[i])
  {
    if a == [] then [] else [a[0] != b[0]] + XorBits(a[1..], b[1..])
  }

  function FeedBit(c: Register, bit: bool): Register {
    var shifted := c[1..] + [false];
    if c[0] != bit then XorBits(shifted, Polynomial()) else shifted
  }

  function FeedBits(c: Register, bits: seq<bool>): Register
    decreases bits
  {
    if bits == [] then c else FeedBits(FeedBit(c, bits[0]), bits[1..])
  }

  // The register after a byte string has gone through it.
  function Feed(c: Register, bs: seq<byte>): Register {
    FeedBits(c, BitsOf(bs))
  }

  function Finish(c: Register): (crc: nat)
    ensures crc < U32
  {
    Widths();
    FromBitsBound(XorBits(c, ONES));
    FromBits(XorBits(c, ONES))
  }

  function Crc(bs: seq<byte>): (crc: nat)
    ensures crc < U32
  {
    Finish(Feed(ONES, bs))
  }

  // crc32fast's Hasher: `new`, `update` any number of times, `finalize`. `fed` is everything
  // it has been given.
  class Hasher {
    var register: Register
    ghost var fed: seq<byte>

    ghost predicate Valid()
      reads this
    {
      register == Feed(ONES, fed)
    }

    constructor ()
      ensures Valid() && fed == []
    {
      register, fed := ONES, [];
    }

    method Update(bs: seq<byte>)
      requires Valid()
      modifies this
      ensures Valid() && fed == old(fed) + bs
    {
      hide Feed;
      var i := 0;
      assert fed + bs[..0] == fed;
      while i < |bs|
        invariant i <= |bs|
        invariant Valid() && fed == old(fed) + bs[..i]
      {
        FeedConcat(ONES, fed, [bs[i]]);
        assert fed + [bs[i]] == old(fed) + bs[..i + 1];
        register := Feed(register, [bs[i]]);
        fed := fed + [bs[i]];
        i := i + 1;
      }
      assert bs[..i] == bs;
    }

    method Finalize() returns (crc: nat)
      requires Valid()
      ensures crc == Crc(fed)
    {
      crc := Finish(register);
    }
  }

  // ------------------------------------------------------------------
  // Proofs about bits
  // ------------------------------------------------------------------

  function Pow2(n: nat): nat {
    if n == 0 then 1 else 2 * Pow2(n - 1)
  }

  lemma {:induction false} FromBitsBelow(bits: seq<bool>)
    ensures FromBits(bits) < Pow2(|bits|)
  {
    if bits != [] {
      FromBitsBelow(bits[1..]);
    }
  }

  lemma {:induction false} Pow2Base(n: nat)
    ensures Pow2(8 * n) == Base(n)
  {
    if n > 0 {
      Pow2Base(n - 1);
      var m := 8 * (n - 1);
      assert Pow2(m + 4) == 16 * Pow2(m) by { assert Pow2(m + 2) == 4 * Pow2(m); }
      assert Pow2(m + 8) == 16 * Pow2(m + 4) by { assert Pow2(m + 6) == 4 * Pow2(m + 4); }
    }
  }

  lemma FromBitsBound(bits: seq<bool>)
    requires |bits| == 32
    ensures FromBits(bits) < U32
  {
    FromBitsBelow(bits);
    Pow2Base(4);
    Widths();
  }

  lemma {:induction false} FromBitsInjective(a: seq<bool>, b: seq<bool>)
    requires |a| == |b| && FromBits(a) == FromBits(b)
    ensures a == b
  {
    if a != [] {
      FromBitsInjective(a[1..], b[1..]);
      assert a == [a[0]] + a[1..] && b == [b[0]] + b[1..];
    }
  }

  lemma {:induction false} FromToBits(n: nat, x: nat)
    requires x < Pow2(n)
    ensures FromBits(ToBits(n, x)) == x
  {
    if n > 0 {
      FromToBits(n - 1, x / 2);
      assert ToBits(n, x)[1..] == ToBits(n - 1, x / 2);
    }
  }

  lemma ByteBitsInjective(x: byte, y: byte)
    requires ToBits(8, x) == ToBits(8, y)
    ensures x == y
  {
    assert Pow2(8) == 256;
    FromToBits(8, x);
    FromToBits(8, y);
  }

  lemma {:induction false} BitsConcat(a: seq<byte>, b: seq<byte>)
    ensures BitsOf(a + b) == BitsOf(a) + BitsOf(b)
  {
    if a == [] {
      assert a + b == b;
    } else {
      assert (a + b)[1..] == a[1..] + b;
      BitsConcat(a[1..], b);
    }
  }

  lemma {:induction false} BitsInjective(a: seq<byte>, b: seq<byte>)
    requires |a| == |b| && BitsOf(a) == BitsOf(b)
    ensures a == b
  {
    if a != [] {
      assert BitsOf(a)[..8] == ToBits(8, a[0]) && BitsOf(b)[..8] == ToBits(8, b[0]);
      assert BitsOf(a)[8..] == BitsOf(a[1..]) && BitsOf(b)[8..] == BitsOf(b[1..]);
      ByteBitsInjective(a[0], b[0]);
      BitsInjective(a[1..], b[1..]);
      assert a == [a[0]] + a[1..] && b == [b[0]] + b[1..];
    }
  }

  // ------------------------------------------------------------------
  // Proofs about the register
  // ------------------------------------------------------------------

  lemma {:induction false} FeedBitsConcat(c: Register, a: seq<bool>, b: seq<bool>)
    ensures FeedBits(c, a + b) == FeedBits(FeedBits(c, a), b)
    decreases a
  {
    if a == [] {
      assert a + b == b;
    } else {
      assert (a + b)[1..] == a[1..] + b;
      FeedBitsConcat(FeedBit(c, a[0]), a[1..], b);
    }
  }

  // Feeding two pieces one after the other is feeding their concatenation.
  lemma FeedConcat(c: Register, a: seq<byte>, b: seq<byte>)
    ensures Feed(c, a + b) == Feed(Feed(c, a), b)
  {
    BitsConcat(a, b);
    FeedBitsConcat(c, BitsOf(a), BitsOf(b));
  }

  // One step, bit by bit. The top coefficient of the polynomial is set, so the last bit of
  // the register shows whether the polynomial was added.
  lemma FeedBitShape(c: Register, bit: bool)
    ensures FeedBit(c, bit)[31] == (c[0] != bit)
    ensures forall i :: 0 <= i < 31 ==>
      FeedBit(c, bit)[i] == (c[i + 1] != (c[0] != bit && Polynomial()[i]))
  {
    hide Polynomial;
  }

  // If windows of k bits, k at most 32, lead from c and from d to the same register, then c
  // and d agree above bit k; and if c and d were equal, so were the windows.
  lemma {:induction false} WindowInjective(c: Register, d: Register, w: seq<bool>, w': seq<bool>)
    requires |w| == |w'| <= 32
    requires FeedBits(c, w) == FeedBits(d, w')
    ensures forall i :: |w| <= i < 32 ==> c[i] == d[i]
    ensures c == d ==> w == w'
    decreases |w|
  {
    hide Polynomial, FeedBit;
    if w != [] {
      WindowInjective(FeedBit(c, w[0]), FeedBit(d, w'[0]), w[1..], w'[1..]);
      FeedBitShape(c, w[0]);
      FeedBitShape(d, w'[0]);
      forall i | |w| <= i < 32 ensures c[i] == d[i] {
        assert FeedBit(c, w[0])[i - 1] == FeedBit(d, w'[0])[i - 1];
      }
      assert w == [w[0]] + w[1..] && w' == [w'[0]] + w'[1..];
    }
  }

  // Equal registers after the same bits were equal before them.
  lemma {:induction false} FeedInjective(c: Register, d: Register, bits: seq<bool>)
    requires FeedBits(c, bits) == FeedBits(d, bits)
    ensures c == d
    decreases bits
  {
    hide Polynomial, FeedBit;
    if bits != [] {
      var b := bits[0];
      FeedInjective(FeedBit(c, b), FeedBit(d, b), bits[1..]);
      FeedBitShape(c, b);
      FeedBitShape(d, b);
      forall i | 1 <= i < 32 ensures c[i] == d[i] {
        assert FeedBit(c, b)[i - 1] == FeedBit(d, b)[i - 1];
      }
    }
  }

  lemma FinishInjective(c: Register, d: Register)
    requires Finish(c) == Finish(d)
    ensures c == d
  {
    FromBitsInjective(XorBits(c, ONES), XorBits(d, ONES));
    forall i | 0 <= i < 32 ensures c[i] == d[i] {
      assert XorBits(c, ONES)[i] == XorBits(d, ONES)[i];
    }
  }

  lemma FeedSplit(c: Register, m: seq<byte>, i: nat, k: nat)
    requires i + k <= |m|
    ensures Feed(c, m) == Feed(Feed(Feed(c, m[..i]), m[i..i + k]), m[i + k..])
  {
    hide Feed;
    assert m == m[..i] + m[i..] && m[i..] == m[i..i + k] + m[i + k..];
    FeedConcat(c, m[..i], m[i..]);
    FeedConcat(Feed(c, m[..i]), m[i..i + k], m[i + k..]);
  }

  lemma WindowBytesInjective(c: Register, w: seq<byte>, w': seq<byte>)
    requires |w| == |w'| <= 4 && Feed(c, w) == Feed(c, w')
    ensures w == w'
  {
    hide FeedBits, BitsOf;
    WindowInjective(c, c, BitsOf(w), BitsOf(w'));
    BitsInjective(w, w');
  }

  // No change confined to four consecutive bytes goes undetected.
  lemma BurstDetected(m: seq<byte>, m': seq<byte>, i: nat, k: nat)
    requires k <= 4 && i + k <= |m| == |m'|
    requires m[..i] == m'[..i] && m[i + k..] == m'[i + k..]
    requires m != m'
    ensures Crc(m) != Crc(m')
  {
    hide FeedBits, BitsOf, Finish;
    var w, w' := m[i..i + k], m'[i..i + k];
    var c := Feed(ONES, m[..i]);
    assert w != w' by {
      assert m == m[..i] + w + m[i + k..] && m' == m'[..i] + w' + m'[i + k..];
    }
    FeedSplit(ONES, m, i, k);
    FeedSplit(ONES, m', i, k);
    if Crc(m) == Crc(m') {
      FinishInjective(Feed(ONES, m), Feed(ONES, m'));
      FeedInjective(Feed(c, w), Feed(c, w'), BitsOf(m[i + k..]));
      WindowBytesInjective(c, w, w');
    }
  }

  // ------------------------------------------------------------------
  // Four bytes is the longest span with that guarantee
  // ------------------------------------------------------------------

  // The 33 coefficients of the generator polynomial, padded to five bytes.
  function Generator(): (p: seq<bool>)
    ensures |p| == 40
  {
    [true] + Polynomial() + Repeat(false, 7)
  }

  function PackBits(bits: seq<bool>): (bs: seq<byte>)
    requires |bits| % 8 == 0
    ensures 8 * |bs| == |bits|
  {
    if bits == [] then [] else
      FromBitsBelow(bits[..8]);
      assert Pow2(8) == 256;
      [FromBits(bits[..8])] + PackBits(bits[8..])
  }

  // Flips the bits of the generator in five bytes.
  function FlipGenerator(w: seq<byte>): (w': seq<byte>)
    requires |w| == 5
    ensures |w'| == 5
  {
    PackBits(XorBits(BitsOf(w), Generator()))
  }

  // That change, at any place in any message, leaves the checksum as it was.
  lemma FiveByteChangeUndetected(m: seq<byte>, i: nat)
    requires i + 5 <= |m|
    ensures var m' := m[..i] + FlipGenerator(m[i..i + 5]) + m[i + 5..];
      |m'| == |m| && m' != m && Crc(m') == Crc(m)
  {
    hide Generator, FeedBits;
    var w := m[i..i + 5];
    var w' := FlipGenerator(w);
    var m' := m[..i] + w' + m[i + 5..];
    assert m'[..i] == m[..i] && m'[i..i + 5] == w' && m'[i + 5..] == m[i + 5..];
    FeedSplit(ONES, m, i, 5);
    FeedSplit(ONES, m', i, 5);
    BitsOfPack(XorBits(BitsOf(w), Generator()));
    GeneratorVanishes(Feed(ONES, m[..i]), BitsOf(w));
    GeneratorFirst();
    assert BitsOf(w')[0] != BitsOf(w)[0];
  }

  lemma GeneratorFirst()
    ensures Generator()[0]
    ensures Generator()[1..33] == Polynomial()
    ensures forall i :: 33 <= i < 40 ==> !Generator()[i]
  {
    hide Polynomial;
    RepeatAll(false, 7);
  }

  lemma {:induction false} RepeatAll(b: bool, n: nat)
    ensures forall i :: 0 <= i < n ==> Repeat(b, n)[i] == b
  {
    if n > 0 {
      RepeatAll(b, n - 1);
    }
  }

  lemma {:induction false} ToFromBits(bits: seq<bool>)
    ensures ToBits(|bits|, FromBits(bits)) == bits
  {
    if bits != [] {
      ToFromBits(bits[1..]);
    }
  }

  lemma {:induction false} BitsOfPack(bits: seq<bool>)
    requires |bits| % 8 == 0
    ensures BitsOf(PackBits(bits)) == bits
  {
    if bits != [] {
      BitsOfPack(bits[8..]);
      ToFromBits(bits[..8]);
      assert PackBits(bits)[1..] == PackBits(bits[8..]);
    }
  }

  lemma GeneratorVanishes(c: Register, w: seq<bool>)
    requires |w| == 40
    ensures FeedBits(c, XorBits(w, Generator())) == FeedBits(c, w)
  {
    hide Polynomial, Generator, FeedBit;
    var p := Generator();
    var c', d' := FeedBit(c, w[0]), FeedBit(c, !w[0]);
    GeneratorFirst();
    FeedBitShape(c, w[0]);
    FeedBitShape(c, !w[0]);
    assert XorBits(w, p)[1..] == XorBits(w[1..], p[1..]);
    forall i | 0 <= i < 32 ensures d'[i] == (c'[i] != p[1..][i]) {
      assert p[1..][i] == p[1..33][i];
    }
    Cancel(c', d', w[1..], p[1..]);
  }

  // Registers whose difference is still to come in the stream end up equal.
  lemma {:induction false} Cancel(c: Register, d: Register, w: seq<bool>, p: seq<bool>)
    requires |w| == |p|
    requires forall i :: 0 <= i < 32 ==> d[i] == (c[i] != (i < |p| && p[i]))
    requires forall i :: 32 <= i < |p| ==> !p[i]
    ensures FeedBits(d, XorBits(w, p)) == FeedBits(c, w)
    decreases |w|
  {
    hide Polynomial, FeedBit;
    if w == [] {
      assert c == d;
    } else {
      var flipped := XorBits(w, p);
      FeedBitShape(c, w[0]);
      FeedBitShape(d, flipped[0]);
      assert flipped[1..] == XorBits(w[1..], p[1..]);
      Cancel(FeedBit(c, w[0]), FeedBit(d, flipped[0]), w[1..], p[1..]);
    }
  }
}
