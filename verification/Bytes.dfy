// Bytes and the big-endian integer encodings that the `bytes` crate's put_u16/u32/u64
// and get_u16/u32/u64 use. Integers are unbounded here, so the width of a field is
// written out as a modulus.
module Bytes {
  type byte = b: int | 0 <= b < 256

  const U16: nat := 0x1_0000
  const U32: nat := 0x1_0000_0000
  const U64: nat := 0x1_0000_0000_0000_0000

  function Base(n: nat): (b: nat)
    ensures b > 0
  {
    if n == 0 then 1 else 256 * Base(n - 1)
  }

  lemma Widths()
    ensures Base(2) == U16 && Base(4) == U32 && Base(8) == U64
  {
  }

  // The n low-order bytes of x, most significant first.
  function PutBe(n: nat, x: nat): (s: seq<byte>)
    ensures |s| == n
  {
    if n == 0 then [] else PutBe(n - 1, x / 256) + [x % 256]
  }

  // The unsigned integer that a byte string spells, most significant byte first.
  function GetBe(s: seq<byte>): (x: nat)
    ensures x < Base(|s|)
  {
    if s == [] then 0 else 256 * GetBe(s[..|s| - 1]) + s[|s| - 1]
  }

  lemma {:induction false} GetPut(n: nat, x: nat)
    requires x < Base(n)
    ensures GetBe(PutBe(n, x)) == x
  {
    if n > 0 {
      GetPut(n - 1, x / 256);
      assert PutBe(n, x)[..n - 1] == PutBe(n - 1, x / 256);
    }
  }

  lemma {:induction false} PutGet(s: seq<byte>)
    ensures PutBe(|s|, GetBe(s)) == s
  {
    if s != [] {
      var init, last := s[..|s| - 1], s[|s| - 1];
      PutGet(init);
      assert s == init + [last];
      assert GetBe(s) / 256 == GetBe(init) && GetBe(s) % 256 == last;
    }
  }

  // ------------------------------------------------------------------
  // The bytes one by one
  // ------------------------------------------------------------------

  // Byte k of an n-byte field weighs 256^(n-1-k).
  lemma {:induction false} BigEndian(n: nat, x: nat, k: nat)
    requires k < n
    ensures PutBe(n, x)[k] == (x / Base(n - 1 - k)) % 256
  {
    if k == n - 1 {
      assert Base(0) == 1;
    } else {
      BigEndian(n - 1, x / 256, k);
      DivideTwice(x, Base(n - 2 - k));
    }
  }

  // The bytes are the big-endian notation of x.
  ghost predicate Spells(s: seq<byte>, x: nat) {
    forall k :: 0 <= k < |s| ==> s[k] == (x / Base(|s| - 1 - k)) % 256
  }

  lemma {:induction false} PutSpells(n: nat, x: nat)
    ensures Spells(PutBe(n, x), x)
  {
    hide PutBe, Base;
    forall k | 0 <= k < n ensures PutBe(n, x)[k] == (x / Base(n - 1 - k)) % 256 {
      BigEndian(n, x, k);
    }
  }

  lemma {:induction false} DivideTwice(x: nat, b: nat)
    requires b > 0
    ensures (x / 256) / b == x / (256 * b)
  {
    var q, s, r := (x / 256) / b, (x / 256) % b, x % 256;
    assert x == 256 * (b * q + s) + r;
    assert x == q * (256 * b) + (256 * s + r) by { Regroup(b, q, s, r); }
    QuotientIs(x, 256 * b, q, 256 * s + r);
  }

  lemma Regroup(b: nat, q: nat, s: nat, r: nat)
    ensures 256 * (b * q + s) + r == q * (256 * b) + (256 * s + r)
  {
  }

  lemma QuotientIs(x: nat, d: nat, q: nat, r: nat)
    requires x == q * d + r && r < d
    ensures x / d == q
  {
    var k: int := x / d - q;
    assert x == (x / d) * d + x % d;
    assert k * d == (x / d) * d - q * d == r - x % d;
    Multiple(k, d);
  }

  lemma Multiple(k: int, d: int)
    requires d >= 0
    ensures k > 0 ==> k * d >= d
    ensures k < 0 ==> k * d <= -d
  {
  }

  // A u16 in two bytes, and the u16 that two bytes spell.
  lemma {:induction false} HighByteFirst(x: nat)
    requires x < U16
    ensures PutBe(2, x) == [x / 256, x % 256]
  {
    assert PutBe(2, x) == PutBe(1, x / 256) + [x % 256];
    assert PutBe(1, x / 256) == PutBe(0, x / 256 / 256) + [x / 256 % 256];
  }

  function Word(high: byte, low: byte): (x: nat)
    ensures x < U16
  {
    high as int * 256 + low as int
  }

  lemma {:induction false} TwoBytes(b: seq<byte>)
    requires |b| == 2
    ensures GetBe(b) == Word(b[0], b[1])
  {
    assert b[..1] == [b[0]] && b[..1][..0] == [];
    assert GetBe(b) == 256 * GetBe(b[..1]) + b[1];
    assert GetBe(b[..1]) == 256 * GetBe([]) + b[0];
  }
}
