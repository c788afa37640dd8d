// Sums and squared deviations of any list of keyed elements, and the classical fact that a
// mean lies within one standard deviation of any median.
module Averages {
  import opened Sorting
  import opened Moments

  function SumBy<T>(xs: seq<T>, key: T -> real): real {
    if xs == [] then 0.0 else key(xs[0]) + SumBy(xs[1..], key)
  }

  // The sum of (x - a) * (x - a).
  function DeviationsBy<T>(xs: seq<T>, key: T -> real, a: real): real {
    if xs == [] then 0.0 else Square(key(xs[0]) - a) + DeviationsBy(xs[1..], key, a)
  }

  lemma {:induction false} DeviationsByNonNegative<T>(xs: seq<T>, key: T -> real, a: real)
    ensures DeviationsBy(xs, key, a) >= 0.0
  {
    if xs != [] {
      DeviationsByNonNegative(xs[1..], key, a);
      SquareNonNegative(key(xs[0]) - a);
    }
  }

  // What moving the centre from m to a adds, given n elements with sum t.
  function Shift(t: real, n: real, m: real, a: real): real {
    2.0 * (m - a) * (t - n * m) + n * Square(m - a)
  }

  lemma {:induction false} DeviationsShift<T>(xs: seq<T>, key: T -> real, m: real, a: real)
    ensures DeviationsBy(xs, key, a) == DeviationsBy(xs, key, m) + Shift(SumBy(xs, key), |xs| as real, m, a)
  {
    hide Square, Shift;
    if xs == [] {
      assert Shift(0.0, 0.0, m, a) == 0.0 by { ShiftNothing(m, a); }
    } else {
      DeviationsShift(xs[1..], key, m, a);
      ShiftStep(key(xs[0]), SumBy(xs[1..], key), |xs[1..]| as real, m, a);
      assert |xs| as real == 1.0 + |xs[1..]| as real;
    }
  }

  lemma ShiftNothing(m: real, a: real)
    ensures Shift(0.0, 0.0, m, a) == 0.0
  {
  }

  lemma ShiftStep(x: real, t: real, n: real, m: real, a: real)
    ensures Square(x - a) + Shift(t, n, m, a) == Square(x - m) + Shift(x + t, 1.0 + n, m, a)
  {
    var u, w := x - m, m - a;
    SquareOfSum(u, w);
    assert x - a == u + w;
    assert 2.0 * w * (x + t - (1.0 + n) * m) == 2.0 * w * u + 2.0 * w * (t - n * m) by {
      assert x + t - (1.0 + n) * m == u + (t - n * m);
    }
    assert (1.0 + n) * Square(w) == Square(w) + n * Square(w);
  }

  lemma SquareOfSum(u: real, w: real)
    ensures Square(u + w) == Square(u) + 2.0 * w * u + Square(w)
  {
  }

  function Copies(n: nat, s: real): real {
    n as real * s
  }

  // Every element at distance d - a or more contributes at least its square.
  lemma {:induction false} FarElements<T>(xs: seq<T>, key: T -> real, a: real, d: real)
    ensures d >= a ==> DeviationsBy(xs, key, a) >= Copies(CountAtLeast(xs, d, key), Square(d - a))
    ensures d <= a ==> DeviationsBy(xs, key, a) >= Copies(CountAtMost(xs, d, key), Square(d - a))
  {
    hide Square, Copies;
    var s := Square(d - a);
    if xs == [] {
      NoCopies(s);
    } else {
      FarElements(xs[1..], key, a, d);
      SquareNonNegative(key(xs[0]) - a);
      SquareOrder(key(xs[0]), a, d);
      OneMore(CountAtLeast(xs[1..], d, key), s);
      OneMore(CountAtMost(xs[1..], d, key), s);
    }
  }

  lemma NoCopies(s: real)
    ensures Copies(0, s) == 0.0
  {
  }

  lemma OneMore(n: nat, s: real)
    ensures Copies(1 + n, s) == s + Copies(n, s)
  {
  }

  lemma SquareOrder(x: real, a: real, d: real)
    ensures a <= d <= x || x <= d <= a ==> Square(d - a) <= Square(x - a)
  {
    var p, q := d - a, x - d;
    SquareOfSum(p, q);
    SquareNonNegative(q);
    assert p + q == x - a;
    if a <= d <= x {
      assert q * p >= 0.0;
    } else if x <= d <= a {
      assert (-q) * (-p) >= 0.0;
      assert (-q) * (-p) == q * p;
    }
  }

  // At least half of the elements lie on each side of d.
  ghost predicate IsMedian<T>(xs: seq<T>, key: T -> real, d: real) {
    2 * CountAtMost(xs, d, key) >= |xs| && 2 * CountAtLeast(xs, d, key) >= |xs|
  }

  lemma {:induction false} DeviationsFromMean<T>(xs: seq<T>, key: T -> real, m: real, a: real)
    requires SumBy(xs, key) == |xs| as real * m
    ensures DeviationsBy(xs, key, a) == DeviationsBy(xs, key, m) + |xs| as real * Square(m - a)
  {
    hide Square, Shift, SumBy;
    DeviationsShift(xs, key, m, a);
    ShiftAtMean(SumBy(xs, key), |xs| as real, m, a);
  }

  lemma ShiftAtMean(t: real, n: real, m: real, a: real)
    requires t == n * m
    ensures Shift(t, n, m, a) == n * Square(m - a)
  {
    assert t - n * m == 0.0;
  }

  // A centre as far on the other side of the mean as the median is on this side: half of the
  // elements are at twice that distance.
  lemma {:induction false} HalfIsFar<T>(xs: seq<T>, key: T -> real, a: real, t: real)
    requires IsMedian(xs, key, a + 2.0 * t)
    ensures DeviationsBy(xs, key, a) >= 2.0 * (|xs| as real * Square(t))
  {
    hide Square, DeviationsBy, CountAtLeast, CountAtMost;
    var d := a + 2.0 * t;
    FarElements(xs, key, a, d);
    assert d - a == 2.0 * t;
    Doubled(t);
    SquareNonNegative(t);
    if d >= a {
      HalfCount(CountAtLeast(xs, d, key), |xs|, Square(t));
    } else {
      HalfCount(CountAtMost(xs, d, key), |xs|, Square(t));
    }
  }

  // The mean and a median differ by at most one (population) standard deviation.
  lemma {:induction false} MeanNearMedian<T>(xs: seq<T>, key: T -> real, m: real, d: real)
    requires SumBy(xs, key) == |xs| as real * m && IsMedian(xs, key, d)
    ensures |xs| as real * Square(m - d) <= DeviationsBy(xs, key, m)
  {
    hide Square, SumBy, IsMedian, DeviationsBy;
    var t := d - m;
    var a := m - t;
    assert a + 2.0 * t == d;
    DeviationsFromMean(xs, key, m, a);
    HalfIsFar(xs, key, a, t);
    Doubled(t);
    assert m - a == t && m - d == -t;
  }

  lemma Doubled(t: real)
    ensures Square(2.0 * t) == 4.0 * Square(t) && Square(-t) == Square(t)
  {
  }

  lemma HalfCount(count: nat, n: nat, s: real)
    requires 2 * count >= n && s >= 0.0
    ensures Copies(count, 4.0 * s) >= 2.0 * (n as real * s)
  {
    var c, r := count as real, n as real;
    assert (2.0 * c - r) * s >= 0.0;
    assert (2.0 * c - r) * s == 2.0 * (c * s) - r * s;
  }

  // ------------------------------------------------------------------
  // Spread without a mean
  // ------------------------------------------------------------------

  // The sum of (x - y) * (x - y) over x in xs and y in ys.
  function PairSum<T>(xs: seq<T>, ys: seq<T>, key: T -> real): real {
    if ys == [] then 0.0 else DeviationsBy(xs, key, key(ys[0])) + PairSum(xs, ys[1..], key)
  }

  lemma {:induction false} PairSumAbout<T>(xs: seq<T>, ys: seq<T>, key: T -> real, m: real)
    requires SumBy(xs, key) == |xs| as real * m
    ensures PairSum(xs, ys, key) == |ys| as real * DeviationsBy(xs, key, m) + |xs| as real * DeviationsBy(ys, key, m)
  {
    hide Square;
    if ys != [] {
      PairSumAbout(xs, ys[1..], key, m);
      DeviationsFromMean(xs, key, m, key(ys[0]));
      Opposite(m, key(ys[0]));
      PairStep(|xs| as real, DeviationsBy(xs, key, m), |ys[1..]| as real,
               Square(key(ys[0]) - m), DeviationsBy(ys[1..], key, m));
      assert |ys| as real == |ys[1..]| as real + 1.0;
    }
  }

  lemma Opposite(x: real, y: real)
    ensures Square(x - y) == Square(y - x)
  {
  }

  lemma PairStep(n: real, d: real, k: real, s: real, e: real)
    ensures (d + n * s) + (k * d + n * e) == (k + 1.0) * d + n * (s + e)
  {
  }

  // Over all pairs of elements, the squared differences sum to twice n times the deviations
  // from the mean.
  lemma {:induction false} PairwiseSpread<T>(xs: seq<T>, key: T -> real, m: real)
    requires SumBy(xs, key) == |xs| as real * m
    ensures PairSum(xs, xs, key) == 2.0 * (|xs| as real * DeviationsBy(xs, key, m))
  {
    PairSumAbout(xs, xs, key, m);
  }
}
