// Sums, sums of squares and sums of squared deviations of round-trip times.
module Moments {
  import opened Sorting

  function Total(xs: seq<nat>): nat {
    if xs == [] then 0 else xs[0] + Total(xs[1..])
  }

  function Sq(n: nat): nat {
    n * n
  }

  function Squares(xs: seq<nat>): nat {
    if xs == [] then 0 else Sq(xs[0]) + Squares(xs[1..])
  }

  function Square(x: real): real {
    x * x
  }

  // The sum of (a - x) * (a - x).
  function Deviations(a: real, xs: seq<nat>): real {
    if xs == [] then 0.0 else Square(a - xs[0] as real) + Deviations(a, xs[1..])
  }

  function Expanded(a: real, squares: real, total: real, n: real): real {
    squares - 2.0 * a * total + n * Square(a)
  }

  // Expanding the square turns deviations about any centre into the first two power sums.
  lemma {:induction false} DeviationsExpand(a: real, xs: seq<nat>)
    ensures Deviations(a, xs) == Expanded(a, Squares(xs) as real, Total(xs) as real, |xs| as real)
  {
    if xs == [] {
      ZeroTerms(a);
    } else {
      hide Square, Sq, Expanded;
      DeviationsExpand(a, xs[1..]);
      var s, t, n := Squares(xs[1..]), Total(xs[1..]), |xs[1..]|;
      ExpandStep(a, xs[0], s as real, t as real, n as real);
      assert Squares(xs) as real == Sq(xs[0]) as real + s as real;
      assert Total(xs) as real == xs[0] as real + t as real;
      assert |xs| as real == 1.0 + n as real;
    }
  }

  lemma ZeroTerms(a: real)
    ensures Expanded(a, 0.0, 0.0, 0.0) == 0.0
  {
  }

  lemma ExpandStep(a: real, x: nat, squares: real, total: real, n: real)
    ensures Square(a - x as real) + Expanded(a, squares, total, n)
         == Expanded(a, Sq(x) as real + squares, x as real + total, 1.0 + n)
  {
    var y := x as real;
    SqReal(x);
    assert Square(a - y) == y * y - 2.0 * a * y + Square(a);
    assert 2.0 * a * (y + total) == 2.0 * a * y + 2.0 * a * total;
    assert (1.0 + n) * Square(a) == Square(a) + n * Square(a);
  }

  lemma SqReal(x: nat)
    ensures Sq(x) as real == (x as real) * (x as real)
  {
  }

  lemma {:induction false} DeviationsNonNegative(a: real, xs: seq<nat>)
    ensures Deviations(a, xs) >= 0.0
  {
    if xs != [] {
      DeviationsNonNegative(a, xs[1..]);
      SquareNonNegative(a - xs[0] as real);
    }
  }

  lemma SquareNonNegative(x: real)
    ensures Square(x) >= 0.0
  {
  }

  lemma {:induction false} SumsSplit(xs: seq<nat>, i: nat)
    requires i < |xs|
    ensures Total(xs) == xs[i] + Total(xs[..i] + xs[i + 1..])
    ensures Squares(xs) == Sq(xs[i]) + Squares(xs[..i] + xs[i + 1..])
  {
    hide Sq;
    var rest := xs[..i] + xs[i + 1..];
    if i == 0 {
      assert rest == xs[1..];
    } else {
      SumsSplit(xs[1..], i - 1);
      assert rest[0] == xs[0] && rest[1..] == xs[1..][..i - 1] + xs[1..][i..];
    }
  }

  // The power sums forget the order.
  lemma {:induction false} SumsPermuted(xs: seq<nat>, ys: seq<nat>)
    requires multiset(xs) == multiset(ys)
    ensures Total(xs) == Total(ys) && Squares(xs) == Squares(ys)
  {
    hide Sq;
    if xs == [] {
      assert |multiset(ys)| == 0;
    } else {
      assert xs[0] in multiset(xs);
      var i :| 0 <= i < |ys| && ys[i] == xs[0];
      RemoveBoth(xs, ys, i);
      SumsPermuted(xs[1..], ys[..i] + ys[i + 1..]);
      SumsSplit(ys, i);
    }
  }

  // ------------------------------------------------------------------
  // Bounds
  // ------------------------------------------------------------------

  ghost predicate Within(xs: seq<nat>, lo: nat, hi: nat) {
    forall i :: 0 <= i < |xs| ==> lo <= xs[i] <= hi
  }

  lemma {:induction false} TotalBounds(xs: seq<nat>, lo: nat, hi: nat)
    requires Within(xs, lo, hi)
    ensures lo * |xs| <= Total(xs) <= hi * |xs|
  {
    if xs != [] {
      TotalBounds(xs[1..], lo, hi);
      Distribute(lo, |xs[1..]|, 1);
      Distribute(hi, |xs[1..]|, 1);
    }
  }

  // Every x in [lo, hi] has x * x <= (lo + hi) * x - lo * hi.
  lemma {:induction false} SquaresBound(xs: seq<nat>, lo: nat, hi: nat)
    requires Within(xs, lo, hi)
    ensures Squares(xs) + lo * hi * |xs| <= (lo + hi) * Total(xs)
  {
    hide Sq;
    if xs != [] {
      SquaresBound(xs[1..], lo, hi);
      BoundStep(xs[0], Total(xs[1..]), |xs[1..]|, Squares(xs[1..]), lo, hi);
    }
  }

  lemma BoundStep(x: nat, total: nat, n: nat, squares: nat, lo: nat, hi: nat)
    requires lo <= x <= hi && squares + lo * hi * n <= (lo + hi) * total
    ensures Sq(x) + squares + lo * hi * (n + 1) <= (lo + hi) * (x + total)
  {
    PointBound(x, lo, hi);
    Distribute(lo + hi, x, total);
    Distribute(lo * hi, n, 1);
  }

  lemma Distribute(a: int, x: int, y: int)
    ensures a * (x + y) == a * x + a * y
  {
  }

  lemma PointBound(x: nat, lo: nat, hi: nat)
    requires lo <= x <= hi
    ensures x * x + lo * hi <= (lo + hi) * x
  {
    assert (hi - x) * (x - lo) >= 0;
    assert (hi - x) * (x - lo) == (lo + hi) * x - x * x - lo * hi;
  }
}
