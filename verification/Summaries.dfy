// One metric over several runs: `summarize` and its table of critical values.
module Summaries {
  import opened Sorting
  import opened Moments
  import opened Averages
  import opened SingleRun

  datatype Summary = Summary(
    median: real, mean: real, stddev: real, ciLow: real, ciHigh: real,
    min: real, max: real, values: seq<real>)

  // The values change at n = 16, 21 and 31; between those the table is flat.
  function TCritical95(n: nat): real {
    if n <= 1 then 0.0
    else if n == 2 then 12.706
    else if n == 3 then 4.303
    else if n == 4 then 3.182
    else if n == 5 then 2.776
    else if n == 6 then 2.571
    else if n == 7 then 2.447
    else if n == 8 then 2.365
    else if n == 9 then 2.306
    else if n == 10 then 2.262
    else if n == 11 then 2.228
    else if n == 12 then 2.201
    else if n == 13 then 2.179
    else if n == 14 then 2.160
    else if n == 15 then 2.145
    else if n <= 20 then 2.086
    else if n <= 30 then 2.042
    else 1.960
  }

  function Mean(values: seq<real>): real
    requires values != []
  {
    SumBy(values, RealKey) / |values| as real
  }

  function SampleVariance(values: seq<real>): real
    requires values != []
  {
    if |values| > 1 then DeviationsBy(values, RealKey, Mean(values)) / (|values| as real - 1.0) else 0.0
  }

  function Middle(sorted: seq<real>): real
    requires sorted != []
  {
    var half := |sorted| / 2;
    if |sorted| % 2 == 0 then (sorted[half - 1] + sorted[half]) / 2.0 else sorted[half]
  }

  function Margin(n: nat, stddev: real, sqrt: real -> real): real
    requires n > 0 && IsSqrt(sqrt)
  {
    RootPositive(n as real, sqrt);
    TCritical95(n) * stddev / sqrt(n as real)
  }

  function Summarize(values: seq<real>, sqrt: real -> real): Summary
    requires IsSqrt(sqrt)
  {
    if values == [] then Summary(0.0, 0.0, 0.0, 0.0, 0.0, 0.0, 0.0, []) else
    var mean := Mean(values);
    var stddev := sqrt(SampleVariance(values));
    var sorted := Sort(values, RealKey);
    var margin := Margin(|values|, stddev, sqrt);
    Summary(Middle(sorted), mean, stddev, mean - margin, mean + margin,
            sorted[0], sorted[|sorted| - 1], values)
  }

  lemma RootPositive(x: real, sqrt: real -> real)
    requires x > 0.0 && IsSqrt(sqrt)
    ensures sqrt(x) > 0.0
  {
    assert Square(sqrt(x)) == x;
  }

  // ------------------------------------------------------------------
  // Where the figures lie
  // ------------------------------------------------------------------

  lemma {:induction false} SumByBounds(values: seq<real>, lo: real, hi: real)
    requires forall i :: 0 <= i < |values| ==> lo <= values[i] <= hi
    ensures lo * |values| as real <= SumBy(values, RealKey) <= hi * |values| as real
  {
    if values != [] {
      SumByBounds(values[1..], lo, hi);
      assert |values| as real == |values[1..]| as real + 1.0;
      AddOne(lo, |values[1..]| as real);
      AddOne(hi, |values[1..]| as real);
    }
  }

  lemma AddOne(x: real, n: real)
    ensures x * (n + 1.0) == x * n + x
  {
  }

  lemma {:induction false} SortedAround(values: seq<real>, k: nat)
    requires k < |values|
    ensures var sorted := Sort(values, RealKey);
      && sorted[k] in values
      && (exists j :: 0 <= j < |values| && values[k] == sorted[j])
      && sorted[0] <= sorted[k] <= sorted[|sorted| - 1]
  {
    hide Sort;
    var sorted := Sort(values, RealKey);
    SortSorts(values, RealKey);
    assert sorted[k] in multiset(values) && values[k] in multiset(sorted);
    assert RealKey(sorted[0]) <= RealKey(sorted[k]) <= RealKey(sorted[|sorted| - 1]);
  }

  lemma {:induction false} Extremes(values: seq<real>, lo: real, hi: real)
    requires values != [] && lo == Sort(values, RealKey)[0] && hi == Sort(values, RealKey)[|values| - 1]
    ensures lo in values && hi in values
    ensures forall i :: 0 <= i < |values| ==> lo <= values[i] <= hi
  {
    hide Sort;
    SortedAround(values, 0);
    SortedAround(values, |values| - 1);
    forall i | 0 <= i < |values| ensures lo <= values[i] <= hi {
      SortedAround(values, i);
      var j :| 0 <= j < |values| && values[i] == Sort(values, RealKey)[j];
      SortedAround(values, j);
    }
  }

  lemma {:induction false} SampleVarianceNonNegative(values: seq<real>)
    requires values != []
    ensures SampleVariance(values) >= 0.0
  {
    hide DeviationsBy, Mean;
    DeviationsByNonNegative(values, RealKey, Mean(values));
    if |values| > 1 {
      QuotientNonNegative(DeviationsBy(values, RealKey, Mean(values)), |values| as real - 1.0);
    }
  }

  lemma {:induction false} MarginNonNegative(n: nat, stddev: real, sqrt: real -> real)
    requires n > 0 && IsSqrt(sqrt) && stddev >= 0.0
    ensures Margin(n, stddev, sqrt) >= 0.0
    ensures Margin(n, stddev, sqrt) == 0.0 <==> n == 1 || stddev == 0.0
  {
    hide IsSqrt;
    RootPositive(n as real, sqrt);
    CriticalPositive(n);
    hide TCritical95;
    Quotient(TCritical95(n), stddev, sqrt(n as real));
  }

  lemma CriticalPositive(n: nat)
    ensures TCritical95(n) >= 0.0 && (TCritical95(n) == 0.0 <==> n <= 1)
  {
  }

  lemma Quotient(t: real, s: real, r: real)
    requires t >= 0.0 && s >= 0.0 && r > 0.0
    ensures t * s / r >= 0.0 && (t * s / r == 0.0 <==> t == 0.0 || s == 0.0)
  {
    ScaledVariance(r, t * s);
    QuotientNonNegative(t * s, r);
    if t > 0.0 && s > 0.0 {
      PositiveProduct(t, s);
    }
  }

  // From two runs on, a further run never widens the interval's critical value, and it
  // never falls below the normal one.
  lemma CriticalDecreases(n: nat, k: nat)
    requires 2 <= n <= k
    ensures 1.960 <= TCritical95(k) <= TCritical95(n)
  {
  }

  // The whole table, in thousandths.
  lemma TableValues(n: nat)
    ensures var thousandths :=
        if n < 2 then 0
        else if n <= 15 then [12706, 4303, 3182, 2776, 2571, 2447, 2365, 2306, 2262, 2228, 2201, 2179, 2160, 2145][n - 2]
        else if n <= 20 then 2086 else if n <= 30 then 2042 else 1960;
      1000.0 * TCritical95(n) == thousandths as real
  {
  }

  // The normal value is used from 31 runs on and not before; at 30 the table still has a t
  // value.
  lemma NormalFrom31(n: nat)
    ensures TCritical95(n) == 1.960 <==> n >= 31
    ensures TCritical95(30) == 2.042
    ensures (n >= 30 ==> TCritical95(n) == 1.960) <==> n != 30
  {
  }

  // Median and mean lie between the extremes, which were observed; the confidence interval
  // is centred on the mean; and mean and median differ by at most one standard deviation.
  lemma {:induction false} SummaryOrdered(values: seq<real>, sqrt: real -> real)
    requires values != [] && IsSqrt(sqrt)
    ensures var s := Summarize(values, sqrt);
      && s.min in values && s.max in values && (forall v :: v in values ==> s.min <= v <= s.max)
      && s.min <= s.median <= s.max
      && s.min <= s.mean <= s.max
      && s.ciLow <= s.mean <= s.ciHigh && s.mean - s.ciLow == s.ciHigh - s.mean
      && -s.stddev <= s.mean - s.median <= s.stddev
  {
    hide Sort, Margin, SampleVariance, IsSqrt, CountAtMost, CountAtLeast;
    var s := Summarize(values, sqrt);
    Extremes(values, s.min, s.max);
    MiddleBetween(values);
    SumByBounds(values, s.min, s.max);
    AverageBetween(SumBy(values, RealKey), |values| as real, s.min, s.max);
    RootOfVariance(values, sqrt);
    MarginNonNegative(|values|, s.stddev, sqrt);
    SummaryMeanNearMedian(values, sqrt);
  }

  lemma {:induction false} RootOfVariance(values: seq<real>, sqrt: real -> real)
    requires values != [] && IsSqrt(sqrt)
    ensures sqrt(SampleVariance(values)) >= 0.0
    ensures Square(sqrt(SampleVariance(values))) == SampleVariance(values)
  {
    SampleVarianceNonNegative(values);
  }

  lemma {:induction false} MiddleBetween(values: seq<real>)
    requires values != []
    ensures var sorted := Sort(values, RealKey);
      sorted[0] <= Middle(sorted) <= sorted[|sorted| - 1]
  {
    hide Sort;
    var half := |values| / 2;
    SortedAround(values, half);
    if |values| % 2 == 0 {
      SortedAround(values, half - 1);
    }
  }

  // ------------------------------------------------------------------
  // The median
  // ------------------------------------------------------------------

  // At least half of the values lie on each side of the median.
  lemma {:induction false} MedianSplits(values: seq<real>)
    requires values != []
    ensures IsMedian(values, RealKey, Middle(Sort(values, RealKey)))
  {
    hide Sort;
    var sorted := Sort(values, RealKey);
    SortSorts(values, RealKey);
    var half := |sorted| / 2;
    var d := Middle(sorted);
    var below := if |sorted| % 2 == 0 then half else half + 1;
    MiddleSeparates(sorted, d, below, half);
    CountPrefix(sorted, d, RealKey, below);
    CountSuffix(sorted, d, RealKey, half);
    CountsPermuted(values, sorted, d, RealKey);
  }

  // With the values put in order: the middle one, or the half-way point of the two in the middle,
  // is the median, and the ends are the extremes. No values give zeros.
  lemma {:induction false} MedianOfOrdered(values: seq<real>, ordered: seq<real>, sqrt: real -> real)
    requires IsSqrt(sqrt) && multiset(ordered) == multiset(values)
    requires forall i, j :: 0 <= i < j < |ordered| ==> ordered[i] <= ordered[j]
    ensures var s := Summarize(values, sqrt);
      var n := |ordered|;
      && n == |values|
      && (n == 0 ==> s.median == s.mean == s.stddev == s.ciLow == s.ciHigh == s.min == s.max == 0.0)
      && (n % 2 == 1 ==> s.median == ordered[n / 2])
      && (n > 0 && n % 2 == 0 ==> 2.0 * s.median == ordered[n / 2 - 1] + ordered[n / 2])
      && (n > 0 ==> s.min == ordered[0] && s.max == ordered[n - 1])
  {
    hide Sort, IsSqrt, SampleVariance, Margin, Mean;
    LengthPermuted(ordered, values);
    var sorted := Sort(values, RealKey);
    SortSorts(values, RealKey);
    assert Distinguishes(RealKey, sorted);
    assert Sorted(ordered, RealKey);
    SortedUnique(sorted, ordered, RealKey);
  }

  lemma {:induction false} MiddleSeparates(sorted: seq<real>, d: real, below: nat, half: nat)
    requires Sorted(sorted, RealKey) && sorted != [] && half == |sorted| / 2 && d == Middle(sorted)
    requires below == (if |sorted| % 2 == 0 then half else half + 1)
    ensures forall i :: 0 <= i < below ==> RealKey(sorted[i]) <= d
    ensures forall i :: half <= i < |sorted| ==> RealKey(sorted[i]) >= d
  {
    if |sorted| % 2 == 0 {
      assert RealKey(sorted[half - 1]) <= RealKey(sorted[half]);
    }
    forall i | 0 <= i < below ensures RealKey(sorted[i]) <= d {
      assert i < below - 1 ==> RealKey(sorted[i]) <= RealKey(sorted[below - 1]);
    }
    forall i | half <= i < |sorted| ensures RealKey(sorted[i]) >= d {
      assert half < i ==> RealKey(sorted[half]) <= RealKey(sorted[i]);
    }
  }

  // The values negated, in reverse.
  function Mirror(xs: seq<real>): (ys: seq<real>)
    ensures |ys| == |xs|
  {
    if xs == [] then [] else Mirror(xs[1..]) + [-xs[0]]
  }

  lemma {:induction false} MirrorAt(xs: seq<real>)
    ensures forall k :: 0 <= k < |xs| ==> Mirror(xs)[k] == -xs[|xs| - 1 - k]
  {
    if xs != [] {
      MirrorAt(xs[1..]);
    }
  }

  lemma {:induction false} MirrorCounts(xs: seq<real>, v: real)
    ensures multiset(Mirror(xs))[v] == multiset(xs)[-v]
  {
    hide Mirror;
    MirrorStep(xs);
    if xs != [] {
      MirrorCounts(xs[1..], v);
      OneMoreEach(xs[0], xs[1..], Mirror(xs[1..]), v);
    }
  }

  lemma {:induction false} OneMoreEach(x: real, xs: seq<real>, ys: seq<real>, v: real)
    requires multiset(ys)[v] == multiset(xs)[-v]
    ensures multiset(ys + [-x])[v] == multiset([x] + xs)[-v]
  {
    OneMoreLast(ys, -x, v);
    OneMoreFirst(x, xs, -v);
  }

  lemma {:induction false} MirrorStep(xs: seq<real>)
    ensures xs == [] ==> Mirror(xs) == []
    ensures xs != [] ==> xs == [xs[0]] + xs[1..] && Mirror(xs) == Mirror(xs[1..]) + [-xs[0]]
  {
  }

  lemma {:induction false} OneMoreLast(ys: seq<real>, y: real, v: real)
    ensures multiset(ys + [y])[v] == multiset(ys)[v] + if v == y then 1 else 0
  {
  }

  lemma {:induction false} OneMoreFirst(y: real, ys: seq<real>, v: real)
    ensures multiset([y] + ys)[v] == multiset(ys)[v] + if v == y then 1 else 0
  {
  }

  lemma {:induction false} MirrorSorts(values: seq<real>)
    ensures Sort(Mirror(values), RealKey) == Mirror(Sort(values, RealKey))
  {
    hide Sort, Mirror;
    var sorted := Sort(values, RealKey);
    SortSorts(values, RealKey);
    SortSorts(Mirror(values), RealKey);
    forall v ensures multiset(Mirror(sorted))[v] == multiset(Mirror(values))[v] {
      MirrorCounts(sorted, v);
      MirrorCounts(values, v);
    }
    assert multiset(Mirror(sorted)) == multiset(Mirror(values));
    MirrorAt(sorted);
    forall i, j | 0 <= i < j < |sorted| ensures RealKey(Mirror(sorted)[i]) <= RealKey(Mirror(sorted)[j]) {
      assert RealKey(sorted[|sorted| - 1 - j]) <= RealKey(sorted[|sorted| - 1 - i]);
    }
    SortedUnique(Sort(Mirror(values), RealKey), Mirror(sorted), RealKey);
  }

  // The median favours neither side: negating every value negates it. So of two middle
  // values it takes the point halfway.
  lemma {:induction false} MedianMirrored(values: seq<real>)
    requires values != []
    ensures Middle(Sort(Mirror(values), RealKey)) == -Middle(Sort(values, RealKey))
  {
    hide Sort, Mirror;
    MirrorSorts(values);
    MirrorAt(Sort(values, RealKey));
  }

  lemma {:induction false} SummaryMeanNearMedian(values: seq<real>, sqrt: real -> real)
    requires values != [] && IsSqrt(sqrt)
    ensures var s := Summarize(values, sqrt); -s.stddev <= s.mean - s.median <= s.stddev
  {
    hide Sort, Margin, IsSqrt, Square, DeviationsBy, Middle, IsMedian, SumBy;
    var n := |values| as real;
    var m, d := Mean(values), Middle(Sort(values, RealKey));
    var dev := DeviationsBy(values, RealKey, m);
    RootOfVariance(values, sqrt);
    MedianSplits(values);
    ScaledVariance(n, SumBy(values, RealKey));
    MeanNearMedian(values, RealKey, m, d);
    SquareNonNegative(m - d);
    if |values| == 1 {
      SingleDeviation(values, m);
      SquareZero(m - d);
      assert m - d == 0.0;
    } else {
      ScaledVariance(n - 1.0, dev);
      FewerCopies(n, Square(m - d), dev);
      CancelLe(n - 1.0, Square(m - d), SampleVariance(values));
      WithinRoot(m - d, sqrt(SampleVariance(values)));
    }
  }

  lemma {:induction false} SingleDeviation(values: seq<real>, m: real)
    requires |values| == 1 && m == Mean(values)
    ensures DeviationsBy(values, RealKey, m) == 0.0
  {
    assert values[1..] == [];
    assert SumBy(values, RealKey) == values[0] + SumBy(values[1..], RealKey);
  }

  lemma SquareZero(x: real)
    requires Square(x) <= 0.0
    ensures x == 0.0
  {
    if x > 0.0 {
      PositiveProduct(x, x);
    } else if x < 0.0 {
      PositiveProduct(-x, -x);
    }
  }

  lemma FewerCopies(n: real, s: real, dev: real)
    requires n > 1.0 && s >= 0.0 && n * s <= dev
    ensures (n - 1.0) * s <= dev
  {
    assert (n - 1.0) * s == n * s - s;
  }

  // ------------------------------------------------------------------
  // Standard deviation and interval
  // ------------------------------------------------------------------

  // stddev^2 is half the mean squared difference of two different runs, and the squared half
  // width of the interval is t^2 * stddev^2 / n.
  lemma {:induction false} SpreadMeaning(values: seq<real>, sqrt: real -> real)
    requires |values| > 1 && IsSqrt(sqrt)
    ensures var s := Summarize(values, sqrt);
      var n := |values| as real;
      && 2.0 * (n * ((n - 1.0) * Square(s.stddev))) == PairSum(values, values, RealKey)
      && n * Square(s.ciHigh - s.mean) == Square(TCritical95(|values|)) * Square(s.stddev)
  {
    hide Sort, IsSqrt, Square, DeviationsBy, Middle, SumBy, TCritical95, PairSum, Mean, Margin, SampleVariance;
    var n := |values| as real;
    var s := Summarize(values, sqrt);
    RootOfVariance(values, sqrt);
    VarianceDeviations(values);
    assert (n - 1.0) * Square(s.stddev) == DeviationsBy(values, RealKey, Mean(values));
    PairwiseSpread(values, RealKey, Mean(values));
    assert 2.0 * (n * ((n - 1.0) * Square(s.stddev))) == PairSum(values, values, RealKey);
    MarginSquared(|values|, s.stddev, sqrt);
    assert s.ciHigh - s.mean == Margin(|values|, s.stddev, sqrt);
  }

  function Sum(values: seq<real>): real {
    if values == [] then 0.0 else values[0] + Sum(values[1..])
  }

  lemma {:induction false} SumsAgree(values: seq<real>)
    ensures Sum(values) == SumBy(values, RealKey)
  {
    if values != [] {
      SumsAgree(values[1..]);
    }
  }

  // The mean is the sum over the number of runs, and both ends of the interval lie around it at
  // the distance whose square, times n, is t^2 * stddev^2.
  lemma {:induction false} MeanAndInterval(values: seq<real>, sqrt: real -> real)
    requires values != [] && IsSqrt(sqrt)
    ensures var s := Summarize(values, sqrt);
      var n := |values| as real;
      && n * s.mean == Sum(values)
      && n * Square(s.ciLow - s.mean) == Square(TCritical95(|values|)) * Square(s.stddev)
      && n * Square(s.ciHigh - s.mean) == Square(TCritical95(|values|)) * Square(s.stddev)
      && s.values == values
  {
    hide Sort, IsSqrt, Square, DeviationsBy, Middle, SumBy, Sum, TCritical95, Margin, SampleVariance;
    var s := Summarize(values, sqrt);
    var margin := Margin(|values|, s.stddev, sqrt);
    SumsAgree(values);
    ScaledVariance(|values| as real, SumBy(values, RealKey));
    MarginSquared(|values|, s.stddev, sqrt);
    assert s.ciHigh - s.mean == margin && s.ciLow - s.mean == -margin;
    SquareOfNegative(margin);
  }

  lemma SquareOfNegative(x: real)
    ensures Square(-x) == Square(x)
  {
  }

  lemma {:induction false} VarianceDeviations(values: seq<real>)
    requires |values| > 1
    ensures (|values| as real - 1.0) * SampleVariance(values) == DeviationsBy(values, RealKey, Mean(values))
    ensures SumBy(values, RealKey) == |values| as real * Mean(values)
  {
    hide DeviationsBy, SumBy;
    ScaledVariance(|values| as real - 1.0, DeviationsBy(values, RealKey, Mean(values)));
    ScaledVariance(|values| as real, SumBy(values, RealKey));
  }

  lemma {:induction false} MarginSquared(n: nat, stddev: real, sqrt: real -> real)
    requires n > 0 && IsSqrt(sqrt)
    ensures n as real * Square(Margin(n, stddev, sqrt)) == Square(TCritical95(n)) * Square(stddev)
  {
    SquareOfProduct(TCritical95(n), stddev);
    hide TCritical95;
    RootPositive(n as real, sqrt);
    var root, x := sqrt(n as real), TCritical95(n) * stddev;
    assert Square(root) == n as real;
    hide IsSqrt, Square;
    ScaledVariance(root, x);
    SquareOfProduct(root, x / root);
  }

  lemma SquareOfProduct(a: real, b: real)
    ensures Square(a * b) == Square(a) * Square(b)
  {
    assert (a * b) * (a * b) == (a * a) * (b * b);
  }

  // ------------------------------------------------------------------
  // Runs that agree
  // ------------------------------------------------------------------

  ghost predicate AllEqual(values: seq<real>, v: real) {
    forall i :: 0 <= i < |values| ==> values[i] == v
  }

  lemma {:induction false} NoDeviations(values: seq<real>, a: real)
    ensures DeviationsBy(values, RealKey, a) == 0.0 <==> AllEqual(values, a)
  {
    hide Square;
    if values != [] {
      NoDeviations(values[1..], a);
      DeviationsByNonNegative(values[1..], RealKey, a);
      SquareNonNegative(values[0] - a);
      SquareIsZero(values[0] - a);
      assert AllEqual(values, a) <==> values[0] == a && AllEqual(values[1..], a) by {
        AllEqualCons(values, a);
      }
    }
  }

  lemma {:induction false} AllEqualCons(values: seq<real>, a: real)
    requires values != []
    ensures AllEqual(values, a) <==> values[0] == a && AllEqual(values[1..], a)
  {
    assert values == [values[0]] + values[1..];
  }

  lemma SquareIsZero(x: real)
    ensures Square(x) == 0.0 <==> x == 0.0
  {
    if Square(x) == 0.0 {
      SquareZero(x);
    }
  }

  // Runs that all give v are summarised by v in every place.
  lemma {:induction false} AgreeingRuns(values: seq<real>, v: real, sqrt: real -> real)
    requires values != [] && AllEqual(values, v) && IsSqrt(sqrt)
    ensures Summarize(values, sqrt) == Summary(v, v, 0.0, v, v, v, v, values)
  {
    hide Sort, Margin, SampleVariance, IsSqrt, CountAtMost, CountAtLeast, Middle;
    var s := Summarize(values, sqrt);
    SummaryOrdered(values, sqrt);
    assert s.min == v == s.max;
    AgreeingVariance(values, v);
    RootOfVariance(values, sqrt);
    SquareIsZero(s.stddev);
    MarginNonNegative(|values|, s.stddev, sqrt);
  }

  lemma {:induction false} AgreeingVariance(values: seq<real>, v: real)
    requires values != [] && AllEqual(values, v)
    ensures SampleVariance(values) == 0.0
  {
    hide DeviationsBy, AllEqual;
    MeanOfEqual(values, v);
    NoDeviations(values, v);
    if |values| > 1 {
      NoQuotient(|values| as real - 1.0);
    }
  }

  lemma NoQuotient(n: real)
    requires n > 0.0
    ensures 0.0 / n == 0.0
  {
  }

  lemma {:induction false} MeanOfEqual(values: seq<real>, v: real)
    requires values != [] && AllEqual(values, v)
    ensures Mean(values) == v
  {
    hide SumBy;
    SumByBounds(values, v, v);
    AverageBetween(SumBy(values, RealKey), |values| as real, v, v);
  }

  // With two runs or more, the standard deviation and the width of the interval vanish
  // exactly when all runs agree.
  lemma {:induction false} SpreadVanishes(values: seq<real>, sqrt: real -> real)
    requires |values| > 1 && IsSqrt(sqrt)
    ensures var s := Summarize(values, sqrt);
      && (s.stddev == 0.0 <==> AllEqual(values, values[0]))
      && (s.ciLow == s.ciHigh <==> AllEqual(values, values[0]))
  {
    hide Sort, Margin, SampleVariance, IsSqrt, Middle;
    var s := Summarize(values, sqrt);
    RootOfVariance(values, sqrt);
    MarginNonNegative(|values|, s.stddev, sqrt);
    SquareIsZero(s.stddev);
    if s.stddev == 0.0 {
      VarianceVanishes(values);
    }
    if AllEqual(values, values[0]) {
      AgreeingVariance(values, values[0]);
    }
  }

  lemma {:induction false} VarianceVanishes(values: seq<real>)
    requires |values| > 1 && SampleVariance(values) == 0.0
    ensures AllEqual(values, values[0])
  {
    hide DeviationsBy, Mean;
    var m := Mean(values);
    ScaledVariance(|values| as real - 1.0, DeviationsBy(values, RealKey, m));
    NoDeviations(values, m);
  }

  // ------------------------------------------------------------------
  // Order independence
  // ------------------------------------------------------------------

  lemma {:induction false} SumsBySplit(values: seq<real>, i: nat, a: real)
    requires i < |values|
    ensures var rest := values[..i] + values[i + 1..];
      && SumBy(values, RealKey) == values[i] + SumBy(rest, RealKey)
      && DeviationsBy(values, RealKey, a) == Square(values[i] - a) + DeviationsBy(rest, RealKey, a)
  {
    hide Square;
    var rest := values[..i] + values[i + 1..];
    if i == 0 {
      assert rest == values[1..];
    } else {
      SumsBySplit(values[1..], i - 1, a);
      assert rest[0] == values[0] && rest[1..] == values[1..][..i - 1] + values[1..][i..];
    }
  }

  lemma {:induction false} SumsByPermuted(values: seq<real>, values': seq<real>, a: real)
    requires multiset(values) == multiset(values')
    ensures SumBy(values, RealKey) == SumBy(values', RealKey)
    ensures DeviationsBy(values, RealKey, a) == DeviationsBy(values', RealKey, a)
  {
    hide Square;
    LengthPermuted(values, values');
    if values != [] {
      assert values[0] in multiset(values');
      var i :| 0 <= i < |values'| && values'[i] == values[0];
      RemoveBoth(values, values', i);
      SumsByPermuted(values[1..], values'[..i] + values'[i + 1..], a);
      SumsBySplit(values', i, a);
    }
  }

  // The order of the runs changes only the list of raw values.
  lemma {:induction false} SummaryOrderIndependent(values: seq<real>, values': seq<real>, sqrt: real -> real)
    requires multiset(values) == multiset(values') && IsSqrt(sqrt)
    ensures Summarize(values, sqrt).(values := values') == Summarize(values', sqrt)
  {
    hide Sort, Margin, IsSqrt, Middle, SumBy, DeviationsBy;
    LengthPermuted(values, values');
    if values != [] {
      SumsByPermuted(values, values', Mean(values));
      SortCanonical(values, values', RealKey);
    }
  }
}
