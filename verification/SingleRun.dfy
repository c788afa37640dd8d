// The figures for one list of records: `compute_single_run` and `percentile`.
//
// f64 arithmetic is exact real arithmetic here, and `sqrt` is a parameter of which only the
// defining property is used.
module SingleRun {
  import opened Records
  import opened Sorting
  import opened Moments

  ghost predicate IsSqrt(sqrt: real -> real) {
    forall v: real :: v >= 0.0 ==> sqrt(v) >= 0.0 && Square(sqrt(v)) == v
  }

  datatype RunStats = RunStats(
    sent: nat, received: nat, lost: nat, lossRatePercent: real,
    durationSec: real, packetRatePps: real, goodputMbps: real,
    minUs: nat, avgUs: real, maxUs: nat, jitterUs: real,
    p50Us: nat, p90Us: nat, p95Us: nat, p99Us: nat)

  // ------------------------------------------------------------------
  // Percentiles
  // ------------------------------------------------------------------

  // `(pct * (len - 1) as f64) as usize` truncates.
  function PercentileIndex(n: nat, pct: real): (index: nat)
    requires n > 0 && 0.0 <= pct <= 1.0
    ensures index < n
  {
    IndexBounds(n, pct);
    (pct * ((n - 1) as real)).Floor
  }

  lemma IndexBounds(n: nat, pct: real)
    requires n > 0 && 0.0 <= pct <= 1.0
    ensures 0 <= (pct * ((n - 1) as real)).Floor < n
  {
    var m := (n - 1) as real;
    assert 0.0 <= pct * m <= m;
  }

  function Percentile(sorted: seq<nat>, pct: real): nat
    requires 0.0 <= pct <= 1.0
  {
    if sorted == [] then 0 else sorted[PercentileIndex(|sorted|, pct)]
  }

  // ------------------------------------------------------------------
  // compute_single_run
  // ------------------------------------------------------------------

  // `records.iter().map(..).collect()`
  function Project(f: Record -> nat, rs: seq<Record>): (xs: seq<nat>)
    ensures |xs| == |rs|
  {
    if rs == [] then [] else [f(rs[0])] + Project(f, rs[1..])
  }

  function RttOf(r: Record): nat { r.rttUs }
  function TimeOf(r: Record): nat { r.recvTimestamp }
  function SizeOf(r: Record): nat { r.payloadSize }
  function IdOf(r: Record): nat { r.packetId }

  function Rtts(rs: seq<Record>): (xs: seq<nat>)
    ensures |xs| == |rs|
  {
    Project(RttOf, rs)
  }

  function Times(rs: seq<Record>): (xs: seq<nat>)
    ensures |xs| == |rs|
  {
    Project(TimeOf, rs)
  }

  function Max(xs: seq<nat>): nat
    requires xs != []
  {
    if |xs| == 1 then xs[0] else
    var m := Max(xs[1..]);
    if xs[0] > m then xs[0] else m
  }

  function Min(xs: seq<nat>): nat
    requires xs != []
  {
    if |xs| == 1 then xs[0] else
    var m := Min(xs[1..]);
    if xs[0] < m then xs[0] else m
  }

  function LossRate(sent: nat, lost: nat): real {
    if sent > 0 then (lost as real / sent as real) * 100.0 else 0.0
  }

  function Average(xs: seq<nat>): real
    requires xs != []
  {
    Total(xs) as real / |xs| as real
  }

  function Variance(xs: seq<nat>): real
    requires xs != []
  {
    Deviations(Average(xs), xs) / |xs| as real
  }

  // Every caller passes the number of records as `received`.
  function ComputeSingleRun(sent: nat, received: nat, lost: nat, rs: seq<Record>, sqrt: real -> real): RunStats
    requires received == |rs|
  {
    var lossRate := LossRate(sent, lost);
    if rs == [] then
      RunStats(sent, received, lost, lossRate, 0.0, 0.0, 0.0, 0, 0.0, 0, 0.0, 0, 0, 0, 0)
    else
      TimesOrdered(rs);
      var durationUs: nat := Max(Times(rs)) - Min(Times(rs));
      var durationSec := durationUs as real / 1_000_000.0;
      var goodput := if durationUs > 0 then (Total(Project(SizeOf, rs)) as real * 8.0) / durationUs as real else 0.0;
      var pps := if durationSec > 0.0 then received as real / durationSec else 0.0;
      var sorted := Sort(Rtts(rs), NatKey);
      RunStats(sent, received, lost, lossRate, durationSec, pps, goodput,
               sorted[0], Average(sorted), sorted[|sorted| - 1], sqrt(Variance(sorted)),
               Percentile(sorted, 0.50), Percentile(sorted, 0.90),
               Percentile(sorted, 0.95), Percentile(sorted, 0.99))
  }

  lemma TimesOrdered(rs: seq<Record>)
    requires rs != []
    ensures Min(Times(rs)) <= Max(Times(rs))
  {
    MaxIsGreatest(Times(rs));
    MinIsLeast(Times(rs));
  }

  lemma {:induction false} MaxIsGreatest(xs: seq<nat>)
    requires xs != []
    ensures Max(xs) in xs && forall x :: x in xs ==> x <= Max(xs)
  {
    if |xs| > 1 {
      MaxIsGreatest(xs[1..]);
      assert forall x :: x in xs <==> x == xs[0] || x in xs[1..];
    }
  }

  lemma {:induction false} MinIsLeast(xs: seq<nat>)
    requires xs != []
    ensures Min(xs) in xs && forall x :: x in xs ==> Min(xs) <= x
  {
    if |xs| > 1 {
      MinIsLeast(xs[1..]);
      assert forall x :: x in xs <==> x == xs[0] || x in xs[1..];
    }
  }

  // ------------------------------------------------------------------
  // The percentile ladder
  // ------------------------------------------------------------------

  // A percentile is one of the values; at least index + 1 values are not above it and at
  // least n - index values not below it.
  lemma {:induction false} PercentileMeaning(xs: seq<nat>, pct: real)
    requires xs != [] && 0.0 <= pct <= 1.0
    ensures var p := Percentile(Sort(xs, NatKey), pct);
      var index := PercentileIndex(|xs|, pct);
      && p in xs
      && CountAtMost(xs, p as real, NatKey) >= index + 1
      && CountAtLeast(xs, p as real, NatKey) >= |xs| - index
  {
    hide PercentileIndex, Sort;
    var sorted := Sort(xs, NatKey);
    SortSorts(xs, NatKey);
    var index := PercentileIndex(|xs|, pct);
    var p := sorted[index];
    assert p in multiset(sorted);
    CountPrefix(sorted, p as real, NatKey, index + 1);
    CountSuffix(sorted, p as real, NatKey, index);
    CountsPermuted(xs, sorted, p as real, NatKey);
  }

  lemma IndexMonotone(n: nat, p: real, q: real)
    requires n > 0 && 0.0 <= p <= q <= 1.0
    ensures PercentileIndex(n, p) <= PercentileIndex(n, q)
  {
    var m := (n - 1) as real;
    ScaleMonotone(p, q, m);
    FloorMonotone(p * m, q * m);
  }

  lemma FloorMonotone(x: real, y: real)
    requires x <= y
    ensures x.Floor <= y.Floor
  {
  }

  lemma ScaleMonotone(p: real, q: real, m: real)
    requires 0.0 <= p <= q && m >= 0.0
    ensures p * m <= q * m
  {
    assert (q - p) * m >= 0.0;
  }

  // The index is the product cut down to a whole number.
  lemma {:induction false} IndexTruncates(n: nat, pct: real)
    requires n > 0 && 0.0 <= pct <= 1.0
    ensures var k := PercentileIndex(n, pct); k as real <= pct * ((n - 1) as real) < k as real + 1.0
  {
  }

  lemma {:induction false} IndexOfPercent(n: nat, pct: real, q: nat)
    requires n > 0 && q <= 100 && 100.0 * pct == q as real
    ensures 0.0 <= pct <= 1.0 && PercentileIndex(n, pct) == (q * (n - 1)) / 100
  {
    var k := (q * (n - 1)) / 100;
    var m := (n - 1) as real;
    ProductAsReal(q, n - 1);
    assert 100 * k <= q * (n - 1) < 100 * k + 100;
    assert 100.0 * (pct * m) == (100.0 * pct) * m;
    FloorIs(pct * m, k);
  }

  lemma FloorIs(x: real, k: int)
    requires k as real <= x < k as real + 1.0
    ensures x.Floor == k
  {
  }

  // The four percentiles of n records are the sorted times at positions 50, 90, 95 and 99 per
  // cent of n - 1, rounded down.
  lemma {:induction false} PercentileFigures(sent: nat, lost: nat, rs: seq<Record>, sqrt: real -> real)
    requires rs != []
    ensures var r := ComputeSingleRun(sent, |rs|, lost, rs, sqrt);
      var sorted := Sort(Rtts(rs), NatKey);
      var last := |rs| - 1;
      && 99 * last / 100 <= last
      && r.p50Us == sorted[50 * last / 100] && r.p90Us == sorted[90 * last / 100]
      && r.p95Us == sorted[95 * last / 100] && r.p99Us == sorted[99 * last / 100]
  {
    hide Sort, Average, Variance, PercentileIndex, LossRate, Max, Min;
    IndexOfPercent(|rs|, 0.50, 50);
    IndexOfPercent(|rs|, 0.90, 90);
    IndexOfPercent(|rs|, 0.95, 95);
    IndexOfPercent(|rs|, 0.99, 99);
  }

  // A higher percentage never gives a lower percentile; 0 gives the minimum and 1 the maximum.
  lemma {:induction false} PercentileMonotone(xs: seq<nat>, p: real, q: real)
    requires xs != [] && 0.0 <= p <= q <= 1.0
    ensures var sorted := Sort(xs, NatKey);
      sorted[0] <= Percentile(sorted, p) <= Percentile(sorted, q) <= sorted[|sorted| - 1]
  {
    hide PercentileIndex, Sort;
    var sorted := Sort(xs, NatKey);
    SortSorts(xs, NatKey);
    IndexMonotone(|xs|, p, q);
    var i, j := PercentileIndex(|xs|, p), PercentileIndex(|xs|, q);
    SortedOrder(sorted, 0, i);
    SortedOrder(sorted, i, j);
    SortedOrder(sorted, j, |sorted| - 1);
  }

  lemma {:induction false} SortedOrder(sorted: seq<nat>, i: nat, j: nat)
    requires Sorted(sorted, NatKey) && i <= j < |sorted|
    ensures sorted[i] <= sorted[j]
  {
    if i < j {
      assert NatKey(sorted[i]) <= NatKey(sorted[j]);
    }
  }

  // The first and last of the sorted times are the least and the greatest.
  lemma {:induction false} SortedEnds(xs: seq<nat>)
    requires xs != []
    ensures var sorted := Sort(xs, NatKey);
      Within(xs, sorted[0], sorted[|sorted| - 1]) && sorted[0] in xs && sorted[|sorted| - 1] in xs
  {
    hide Sort;
    var sorted := Sort(xs, NatKey);
    SortSorts(xs, NatKey);
    assert sorted[0] in multiset(sorted) && sorted[|sorted| - 1] in multiset(sorted);
    forall k | 0 <= k < |xs| ensures sorted[0] <= xs[k] <= sorted[|sorted| - 1] {
      assert xs[k] in multiset(xs);
      var i :| 0 <= i < |sorted| && sorted[i] == xs[k];
      SortedOrder(sorted, 0, i);
      SortedOrder(sorted, i, |sorted| - 1);
    }
  }

  // ------------------------------------------------------------------
  // Average and variance of the sorted times are those of the times as recorded
  // ------------------------------------------------------------------

  lemma {:induction false} MomentsOfSorted(xs: seq<nat>)
    requires xs != []
    ensures Average(Sort(xs, NatKey)) == Average(xs) && Variance(Sort(xs, NatKey)) == Variance(xs)
  {
    hide Sort, Expanded, Deviations;
    SortSorts(xs, NatKey);
    SumsPermuted(xs, Sort(xs, NatKey));
    DeviationsExpand(Average(xs), xs);
    DeviationsExpand(Average(xs), Sort(xs, NatKey));
  }

  // n times the variance, about any centre a: the deviations about a exceed those about the
  // average by n * (average - a)^2.
  lemma {:induction false} VarianceAbout(xs: seq<nat>, a: real)
    requires xs != []
    ensures Deviations(a, xs) == |xs| as real * (Variance(xs) + Square(Average(xs) - a))
  {
    hide Deviations, Total, Squares;
    var n, t, s := |xs| as real, Total(xs) as real, Squares(xs) as real;
    var m := Average(xs);
    DeviationsExpand(a, xs);
    DeviationsExpand(m, xs);
    ScaledVariance(n, Deviations(m, xs));
    CentreShift(n, t, s, m, a);
    Spread(n, Variance(xs), Square(m - a));
  }

  lemma Spread(n: real, v: real, w: real)
    ensures n * (v + w) == n * v + n * w
  {
  }

  lemma ScaledVariance(n: real, d: real)
    requires n > 0.0
    ensures n * (d / n) == d
  {
  }

  lemma CentreShift(n: real, t: real, s: real, m: real, a: real)
    requires n > 0.0 && m == t / n
    ensures Expanded(a, s, t, n) == Expanded(m, s, t, n) + n * Square(m - a)
  {
    assert t == n * m;
    ShiftAlgebra(n, s, m, a);
  }

  lemma ShiftAlgebra(n: real, s: real, m: real, a: real)
    ensures Expanded(a, s, n * m, n) == Expanded(m, s, n * m, n) + n * Square(m - a)
  {
    var mm, ma, aa := m * m, m * a, a * a;
    assert Square(m - a) == mm - 2.0 * ma + aa;
    assert n * Square(m - a) == n * mm - 2.0 * (n * ma) + n * aa;
    assert a * (n * m) == n * ma && m * (n * m) == n * mm;
  }

  // ------------------------------------------------------------------
  // The jitter bound
  // ------------------------------------------------------------------

  lemma {:induction false} VarianceExpanded(xs: seq<nat>)
    requires xs != []
    ensures |xs| as real * Variance(xs)
         == Expanded(Average(xs), Squares(xs) as real, Total(xs) as real, |xs| as real)
  {
    hide Deviations, Average;
    DeviationsExpand(Average(xs), xs);
    ScaledVariance(|xs| as real, Deviations(Average(xs), xs));
  }

  // The sum of (hi - x) * (x - lo) is not negative.
  lemma {:induction false} VarianceWithin(xs: seq<nat>, lo: nat, hi: nat)
    requires xs != [] && Within(xs, lo, hi)
    ensures lo as real <= Average(xs) <= hi as real
    ensures Variance(xs) <= (hi as real - Average(xs)) * (Average(xs) - lo as real)
  {
    hide Variance, Total, Squares, Expanded, Bounded, Within;
    SumsBounded(xs, lo, hi);
    VarianceExpanded(xs);
    var n, t, s := |xs| as real, Total(xs) as real, Squares(xs) as real;
    AverageBounded(t, n, s, lo as real, hi as real);
    VarianceBound(n, t, s, Average(xs), lo as real, hi as real, Variance(xs));
  }

  ghost predicate Bounded(n: real, t: real, s: real, lo: real, hi: real) {
    lo * n <= t <= hi * n && s + lo * hi * n <= (lo + hi) * t
  }

  lemma {:induction false} SumsBounded(xs: seq<nat>, lo: nat, hi: nat)
    requires Within(xs, lo, hi)
    ensures Bounded(|xs| as real, Total(xs) as real, Squares(xs) as real, lo as real, hi as real)
  {
    hide Total, Squares, Within, Bounded;
    TotalBounds(xs, lo, hi);
    SquaresBound(xs, lo, hi);
    BoundsAsReals(Total(xs), Squares(xs), |xs|, lo, hi);
  }

  lemma BoundsAsReals(t: nat, s: nat, n: nat, lo: nat, hi: nat)
    requires lo * n <= t <= hi * n && s + lo * hi * n <= (lo + hi) * t
    ensures Bounded(n as real, t as real, s as real, lo as real, hi as real)
  {
    ProductAsReal(lo, n);
    ProductAsReal(hi, n);
    ProductAsReal(lo, hi);
    ProductAsReal(lo * hi, n);
    ProductAsReal(lo + hi, t);
  }

  lemma AverageBounded(t: real, n: real, s: real, lo: real, hi: real)
    requires n > 0.0 && Bounded(n, t, s, lo, hi)
    ensures lo <= t / n <= hi
  {
    AverageBetween(t, n, lo, hi);
  }

  lemma ProductAsReal(a: nat, b: nat)
    ensures (a * b) as real == a as real * b as real
  {
  }

  lemma CancelLe(n: real, a: real, b: real)
    requires n > 0.0 && n * a <= n * b
    ensures a <= b
  {
    CancelStep(n, a, b);
    hide Product;
    if a > b {
      PositiveProduct(n, a - b);
    }
  }

  lemma CancelStep(n: real, a: real, b: real)
    ensures Product(n, a - b) == n * a - n * b
  {
  }

  // Hiding this keeps a product from being multiplied out.
  function Product(a: real, b: real): real {
    a * b
  }

  lemma PositiveProduct(a: real, b: real)
    requires a > 0.0 && b > 0.0
    ensures Product(a, b) > 0.0
  {
  }

  lemma AverageBetween(t: real, n: real, lo: real, hi: real)
    requires n > 0.0 && lo * n <= t <= hi * n
    ensures lo <= t / n <= hi
  {
    ScaledVariance(n, t);
    CancelLe(n, lo, t / n);
    CancelLe(n, t / n, hi);
  }

  lemma VarianceBound(n: real, t: real, s: real, m: real, lo: real, hi: real, v: real)
    requires n > 0.0 && m == t / n && Bounded(n, t, s, lo, hi)
    requires n * v == Expanded(m, s, t, n)
    ensures v <= (hi - m) * (m - lo)
  {
    hide Expanded;
    assert t == n * m by { ScaledVariance(n, t); }
    VarianceOfMean(n, s, m);
    BoundExpanded(n, m, lo, hi);
    CancelLe(n, v, (hi - m) * (m - lo));
  }

  lemma VarianceOfMean(n: real, s: real, m: real)
    ensures Expanded(m, s, n * m, n) == s - n * (m * m)
  {
    assert m * (n * m) == n * (m * m);
  }

  lemma BoundExpanded(n: real, m: real, lo: real, hi: real)
    ensures n * ((hi - m) * (m - lo)) == (lo + hi) * (n * m) - lo * hi * n - n * (m * m)
  {
    var hm, hl, mm, ml := hi * m, hi * lo, m * m, m * lo;
    assert (hi - m) * (m - lo) == hm - hl - mm + ml;
    assert n * (hm - hl - mm + ml) == n * hm - n * hl - n * mm + n * ml;
    assert (lo + hi) * (n * m) == n * ml + n * hm;
  }

  // The average lies between the extremes, and the jitter is at most half their distance.
  lemma {:induction false} JitterBound(sent: nat, lost: nat, rs: seq<Record>, sqrt: real -> real)
    requires rs != [] && IsSqrt(sqrt)
    ensures var r := ComputeSingleRun(sent, |rs|, lost, rs, sqrt);
      var lo, hi := r.minUs as real, r.maxUs as real;
      && lo <= r.avgUs <= hi
      && Square(r.jitterUs) <= (hi - r.avgUs) * (r.avgUs - lo)
      && 0.0 <= r.jitterUs <= (hi - lo) / 2.0
  {
    hide Average, Variance, Sort, Percentile, Square;
    var xs := Rtts(rs);
    var sorted := Sort(xs, NatKey);
    SortedEnds(xs);
    MomentsOfSorted(xs);
    VarianceWithin(xs, sorted[0], sorted[|sorted| - 1]);
    VarianceNonNegative(xs);
    var r := ComputeSingleRun(sent, |rs|, lost, rs, sqrt);
    assert Square(sqrt(Variance(xs))) == Variance(xs) && sqrt(Variance(xs)) >= 0.0;
    HalfRange(r.jitterUs, r.avgUs, r.minUs as real, r.maxUs as real);
  }

  lemma {:induction false} VarianceNonNegative(xs: seq<nat>)
    requires xs != []
    ensures Variance(xs) >= 0.0
  {
    hide Deviations;
    DeviationsNonNegative(Average(xs), xs);
    QuotientNonNegative(Deviations(Average(xs), xs), |xs| as real);
  }

  lemma QuotientNonNegative(d: real, n: real)
    requires d >= 0.0 && n > 0.0
    ensures d / n >= 0.0
  {
  }

  lemma HalfRange(j: real, m: real, lo: real, hi: real)
    requires j >= 0.0 && lo <= m <= hi && Square(j) <= (hi - m) * (m - lo)
    ensures j <= (hi - lo) / 2.0
  {
    var p, q := (hi - m) / 2.0, (m - lo) / 2.0;
    assert p + q == (hi - lo) / 2.0;
    assert (hi - m) * (m - lo) == 4.0 * (p * q) by { Quarter(hi - m, m - lo); }
    MeanInequality(p, q);
    RootMonotone(j, p + q);
  }

  lemma Quarter(a: real, b: real)
    ensures a * b == 4.0 * ((a / 2.0) * (b / 2.0))
  {
  }

  lemma MeanInequality(p: real, q: real)
    ensures 4.0 * (p * q) <= Square(p + q)
  {
    SquareNonNegative(p - q);
    assert Square(p - q) == p * p - 2.0 * (p * q) + q * q;
    assert Square(p + q) == p * p + 2.0 * (p * q) + q * q;
  }

  lemma RootMonotone(j: real, h: real)
    requires j >= 0.0 && h >= 0.0 && Square(j) <= Square(h)
    ensures j <= h
  {
    hide Square;
    if j > h {
      SquareGrows(h, j - h);
    }
  }

  lemma WithinRoot(x: real, r: real)
    requires r >= 0.0 && Square(x) <= Square(r)
    ensures -r <= x <= r
  {
    assert Square(-x) == Square(x);
    RootMonotone(if x >= 0.0 then x else -x, r);
  }

  lemma SquareGrows(h: real, d: real)
    requires h >= 0.0 && d > 0.0
    ensures Square(h + d) > Square(h)
  {
    hide Square, Product;
    PositiveProduct(d, h + h + d);
    SquareStep(h, d);
  }

  lemma SquareStep(h: real, d: real)
    ensures Square(h + d) - Square(h) == Product(d, h + h + d)
  {
  }

  // ------------------------------------------------------------------
  // Order independence
  // ------------------------------------------------------------------

  lemma {:induction false} ProjectSplit(f: Record -> nat, rs: seq<Record>, i: nat)
    requires i < |rs|
    ensures multiset(Project(f, rs)) == multiset(Project(f, rs[..i] + rs[i + 1..])) + multiset{f(rs[i])}
  {
    var rest := rs[..i] + rs[i + 1..];
    if i == 0 {
      assert rest == rs[1..];
    } else {
      ProjectSplit(f, rs[1..], i - 1);
      assert rest[0] == rs[0] && rest[1..] == rs[1..][..i - 1] + rs[1..][i..];
    }
  }

  lemma {:induction false} ProjectPermuted(f: Record -> nat, rs: seq<Record>, rs': seq<Record>)
    requires multiset(rs) == multiset(rs')
    ensures multiset(Project(f, rs)) == multiset(Project(f, rs'))
  {
    if rs == [] {
      assert |multiset(rs')| == 0;
    } else {
      assert rs[0] in multiset(rs);
      var i :| 0 <= i < |rs'| && rs'[i] == rs[0];
      RemoveBoth(rs, rs', i);
      ProjectPermuted(f, rs[1..], rs'[..i] + rs'[i + 1..]);
      ProjectSplit(f, rs', i);
    }
  }

  lemma {:induction false} ExtremesPermuted(xs: seq<nat>, ys: seq<nat>)
    requires xs != [] && ys != [] && multiset(xs) == multiset(ys)
    ensures Max(xs) == Max(ys) && Min(xs) == Min(ys)
  {
    hide Max, Min;
    MaxIsGreatest(xs);
    MaxIsGreatest(ys);
    MinIsLeast(xs);
    MinIsLeast(ys);
    assert forall x :: x in xs <==> x in multiset(xs);
    assert forall x :: x in ys <==> x in multiset(ys);
  }

  // Rearranging the records changes no figure.
  lemma {:induction false} OrderIndependent(sent: nat, lost: nat, rs: seq<Record>, rs': seq<Record>, sqrt: real -> real)
    requires multiset(rs) == multiset(rs')
    ensures ComputeSingleRun(sent, |rs|, lost, rs, sqrt) == ComputeSingleRun(sent, |rs'|, lost, rs', sqrt)
  {
    hide Average, Variance, Sort, Percentile, Total, Max, Min, Project, LossRate;
    LengthPermuted(rs, rs');
    if rs != [] {
      ProjectPermuted(RttOf, rs, rs');
      ProjectPermuted(TimeOf, rs, rs');
      ProjectPermuted(SizeOf, rs, rs');
      ExtremesPermuted(Times(rs), Times(rs'));
      SumsPermuted(Project(SizeOf, rs), Project(SizeOf, rs'));
      SortCanonical(Rtts(rs), Rtts(rs'), NatKey);
    }
  }
}
