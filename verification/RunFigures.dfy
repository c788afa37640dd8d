// How the figures of one run relate to each other and to the records.
module RunFigures {
  import opened Records
  import opened Sorting
  import opened Moments
  import opened Averages
  import opened SingleRun
  import opened Grouping

  // min <= p50 <= p90 <= p95 <= p99 <= max, and each of the six was observed.
  lemma {:induction false} LatencyLadder(sent: nat, lost: nat, rs: seq<Record>, sqrt: real -> real)
    requires rs != []
    ensures var r := ComputeSingleRun(sent, |rs|, lost, rs, sqrt);
      && r.minUs <= r.p50Us <= r.p90Us <= r.p95Us <= r.p99Us <= r.maxUs
      && (forall v :: v in [r.minUs, r.p50Us, r.p90Us, r.p95Us, r.p99Us, r.maxUs] ==> v in Rtts(rs))
      && (forall v :: v in Rtts(rs) ==> r.minUs <= v <= r.maxUs)
  {
    hide Average, Variance, Sort, Percentile, LossRate, CountAtMost, CountAtLeast, PercentileIndex;
    var xs := Rtts(rs);
    PercentileMonotone(xs, 0.50, 0.90);
    PercentileMonotone(xs, 0.90, 0.95);
    PercentileMonotone(xs, 0.95, 0.99);
    PercentileMeaning(xs, 0.50);
    PercentileMeaning(xs, 0.90);
    PercentileMeaning(xs, 0.95);
    PercentileMeaning(xs, 0.99);
    SortedEnds(xs);
  }

  lemma {:induction false} SumsAgree(xs: seq<nat>, a: real)
    ensures SumBy(xs, NatKey) == Total(xs) as real
    ensures DeviationsBy(xs, NatKey, a) == Deviations(a, xs)
  {
    if xs != [] {
      SumsAgree(xs[1..], a);
      Mirrored(xs[0] as real, a);
    }
  }

  lemma Mirrored(x: real, a: real)
    ensures Square(x - a) == Square(a - x)
  {
  }

  // Without reference to a mean: jitter^2 is half the mean squared difference of two of the
  // recorded times, drawn independently.
  lemma {:induction false} JitterIsPairwise(sent: nat, lost: nat, rs: seq<Record>, sqrt: real -> real)
    requires rs != [] && IsSqrt(sqrt)
    ensures var r := ComputeSingleRun(sent, |rs|, lost, rs, sqrt);
      var n := |rs| as real;
      2.0 * (n * (n * Square(r.jitterUs))) == PairSum(Rtts(rs), Rtts(rs), NatKey)
  {
    hide Average, Variance, Sort, Percentile, Square, LossRate, Deviations, PairSum, Total;
    var xs := Rtts(rs);
    var m := Average(xs);
    MomentsOfSorted(xs);
    VarianceNonNegative(xs);
    SumsAgree(xs, m);
    MeanTimesCount(xs);
    PairwiseSpread(xs, NatKey, m);
  }

  lemma {:induction false} HalfIsMedian(xs: seq<nat>)
    requires xs != []
    ensures IsMedian(xs, NatKey, Percentile(Sort(xs, NatKey), 0.50) as real)
  {
    hide Sort, Percentile, CountAtMost, CountAtLeast;
    PercentileMeaning(xs, 0.50);
    HalfIndex(|xs|);
  }

  lemma HalfIndex(n: nat)
    requires n > 0
    ensures n - 2 <= 2 * PercentileIndex(n, 0.50) <= n
  {
    var h := 0.50 * ((n - 1) as real);
    assert 2.0 * h == (n - 1) as real;
  }

  // The average is never further than one jitter from the 50th percentile.
  lemma {:induction false} AverageNearMedian(sent: nat, lost: nat, rs: seq<Record>, sqrt: real -> real)
    requires rs != [] && IsSqrt(sqrt)
    ensures var r := ComputeSingleRun(sent, |rs|, lost, rs, sqrt);
      -r.jitterUs <= r.avgUs - r.p50Us as real <= r.jitterUs
  {
    hide Average, Variance, Sort, Percentile, Square, LossRate, Deviations;
    var xs := Rtts(rs);
    var m, d := Average(xs), Percentile(Sort(xs, NatKey), 0.50) as real;
    MomentsOfSorted(xs);
    VarianceNonNegative(xs);
    HalfIsMedian(xs);
    SumsAgree(xs, m);
    MeanTimesCount(xs);
    MeanNearMedian(xs, NatKey, m, d);
    CancelChain(|xs| as real, Square(m - d), Deviations(m, xs), Variance(xs));
    WithinRoot(m - d, sqrt(Variance(xs)));
  }

  lemma CancelChain(n: real, a: real, b: real, c: real)
    requires n > 0.0 && n * a <= b == n * c
    ensures a <= c
  {
    CancelLe(n, a, c);
  }

  lemma {:induction false} MeanTimesCount(xs: seq<nat>)
    requires xs != []
    ensures Total(xs) as real == |xs| as real * Average(xs)
    ensures Deviations(Average(xs), xs) == |xs| as real * Variance(xs)
  {
    hide Deviations, Total;
    ScaledVariance(|xs| as real, Total(xs) as real);
    ScaledVariance(|xs| as real, Deviations(Average(xs), xs));
  }

  // ------------------------------------------------------------------
  // Throughput and loss
  // ------------------------------------------------------------------

  ghost predicate AllAtOnce(rs: seq<Record>) {
    forall i, j :: 0 <= i < |rs| && 0 <= j < |rs| ==> rs[i].recvTimestamp == rs[j].recvTimestamp
  }

  lemma {:induction false} TimesMembers(rs: seq<Record>)
    ensures forall t :: t in Times(rs) <==> exists i :: 0 <= i < |rs| && rs[i].recvTimestamp == t
  {
    if rs != [] {
      TimesMembers(rs[1..]);
      forall t ensures t in Times(rs) <==> exists i :: 0 <= i < |rs| && rs[i].recvTimestamp == t {
        assert t in Times(rs) <==> t == rs[0].recvTimestamp || t in Times(rs[1..]);
        if i :| 0 <= i < |rs| && rs[i].recvTimestamp == t {
          assert i > 0 ==> rs[1..][i - 1].recvTimestamp == t;
        }
        if i :| 0 <= i < |rs[1..]| && rs[1..][i].recvTimestamp == t {
          assert rs[i + 1].recvTimestamp == t;
        }
      }
    }
  }

  lemma {:induction false} NoDurationIffAtOnce(rs: seq<Record>)
    requires rs != []
    ensures Max(Times(rs)) == Min(Times(rs)) <==> AllAtOnce(rs)
  {
    hide Max, Min, Times;
    TimesMembers(rs);
    MaxIsGreatest(Times(rs));
    MinIsLeast(Times(rs));
    if Max(Times(rs)) == Min(Times(rs)) {
      forall i | 0 <= i < |rs| ensures rs[i].recvTimestamp == Max(Times(rs)) {
        assert rs[i].recvTimestamp in Times(rs);
      }
    }
  }

  // Rates times duration give back the counts, and the two rates agree on the bytes per
  // packet; the duration vanishes, and with it both rates, exactly when every packet carries
  // the same arrival time.
  lemma {:induction false} ThroughputMeaning(sent: nat, lost: nat, rs: seq<Record>, sqrt: real -> real)
    requires rs != []
    ensures var r := ComputeSingleRun(sent, |rs|, lost, rs, sqrt);
      var bits := 8.0 * Total(Project(SizeOf, rs)) as real;
      && (r.durationSec == 0.0 <==> AllAtOnce(rs))
      && (AllAtOnce(rs) ==> r.packetRatePps == 0.0 && r.goodputMbps == 0.0)
      && (!AllAtOnce(rs) ==> r.packetRatePps * r.durationSec == |rs| as real)
      && (!AllAtOnce(rs) ==> r.goodputMbps * (1_000_000.0 * r.durationSec) == bits)
      && 1_000_000.0 * (r.goodputMbps * |rs| as real) == r.packetRatePps * bits
  {
    hide Max, Min, Times, Total, Project, AllAtOnce, Average, Variance, Sort, Percentile, LossRate;
    NoDurationIffAtOnce(rs);
    TimesOrdered(rs);
    var us: nat := Max(Times(rs)) - Min(Times(rs));
    Rates(|rs| as real, 8.0 * Total(Project(SizeOf, rs)) as real, us as real);
  }

  lemma Rates(n: real, bits: real, us: real)
    requires us >= 0.0
    ensures us / 1_000_000.0 == 0.0 <==> us == 0.0
    ensures us > 0.0 ==>
      var sec := us / 1_000_000.0;
      && (n / sec) * sec == n
      && (bits / us) * (1_000_000.0 * sec) == bits
      && 1_000_000.0 * ((bits / us) * n) == (n / sec) * bits
  {
    if us > 0.0 {
      var sec := us / 1_000_000.0;
      var pps, goodput := n / sec, bits / us;
      assert sec * pps == n by { ScaledVariance(sec, n); }
      assert us * goodput == bits by { ScaledVariance(us, bits); }
      assert 1_000_000.0 * sec == us;
      Cross(sec, pps, goodput);
    }
  }

  lemma Cross(sec: real, pps: real, goodput: real)
    ensures 1_000_000.0 * (goodput * (sec * pps)) == pps * ((1_000_000.0 * sec) * goodput)
  {
  }

  // A stream that shows up in a report lost less than everything.
  lemma {:induction false} LossRateRange(group: seq<Record>, sqrt: real -> real)
    requires group != []
    ensures 0.0 <= GroupStats(group, sqrt).lossRatePercent < 100.0
    ensures GroupStats(group, sqrt).lossRatePercent == 0.0 <==> NoLoss(group)
  {
    hide SentOf, Average, Variance, Sort, Percentile, Max, Min, Project, Total;
    SentPositive(group);
    Ratio(LostOf(group) as real, SentOf(group) as real);
  }

  predicate NoLoss(group: seq<Record>) {
    SentOf(group) <= |group|
  }

  lemma {:induction false} SentPositive(group: seq<Record>)
    requires group != []
    ensures SentOf(group) > 0
  {
  }

  lemma Ratio(lost: real, sent: real)
    requires 0.0 <= lost < sent
    ensures 0.0 <= lost / sent < 1.0
    ensures lost / sent == 0.0 <==> lost == 0.0
  {
    ScaledVariance(sent, lost);
    QuotientNonNegative(lost, sent);
    if lost / sent >= 1.0 {
      QuotientAtLeastOne(sent, lost / sent);
    }
  }

  lemma QuotientAtLeastOne(sent: real, q: real)
    requires sent > 0.0 && q >= 1.0
    ensures sent * q >= sent
  {
    assert sent * (q - 1.0) >= 0.0;
  }
}
