// Grouping records by stream, and what follows from the groups being a partition: loss
// figures add up, and the global mean and jitter decompose over the streams.
module Grouping {
  import opened Sockets
  import opened Traces
  import opened Records
  import opened Sorting
  import opened Moments
  import opened SingleRun

  // The records of one stream, in order.
  function OnStream(rs: seq<Record>, s: StreamId): seq<Record> {
    if rs == [] then []
    else if rs[0].streamId == s then [rs[0]] + OnStream(rs[1..], s)
    else OnStream(rs[1..], s)
  }

  // The streams that occur, in increasing order.
  function InsertId(s: StreamId, ids: seq<StreamId>): seq<StreamId> {
    if ids == [] || s < ids[0] then [s] + ids
    else if s == ids[0] then ids
    else [ids[0]] + InsertId(s, ids[1..])
  }

  function StreamIds(rs: seq<Record>): seq<StreamId> {
    if rs == [] then [] else InsertId(rs[0].streamId, StreamIds(rs[1..]))
  }

  // Packet ids count from zero, so the highest one tells how many were sent.
  function SentOf(group: seq<Record>): nat {
    if group == [] then 0 else Max(Project(IdOf, group)) + 1
  }

  // sent.saturating_sub(received)
  function LostOf(group: seq<Record>): nat {
    if SentOf(group) >= |group| then SentOf(group) - |group| else 0
  }

  function GroupStats(group: seq<Record>, sqrt: real -> real): RunStats {
    ComputeSingleRun(SentOf(group), |group|, LostOf(group), group, sqrt)
  }

  datatype StreamReport = StreamReport(streamId: StreamId, index: StreamId, kind: Reliability, stats: RunStats)

  // `single_run_to_legacy` regroups the figures and changes none, so it is not modelled.
  datatype Report = Report(global: RunStats, streams: seq<StreamReport>)

  function StreamReports(rs: seq<Record>, ids: seq<StreamId>, sqrt: real -> real): seq<StreamReport> {
    if ids == [] then [] else
    [StreamReport(ids[0], StreamIndex(ids[0]), StreamClass(ids[0]), GroupStats(OnStream(rs, ids[0]), sqrt))]
    + StreamReports(rs, ids[1..], sqrt)
  }

  function SumOver(f: seq<Record> -> nat, rs: seq<Record>, ids: seq<StreamId>): nat {
    if ids == [] then 0 else f(OnStream(rs, ids[0])) + SumOver(f, rs, ids[1..])
  }

  function Analyze(rs: seq<Record>, sqrt: real -> real): Report {
    var ids := StreamIds(rs);
    Report(ComputeSingleRun(SumOver(SentOf, rs, ids), |rs|, SumOver(LostOf, rs, ids), rs, sqrt),
           StreamReports(rs, ids, sqrt))
  }

  // ------------------------------------------------------------------
  // The list of streams
  // ------------------------------------------------------------------

  ghost predicate Increasing(ids: seq<StreamId>) {
    forall i, j :: 0 <= i < j < |ids| ==> ids[i] < ids[j]
  }

  lemma {:induction false} InsertIdProperties(s: StreamId, ids: seq<StreamId>)
    requires Increasing(ids)
    ensures Increasing(InsertId(s, ids))
    ensures forall t :: t in InsertId(s, ids) <==> t == s || t in ids
  {
    if ids != [] && s > ids[0] {
      InsertIdProperties(s, ids[1..]);
      assert ids == [ids[0]] + ids[1..];
      var tail := InsertId(s, ids[1..]);
      forall k | 0 <= k < |tail| ensures ids[0] < tail[k] {
        assert tail[k] in tail;
      }
    }
  }

  lemma {:induction false} StreamIdsProperties(rs: seq<Record>)
    ensures Increasing(StreamIds(rs)) && NoRepeats(StreamIds(rs))
    ensures forall s :: s in StreamIds(rs) <==> OnStream(rs, s) != []
  {
    if rs != [] {
      StreamIdsProperties(rs[1..]);
      InsertIdProperties(rs[0].streamId, StreamIds(rs[1..]));
    }
  }

  lemma {:induction false} HasElement(ids: seq<StreamId>)
    requires ids != []
    ensures exists s :: s in ids
  {
    assert ids[0] in ids;
  }

  lemma {:induction false} IncreasingUnique(a: seq<StreamId>, b: seq<StreamId>)
    requires Increasing(a) && Increasing(b) && forall s :: s in a <==> s in b
    ensures a == b
  {
    if a == [] {
      if b != [] {
        HasElement(b);
      }
    } else {
      assert a[0] in a && a[0] in b;
      assert b[0] in b && b[0] in a;
      assert a[0] == b[0];
      forall s ensures s in a[1..] <==> s in b[1..] {
        assert s in a <==> s == a[0] || s in a[1..];
        assert s in b <==> s == b[0] || s in b[1..];
      }
      IncreasingUnique(a[1..], b[1..]);
      assert a == [a[0]] + a[1..] && b == [b[0]] + b[1..];
    }
  }

  // ------------------------------------------------------------------
  // The groups are a partition
  // ------------------------------------------------------------------

  // A sum over the records of some streams.
  function SumStreams(f: Record -> nat, rs: seq<Record>, ids: seq<StreamId>): nat {
    if ids == [] then 0 else Total(Project(f, OnStream(rs, ids[0]))) + SumStreams(f, rs, ids[1..])
  }

  lemma {:induction false} SumStreamsCons(f: Record -> nat, rs: seq<Record>, ids: seq<StreamId>)
    requires rs != [] && NoRepeats(ids)
    ensures SumStreams(f, rs, ids) == SumStreams(f, rs[1..], ids) + (if rs[0].streamId in ids then f(rs[0]) else 0)
  {
    if ids != [] {
      assert ids[0] !in ids[1..] && ids == [ids[0]] + ids[1..];
      SumStreamsCons(f, rs, ids[1..]);
      if rs[0].streamId == ids[0] {
        assert OnStream(rs, ids[0])[1..] == OnStream(rs[1..], ids[0]);
      }
    }
  }

  lemma {:induction false} SumStreamsEmpty(f: Record -> nat, ids: seq<StreamId>)
    ensures SumStreams(f, [], ids) == 0
  {
    if ids != [] {
      SumStreamsEmpty(f, ids[1..]);
    }
  }

  // Any quantity summed stream by stream is its sum over all records.
  lemma {:induction false} Partition(f: Record -> nat, rs: seq<Record>, ids: seq<StreamId>)
    requires NoRepeats(ids) && forall k :: 0 <= k < |rs| ==> rs[k].streamId in ids
    ensures SumStreams(f, rs, ids) == Total(Project(f, rs))
  {
    if rs == [] {
      SumStreamsEmpty(f, ids);
    } else {
      Partition(f, rs[1..], ids);
      SumStreamsCons(f, rs, ids);
    }
  }

  lemma {:induction false} EveryRecordListed(rs: seq<Record>)
    ensures forall k :: 0 <= k < |rs| ==> rs[k].streamId in StreamIds(rs)
  {
    if rs != [] {
      EveryRecordListed(rs[1..]);
      StreamIdsProperties(rs[1..]);
      InsertIdProperties(rs[0].streamId, StreamIds(rs[1..]));
      forall k | 0 <= k < |rs| ensures rs[k].streamId in StreamIds(rs) {
        if k > 0 {
          assert rs[k] == rs[1..][k - 1];
        }
      }
    }
  }

  lemma {:induction false} PartitionAll(f: Record -> nat, rs: seq<Record>)
    ensures SumStreams(f, rs, StreamIds(rs)) == Total(Project(f, rs))
  {
    EveryRecordListed(rs);
    StreamIdsProperties(rs);
    Partition(f, rs, StreamIds(rs));
  }

  function OneOf(r: Record): nat { 1 }
  function SqOf(r: Record): nat { Sq(r.rttUs) }

  lemma {:induction false} CountIsSum(rs: seq<Record>)
    ensures Total(Project(OneOf, rs)) == |rs|
  {
    if rs != [] {
      CountIsSum(rs[1..]);
    }
  }

  lemma {:induction false} SquaresIsSum(rs: seq<Record>)
    ensures Total(Project(SqOf, rs)) == Squares(Rtts(rs))
  {
    hide Sq;
    if rs != [] {
      SquaresIsSum(rs[1..]);
    }
  }

  function LengthOf(group: seq<Record>): nat { |group| }

  lemma {:induction false} LengthsAreCounts(rs: seq<Record>, ids: seq<StreamId>)
    ensures SumOver(LengthOf, rs, ids) == SumStreams(OneOf, rs, ids)
  {
    if ids != [] {
      LengthsAreCounts(rs, ids[1..]);
      CountIsSum(OnStream(rs, ids[0]));
    }
  }

  // The global number of received packets, added up stream by stream, is the record count.
  lemma {:induction false} ReceivedIsCount(rs: seq<Record>)
    ensures SumOver(LengthOf, rs, StreamIds(rs)) == |rs|
  {
    LengthsAreCounts(rs, StreamIds(rs));
    PartitionAll(OneOf, rs);
    CountIsSum(rs);
  }

  // ------------------------------------------------------------------
  // Loss conservation
  // ------------------------------------------------------------------

  function Ids(group: seq<Record>): set<nat> {
    set r | r in group :: r.packetId
  }

  function Missing(group: seq<Record>): set<nat> {
    set id | 0 <= id < SentOf(group) && id !in Ids(group)
  }

  // Records beyond the first with their packet id.
  ghost function Duplicates(group: seq<Record>): int {
    |group| - |Ids(group)|
  }

  function Below(n: nat): (s: set<nat>)
    ensures forall i :: i in s <==> 0 <= i < n
  {
    if n == 0 then {} else Below(n - 1) + {n - 1}
  }

  lemma AddOne(s: set<nat>, x: nat)
    requires x !in s
    ensures |s + {x}| == |s| + 1
  {
  }

  lemma {:induction false} BelowSize(n: nat)
    ensures |Below(n)| == n
  {
    if n > 0 {
      BelowSize(n - 1);
      AddOne(Below(n - 1), n - 1);
    }
  }

  lemma {:induction false} ProjectMembers(rs: seq<Record>)
    ensures forall id :: id in Project(IdOf, rs) <==> id in Ids(rs)
  {
    if rs != [] {
      ProjectMembers(rs[1..]);
      assert Ids(rs) == {rs[0].packetId} + Ids(rs[1..]) by { IdsCons(rs); }
    }
  }

  lemma {:induction false} IdsCons(rs: seq<Record>)
    requires rs != []
    ensures Ids(rs) == {rs[0].packetId} + Ids(rs[1..])
  {
    assert forall r :: r in rs <==> r == rs[0] || r in rs[1..];
  }

  lemma {:induction false} IdsAtMost(group: seq<Record>)
    ensures |Ids(group)| <= |group|
  {
    if group != [] {
      IdsAtMost(group[1..]);
      IdsCons(group);
    }
  }

  lemma {:induction false} IdsBelowSent(group: seq<Record>)
    ensures Ids(group) <= Below(SentOf(group))
  {
    if group != [] {
      MaxIsGreatest(Project(IdOf, group));
      ProjectMembers(group);
    }
  }

  // Per stream: sent - received is the missing ids below the maximum minus the duplicates.
  // So `lost` never exceeds the missing count, and reaches it exactly when there are no
  // duplicates or nothing is missing.
  lemma {:induction false} StreamLoss(group: seq<Record>)
    ensures SentOf(group) - |group| == |Missing(group)| - Duplicates(group)
    ensures Duplicates(group) >= 0
    ensures LostOf(group) <= |Missing(group)|
    ensures LostOf(group) == |Missing(group)| <==> Duplicates(group) == 0 || Missing(group) == {}
  {
    hide SentOf;
    IdsAtMost(group);
    IdsBelowSent(group);
    BelowSize(SentOf(group));
    assert Missing(group) == Below(SentOf(group)) - Ids(group);
    assert |Below(SentOf(group)) - Ids(group)| == |Below(SentOf(group))| - |Ids(group)|;
    if |Missing(group)| == 0 {
      assert Missing(group) == {};
    }
  }

  // No more records than packets sent.
  predicate NoExcess(group: seq<Record>) {
    |group| <= SentOf(group)
  }

  lemma {:induction false} LossSums(rs: seq<Record>, ids: seq<StreamId>)
    ensures SumOver(SentOf, rs, ids) <= SumOver(LengthOf, rs, ids) + SumOver(LostOf, rs, ids)
    ensures SumOver(SentOf, rs, ids) == SumOver(LengthOf, rs, ids) + SumOver(LostOf, rs, ids)
       <==> forall s :: s in ids ==> NoExcess(OnStream(rs, s))
  {
    hide SentOf, OnStream;
    if ids != [] {
      LossSums(rs, ids[1..]);
      var g := OnStream(rs, ids[0]);
      assert SumOver(SentOf, rs, ids) == SentOf(g) + SumOver(SentOf, rs, ids[1..]);
      assert SumOver(LostOf, rs, ids) == LostOf(g) + SumOver(LostOf, rs, ids[1..]);
      assert SumOver(LengthOf, rs, ids) == |g| + SumOver(LengthOf, rs, ids[1..]);
      assert forall s :: s in ids <==> s == ids[0] || s in ids[1..];
      assert ids[0] in ids;
      assert (forall s :: s in ids ==> NoExcess(OnStream(rs, s)))
        <==> NoExcess(g) && forall s :: s in ids[1..] ==> NoExcess(OnStream(rs, s));
    }
  }

  // Globally: sent is at most received plus lost, with equality exactly when no stream has
  // more records than packets sent.
  lemma {:induction false} GlobalLoss(rs: seq<Record>, sqrt: real -> real)
    ensures var g := Analyze(rs, sqrt).global;
      && g.sent <= g.received + g.lost
      && (g.sent == g.received + g.lost <==>
            forall s :: s in StreamIds(rs) ==> NoExcess(OnStream(rs, s)))
  {
    hide SentOf, LostOf, OnStream, StreamIds, Average, Variance, Sort, Percentile;
    LossSums(rs, StreamIds(rs));
    ReceivedIsCount(rs);
  }

  // ------------------------------------------------------------------
  // The law of total variance
  // ------------------------------------------------------------------

  // Received-weighted sums over the stream reports.
  function WeightedAverages(streams: seq<StreamReport>): real {
    if streams == [] then 0.0 else
    streams[0].stats.received as real * streams[0].stats.avgUs + WeightedAverages(streams[1..])
  }

  // received * (jitter^2 + (avg - a)^2)
  function SpreadAbout(stats: RunStats, a: real): real {
    stats.received as real * (Square(stats.jitterUs) + Square(stats.avgUs - a))
  }

  function WeightedSpreads(streams: seq<StreamReport>, a: real): real {
    if streams == [] then 0.0 else SpreadAbout(streams[0].stats, a) + WeightedSpreads(streams[1..], a)
  }

  // What average and jitter mean for the times of the group.
  lemma {:induction false} GroupMoments(group: seq<Record>, sent: nat, lost: nat, sqrt: real -> real, a: real)
    requires group != [] && IsSqrt(sqrt)
    ensures var r := ComputeSingleRun(sent, |group|, lost, group, sqrt);
      && r.received == |group|
      && r.avgUs == Average(Rtts(group))
      && Square(r.jitterUs) == Variance(Rtts(group))
      && r.received as real * r.avgUs == Total(Rtts(group)) as real
      && SpreadAbout(r, a) == Expanded(a, Squares(Rtts(group)) as real, Total(Rtts(group)) as real, |group| as real)
  {
    hide Sort, Percentile, Variance, Square, Total, Squares, Project, Max, Min, LossRate, Expanded;
    var xs := Rtts(group);
    MomentsOfSorted(xs);
    VarianceNonNegative(xs);
    VarianceAbout(xs, a);
    DeviationsExpand(a, xs);
    ScaledVariance(|xs| as real, Total(xs) as real);
    assert Square(sqrt(Variance(xs))) == Variance(xs);
  }

  lemma {:induction false} StreamSums(rs: seq<Record>, ids: seq<StreamId>, sqrt: real -> real, a: real)
    requires IsSqrt(sqrt) && forall s :: s in ids ==> OnStream(rs, s) != []
    ensures WeightedAverages(StreamReports(rs, ids, sqrt)) == SumStreams(RttOf, rs, ids) as real
    ensures WeightedSpreads(StreamReports(rs, ids, sqrt), a)
         == Expanded(a, SumStreams(SqOf, rs, ids) as real, SumStreams(RttOf, rs, ids) as real,
                     SumStreams(OneOf, rs, ids) as real)
  {
    hide ComputeSingleRun, SpreadAbout, OnStream, Expanded, SentOf, LostOf, GroupStats, IsSqrt, Total, Project;
    if ids == [] {
      ZeroTerms(a);
    } else {
      StreamSums(rs, ids[1..], sqrt, a);
      var group := OnStream(rs, ids[0]);
      assert ids[0] in ids;
      GroupSums(group, sqrt, a);
      var s, t, n := SumStreams(SqOf, rs, ids[1..]), SumStreams(RttOf, rs, ids[1..]), SumStreams(OneOf, rs, ids[1..]);
      ExpandedAdds(a, Total(Project(SqOf, group)) as real, Total(Project(RttOf, group)) as real,
                   Total(Project(OneOf, group)) as real, s as real, t as real, n as real);
      assert StreamReports(rs, ids, sqrt)[1..] == StreamReports(rs, ids[1..], sqrt);
    }
  }

  lemma {:induction false} GroupSums(group: seq<Record>, sqrt: real -> real, a: real)
    requires group != [] && IsSqrt(sqrt)
    ensures var r := GroupStats(group, sqrt);
      && r.received as real * r.avgUs == Total(Project(RttOf, group)) as real
      && SpreadAbout(r, a) == Expanded(a, Total(Project(SqOf, group)) as real, Total(Project(RttOf, group)) as real,
                                       Total(Project(OneOf, group)) as real)
  {
    hide ComputeSingleRun, SpreadAbout, Expanded, Squares, Total, SentOf, LostOf, Project, IsSqrt;
    GroupMoments(group, SentOf(group), LostOf(group), sqrt, a);
    SquaresIsSum(group);
    CountIsSum(group);
  }

  lemma ExpandedAdds(a: real, s: real, t: real, n: real, s': real, t': real, n': real)
    ensures Expanded(a, s, t, n) + Expanded(a, s', t', n') == Expanded(a, s + s', t + t', n + n')
  {
    assert 2.0 * a * (t + t') == 2.0 * a * t + 2.0 * a * t';
    assert (n + n') * Square(a) == n * Square(a) + n' * Square(a);
  }

  // The global average is the received-weighted mean of the stream averages, and the global
  // squared jitter, weighted, is the sum over streams of received * (jitter^2 + (avg - AVG)^2).
  lemma {:induction false} TotalVariance(rs: seq<Record>, sqrt: real -> real)
    requires rs != [] && IsSqrt(sqrt)
    ensures var Report(g, streams) := Analyze(rs, sqrt);
      && g.received as real * g.avgUs == WeightedAverages(streams)
      && g.received as real * Square(g.jitterUs) == WeightedSpreads(streams, g.avgUs)
  {
    hide ComputeSingleRun, Expanded, Squares, Total, Square, Average, Variance, OnStream, StreamIds;
    hide WeightedAverages, WeightedSpreads, StreamReports, SumStreams, SumOver, SpreadAbout, Project;
    var Report(g, streams) := Analyze(rs, sqrt);
    var ids := StreamIds(rs);
    StreamIdsProperties(rs);
    GroupMoments(rs, SumOver(SentOf, rs, ids), SumOver(LostOf, rs, ids), sqrt, g.avgUs);
    StreamSums(rs, ids, sqrt, g.avgUs);
    PartitionAll(RttOf, rs);
    PartitionAll(SqOf, rs);
    PartitionAll(OneOf, rs);
    SquaresIsSum(rs);
    CountIsSum(rs);
    SpreadAboutOwnAverage(g);
  }

  lemma SpreadAboutOwnAverage(r: RunStats)
    ensures SpreadAbout(r, r.avgUs) == r.received as real * Square(r.jitterUs)
  {
    assert Square(r.avgUs - r.avgUs) == 0.0;
  }
}
