// What the single-file report says, told from the records alone.
module FileReports {
  import opened Sockets
  import opened Records
  import opened Sorting
  import opened Moments
  import opened SingleRun
  import opened Grouping
  import opened Subsequences
  import Aggregation
  import Analysis
  import RunFigures

  // ------------------------------------------------------------------
  // One list of records
  // ------------------------------------------------------------------

  lemma {:induction false} ProjectAt(f: Record -> nat, rs: seq<Record>)
    ensures forall i :: 0 <= i < |rs| ==> Project(f, rs)[i] == f(rs[i])
  {
    if rs != [] {
      ProjectAt(f, rs[1..]);
    }
  }

  // The lists the figures are computed from hold, record by record, the field of that name.
  lemma {:induction false} ListsOfFields(rs: seq<Record>)
    ensures forall i :: 0 <= i < |rs| ==>
      && Rtts(rs)[i] == rs[i].rttUs
      && Times(rs)[i] == rs[i].recvTimestamp
      && Project(SizeOf, rs)[i] == rs[i].payloadSize
      && Project(IdOf, rs)[i] == rs[i].packetId
  {
    hide Project;
    ProjectAt(RttOf, rs);
    ProjectAt(TimeOf, rs);
    ProjectAt(SizeOf, rs);
    ProjectAt(IdOf, rs);
  }

  // Of the records, the `first` arrived earliest and the `last` latest.
  ghost predicate Span(rs: seq<Record>, first: Record, last: Record) {
    && first in rs && last in rs
    && forall r :: r in rs ==> first.recvTimestamp <= r.recvTimestamp <= last.recvTimestamp
  }

  lemma {:induction false} SpanOfTimes(rs: seq<Record>) returns (first: Record, last: Record)
    requires rs != []
    ensures Span(rs, first, last)
    ensures last.recvTimestamp == Max(Times(rs)) && first.recvTimestamp == Min(Times(rs))
  {
    hide Max, Min, Times;
    RunFigures.TimesMembers(rs);
    MaxIsGreatest(Times(rs));
    MinIsLeast(Times(rs));
    var i :| 0 <= i < |rs| && rs[i].recvTimestamp == Min(Times(rs));
    var j :| 0 <= j < |rs| && rs[j].recvTimestamp == Max(Times(rs));
    first, last := rs[i], rs[j];
    forall r | r in rs ensures first.recvTimestamp <= r.recvTimestamp <= last.recvTimestamp {
      var k :| 0 <= k < |rs| && rs[k] == r;
      assert rs[k].recvTimestamp in Times(rs);
    }
  }

  // The counts are passed through; the loss rate times `sent` is a hundred times `lost`; the
  // duration in microseconds lies between the first arrival and the last; the average times
  // the number of records is the sum of the times.
  lemma {:induction false} RunTotals(sent: nat, lost: nat, rs: seq<Record>, sqrt: real -> real)
    requires rs != []
    ensures var r := ComputeSingleRun(sent, |rs|, lost, rs, sqrt);
      && r.sent == sent && r.received == |rs| && r.lost == lost
      && (if sent == 0 then r.lossRatePercent == 0.0 else r.lossRatePercent * sent as real == 100.0 * lost as real)
      && (exists first, last :: Span(rs, first, last)
            && 1_000_000.0 * r.durationSec == last.recvTimestamp as real - first.recvTimestamp as real)
      && |rs| as real * r.avgUs == Total(Rtts(rs)) as real
  {
    hide Max, Min, Total, Project, Rtts, Times, Average, Variance, Sort, Percentile, Span;
    var first, last := SpanOfTimes(rs);
    TimesOrdered(rs);
    MomentsOfSorted(Rtts(rs));
    RunFigures.MeanTimesCount(Rtts(rs));
    if sent > 0 {
      Percent(lost as real, sent as real);
    }
    Microseconds(last.recvTimestamp - first.recvTimestamp);
  }

  lemma Percent(lost: real, sent: real)
    requires sent > 0.0
    ensures ((lost / sent) * 100.0) * sent == 100.0 * lost
  {
    var q := lost / sent;
    ScaledVariance(sent, lost);
    Commute(q, sent);
  }

  lemma Commute(q: real, sent: real)
    ensures (q * 100.0) * sent == 100.0 * (sent * q)
  {
  }

  lemma Microseconds(us: int)
    ensures 1_000_000.0 * (us as real / 1_000_000.0) == us as real
  {
  }

  // A run without records reports its counts, the loss rate and nothing else.
  lemma {:induction false} EmptyRun(sent: nat, lost: nat, sqrt: real -> real)
    ensures var r := ComputeSingleRun(sent, 0, lost, [], sqrt);
      && r.sent == sent && r.received == 0 && r.lost == lost
      && (if sent == 0 then r.lossRatePercent == 0.0 else r.lossRatePercent * sent as real == 100.0 * lost as real)
      && r.durationSec == r.packetRatePps == r.goodputMbps == r.avgUs == r.jitterUs == 0.0
      && r.minUs == r.maxUs == r.p50Us == r.p90Us == r.p95Us == r.p99Us == 0
  {
    if sent > 0 {
      Percent(lost as real, sent as real);
    }
  }

  // ------------------------------------------------------------------
  // The groups
  // ------------------------------------------------------------------

  // A stream's group holds the records that carry its id, each as often as the file does, in
  // the order of the file.
  lemma {:induction false} GroupMeaning(rs: seq<Record>, s: StreamId)
    ensures forall r: Record :: multiset(OnStream(rs, s))[r] == if r.streamId == s then multiset(rs)[r] else 0
    ensures Sub(OnStream(rs, s), rs)
  {
    if rs != [] {
      hide Sub, OnStream;
      var init, last := rs[..|rs| - 1], rs[|rs| - 1];
      assert rs == init + [last];
      GroupMeaning(init, s);
      Analysis.OnStreamPush(init, last, s);
      SubSnoc(OnStream(init, s), init, last);
    }
  }

  // The highest packet id of a group is one less than the packets sent.
  lemma {:induction false} SentMeaning(group: seq<Record>)
    requires group != []
    ensures exists r :: r in group && r.packetId + 1 == SentOf(group)
    ensures forall r :: r in group ==> r.packetId < SentOf(group)
  {
    hide Max, Project;
    ProjectAt(IdOf, group);
    MaxIsGreatest(Project(IdOf, group));
    var k :| 0 <= k < |group| && Project(IdOf, group)[k] == Max(Project(IdOf, group));
    assert group[k] in group;
    forall r | r in group ensures r.packetId < SentOf(group) {
      var i :| 0 <= i < |group| && group[i] == r;
      assert Project(IdOf, group)[i] in Project(IdOf, group);
    }
  }

  // ------------------------------------------------------------------
  // The report
  // ------------------------------------------------------------------

  // The entry of one stream: labels from its id, `sent` from the highest packet id recorded
  // on it, `received` from the number of its records, `lost` the difference if positive.
  // All other figures are those of its records.
  ghost predicate StreamEntry(st: StreamReport, rs: seq<Record>, sqrt: real -> real) {
    var s := st.streamId;
    && st.index == s / 4
    && st.kind == (if s % 4 == 3 then Reliable else if s % 4 == 2 then Ordered else Unreliable)
    && (exists r :: r in rs && r.streamId == s && r.packetId + 1 == st.stats.sent)
    && (forall r :: r in rs && r.streamId == s ==> r.packetId < st.stats.sent)
    && st.stats.received == |OnStream(rs, s)|
    && st.stats.lost == (if st.stats.sent > st.stats.received then st.stats.sent - st.stats.received else 0)
    && st.stats == ComputeSingleRun(st.stats.sent, st.stats.received, st.stats.lost, OnStream(rs, s), sqrt)
  }

  function SentSum(streams: seq<StreamReport>): nat {
    if streams == [] then 0 else streams[0].stats.sent + SentSum(streams[1..])
  }

  function LostSum(streams: seq<StreamReport>): nat {
    if streams == [] then 0 else streams[0].stats.lost + LostSum(streams[1..])
  }

  lemma {:induction false} GroupCounts(group: seq<Record>, sqrt: real -> real)
    ensures var r := GroupStats(group, sqrt);
      && r.sent == SentOf(group) && r.received == |group| && r.lost == LostOf(group)
      && r == ComputeSingleRun(r.sent, r.received, r.lost, group, sqrt)
  {
    hide SentOf, LostOf, Max, Min, Times, Rtts, Project, Average, Variance, Sort, Percentile, LossRate;
  }

  lemma {:induction false} SumsOfReports(rs: seq<Record>, ids: seq<StreamId>, sqrt: real -> real)
    ensures SentSum(StreamReports(rs, ids, sqrt)) == SumOver(SentOf, rs, ids)
    ensures LostSum(StreamReports(rs, ids, sqrt)) == SumOver(LostOf, rs, ids)
  {
    hide OnStream, SentOf, LostOf, GroupStats;
    if ids != [] {
      SumsOfReports(rs, ids[1..], sqrt);
      GroupCounts(OnStream(rs, ids[0]), sqrt);
      assert StreamReports(rs, ids, sqrt)[1..] == StreamReports(rs, ids[1..], sqrt);
    }
  }

  lemma {:induction false} EntryOf(rs: seq<Record>, s: StreamId, sqrt: real -> real)
    requires OnStream(rs, s) != []
    ensures StreamEntry(StreamReport(s, StreamIndex(s), StreamClass(s), GroupStats(OnStream(rs, s), sqrt)), rs, sqrt)
  {
    hide OnStream, SentOf, GroupStats;
    var group := OnStream(rs, s);
    ClassBits(s);
    GroupCounts(group, sqrt);
    GroupMeaning(rs, s);
    SentMeaning(group);
    var top :| top in group && top.packetId + 1 == SentOf(group);
    assert multiset(group)[top] > 0 && multiset(rs)[top] > 0;
    forall r | r in rs && r.streamId == s ensures r.packetId < SentOf(group) {
      assert multiset(rs)[r] > 0 && r in multiset(group);
    }
  }

  // The streams with records, in increasing order, each with its entry; the global figures
  // count every record, add up the streams' sent and lost packets and are otherwise those of
  // the whole file.
  lemma {:induction false} ReportMeaning(rs: seq<Record>, sqrt: real -> real)
    ensures var Report(g, streams) := Analyze(rs, sqrt);
      && g.received == |rs| && g.sent == SentSum(streams) && g.lost == LostSum(streams)
      && g == ComputeSingleRun(g.sent, g.received, g.lost, rs, sqrt)
      && (forall j, k :: 0 <= j < k < |streams| ==> streams[j].streamId < streams[k].streamId)
      && (forall k :: 0 <= k < |streams| ==> StreamEntry(streams[k], rs, sqrt))
      && (forall r :: r in rs ==> exists k :: 0 <= k < |streams| && streams[k].streamId == r.streamId)
  {
    hide OnStream, StreamIds, SumOver, GroupStats, ComputeSingleRun, StreamReports, StreamEntry, SentSum, LostSum;
    var ids, streams := StreamIds(rs), Analyze(rs, sqrt).streams;
    StreamIdsProperties(rs);
    Aggregation.ReportStreams(rs, sqrt);
    Aggregation.ReportsAt(rs, ids, sqrt);
    SumsOfReports(rs, ids, sqrt);
    GlobalCounts(rs, sqrt);
    forall k | 0 <= k < |ids| ensures StreamEntry(streams[k], rs, sqrt) {
      assert ids[k] in ids;
      EntryOf(rs, ids[k], sqrt);
    }
    forall r | r in rs ensures exists k :: 0 <= k < |streams| && streams[k].streamId == r.streamId {
      GroupMeaning(rs, r.streamId);
      assert multiset(rs)[r] > 0 && r in multiset(OnStream(rs, r.streamId));
      assert r.streamId in ids;
      var k :| 0 <= k < |ids| && ids[k] == r.streamId;
      assert streams[k].streamId == r.streamId;
    }
  }

  lemma {:induction false} GlobalCounts(rs: seq<Record>, sqrt: real -> real)
    ensures var g := Analyze(rs, sqrt).global;
      && g.received == |rs|
      && g.sent == SumOver(SentOf, rs, StreamIds(rs))
      && g.lost == SumOver(LostOf, rs, StreamIds(rs))
      && g == ComputeSingleRun(g.sent, g.received, g.lost, rs, sqrt)
  {
    hide StreamIds, SumOver, StreamReports, Max, Min, Times, Rtts, Project, Average, Variance, Sort, Percentile, LossRate;
  }
}
