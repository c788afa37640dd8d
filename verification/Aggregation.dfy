// What `aggregate_runs` reports about the results files of one protocol.
//
// A file is given by its records; the scenario and protocol names are only copied and are
// not modelled.
module Aggregation {
  import opened Options
  import opened Sockets
  import opened Records
  import opened Sorting
  import opened SingleRun
  import opened Grouping
  import opened Summaries
  import opened Subsequences

  datatype Metric =
    | Sent | Received | Lost | LossRatePercent
    | DurationSec | PacketRatePps | GoodputMbps
    | MinUs | AvgUs | MaxUs | JitterUs | P50Us | P90Us | P95Us | P99Us

  function Value(r: RunStats, m: Metric): real {
    match m
    case Sent => r.sent as real
    case Received => r.received as real
    case Lost => r.lost as real
    case LossRatePercent => r.lossRatePercent
    case DurationSec => r.durationSec
    case PacketRatePps => r.packetRatePps
    case GoodputMbps => r.goodputMbps
    case MinUs => r.minUs as real
    case AvgUs => r.avgUs
    case MaxUs => r.maxUs as real
    case JitterUs => r.jitterUs
    case P50Us => r.p50Us as real
    case P90Us => r.p90Us as real
    case P95Us => r.p95Us as real
    case P99Us => r.p99Us as real
  }

  datatype AggregatedStats = AggregatedStats(
    sent: Summary, received: Summary, lost: Summary, lossRatePercent: Summary,
    durationSec: Summary, packetRatePps: Summary, goodputMbps: Summary,
    minUs: Summary, avgUs: Summary, maxUs: Summary, jitterUs: Summary,
    p50Us: Summary, p90Us: Summary, p95Us: Summary, p99Us: Summary)
  {
    function Figure(m: Metric): Summary {
      match m
      case Sent => sent
      case Received => received
      case Lost => lost
      case LossRatePercent => lossRatePercent
      case DurationSec => durationSec
      case PacketRatePps => packetRatePps
      case GoodputMbps => goodputMbps
      case MinUs => minUs
      case AvgUs => avgUs
      case MaxUs => maxUs
      case JitterUs => jitterUs
      case P50Us => p50Us
      case P90Us => p90Us
      case P95Us => p95Us
      case P99Us => p99Us
    }
  }

  function Column(runs: seq<RunStats>, m: Metric): (values: seq<real>)
    ensures |values| == |runs|
    ensures forall k :: 0 <= k < |runs| ==> values[k] == Value(runs[k], m)
  {
    if runs == [] then [] else [Value(runs[0], m)] + Column(runs[1..], m)
  }

  function AggregateStats(runs: seq<RunStats>, sqrt: real -> real): AggregatedStats
    requires IsSqrt(sqrt)
  {
    AggregatedStats(
      Summarize(Column(runs, Sent), sqrt),
      Summarize(Column(runs, Received), sqrt),
      Summarize(Column(runs, Lost), sqrt),
      Summarize(Column(runs, LossRatePercent), sqrt),
      Summarize(Column(runs, DurationSec), sqrt),
      Summarize(Column(runs, PacketRatePps), sqrt),
      Summarize(Column(runs, GoodputMbps), sqrt),
      Summarize(Column(runs, MinUs), sqrt),
      Summarize(Column(runs, AvgUs), sqrt),
      Summarize(Column(runs, MaxUs), sqrt),
      Summarize(Column(runs, JitterUs), sqrt),
      Summarize(Column(runs, P50Us), sqrt),
      Summarize(Column(runs, P90Us), sqrt),
      Summarize(Column(runs, P95Us), sqrt),
      Summarize(Column(runs, P99Us), sqrt))
  }

  datatype AggregatedStreamReport = AggregatedStreamReport(
    streamId: StreamId, index: StreamId, kind: Reliability, stats: AggregatedStats)

  datatype AggregatedReport = AggregatedReport(
    numRuns: nat, global: AggregatedStats, streams: seq<AggregatedStreamReport>)

  // ------------------------------------------------------------------
  // The report
  // ------------------------------------------------------------------

  function NonEmpty(files: seq<seq<Record>>): (runs: seq<seq<Record>>)
    ensures forall k :: 0 <= k < |runs| ==> runs[k] != []
  {
    if files == [] then []
    else if files[0] == [] then NonEmpty(files[1..])
    else [files[0]] + NonEmpty(files[1..])
  }

  // Nothing but the empty files is left out, and the order stays.
  lemma {:induction false} NonEmptyMeaning(files: seq<seq<Record>>)
    ensures forall f: seq<Record> :: multiset(NonEmpty(files))[f] == if f == [] then 0 else multiset(files)[f]
    ensures Sub(NonEmpty(files), files)
  {
    if files == [] {
      assert NonEmpty(files) == [];
    } else {
      hide NonEmpty, Sub;
      var init, last := files[..|files| - 1], files[|files| - 1];
      assert files == init + [last];
      NonEmptyMeaning(init);
      NonEmptyPush(init, last);
      assert NonEmpty(init) + [] == NonEmpty(init);
      SubSnoc(NonEmpty(init), init, last);
    }
  }

  lemma {:induction false} NonEmptyPush(files: seq<seq<Record>>, file: seq<Record>)
    ensures NonEmpty(files + [file]) == NonEmpty(files) + (if file == [] then [] else [file])
  {
    if files == [] {
      assert files + [file] == [file];
    } else {
      NonEmptyPush(files[1..], file);
      assert (files + [file])[1..] == files[1..] + [file];
    }
  }

  function Globals(runs: seq<seq<Record>>, sqrt: real -> real): (stats: seq<RunStats>)
    ensures |stats| == |runs|
  {
    if runs == [] then [] else [Analyze(runs[0], sqrt).global] + Globals(runs[1..], sqrt)
  }

  // The figures of stream s in the runs where it occurs.
  function StreamRuns(runs: seq<seq<Record>>, s: StreamId, sqrt: real -> real): seq<RunStats> {
    if runs == [] then []
    else if s in StreamIds(runs[0]) then
      [GroupStats(OnStream(runs[0], s), sqrt)] + StreamRuns(runs[1..], s, sqrt)
    else StreamRuns(runs[1..], s, sqrt)
  }

  function Flatten(runs: seq<seq<Record>>): seq<Record> {
    if runs == [] then [] else runs[0] + Flatten(runs[1..])
  }

  function AggregatedStreams(runs: seq<seq<Record>>, ids: seq<StreamId>, sqrt: real -> real)
    : (reports: seq<AggregatedStreamReport>)
    requires IsSqrt(sqrt)
    ensures |reports| == |ids|
  {
    if ids == [] then [] else
    [AggregatedStreamReport(ids[0], StreamIndex(ids[0]), StreamClass(ids[0]),
                            AggregateStats(StreamRuns(runs, ids[0], sqrt), sqrt))]
    + AggregatedStreams(runs, ids[1..], sqrt)
  }

  // `num_runs` counts the empty files too.
  function Aggregate(files: seq<seq<Record>>, sqrt: real -> real): AggregatedReport
    requires IsSqrt(sqrt)
  {
    var runs := NonEmpty(files);
    AggregatedReport(|files|,
                     AggregateStats(Globals(runs, sqrt), sqrt),
                     AggregatedStreams(runs, StreamIds(Flatten(runs)), sqrt))
  }

  // ------------------------------------------------------------------
  // Which streams are reported
  // ------------------------------------------------------------------

  lemma {:induction false} OnStreamConcat(a: seq<Record>, b: seq<Record>, s: StreamId)
    ensures OnStream(a + b, s) == OnStream(a, s) + OnStream(b, s)
  {
    if a == [] {
      assert a + b == b;
    } else {
      OnStreamConcat(a[1..], b, s);
      assert (a + b)[0] == a[0] && (a + b)[1..] == a[1..] + b;
    }
  }

  lemma {:induction false} ListedIffSeen(rs: seq<Record>, s: StreamId)
    ensures s in StreamIds(rs) <==> OnStream(rs, s) != []
  {
    hide OnStream, StreamIds;
    StreamIdsProperties(rs);
  }

  // The number of runs in which s occurs.
  function RunsWith(runs: seq<seq<Record>>, s: StreamId): nat {
    if runs == [] then 0 else (if s in StreamIds(runs[0]) then 1 else 0) + RunsWith(runs[1..], s)
  }

  lemma {:induction false} FlattenListed(runs: seq<seq<Record>>, s: StreamId)
    ensures s in StreamIds(Flatten(runs)) <==> RunsWith(runs, s) > 0
  {
    hide StreamIds;
    ListedIffSeen(Flatten(runs), s);
    if runs != [] {
      hide OnStream;
      FlattenListed(runs[1..], s);
      ListedIffSeen(Flatten(runs[1..]), s);
      ListedIffSeen(runs[0], s);
      OnStreamConcat(runs[0], Flatten(runs[1..]), s);
    }
  }

  lemma {:induction false} StreamRunsCount(runs: seq<seq<Record>>, s: StreamId, sqrt: real -> real)
    ensures |StreamRuns(runs, s, sqrt)| == RunsWith(runs, s)
  {
    hide StreamIds, OnStream, GroupStats;
    if runs != [] {
      StreamRunsCount(runs[1..], s, sqrt);
    }
  }

  lemma {:induction false} FigureIsSummary(runs: seq<RunStats>, m: Metric, sqrt: real -> real)
    requires IsSqrt(sqrt)
    ensures AggregateStats(runs, sqrt).Figure(m) == Summarize(Column(runs, m), sqrt)
  {
    hide Summarize, Column, IsSqrt;
  }

  lemma {:induction false} ValuesKept(values: seq<real>, sqrt: real -> real)
    requires IsSqrt(sqrt)
    ensures Summarize(values, sqrt).values == values
  {
    hide Middle, Margin, Mean, SampleVariance, Sort, IsSqrt;
  }

  lemma {:induction false} StreamReportAt(runs: seq<seq<Record>>, ids: seq<StreamId>, sqrt: real -> real, k: nat)
    requires IsSqrt(sqrt) && k < |ids|
    ensures AggregatedStreams(runs, ids, sqrt)[k]
         == AggregatedStreamReport(ids[k], StreamIndex(ids[k]), StreamClass(ids[k]),
                                   AggregateStats(StreamRuns(runs, ids[k], sqrt), sqrt))
  {
    hide AggregateStats, StreamRuns, IsSqrt;
    if k > 0 {
      StreamReportAt(runs, ids[1..], sqrt, k - 1);
    }
  }

  // A stream is reported exactly when some run saw it, in increasing order of the ids; its
  // figures cover exactly the runs that saw it, and the global figures every non-empty run.
  lemma {:induction false} ReportCovers(files: seq<seq<Record>>, sqrt: real -> real, m: Metric)
    requires IsSqrt(sqrt)
    ensures var report := Aggregate(files, sqrt);
      var runs := NonEmpty(files);
      && report.numRuns == |files|
      && |report.global.Figure(m).values| == |runs|
      && (forall j, k :: 0 <= j < k < |report.streams| ==> report.streams[j].streamId < report.streams[k].streamId)
      && (forall s :: RunsWith(runs, s) > 0 ==> exists k :: 0 <= k < |report.streams| && report.streams[k].streamId == s)
      && (forall k :: 0 <= k < |report.streams| ==>
            var st := report.streams[k];
            |st.stats.Figure(m).values| == RunsWith(runs, st.streamId) > 0)
  {
    hide StreamIds, OnStream, Flatten, AggregateStats, AggregatedStreams, Summarize, Column, IsSqrt, Globals, RunsWith;
    var report := Aggregate(files, sqrt);
    var runs := NonEmpty(files);
    var ids := StreamIds(Flatten(runs));
    StreamIdsProperties(Flatten(runs));
    FigureValues(Globals(runs, sqrt), m, sqrt);
    forall k | 0 <= k < |ids|
      ensures report.streams[k].streamId == ids[k]
      ensures |report.streams[k].stats.Figure(m).values| == RunsWith(runs, ids[k]) > 0
    {
      StreamReportAt(runs, ids, sqrt, k);
      FigureValues(StreamRuns(runs, ids[k], sqrt), m, sqrt);
      StreamRunsCount(runs, ids[k], sqrt);
      FlattenListed(runs, ids[k]);
    }
    forall s | RunsWith(runs, s) > 0
      ensures exists k :: 0 <= k < |report.streams| && report.streams[k].streamId == s
    {
      FlattenListed(runs, s);
      var k :| 0 <= k < |ids| && ids[k] == s;
      assert report.streams[k].streamId == s;
    }
  }

  // ------------------------------------------------------------------
  // Aggregated and single-file reports
  // ------------------------------------------------------------------

  function LookUpStream(streams: seq<StreamReport>, s: StreamId): Option<RunStats> {
    if streams == [] then None
    else if streams[0].streamId == s then Some(streams[0].stats)
    else LookUpStream(streams[1..], s)
  }

  lemma {:induction false} LookUpReports(rs: seq<Record>, ids: seq<StreamId>, s: StreamId, sqrt: real -> real)
    ensures LookUpStream(StreamReports(rs, ids, sqrt), s)
         == if s in ids then Some(GroupStats(OnStream(rs, s), sqrt)) else None
  {
    hide OnStream, GroupStats;
    if ids != [] {
      LookUpReports(rs, ids[1..], s, sqrt);
      assert s in ids <==> s == ids[0] || s in ids[1..];
      assert StreamReports(rs, ids, sqrt)[1..] == StreamReports(rs, ids[1..], sqrt);
    }
  }

  lemma {:induction false} GlobalsAt(runs: seq<seq<Record>>, sqrt: real -> real, j: nat)
    requires j < |runs|
    ensures Globals(runs, sqrt)[j] == Analyze(runs[j], sqrt).global
  {
    hide Analyze;
    if j > 0 {
      GlobalsAt(runs[1..], sqrt, j - 1);
    }
  }

  lemma {:induction false} FigureValues(runs: seq<RunStats>, m: Metric, sqrt: real -> real)
    requires IsSqrt(sqrt)
    ensures var f := AggregateStats(runs, sqrt).Figure(m); f.values == Column(runs, m) && f == Summarize(f.values, sqrt)
  {
    hide Summarize, IsSqrt, AggregateStats, Column;
    FigureIsSummary(runs, m, sqrt);
    ValuesKept(Column(runs, m), sqrt);
  }

  // ------------------------------------------------------------------
  // One run
  // ------------------------------------------------------------------

  function Constant(v: real): Summary {
    Summary(v, v, 0.0, v, v, v, v, [v])
  }

  lemma {:induction false} ReportsAt(rs: seq<Record>, ids: seq<StreamId>, sqrt: real -> real)
    ensures |StreamReports(rs, ids, sqrt)| == |ids|
    ensures forall k :: 0 <= k < |ids| ==>
      StreamReports(rs, ids, sqrt)[k]
      == StreamReport(ids[k], StreamIndex(ids[k]), StreamClass(ids[k]), GroupStats(OnStream(rs, ids[k]), sqrt))
  {
    hide OnStream, GroupStats;
    if ids != [] {
      ReportsAt(rs, ids[1..], sqrt);
    }
  }

  lemma {:induction false} ReportStreams(rs: seq<Record>, sqrt: real -> real)
    ensures Analyze(rs, sqrt).streams == StreamReports(rs, StreamIds(rs), sqrt)
  {
    hide ComputeSingleRun, StreamReports, StreamIds, SumOver;
  }

  // ------------------------------------------------------------------
  // The reports field by field
  // ------------------------------------------------------------------

  ghost predicate HasRuns(a: AggregatedStats, n: nat) {
    && |a.sent.values| == n
    && |a.received.values| == n
    && |a.lost.values| == n
    && |a.lossRatePercent.values| == n
    && |a.durationSec.values| == n
    && |a.packetRatePps.values| == n
    && |a.goodputMbps.values| == n
    && |a.minUs.values| == n
    && |a.avgUs.values| == n
    && |a.maxUs.values| == n
    && |a.jitterUs.values| == n
    && |a.p50Us.values| == n
    && |a.p90Us.values| == n
    && |a.p95Us.values| == n
    && |a.p99Us.values| == n
  }

  ghost predicate SummarizesItsValues(a: AggregatedStats, sqrt: real -> real)
    requires IsSqrt(sqrt)
  {
    && a.sent == Summarize(a.sent.values, sqrt)
    && a.received == Summarize(a.received.values, sqrt)
    && a.lost == Summarize(a.lost.values, sqrt)
    && a.lossRatePercent == Summarize(a.lossRatePercent.values, sqrt)
    && a.durationSec == Summarize(a.durationSec.values, sqrt)
    && a.packetRatePps == Summarize(a.packetRatePps.values, sqrt)
    && a.goodputMbps == Summarize(a.goodputMbps.values, sqrt)
    && a.minUs == Summarize(a.minUs.values, sqrt)
    && a.avgUs == Summarize(a.avgUs.values, sqrt)
    && a.maxUs == Summarize(a.maxUs.values, sqrt)
    && a.jitterUs == Summarize(a.jitterUs.values, sqrt)
    && a.p50Us == Summarize(a.p50Us.values, sqrt)
    && a.p90Us == Summarize(a.p90Us.values, sqrt)
    && a.p95Us == Summarize(a.p95Us.values, sqrt)
    && a.p99Us == Summarize(a.p99Us.values, sqrt)
  }

  // The j-th value of every field is that of `r`.
  ghost predicate RunIs(a: AggregatedStats, n: nat, j: nat, r: RunStats)
    requires HasRuns(a, n) && j < n
  {
    && a.sent.values[j] == r.sent as real
    && a.received.values[j] == r.received as real
    && a.lost.values[j] == r.lost as real
    && a.lossRatePercent.values[j] == r.lossRatePercent
    && a.durationSec.values[j] == r.durationSec
    && a.packetRatePps.values[j] == r.packetRatePps
    && a.goodputMbps.values[j] == r.goodputMbps
    && a.minUs.values[j] == r.minUs as real
    && a.avgUs.values[j] == r.avgUs
    && a.maxUs.values[j] == r.maxUs as real
    && a.jitterUs.values[j] == r.jitterUs
    && a.p50Us.values[j] == r.p50Us as real
    && a.p90Us.values[j] == r.p90Us as real
    && a.p95Us.values[j] == r.p95Us as real
    && a.p99Us.values[j] == r.p99Us as real
  }

  // `a` summarises, field by field, the figures of these runs, in order.
  ghost predicate SummaryOf(a: AggregatedStats, runs: seq<RunStats>, sqrt: real -> real)
    requires IsSqrt(sqrt)
  {
    && HasRuns(a, |runs|)
    && SummarizesItsValues(a, sqrt)
    && forall j :: 0 <= j < |runs| ==> RunIs(a, |runs|, j, runs[j])
  }

  ghost predicate AllConstant(a: AggregatedStats, r: RunStats) {
    && a.sent == Constant(r.sent as real)
    && a.received == Constant(r.received as real)
    && a.lost == Constant(r.lost as real)
    && a.lossRatePercent == Constant(r.lossRatePercent)
    && a.durationSec == Constant(r.durationSec)
    && a.packetRatePps == Constant(r.packetRatePps)
    && a.goodputMbps == Constant(r.goodputMbps)
    && a.minUs == Constant(r.minUs as real)
    && a.avgUs == Constant(r.avgUs)
    && a.maxUs == Constant(r.maxUs as real)
    && a.jitterUs == Constant(r.jitterUs)
    && a.p50Us == Constant(r.p50Us as real)
    && a.p90Us == Constant(r.p90Us as real)
    && a.p95Us == Constant(r.p95Us as real)
    && a.p99Us == Constant(r.p99Us as real)
  }

  // Every field holds the column of its own metric.
  ghost predicate Columns(a: AggregatedStats, runs: seq<RunStats>) {
    && a.sent.values == Column(runs, Sent)
    && a.received.values == Column(runs, Received)
    && a.lost.values == Column(runs, Lost)
    && a.lossRatePercent.values == Column(runs, LossRatePercent)
    && a.durationSec.values == Column(runs, DurationSec)
    && a.packetRatePps.values == Column(runs, PacketRatePps)
    && a.goodputMbps.values == Column(runs, GoodputMbps)
    && a.minUs.values == Column(runs, MinUs)
    && a.avgUs.values == Column(runs, AvgUs)
    && a.maxUs.values == Column(runs, MaxUs)
    && a.jitterUs.values == Column(runs, JitterUs)
    && a.p50Us.values == Column(runs, P50Us)
    && a.p90Us.values == Column(runs, P90Us)
    && a.p95Us.values == Column(runs, P95Us)
    && a.p99Us.values == Column(runs, P99Us)
  }

  lemma {:induction false} ColumnsKept(runs: seq<RunStats>, sqrt: real -> real)
    requires IsSqrt(sqrt)
    ensures Columns(AggregateStats(runs, sqrt), runs) && SummarizesItsValues(AggregateStats(runs, sqrt), sqrt)
  {
    hide Summarize, IsSqrt, Column;
    ValuesKept(Column(runs, Sent), sqrt);
    ValuesKept(Column(runs, Received), sqrt);
    ValuesKept(Column(runs, Lost), sqrt);
    ValuesKept(Column(runs, LossRatePercent), sqrt);
    ValuesKept(Column(runs, DurationSec), sqrt);
    ValuesKept(Column(runs, PacketRatePps), sqrt);
    ValuesKept(Column(runs, GoodputMbps), sqrt);
    ValuesKept(Column(runs, MinUs), sqrt);
    ValuesKept(Column(runs, AvgUs), sqrt);
    ValuesKept(Column(runs, MaxUs), sqrt);
    ValuesKept(Column(runs, JitterUs), sqrt);
    ValuesKept(Column(runs, P50Us), sqrt);
    ValuesKept(Column(runs, P90Us), sqrt);
    ValuesKept(Column(runs, P95Us), sqrt);
    ValuesKept(Column(runs, P99Us), sqrt);
  }

  lemma {:induction false} ColumnsHaveRuns(a: AggregatedStats, runs: seq<RunStats>)
    requires Columns(a, runs)
    ensures HasRuns(a, |runs|)
  {
    hide Column;
  }

  lemma {:induction false} ColumnsAt(a: AggregatedStats, runs: seq<RunStats>, j: nat)
    requires Columns(a, runs) && HasRuns(a, |runs|) && j < |runs|
    ensures RunIs(a, |runs|, j, runs[j])
  {
    hide Column;
  }

  lemma {:induction false} FieldsSummarized(runs: seq<RunStats>, sqrt: real -> real)
    requires IsSqrt(sqrt)
    ensures SummaryOf(AggregateStats(runs, sqrt), runs, sqrt)
  {
    hide IsSqrt, AggregateStats, Columns, HasRuns, RunIs, SummarizesItsValues;
    var a := AggregateStats(runs, sqrt);
    ColumnsKept(runs, sqrt);
    ColumnsHaveRuns(a, runs);
    forall j | 0 <= j < |runs| ensures RunIs(a, |runs|, j, runs[j]) {
      ColumnsAt(a, runs, j);
    }
  }

  lemma {:induction false} ConstantColumn(r: RunStats, m: Metric, sqrt: real -> real)
    requires IsSqrt(sqrt)
    ensures Summarize(Column([r], m), sqrt) == Constant(Value(r, m))
  {
    hide Summarize, IsSqrt, Value;
    assert Column([r], m) == [Value(r, m)];
    AgreeingRuns([Value(r, m)], Value(r, m), sqrt);
  }

  ghost predicate ConstantFigures(a: AggregatedStats, r: RunStats) {
    && a.sent == Constant(Value(r, Sent))
    && a.received == Constant(Value(r, Received))
    && a.lost == Constant(Value(r, Lost))
    && a.lossRatePercent == Constant(Value(r, LossRatePercent))
    && a.durationSec == Constant(Value(r, DurationSec))
    && a.packetRatePps == Constant(Value(r, PacketRatePps))
    && a.goodputMbps == Constant(Value(r, GoodputMbps))
    && a.minUs == Constant(Value(r, MinUs))
    && a.avgUs == Constant(Value(r, AvgUs))
    && a.maxUs == Constant(Value(r, MaxUs))
    && a.jitterUs == Constant(Value(r, JitterUs))
    && a.p50Us == Constant(Value(r, P50Us))
    && a.p90Us == Constant(Value(r, P90Us))
    && a.p95Us == Constant(Value(r, P95Us))
    && a.p99Us == Constant(Value(r, P99Us))
  }

  lemma {:induction false} FiguresConstant(r: RunStats, sqrt: real -> real)
    requires IsSqrt(sqrt)
    ensures ConstantFigures(AggregateStats([r], sqrt), r)
  {
    hide Summarize, IsSqrt, Constant, Column, Value;
    ConstantColumn(r, Sent, sqrt);
    ConstantColumn(r, Received, sqrt);
    ConstantColumn(r, Lost, sqrt);
    ConstantColumn(r, LossRatePercent, sqrt);
    ConstantColumn(r, DurationSec, sqrt);
    ConstantColumn(r, PacketRatePps, sqrt);
    ConstantColumn(r, GoodputMbps, sqrt);
    ConstantColumn(r, MinUs, sqrt);
    ConstantColumn(r, AvgUs, sqrt);
    ConstantColumn(r, MaxUs, sqrt);
    ConstantColumn(r, JitterUs, sqrt);
    ConstantColumn(r, P50Us, sqrt);
    ConstantColumn(r, P90Us, sqrt);
    ConstantColumn(r, P95Us, sqrt);
    ConstantColumn(r, P99Us, sqrt);
  }

  lemma {:induction false} FieldsConstant(r: RunStats, sqrt: real -> real)
    requires IsSqrt(sqrt)
    ensures AllConstant(AggregateStats([r], sqrt), r)
  {
    hide IsSqrt, AggregateStats, Constant;
    FiguresConstant(r, sqrt);
  }

  // What the single-file reports of the runs give for stream s, where they list it.
  function ReportedStats(runs: seq<seq<Record>>, s: StreamId, sqrt: real -> real): seq<RunStats> {
    if runs == [] then [] else
    match LookUpStream(Analyze(runs[0], sqrt).streams, s)
    case None => ReportedStats(runs[1..], s, sqrt)
    case Some(r) => [r] + ReportedStats(runs[1..], s, sqrt)
  }

  lemma {:induction false} RunsReported(runs: seq<seq<Record>>, s: StreamId, sqrt: real -> real)
    ensures StreamRuns(runs, s, sqrt) == ReportedStats(runs, s, sqrt)
  {
    hide OnStream, GroupStats, StreamIds, Analyze, StreamReports;
    if runs != [] {
      RunsReported(runs[1..], s, sqrt);
      ReportStreams(runs[0], sqrt);
      LookUpReports(runs[0], StreamIds(runs[0]), s, sqrt);
    }
  }

  // Field by field, the report summarises what the single-file reports of the non-empty runs
  // give: globally one value per run, per stream one for each run that lists it.
  lemma {:induction false} AggregatesReports(files: seq<seq<Record>>, sqrt: real -> real)
    requires IsSqrt(sqrt)
    ensures var report := Aggregate(files, sqrt);
      var runs := NonEmpty(files);
      && HasRuns(report.global, |runs|)
      && SummarizesItsValues(report.global, sqrt)
      && (forall j :: 0 <= j < |runs| ==> RunIs(report.global, |runs|, j, Analyze(runs[j], sqrt).global))
      && (forall k :: 0 <= k < |report.streams| ==>
            var st := report.streams[k];
            && st.index == st.streamId / 4
            && st.kind == (if st.streamId % 4 == 3 then Reliable else if st.streamId % 4 == 2 then Ordered else Unreliable)
            && SummaryOf(st.stats, ReportedStats(runs, st.streamId, sqrt), sqrt))
  {
    hide StreamIds, Flatten, AggregateStats, AggregatedStreams, SummarizesItsValues, IsSqrt, Globals, Analyze, StreamRuns, RunIs, HasRuns;
    var report := Aggregate(files, sqrt);
    var runs := NonEmpty(files);
    var ids := StreamIds(Flatten(runs));
    FieldsSummarized(Globals(runs, sqrt), sqrt);
    forall j | 0 <= j < |runs| ensures RunIs(report.global, |runs|, j, Analyze(runs[j], sqrt).global) {
      GlobalsAt(runs, sqrt, j);
    }
    forall k | 0 <= k < |ids|
      ensures var st := report.streams[k];
        && st.index == StreamIndex(st.streamId) && st.kind == StreamClass(st.streamId)
        && SummaryOf(st.stats, ReportedStats(runs, st.streamId, sqrt), sqrt)
    {
      StreamReportAt(runs, ids, sqrt, k);
      FieldsSummarized(StreamRuns(runs, ids[k], sqrt), sqrt);
      RunsReported(runs, ids[k], sqrt);
    }
    forall s: StreamId
      ensures StreamClass(s) == if s % 4 == 3 then Reliable else if s % 4 == 2 then Ordered else Unreliable
    {
      ClassBits(s);
    }
  }

  // With one non-empty file, every field of every summary is constant at the value of the
  // single-file report, globally and stream by stream.
  lemma {:induction false} SingleRunCollapse(files: seq<seq<Record>>, rs: seq<Record>, sqrt: real -> real)
    requires IsSqrt(sqrt) && NonEmpty(files) == [rs]
    ensures var a := Aggregate(files, sqrt);
      var r := Analyze(rs, sqrt);
      && AllConstant(a.global, r.global)
      && |a.streams| == |r.streams|
      && (forall k :: 0 <= k < |a.streams| ==>
            && a.streams[k].streamId == r.streams[k].streamId
            && a.streams[k].index == r.streams[k].index
            && a.streams[k].kind == r.streams[k].kind
            && AllConstant(a.streams[k].stats, r.streams[k].stats))
  {
    hide StreamIds, OnStream, AggregateStats, Analyze, GroupStats, IsSqrt, AggregatedStreams, StreamReports, AllConstant;
    var runs := [rs];
    assert runs[1..] == [];
    assert Flatten(runs) == rs;
    var ids := StreamIds(rs);
    assert Globals(runs, sqrt) == [Analyze(rs, sqrt).global];
    FieldsConstant(Analyze(rs, sqrt).global, sqrt);
    ReportsAt(rs, ids, sqrt);
    ReportStreams(rs, sqrt);
    forall k | 0 <= k < |ids|
      ensures var st := Aggregate(files, sqrt).streams[k];
        && st.streamId == ids[k] && st.index == StreamIndex(ids[k]) && st.kind == StreamClass(ids[k])
        && AllConstant(st.stats, GroupStats(OnStream(rs, ids[k]), sqrt))
    {
      StreamReportAt(runs, ids, sqrt, k);
      assert ids[k] in ids;
      assert StreamRuns(runs, ids[k], sqrt) == [GroupStats(OnStream(rs, ids[k]), sqrt)];
      FieldsConstant(GroupStats(OnStream(rs, ids[k]), sqrt), sqrt);
    }
  }
}
