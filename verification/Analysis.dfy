// The loops of the statistics tool: `analyze_single_file` and `aggregate_runs`.
module Analysis {
  import opened Sockets
  import opened Options
  import opened Records
  import opened SingleRun
  import opened Grouping
  import opened Aggregation

  // ------------------------------------------------------------------
  // Grouping
  // ------------------------------------------------------------------

  lemma {:induction false} OnStreamPush(rs: seq<Record>, r: Record, s: StreamId)
    ensures OnStream(rs + [r], s) == if r.streamId == s then OnStream(rs, s) + [r] else OnStream(rs, s)
  {
    OnStreamConcat(rs, [r], s);
    assert OnStream([r][1..], s) == [];
  }

  ghost predicate GroupedBy(streams: map<StreamId, seq<Record>>, rs: seq<Record>) {
    forall s: StreamId :: OnStream(rs, s) == if s in streams then streams[s] else []
  }

  // streams.entry(r.stream_id).or_default().push(r)
  method GroupByStream(rs: seq<Record>) returns (streams: map<StreamId, seq<Record>>)
    ensures GroupedBy(streams, rs)
    ensures forall s :: s in streams <==> OnStream(rs, s) != []
  {
    streams := map[];
    for i := 0 to |rs|
      invariant GroupedBy(streams, rs[..i])
      invariant forall s :: s in streams ==> streams[s] != []
    {
      ghost var before := streams;
      var r := rs[i];
      var entry := if r.streamId in streams then streams[r.streamId] else [];
      streams := streams[r.streamId := entry + [r]];
      assert rs[..i + 1] == rs[..i] + [r];
      forall s: StreamId
        ensures OnStream(rs[..i + 1], s) == if s in streams then streams[s] else []
      {
        OnStreamPush(rs[..i], r, s);
        assert OnStream(rs[..i], s) == if s in before then before[s] else [];
      }
    }
    assert rs[..|rs|] == rs;
  }

  // `keys().cloned().collect()` gives the keys in any order; `sort()` puts each in its place.
  method SortedIds(keys: set<StreamId>) returns (ids: seq<StreamId>)
    ensures Increasing(ids) && forall s :: s in ids <==> s in keys
  {
    ids := [];
    var left := keys;
    while left != {}
      invariant left <= keys
      invariant Increasing(ids) && forall s :: s in ids <==> s in keys - left
      decreases |left|
    {
      var s :| s in left;
      InsertIdProperties(s, ids);
      ids := InsertId(s, ids);
      left := left - {s};
    }
  }

  lemma {:induction false} SortedKeysAreStreamIds(rs: seq<Record>, keys: set<StreamId>, ids: seq<StreamId>)
    requires Increasing(ids) && forall s :: s in ids <==> s in keys
    requires forall s :: s in keys <==> OnStream(rs, s) != []
    ensures ids == StreamIds(rs)
  {
    hide OnStream, StreamIds;
    StreamIdsProperties(rs);
    IncreasingUnique(ids, StreamIds(rs));
  }

  // ------------------------------------------------------------------
  // The running totals
  // ------------------------------------------------------------------

  // What the streams from i on will still add.
  ghost predicate Tally(rs: seq<Record>, ids: seq<StreamId>, i: nat, sent: nat, received: nat, lost: nat)
    requires i <= |ids|
  {
    && sent + SumOver(SentOf, rs, ids[i..]) == SumOver(SentOf, rs, ids)
    && received + SumOver(LengthOf, rs, ids[i..]) == SumOver(LengthOf, rs, ids)
    && lost + SumOver(LostOf, rs, ids[i..]) == SumOver(LostOf, rs, ids)
  }

  lemma {:induction false} TallyStart(rs: seq<Record>, ids: seq<StreamId>)
    ensures Tally(rs, ids, 0, 0, 0, 0)
  {
    assert ids[0..] == ids;
  }

  lemma {:induction false} TallyStep(rs: seq<Record>, ids: seq<StreamId>, i: nat, sent: nat, received: nat, lost: nat)
    requires i < |ids| && Tally(rs, ids, i, sent, received, lost)
    ensures var group := OnStream(rs, ids[i]);
      Tally(rs, ids, i + 1, sent + SentOf(group), received + |group|, lost + LostOf(group))
  {
    hide OnStream, SentOf, LostOf;
    assert ids[i..][0] == ids[i] && ids[i..][1..] == ids[i + 1..];
  }

  lemma {:induction false} TallyEnd(rs: seq<Record>, ids: seq<StreamId>, sent: nat, received: nat, lost: nat)
    requires Tally(rs, ids, |ids|, sent, received, lost) && ids == StreamIds(rs)
    ensures sent == SumOver(SentOf, rs, ids) && received == |rs| && lost == SumOver(LostOf, rs, ids)
  {
    hide OnStream, SentOf, LostOf, StreamIds;
    assert ids[|ids|..] == [];
    ReceivedIsCount(rs);
  }

  lemma {:induction false} ReportsStep(rs: seq<Record>, ids: seq<StreamId>, i: nat, sqrt: real -> real)
    requires i < |ids|
    ensures StreamReports(rs, ids[i..], sqrt)
         == [StreamReport(ids[i], StreamIndex(ids[i]), StreamClass(ids[i]), GroupStats(OnStream(rs, ids[i]), sqrt))]
            + StreamReports(rs, ids[i + 1..], sqrt)
  {
    hide OnStream, GroupStats;
    assert ids[i..][0] == ids[i] && ids[i..][1..] == ids[i + 1..];
  }

  lemma {:induction false} LookUp(streams: map<StreamId, seq<Record>>, rs: seq<Record>, ids: seq<StreamId>, i: nat)
    requires GroupedBy(streams, rs) && i < |ids| && forall s :: s in ids <==> s in streams.Keys
    ensures ids[i] in streams && streams[ids[i]] == OnStream(rs, ids[i])
  {
    hide OnStream;
    assert ids[i] in ids;
  }

  // ------------------------------------------------------------------
  // analyze_single_file
  // ------------------------------------------------------------------

  method AnalyzeSingleFile(records: seq<Record>, sqrt: real -> real) returns (report: Option<Report>)
    ensures report == if records == [] then None else Some(Analyze(records, sqrt))
  {
    hide OnStream, StreamIds, SentOf, LostOf, ComputeSingleRun, SumOver, Tally, GroupedBy, StreamReports;
    if records == [] {
      return None;
    }
    var streams := GroupByStream(records);
    var streamIds := SortedIds(streams.Keys);
    SortedKeysAreStreamIds(records, streams.Keys, streamIds);

    var streamReports: seq<StreamReport> := [];
    var globalSent: nat, globalReceived: nat, globalLost: nat := 0, 0, 0;
    TallyStart(records, streamIds);
    assert streamIds[0..] == streamIds;
    for i := 0 to |streamIds|
      invariant Tally(records, streamIds, i, globalSent, globalReceived, globalLost)
      invariant streamReports + StreamReports(records, streamIds[i..], sqrt) == StreamReports(records, streamIds, sqrt)
    {
      var streamId := streamIds[i];
      LookUp(streams, records, streamIds, i);
      var streamRecords := streams[streamId];
      var sent, received, lost := SentOf(streamRecords), |streamRecords|, LostOf(streamRecords);
      TallyStep(records, streamIds, i, globalSent, globalReceived, globalLost);
      globalSent := globalSent + sent;
      globalReceived := globalReceived + received;
      globalLost := globalLost + lost;
      var stats := ComputeSingleRun(sent, received, lost, streamRecords, sqrt);
      ReportsStep(records, streamIds, i, sqrt);
      streamReports := streamReports + [StreamReport(streamId, StreamIndex(streamId), StreamClass(streamId), stats)];
    }
    NoReports(records, streamIds[|streamIds|..], sqrt);
    assert streamReports + [] == streamReports;
    TallyEnd(records, streamIds, globalSent, globalReceived, globalLost);
    var global := ComputeSingleRun(globalSent, globalReceived, globalLost, records, sqrt);
    return Some(Report(global, streamReports));
  }

  lemma {:induction false} NoReports(rs: seq<Record>, ids: seq<StreamId>, sqrt: real -> real)
    requires ids == []
    ensures StreamReports(rs, ids, sqrt) == []
  {
  }

  // ------------------------------------------------------------------
  // aggregate_runs
  // ------------------------------------------------------------------

  ghost predicate StatsByStream(stats: map<StreamId, RunStats>, rs: seq<Record>, ids: seq<StreamId>, sqrt: real -> real) {
    && (forall s :: s in stats <==> s in ids)
    && (forall s :: s in stats ==> stats[s] == GroupStats(OnStream(rs, s), sqrt))
  }

  // stream_id -> (index, type)
  type StreamMeta = map<StreamId, (StreamId, Reliability)>

  ghost predicate Described(meta: StreamMeta) {
    forall s :: s in meta ==> meta[s] == (StreamIndex(s), StreamClass(s))
  }

  ghost predicate Extends(meta: StreamMeta, known: StreamMeta, ids: seq<StreamId>) {
    Described(meta) && forall s :: s in meta <==> s in known || s in ids
  }

  lemma {:induction false} RunStep(
    stats: map<StreamId, RunStats>, meta: StreamMeta, known: StreamMeta, rs: seq<Record>, ids: seq<StreamId>, i: nat,
    sqrt: real -> real)
    requires i < |ids| && StatsByStream(stats, rs, ids[..i], sqrt) && Extends(meta, known, ids[..i])
    ensures StatsByStream(stats[ids[i] := GroupStats(OnStream(rs, ids[i]), sqrt)], rs, ids[..i + 1], sqrt)
    ensures Extends(if ids[i] in meta then meta else meta[ids[i] := (StreamIndex(ids[i]), StreamClass(ids[i]))],
                    known, ids[..i + 1])
  {
    hide OnStream, GroupStats;
    assert ids[..i + 1] == ids[..i] + [ids[i]];
  }

  lemma {:induction false} RunStart(known: StreamMeta, rs: seq<Record>, ids: seq<StreamId>, sqrt: real -> real)
    requires Described(known) && ids == []
    ensures StatsByStream(map[], rs, ids, sqrt) && Extends(known, known, ids)
  {
  }

  // One round of the loop over the files.
  method AnalyzeRun(records: seq<Record>, known: StreamMeta, sqrt: real -> real)
    returns (global: RunStats, runStreamStats: map<StreamId, RunStats>, meta: StreamMeta)
    requires Described(known)
    ensures global == Analyze(records, sqrt).global
    ensures StatsByStream(runStreamStats, records, StreamIds(records), sqrt)
    ensures Extends(meta, known, StreamIds(records))
  {
    hide Extends, Described, OnStream, StreamIds, StatsByStream, SentOf, LostOf, ComputeSingleRun, SumOver, Tally, GroupedBy, StreamReports;
    var streams := GroupByStream(records);
    var streamIds := SortedIds(streams.Keys);
    SortedKeysAreStreamIds(records, streams.Keys, streamIds);

    runStreamStats, meta := map[], known;
    var globalSent: nat, globalReceived: nat, globalLost: nat := 0, 0, 0;
    TallyStart(records, streamIds);
    RunStart(known, records, streamIds[..0], sqrt);
    for i := 0 to |streamIds|
      invariant Tally(records, streamIds, i, globalSent, globalReceived, globalLost)
      invariant StatsByStream(runStreamStats, records, streamIds[..i], sqrt)
      invariant Extends(meta, known, streamIds[..i])
    {
      var streamId := streamIds[i];
      LookUp(streams, records, streamIds, i);
      RunStep(runStreamStats, meta, known, records, streamIds, i, sqrt);
      var streamRecords := streams[streamId];
      var sent, received, lost := SentOf(streamRecords), |streamRecords|, LostOf(streamRecords);
      TallyStep(records, streamIds, i, globalSent, globalReceived, globalLost);
      globalSent := globalSent + sent;
      globalReceived := globalReceived + received;
      globalLost := globalLost + lost;
      if streamId !in meta {
        meta := meta[streamId := (StreamIndex(streamId), StreamClass(streamId))];
      }
      var stats := ComputeSingleRun(sent, received, lost, streamRecords, sqrt);
      runStreamStats := runStreamStats[streamId := stats];
    }
    assert streamIds[..|streamIds|] == streamIds;
    TallyEnd(records, streamIds, globalSent, globalReceived, globalLost);
    global := ComputeSingleRun(globalSent, globalReceived, globalLost, records, sqrt);
  }

  // all_run_stats.iter().filter_map(|run| run.get(&stream_id))
  function RunsOf(all: seq<map<StreamId, RunStats>>, s: StreamId): seq<RunStats> {
    if all == [] then []
    else if s in all[0] then [all[0][s]] + RunsOf(all[1..], s)
    else RunsOf(all[1..], s)
  }

  ghost predicate AllStats(all: seq<map<StreamId, RunStats>>, runs: seq<seq<Record>>, sqrt: real -> real) {
    && |all| == |runs|
    && forall k :: 0 <= k < |runs| ==> StatsByStream(all[k], runs[k], StreamIds(runs[k]), sqrt)
  }

  lemma {:induction false} RunsOfStream(all: seq<map<StreamId, RunStats>>, runs: seq<seq<Record>>, s: StreamId, sqrt: real -> real)
    requires AllStats(all, runs, sqrt)
    ensures RunsOf(all, s) == StreamRuns(runs, s, sqrt)
  {
    hide OnStream, StreamIds, GroupStats;
    if runs != [] {
      assert StatsByStream(all[0], runs[0], StreamIds(runs[0]), sqrt);
      RunsOfStream(all[1..], runs[1..], s, sqrt);
    }
  }

  lemma {:induction false} NoneEmpty()
    ensures NonEmpty([]) == []
  {
  }

  lemma {:induction false} GlobalsPush(runs: seq<seq<Record>>, run: seq<Record>, sqrt: real -> real)
    ensures Globals(runs + [run], sqrt) == Globals(runs, sqrt) + [Analyze(run, sqrt).global]
  {
    hide Analyze;
    if runs == [] {
      assert runs + [run] == [run];
    } else {
      GlobalsPush(runs[1..], run, sqrt);
      assert (runs + [run])[1..] == runs[1..] + [run];
    }
  }

  lemma {:induction false} RunsWithPush(runs: seq<seq<Record>>, run: seq<Record>, s: StreamId)
    ensures RunsWith(runs + [run], s) == RunsWith(runs, s) + (if s in StreamIds(run) then 1 else 0)
  {
    hide StreamIds;
    if runs == [] {
      assert runs + [run] == [run];
    } else {
      RunsWithPush(runs[1..], run, s);
      assert (runs + [run])[1..] == runs[1..] + [run];
    }
  }

  // What the loop over the files has gathered from the non-empty ones among them.
  ghost predicate Gathered(runs: seq<seq<Record>>, globals: seq<RunStats>, all: seq<map<StreamId, RunStats>>,
                           meta: StreamMeta, sqrt: real -> real) {
    && globals == Globals(runs, sqrt)
    && AllStats(all, runs, sqrt)
    && Described(meta) && forall s :: s in meta <==> RunsWith(runs, s) > 0
  }

  lemma {:induction false} GatheredPush(
    runs: seq<seq<Record>>, globals: seq<RunStats>, all: seq<map<StreamId, RunStats>>, meta: StreamMeta,
    run: seq<Record>, stats: map<StreamId, RunStats>, meta': StreamMeta, sqrt: real -> real)
    requires Gathered(runs, globals, all, meta, sqrt)
    requires StatsByStream(stats, run, StreamIds(run), sqrt)
    requires Extends(meta', meta, StreamIds(run))
    ensures Gathered(runs + [run], globals + [Analyze(run, sqrt).global], all + [stats], meta', sqrt)
  {
    hide StreamIds, StatsByStream, Described, Analyze, RunsWith, Globals;
    GlobalsPush(runs, run, sqrt);
    forall s ensures s in meta' <==> RunsWith(runs + [run], s) > 0 {
      RunsWithPush(runs, run, s);
    }
  }

  lemma {:induction false} GatheredNothing(sqrt: real -> real)
    ensures Gathered([], [], [], map[], sqrt)
  {
  }

  lemma {:induction false} MetaKeys(runs: seq<seq<Record>>, globals: seq<RunStats>, all: seq<map<StreamId, RunStats>>,
                                    meta: StreamMeta, ids: seq<StreamId>, sqrt: real -> real)
    requires Gathered(runs, globals, all, meta, sqrt)
    requires Increasing(ids) && forall s :: s in ids <==> s in meta.Keys
    ensures ids == StreamIds(Flatten(runs))
  {
    hide OnStream, StreamIds, Flatten, RunsWith, AllStats;
    StreamIdsProperties(Flatten(runs));
    forall s ensures s in ids <==> s in StreamIds(Flatten(runs)) {
      FlattenListed(runs, s);
    }
    IncreasingUnique(ids, StreamIds(Flatten(runs)));
  }

  lemma {:induction false} GatheredStream(
    runs: seq<seq<Record>>, globals: seq<RunStats>, all: seq<map<StreamId, RunStats>>, meta: StreamMeta,
    s: StreamId, sqrt: real -> real)
    requires Gathered(runs, globals, all, meta, sqrt) && s in meta
    ensures RunsOf(all, s) == StreamRuns(runs, s, sqrt) != []
    ensures meta[s] == (StreamIndex(s), StreamClass(s))
  {
    hide StreamIds, AllStats, Globals, RunsWith, StreamRuns;
    RunsOfStream(all, runs, s, sqrt);
    StreamRunsCount(runs, s, sqrt);
  }

  lemma {:induction false} AggregatedStep(runs: seq<seq<Record>>, ids: seq<StreamId>, i: nat, sqrt: real -> real)
    requires IsSqrt(sqrt) && i < |ids|
    ensures AggregatedStreams(runs, ids[i..], sqrt)
         == [AggregatedStreamReport(ids[i], StreamIndex(ids[i]), StreamClass(ids[i]),
                                    AggregateStats(StreamRuns(runs, ids[i], sqrt), sqrt))]
            + AggregatedStreams(runs, ids[i + 1..], sqrt)
  {
    hide IsSqrt, AggregateStats, StreamRuns;
    assert ids[i..][0] == ids[i] && ids[i..][1..] == ids[i + 1..];
  }

  // The loop over the streams of all runs.
  method AggregateStreams(ghost runs: seq<seq<Record>>, globals: seq<RunStats>, all: seq<map<StreamId, RunStats>>,
                          meta: StreamMeta, sqrt: real -> real)
    returns (reports: seq<AggregatedStreamReport>)
    requires IsSqrt(sqrt) && Gathered(runs, globals, all, meta, sqrt)
    ensures reports == AggregatedStreams(runs, StreamIds(Flatten(runs)), sqrt)
  {
    hide IsSqrt, Gathered, StreamIds, Flatten, AggregateStats, AggregatedStreams, StreamRuns, RunsOf;
    var ids := SortedIds(meta.Keys);
    MetaKeys(runs, globals, all, meta, ids, sqrt);
    reports := [];
    assert ids[0..] == ids;
    for i := 0 to |ids|
      invariant reports + AggregatedStreams(runs, ids[i..], sqrt) == AggregatedStreams(runs, ids, sqrt)
    {
      var streamId := ids[i];
      assert streamId in ids;
      GatheredStream(runs, globals, all, meta, streamId, sqrt);
      AggregatedStep(runs, ids, i, sqrt);
      var (index, kind) := meta[streamId];
      var perStreamRuns := RunsOf(all, streamId);
      if perStreamRuns != [] {
        var stats := AggregateStats(perStreamRuns, sqrt);
        reports := reports + [AggregatedStreamReport(streamId, index, kind, stats)];
      }
    }
    NoStreams(runs, ids[|ids|..], sqrt);
    assert reports + [] == reports;
  }

  lemma {:induction false} NoStreams(runs: seq<seq<Record>>, ids: seq<StreamId>, sqrt: real -> real)
    requires IsSqrt(sqrt) && ids == []
    ensures AggregatedStreams(runs, ids, sqrt) == []
  {
  }

  lemma {:induction false} GatheredGlobals(
    contents: seq<seq<Record>>, globals: seq<RunStats>, all: seq<map<StreamId, RunStats>>, meta: StreamMeta,
    sqrt: real -> real)
    requires IsSqrt(sqrt) && Gathered(NonEmpty(contents), globals, all, meta, sqrt)
    ensures var runs := NonEmpty(contents);
      Aggregate(contents, sqrt)
      == AggregatedReport(|contents|, AggregateStats(globals, sqrt),
                          AggregatedStreams(runs, StreamIds(Flatten(runs)), sqrt))
  {
    hide IsSqrt, AllStats, AggregateStats, AggregatedStreams, StreamIds, Flatten, NonEmpty;
  }

  lemma {:induction false} ContentsUnique(a: seq<seq<Record>>, b: seq<seq<Record>>, files: seq<Option<seq<Record>>>)
    requires AreContents(a, files) && AreContents(b, files)
    ensures a == b
  {
    forall i | 0 <= i < |files| ensures a[i] == b[i] {
      assert files[i] == Some(a[i]) == Some(b[i]);
    }
  }

  // `load_csv` may fail, and then the whole aggregation does.
  ghost predicate AllLoaded(files: seq<Option<seq<Record>>>) {
    forall i :: 0 <= i < |files| ==> files[i].Some?
  }

  ghost predicate AreContents(contents: seq<seq<Record>>, files: seq<Option<seq<Record>>>) {
    |contents| == |files| && forall i :: 0 <= i < |files| ==> files[i] == Some(contents[i])
  }

  method AggregateRuns(files: seq<Option<seq<Record>>>, sqrt: real -> real) returns (report: Option<AggregatedReport>)
    requires IsSqrt(sqrt)
    ensures report.Some? <==> AllLoaded(files)
    ensures forall contents :: AreContents(contents, files) ==> report == Some(Aggregate(contents, sqrt))
  {
    hide IsSqrt, Gathered, StatsByStream, Analyze, StreamIds, Aggregate, AggregateStats, NonEmpty;
    var allRunStats: seq<map<StreamId, RunStats>> := [];
    var allGlobalStats: seq<RunStats> := [];
    var streamMeta: StreamMeta := map[];
    ghost var contents: seq<seq<Record>> := [];
    GatheredNothing(sqrt);
    assert NonEmpty(contents) == [] by { NoneEmpty(); }

    for i := 0 to |files|
      invariant AreContents(contents, files[..i])
      invariant Gathered(NonEmpty(contents), allGlobalStats, allRunStats, streamMeta, sqrt)
      invariant Described(streamMeta)
    {
      if files[i] == None {
        return None;
      }
      var records := files[i].value;
      NonEmptyPush(contents, records);
      ghost var runs := NonEmpty(contents);
      contents := contents + [records];
      if records == [] {
        assert runs + [] == runs;
        continue;
      }
      var global, runStreamStats, meta := AnalyzeRun(records, streamMeta, sqrt);
      GatheredPush(runs, allGlobalStats, allRunStats, streamMeta, records, runStreamStats, meta, sqrt);
      streamMeta := meta;
      allGlobalStats := allGlobalStats + [global];
      allRunStats := allRunStats + [runStreamStats];
    }
    assert files[..|files|] == files;
    var globalAgg := AggregateStats(allGlobalStats, sqrt);
    var streams := AggregateStreams(NonEmpty(contents), allGlobalStats, allRunStats, streamMeta, sqrt);
    report := Some(AggregatedReport(|files|, globalAgg, streams));
    assert report.value == Aggregate(contents, sqrt) by {
      GatheredGlobals(contents, allGlobalStats, allRunStats, streamMeta, sqrt);
    }
    forall other | AreContents(other, files) ensures other == contents {
      ContentsUnique(other, contents, files);
    }
  }
}
