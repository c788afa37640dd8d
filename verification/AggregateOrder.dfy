// What the order of records and of files means for an aggregated report.
module AggregateOrder {
  import opened Sockets
  import opened Records
  import opened Sorting
  import opened SingleRun
  import opened Grouping
  import opened ReportOrder
  import opened Summaries
  import opened Aggregation

  // ------------------------------------------------------------------
  // Records within each file
  // ------------------------------------------------------------------

  // The same files, each with its records in some other order.
  ghost predicate Shuffled(files: seq<seq<Record>>, files': seq<seq<Record>>) {
    |files| == |files'| && forall i :: 0 <= i < |files| ==> multiset(files[i]) == multiset(files'[i])
  }

  lemma {:induction false} NonEmptyShuffled(files: seq<seq<Record>>, files': seq<seq<Record>>)
    requires Shuffled(files, files')
    ensures Shuffled(NonEmpty(files), NonEmpty(files'))
  {
    if files != [] {
      NonEmptyShuffled(files[1..], files'[1..]);
      LengthPermuted(files[0], files'[0]);
    }
  }

  lemma {:induction false} FlattenShuffled(runs: seq<seq<Record>>, runs': seq<seq<Record>>)
    requires Shuffled(runs, runs')
    ensures multiset(Flatten(runs)) == multiset(Flatten(runs'))
  {
    if runs != [] {
      FlattenShuffled(runs[1..], runs'[1..]);
    }
  }

  lemma {:induction false} GlobalsShuffled(runs: seq<seq<Record>>, runs': seq<seq<Record>>, sqrt: real -> real)
    requires Shuffled(runs, runs')
    ensures Globals(runs, sqrt) == Globals(runs', sqrt)
  {
    hide Analyze;
    if runs != [] {
      GlobalsShuffled(runs[1..], runs'[1..], sqrt);
      ReportOrderIndependent(runs[0], runs'[0], sqrt);
    }
  }

  lemma {:induction false} StreamRunsShuffled(runs: seq<seq<Record>>, runs': seq<seq<Record>>, s: StreamId, sqrt: real -> real)
    requires Shuffled(runs, runs')
    ensures StreamRuns(runs, s, sqrt) == StreamRuns(runs', s, sqrt)
  {
    hide StreamIds, OnStream, GroupStats;
    if runs != [] {
      StreamRunsShuffled(runs[1..], runs'[1..], s, sqrt);
      StreamIdsPermuted(runs[0], runs'[0]);
      OnStreamPermuted(runs[0], runs'[0], s);
      GroupPermuted(OnStream(runs[0], s), OnStream(runs'[0], s), sqrt);
    }
  }

  lemma {:induction false} StreamsShuffled(runs: seq<seq<Record>>, runs': seq<seq<Record>>, ids: seq<StreamId>, sqrt: real -> real)
    requires Shuffled(runs, runs') && IsSqrt(sqrt)
    ensures AggregatedStreams(runs, ids, sqrt) == AggregatedStreams(runs', ids, sqrt)
  {
    hide StreamRuns, AggregateStats, IsSqrt, Shuffled;
    if ids != [] {
      StreamsShuffled(runs, runs', ids[1..], sqrt);
      StreamRunsShuffled(runs, runs', ids[0], sqrt);
    }
  }

  // Rearranging the records inside the files changes nothing in the aggregated report.
  lemma {:induction false} RecordOrderIrrelevant(files: seq<seq<Record>>, files': seq<seq<Record>>, sqrt: real -> real)
    requires Shuffled(files, files') && IsSqrt(sqrt)
    ensures Aggregate(files, sqrt) == Aggregate(files', sqrt)
  {
    hide NonEmpty, Flatten, StreamIds, AggregateStats, AggregatedStreams, Globals, IsSqrt;
    var runs, runs' := NonEmpty(files), NonEmpty(files');
    NonEmptyShuffled(files, files');
    FlattenShuffled(runs, runs');
    StreamIdsPermuted(Flatten(runs), Flatten(runs'));
    GlobalsShuffled(runs, runs', sqrt);
    StreamsShuffled(runs, runs', StreamIds(Flatten(runs)), sqrt);
  }

  // ------------------------------------------------------------------
  // The files themselves
  // ------------------------------------------------------------------

  // What f takes from each file, one after the other.
  function Gather<X>(f: seq<Record> -> seq<X>, files: seq<seq<Record>>): seq<X> {
    if files == [] then [] else f(files[0]) + Gather(f, files[1..])
  }

  lemma {:induction false} GatherSplit<X>(f: seq<Record> -> seq<X>, files: seq<seq<Record>>, i: nat)
    requires i < |files|
    ensures multiset(Gather(f, files)) == multiset(Gather(f, files[..i] + files[i + 1..])) + multiset(f(files[i]))
  {
    var rest := files[..i] + files[i + 1..];
    if i == 0 {
      assert rest == files[1..];
    } else {
      GatherSplit(f, files[1..], i - 1);
      assert rest[0] == files[0] && rest[1..] == files[1..][..i - 1] + files[1..][i..];
    }
  }

  lemma {:induction false} GatherPermuted<X>(f: seq<Record> -> seq<X>, files: seq<seq<Record>>, files': seq<seq<Record>>)
    requires multiset(files) == multiset(files')
    ensures multiset(Gather(f, files)) == multiset(Gather(f, files'))
  {
    LengthPermuted(files, files');
    if files != [] {
      assert files[0] in multiset(files');
      var i :| 0 <= i < |files'| && files'[i] == files[0];
      RemoveBoth(files, files', i);
      GatherPermuted(f, files[1..], files'[..i] + files'[i + 1..]);
      GatherSplit(f, files', i);
    }
  }

  lemma {:induction false} NonEmptyGathers(files: seq<seq<Record>>)
    ensures NonEmpty(files) == Gather((rs: seq<Record>) => if rs == [] then [] else [rs], files)
  {
    if files != [] {
      NonEmptyGathers(files[1..]);
    }
  }

  lemma {:induction false} FlattenGathers(runs: seq<seq<Record>>)
    ensures Flatten(runs) == Gather((rs: seq<Record>) => rs, runs)
  {
    if runs != [] {
      FlattenGathers(runs[1..]);
    }
  }

  function GlobalValue(sqrt: real -> real, m: Metric): seq<Record> -> seq<real> {
    (rs: seq<Record>) => [Value(Analyze(rs, sqrt).global, m)]
  }

  lemma {:induction false} GlobalsGather(runs: seq<seq<Record>>, sqrt: real -> real, m: Metric)
    ensures Column(Globals(runs, sqrt), m) == Gather(GlobalValue(sqrt, m), runs)
  {
    hide Analyze, Value;
    if runs != [] {
      GlobalsGather(runs[1..], sqrt, m);
      assert Globals(runs, sqrt)[1..] == Globals(runs[1..], sqrt);
    }
  }

  function StreamValue(s: StreamId, sqrt: real -> real, m: Metric): seq<Record> -> seq<real> {
    (rs: seq<Record>) => if s in StreamIds(rs) then [Value(GroupStats(OnStream(rs, s), sqrt), m)] else []
  }

  lemma {:induction false} StreamRunsGather(runs: seq<seq<Record>>, s: StreamId, sqrt: real -> real, m: Metric)
    ensures Column(StreamRuns(runs, s, sqrt), m) == Gather(StreamValue(s, sqrt, m), runs)
  {
    hide StreamIds, OnStream, GroupStats, Value;
    if runs != [] {
      StreamRunsGather(runs[1..], s, sqrt, m);
      var tail := StreamRuns(runs[1..], s, sqrt);
      assert s in StreamIds(runs[0]) ==> ([GroupStats(OnStream(runs[0], s), sqrt)] + tail)[1..] == tail;
    }
  }

  // The same figure up to the order of its raw values.
  ghost predicate SameFigure(f: Summary, f': Summary) {
    f.(values := f'.values) == f' && multiset(f.values) == multiset(f'.values)
  }

  lemma {:induction false} FigurePermuted(runs: seq<RunStats>, runs': seq<RunStats>, m: Metric, sqrt: real -> real)
    requires IsSqrt(sqrt) && multiset(Column(runs, m)) == multiset(Column(runs', m))
    ensures SameFigure(AggregateStats(runs, sqrt).Figure(m), AggregateStats(runs', sqrt).Figure(m))
  {
    hide IsSqrt, Summarize, AggregateStats, Column;
    FigureValues(runs, m, sqrt);
    FigureValues(runs', m, sqrt);
    SummaryOrderIndependent(Column(runs, m), Column(runs', m), sqrt);
  }

  // Rearranging the files changes only the order of the raw values behind each figure.
  lemma {:induction false} FileOrderIrrelevant(files: seq<seq<Record>>, files': seq<seq<Record>>, sqrt: real -> real, m: Metric)
    requires multiset(files) == multiset(files') && IsSqrt(sqrt)
    ensures var (a, b) := (Aggregate(files, sqrt), Aggregate(files', sqrt));
      && a.numRuns == b.numRuns && |a.streams| == |b.streams|
      && SameFigure(a.global.Figure(m), b.global.Figure(m))
      && (forall k :: 0 <= k < |a.streams| ==>
            && a.streams[k].streamId == b.streams[k].streamId
            && a.streams[k].index == b.streams[k].index
            && a.streams[k].kind == b.streams[k].kind
            && SameFigure(a.streams[k].stats.Figure(m), b.streams[k].stats.Figure(m)))
  {
    hide NonEmpty, Flatten, StreamIds, AggregateStats, AggregatedStreams, Globals, IsSqrt, StreamRuns, SameFigure;
    hide GlobalValue, StreamValue, Gather, Column;
    var runs, runs' := NonEmpty(files), NonEmpty(files');
    LengthPermuted(files, files');
    NonEmptyGathers(files);
    NonEmptyGathers(files');
    GatherPermuted((rs: seq<Record>) => if rs == [] then [] else [rs], files, files');
    SameStreams(runs, runs');
    GlobalsGather(runs, sqrt, m);
    GlobalsGather(runs', sqrt, m);
    GatherPermuted(GlobalValue(sqrt, m), runs, runs');
    FigurePermuted(Globals(runs, sqrt), Globals(runs', sqrt), m, sqrt);
    var ids := StreamIds(Flatten(runs));
    forall k | 0 <= k < |ids|
      ensures var (a, b) := (AggregatedStreams(runs, ids, sqrt)[k], AggregatedStreams(runs', ids, sqrt)[k]);
        a.streamId == b.streamId && a.index == b.index && a.kind == b.kind && SameFigure(a.stats.Figure(m), b.stats.Figure(m))
    {
      StreamReportAt(runs, ids, sqrt, k);
      StreamReportAt(runs', ids, sqrt, k);
      StreamRunsGather(runs, ids[k], sqrt, m);
      StreamRunsGather(runs', ids[k], sqrt, m);
      GatherPermuted(StreamValue(ids[k], sqrt, m), runs, runs');
      FigurePermuted(StreamRuns(runs, ids[k], sqrt), StreamRuns(runs', ids[k], sqrt), m, sqrt);
    }
  }

  lemma {:induction false} SameStreams(runs: seq<seq<Record>>, runs': seq<seq<Record>>)
    requires multiset(runs) == multiset(runs')
    ensures StreamIds(Flatten(runs)) == StreamIds(Flatten(runs'))
  {
    hide StreamIds, Flatten, Gather;
    FlattenGathers(runs);
    FlattenGathers(runs');
    GatherPermuted((rs: seq<Record>) => rs, runs, runs');
    StreamIdsPermuted(Flatten(runs), Flatten(runs'));
  }
}
