// From the wire to the report. What the statistics tool says was sent, for the records of a
// client in any run over UDP or TCP, never exceeds what the client really sent; over TCP, where
// nothing is repeated or overtaken, the loss figures are exact.
module EndToEnd {
  import opened Bytes
  import opened Sockets
  import opened Traces
  import opened Records
  import opened SingleRun
  import opened Grouping
  import opened BenchmarkClient
  import opened Sorting
  import opened Subsequences
  import Aggregation
  import Analysis
  import TcpBenchmark
  import UdpSystem
  import Runs = ClientRuns

  // Every recorded id lies below its stream's counter.
  ghost predicate Honest(app: App) {
    forall m :: 0 <= m < |app.records| ==>
      app.records[m].packetId < CounterOf(app.sequences, app.records[m].streamId)
  }

  lemma {:induction false} OnStreamIdsBelow(rs: seq<Record>, s: StreamId, n: nat)
    requires forall m :: 0 <= m < |rs| && rs[m].streamId == s ==> rs[m].packetId < n
    ensures SentOf(OnStream(rs, s)) <= n
  {
    OnStreamMembers(rs, s);
    var group := OnStream(rs, s);
    if group != [] {
      MaxIsGreatest(Project(IdOf, group));
      ProjectMembers(group);
    }
  }

  lemma {:induction false} OnStreamMembers(rs: seq<Record>, s: StreamId)
    ensures forall r :: r in OnStream(rs, s) ==> r in rs && r.streamId == s
  {
    if rs != [] {
      OnStreamMembers(rs[1..], s);
      assert forall r :: r in rs[1..] ==> r in rs;
    }
  }

  lemma {:induction false} LengthsAtMost(log: seq<Sent>, ids: seq<StreamId>)
    requires NoRepeats(ids)
    ensures Runs.SumOfLengths(ids, log) <= |log|
  {
    hide Runs.SumOfLengths;
    if log == [] {
      Runs.LengthsEmpty(ids);
    } else {
      var n := |log| - 1;
      LengthsAtMost(log[..n], ids);
      Runs.LengthsSnoc(ids, log[..n], log[n]);
      assert log == log[..n] + [log[n]];
    }
  }

  lemma {:induction false} SentSums(app: App, ids: seq<StreamId>)
    requires Honest(app)
    ensures SumOver(SentOf, app.records, ids) <= Runs.SumOfCounters(ids, app.sequences)
  {
    hide SentOf, OnStream, CounterOf;
    if ids != [] {
      SentSums(app, ids[1..]);
      OnStreamIdsBelow(app.records, ids[0], CounterOf(app.sequences, ids[0]));
    }
  }

  // The reported numbers of sent packets: per stream at most the stream's counter, and globally
  // at most the number of packets the client handed to its backend.
  ghost predicate SentBounded(app: App, report: Report) {
    && report.global.sent <= |app.log|
    && forall n :: 0 <= n < |report.streams| ==>
         report.streams[n].stats.sent <= CounterOf(app.sequences, report.streams[n].streamId)
  }

  lemma {:induction false} HonestReport(app: App, sqrt: real -> real)
    requires Honest(app) && Runs.Numbered(app)
    ensures SentBounded(app, Analyze(app.records, sqrt))
  {
    hide Honest, Runs.Numbered, ComputeSingleRun, StreamIds, SumOver, OnStream, SentOf, Runs.SumOfCounters, Runs.SumOfLengths;
    var ids := StreamIds(app.records);
    StreamIdsProperties(app.records);
    SentSums(app, ids);
    Runs.CountersAreLengths(ids, app);
    LengthsAtMost(app.log, ids);
    GlobalSent(app.records, sqrt);
    Aggregation.ReportsAt(app.records, ids, sqrt);
    forall n | 0 <= n < |ids|
      ensures GroupStats(OnStream(app.records, ids[n]), sqrt).sent <= CounterOf(app.sequences, ids[n])
    {
      HonestStream(app, ids[n]);
      GroupSent(OnStream(app.records, ids[n]), sqrt);
    }
  }

  lemma {:induction false} HonestStream(app: App, s: StreamId)
    requires Honest(app)
    ensures SentOf(OnStream(app.records, s)) <= CounterOf(app.sequences, s)
  {
    hide SentOf, OnStream, CounterOf;
    OnStreamIdsBelow(app.records, s, CounterOf(app.sequences, s));
  }

  // ------------------------------------------------------------------
  // UDP
  // ------------------------------------------------------------------

  lemma {:induction false} SentFigureHonest(
    w: UdpSystem.World, run: seq<UdpSystem.System>, labels: seq<UdpSystem.Label>, k: nat, i: nat, sqrt: real -> real)
    requires UdpSystem.IsRun(w, run, labels) && k < |run| && i < |run[k].clients|
    ensures var app := run[k].clients[i].app; SentBounded(app, Analyze(app.records, sqrt))
  {
    hide UdpSystem.IsRun, UdpSystem.Inv, Analyze, SentBounded;
    var app := run[k].clients[i].app;
    forall m | 0 <= m < |app.records|
      ensures app.records[m].packetId < CounterOf(app.sequences, app.records[m].streamId)
    {
      UdpSystem.RecordedIdsWereSent(w, run, labels, k, i, m);
    }
    IdsNumbered(w, run, labels, k, i);
    HonestReport(app, sqrt);
  }

  lemma {:induction false} IdsNumbered(
    w: UdpSystem.World, run: seq<UdpSystem.System>, labels: seq<UdpSystem.Label>, k: nat, i: nat)
    requires UdpSystem.IsRun(w, run, labels) && k < |run| && i < |run[k].clients|
    ensures Runs.Numbered(run[k].clients[i].app)
  {
    hide UdpSystem.IsRun, UdpSystem.Inv, Runs.Numbered;
    UdpSystem.RunHolds(w, run, labels, k);
    UdpSystem.InvClient(w, run[k], i);
  }

  lemma {:induction false} GlobalSent(rs: seq<Record>, sqrt: real -> real)
    ensures Analyze(rs, sqrt).global.sent == SumOver(SentOf, rs, StreamIds(rs))
    ensures Analyze(rs, sqrt).streams == StreamReports(rs, StreamIds(rs), sqrt)
  {
    hide StreamIds, SumOver, StreamReports, Average, Variance, Sort, Percentile;
  }

  lemma {:induction false} GroupSent(group: seq<Record>, sqrt: real -> real)
    ensures GroupStats(group, sqrt).sent == SentOf(group)
  {
    hide SentOf, LostOf, Average, Variance, Sort, Percentile;
  }

  // ------------------------------------------------------------------
  // TCP
  // ------------------------------------------------------------------

  // The ids on one stream.
  function PairsOn(pairs: seq<(StreamId, nat)>, s: StreamId): seq<nat> {
    if pairs == [] then [] else
    var before := PairsOn(pairs[..|pairs| - 1], s);
    if pairs[|pairs| - 1].0 == s then before + [pairs[|pairs| - 1].1] else before
  }

  lemma {:induction false} PairsSnoc(pairs: seq<(StreamId, nat)>, x: (StreamId, nat), s: StreamId)
    ensures PairsOn(pairs + [x], s) == if x.0 == s then PairsOn(pairs, s) + [x.1] else PairsOn(pairs, s)
  {
    assert (pairs + [x])[..|pairs|] == pairs;
  }

  lemma {:induction false} SubPairs(a: seq<(StreamId, nat)>, b: seq<(StreamId, nat)>, s: StreamId)
    requires Sub(a, b)
    ensures Sub(PairsOn(a, s), PairsOn(b, s))
    decreases |b|
  {
    if a != [] && b != [] {
      var b', last := b[..|b| - 1], b[|b| - 1];
      assert b == b' + [last];
      PairsSnoc(b', last, s);
      if Sub(a, b') {
        SubPairs(a, b', s);
        SubSnoc(PairsOn(a, s), PairsOn(b', s), last.1);
      } else {
        var a' := a[..|a| - 1];
        assert a == a' + [last];
        SubPairs(a', b', s);
        PairsSnoc(a', last, s);
        SubSnoc(PairsOn(a', s), PairsOn(b', s), last.1);
      }
    }
  }

  lemma {:induction false} ProjectPush(rs: seq<Record>, r: Record)
    ensures Project(IdOf, rs + [r]) == Project(IdOf, rs) + [r.packetId]
  {
    if rs == [] {
      assert rs + [r] == [r] && [r][1..] == [];
    } else {
      ProjectPush(rs[1..], r);
      assert (rs + [r])[1..] == rs[1..] + [r];
    }
  }

  lemma {:induction false} RecordedOn(rs: seq<Record>, s: StreamId)
    ensures PairsOn(TcpBenchmark.Recorded(rs), s) == Project(IdOf, OnStream(rs, s))
  {
    hide OnStream, Project;
    if rs == [] {
      assert Project(IdOf, OnStream([], s)) == [] by { NoneProjected(s); }
    } else {
      var init, last := rs[..|rs| - 1], rs[|rs| - 1];
      assert rs == init + [last];
      RecordedOn(init, s);
      TcpBenchmark.RecordedSnoc(init, last);
      hide PairsOn;
      PairsSnoc(TcpBenchmark.Recorded(init), (last.streamId, last.packetId), s);
      Analysis.OnStreamPush(init, last, s);
      ProjectPush(OnStream(init, s), last);
    }
  }

  lemma {:induction false} NoneProjected(s: StreamId)
    ensures Project(IdOf, OnStream([], s)) == []
  {
  }

  // No sequence counter has gone round.
  ghost predicate NoWrap(app: App) {
    forall k :: 0 <= k < |app.log| ==> app.log[k].id < U64
  }

  lemma {:induction false} LoggedOn(log: seq<Sent>, s: StreamId)
    requires forall k :: 0 <= k < |log| ==> log[k].id < U64
    ensures PairsOn(TcpBenchmark.Logged(log), s) == Runs.IdsOn(log, s)
  {
    if log != [] {
      var init, last := log[..|log| - 1], log[|log| - 1];
      LoggedOn(init, s);
      assert log == init + [last];
      TcpBenchmark.LoggedSnoc(init, last);
      hide PairsOn, Runs.IdsOn;
      PairsSnoc(TcpBenchmark.Logged(init), (last.stream, last.id % U64), s);
      Runs.IdsSnoc(init, last, s);
    }
  }

  ghost predicate Rising(ids: seq<nat>) {
    forall i, j :: 0 <= i < j < |ids| ==> ids[i] < ids[j]
  }

  lemma {:induction false} SubRising(a: seq<nat>, b: seq<nat>)
    requires Sub(a, b) && Rising(b)
    ensures Rising(a)
  {
    if a != [] && b != [] {
      var b', last := b[..|b| - 1], b[|b| - 1];
      if Sub(a, b') {
        SubRising(a, b');
      } else {
        var a' := a[..|a| - 1];
        SubRising(a', b');
        SubMembers(a', b');
        forall i | 0 <= i < |a'| ensures a[i] < last {
          assert a'[i] in b';
        }
      }
    }
  }

  // The ids recorded on a stream rise, and lie below its counter.
  lemma {:induction false} RecordedRising(app: App, s: StreamId)
    requires Sub(TcpBenchmark.Recorded(app.records), TcpBenchmark.Logged(app.log))
    requires Runs.Numbered(app) && NoWrap(app)
    ensures var ids := Project(IdOf, OnStream(app.records, s));
      Rising(ids) && forall id :: id in ids ==> id < CounterOf(app.sequences, s)
  {
    hide Sub, PairsOn, Project, OnStream, Runs.IdsOn, TcpBenchmark.Recorded, TcpBenchmark.Logged;
    var n := CounterOf(app.sequences, s);
    SubPairs(TcpBenchmark.Recorded(app.records), TcpBenchmark.Logged(app.log), s);
    RecordedOn(app.records, s);
    LoggedOn(app.log, s);
    assert Runs.IdsOn(app.log, s) == Runs.UpTo(n);
    SubRising(Project(IdOf, OnStream(app.records, s)), Runs.UpTo(n));
    SubMembers(Project(IdOf, OnStream(app.records, s)), Runs.UpTo(n));
  }

  lemma {:induction false} RisingDistinct(group: seq<Record>)
    requires Rising(Project(IdOf, group))
    ensures Duplicates(group) == 0
  {
    if group == [] {
      assert Ids(group) == {};
    } else {
      var ids := Project(IdOf, group);
      assert ids[1..] == Project(IdOf, group[1..]);
      assert forall i :: 0 <= i < |ids| - 1 ==> ids[1..][i] == ids[i + 1];
      RisingDistinct(group[1..]);
      IdsCons(group);
      ProjectMembers(group[1..]);
      assert forall id :: id in ids[1..] ==> ids[0] < id;
      hide Project, Ids;
      AddOne(Ids(group[1..]), group[0].packetId);
    }
  }

  // In every run over TCP (no counter having passed 2^64): the ids recorded on each stream rise,
  // so none is recorded twice; `lost` is exactly the number of missing ids; and globally `sent`
  // is exactly `received` plus `lost`, and at most what was really sent.
  lemma {:induction false} TcpReportExact(
    cfgs: seq<Settings>, run: seq<TcpBenchmark.System>, labels: seq<TcpBenchmark.Label>, k: nat, i: nat, sqrt: real -> real)
    requires TcpBenchmark.IsRun(cfgs, run, labels) && k < |run| && i < |run[k].clients|
    requires NoWrap(run[k].clients[i].app)
    ensures var app := run[k].clients[i].app;
      var report := Analyze(app.records, sqrt);
      && SentBounded(app, report)
      && report.global.sent == report.global.received + report.global.lost
      && (forall s :: s in StreamIds(app.records) ==>
            var group := OnStream(app.records, s);
            Rising(Project(IdOf, group)) && LostOf(group) == |Missing(group)|)
  {
    hide TcpBenchmark.IsRun, TcpBenchmark.Inv, Analyze, SentBounded, Sub, StreamIds, OnStream, Rising, Missing, LostOf;
    hide Runs.Numbered, NoWrap, Project, SentOf;
    var app := run[k].clients[i].app;
    TcpBenchmark.RecordsFollowSends(cfgs, run, labels, k, i);
    TcpBenchmark.RunHolds(cfgs, run, labels, k);
    TcpNumbered(cfgs, run[k], i);
    forall s ensures var group := OnStream(app.records, s);
        Rising(Project(IdOf, group)) && LostOf(group) == |Missing(group)| && NoExcess(group)
    {
      RecordedRising(app, s);
      GroupExact(OnStream(app.records, s));
    }
    GlobalLoss(app.records, sqrt);
    RecordsHonest(app);
    HonestReport(app, sqrt);
  }

  lemma {:induction false} TcpNumbered(cfgs: seq<Settings>, sys: TcpBenchmark.System, i: nat)
    requires TcpBenchmark.Inv(cfgs, sys) && i < |sys.clients|
    ensures Runs.Numbered(sys.clients[i].app)
  {
    hide Runs.Numbered, TcpBenchmark.ConnectedOk;
    TcpBenchmark.InvClient(cfgs, sys, i);
  }

  lemma {:induction false} GroupExact(group: seq<Record>)
    requires Rising(Project(IdOf, group))
    ensures LostOf(group) == |Missing(group)| && NoExcess(group)
  {
    hide Project, Rising, Missing, Duplicates, SentOf;
    RisingDistinct(group);
    StreamLoss(group);
  }

  lemma {:induction false} RecordsHonest(app: App)
    requires Sub(TcpBenchmark.Recorded(app.records), TcpBenchmark.Logged(app.log))
    requires Runs.Numbered(app) && NoWrap(app)
    ensures Honest(app)
  {
    hide Sub, Project, OnStream, Runs.Numbered, NoWrap, TcpBenchmark.Recorded, TcpBenchmark.Logged, CounterOf;
    forall m | 0 <= m < |app.records|
      ensures app.records[m].packetId < CounterOf(app.sequences, app.records[m].streamId)
    {
      var s := app.records[m].streamId;
      RecordedRising(app, s);
      RecordInGroup(app.records, m);
    }
  }

  lemma {:induction false} RecordInGroup(rs: seq<Record>, m: nat)
    requires m < |rs|
    ensures rs[m].packetId in Project(IdOf, OnStream(rs, rs[m].streamId))
  {
    if m > 0 {
      RecordInGroup(rs[1..], m - 1);
      var s := rs[m].streamId;
      if rs[0].streamId == s {
        assert OnStream(rs, s)[1..] == OnStream(rs[1..], s);
      }
    }
  }
}
