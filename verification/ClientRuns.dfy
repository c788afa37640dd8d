// What holds over every run of the client loop: the timers do not drift, and the packet ids
// of each stream are 0, 1, 2, ... without gap or repeat.
module ClientRuns {
  import opened Bytes
  import opened Options
  import opened Sockets
  import opened Traces
  import opened BenchmarkClient
  import Packets = BenchmarkPacket

  datatype Round = Round(polled: seq<Polled>, clock: Clock)

  function Run(start60: nat, start20: nat, rounds: seq<Round>, cfg: Settings): App {
    if rounds == [] then Start(start60, start20) else
    var before := Run(start60, start20, rounds[..|rounds| - 1], cfg);
    var last := rounds[|rounds| - 1];
    Iterate(before, last.polled, last.clock, cfg).0
  }

  function Count(log: seq<Sent>, rate: Rate): nat {
    if log == [] then 0 else
    Count(log[..|log| - 1], rate) + (if log[|log| - 1].rate == rate then 1 else 0)
  }

  // The ids sent on stream s, in order.
  function IdsOn(log: seq<Sent>, s: StreamId): seq<nat> {
    if log == [] then [] else
    var before := IdsOn(log[..|log| - 1], s);
    if log[|log| - 1].stream == s then before + [log[|log| - 1].id] else before
  }

  function UpTo(n: nat): (ids: seq<nat>)
    ensures |ids| == n && forall i :: 0 <= i < n ==> ids[i] == i
  {
    if n == 0 then [] else UpTo(n - 1) + [n - 1]
  }

  // The time the run has reached: that of the last pacing round.
  function Now(start60: nat, start20: nat, rounds: seq<Round>): nat {
    if rounds != [] then rounds[|rounds| - 1].clock.now
    else if start60 <= start20 then start20 else start60
  }

  // Instant::now() never goes back.
  ghost predicate ClockMonotonic(start60: nat, start20: nat, rounds: seq<Round>) {
    forall k :: 0 <= k < |rounds| ==> Now(start60, start20, rounds[..k]) <= rounds[k].clock.now
  }

  ghost predicate OnSchedule(app: App, start60: nat, start20: nat) {
    && app.last60 == start60 + Count(app.log, Hz60) * INTERVAL_60HZ
    && app.last20 == start20 + Count(app.log, Hz20) * INTERVAL_20HZ
  }

  ghost predicate Numbered(app: App) {
    forall s: StreamId :: IdsOn(app.log, s) == UpTo(CounterOf(app.sequences, s))
  }

  ghost predicate ClassesKept(app: App) {
    && (app.unreliable.Some? ==> !IsReliable(app.unreliable.value))
    && (app.reliable.Some? ==> IsReliable(app.reliable.value))
    && forall k :: 0 <= k < |app.log| ==> (app.log[k].rate == Hz20 <==> IsReliable(app.log[k].stream))
  }

  // Every packet handed to the backend carries an id below its stream's counter.
  ghost predicate IsPacketOf(data: seq<byte>, s: StreamId, sequences: map<StreamId, nat>, cfg: Settings) {
    exists id: nat, stamp: nat :: id < CounterOf(sequences, s) && data == PacketData(id, stamp, cfg)
  }

  ghost predicate SendsArePackets(app: App, cfg: Settings) {
    forall k :: 0 <= k < |app.commands| && app.commands[k].Send?
      ==> IsPacketOf(app.commands[k].data, app.commands[k].stream, app.sequences, cfg)
  }

  ghost predicate Invariant(app: App, start60: nat, start20: nat, cfg: Settings) {
    OnSchedule(app, start60, start20) && Numbered(app) && ClassesKept(app) && SendsArePackets(app, cfg)
  }

  // ------------------------------------------------------------------
  // Preservation
  // ------------------------------------------------------------------

  ghost predicate KeepsClass(before: Option<StreamId>, after: Option<StreamId>, reliable: bool) {
    after == before || after == None || IsReliable(after.value) == reliable
  }

  lemma {:induction false} EventFrame(app: App, e: Polled, cfg: Settings)
    ensures var after := OnEvent(app, e, cfg);
      && after.log == app.log && after.sequences == app.sequences
      && after.last60 == app.last60 && after.last20 == app.last20
      && KeepsClass(app.unreliable, after.unreliable, false) && KeepsClass(app.reliable, after.reliable, true)
      && app.commands <= after.commands
      && forall k :: |app.commands| <= k < |after.commands| ==> !after.commands[k].Send?
  {
    hide Packets.Parse;
  }

  lemma {:induction false} EventKeeps(app: App, e: Polled, start60: nat, start20: nat, cfg: Settings)
    requires Invariant(app, start60, start20, cfg)
    ensures Invariant(OnEvent(app, e, cfg), start60, start20, cfg)
    ensures OnEvent(app, e, cfg).last60 == app.last60 && OnEvent(app, e, cfg).last20 == app.last20
  {
    hide OnEvent, IdsOn, UpTo, Count, IsPacketOf, CounterOf, IsReliable;
    EventFrame(app, e, cfg);
  }

  lemma {:induction false} DrainKeeps(app: App, polled: seq<Polled>, start60: nat, start20: nat, cfg: Settings)
    requires Invariant(app, start60, start20, cfg)
    ensures Invariant(Drain(app, polled, cfg), start60, start20, cfg)
    ensures Drain(app, polled, cfg).last60 == app.last60 && Drain(app, polled, cfg).last20 == app.last20
    decreases polled
  {
    hide OnEvent, Invariant;
    if polled != [] {
      EventKeeps(app, polled[0], start60, start20, cfg);
      if !polled[0].event.Disconnected? {
        DrainKeeps(OnEvent(app, polled[0], cfg), polled[1..], start60, start20, cfg);
      }
    }
  }

  lemma {:induction false} SendKeepsNumbered(app: App, u: Uuid, s: StreamId, rate: Rate, stamp: nat, cfg: Settings)
    requires Numbered(app)
    ensures Numbered(SendPacket(app, u, s, rate, stamp, cfg))
  {
    hide PacketData, UpTo, IdsOn;
    var after := SendPacket(app, u, s, rate, stamp, cfg);
    var n := CounterOf(app.sequences, s);
    forall t: StreamId ensures IdsOn(after.log, t) == UpTo(CounterOf(after.sequences, t)) {
      assert IdsOn(app.log, t) == UpTo(CounterOf(app.sequences, t));
      IdsSnoc(app.log, Sent(rate, s, n), t);
      assert UpTo(n + 1) == UpTo(n) + [n];
    }
  }

  lemma {:induction false} IdsSnoc(log: seq<Sent>, e: Sent, s: StreamId)
    ensures IdsOn(log + [e], s) == if e.stream == s then IdsOn(log, s) + [e.id] else IdsOn(log, s)
  {
    assert (log + [e])[..|log|] == log;
  }

  lemma {:induction false} SendKeepsPackets(app: App, u: Uuid, s: StreamId, rate: Rate, stamp: nat, cfg: Settings)
    requires SendsArePackets(app, cfg)
    ensures SendsArePackets(SendPacket(app, u, s, rate, stamp, cfg), cfg)
  {
    hide PacketData;
    var after := SendPacket(app, u, s, rate, stamp, cfg);
    forall k | 0 <= k < |after.commands| && after.commands[k].Send?
      ensures IsPacketOf(after.commands[k].data, after.commands[k].stream, after.sequences, cfg)
    {
      var c := after.commands[k];
      if k < |app.commands| {
        assert c == app.commands[k];
        var id: nat, t: nat :| id < CounterOf(app.sequences, c.stream) && c.data == PacketData(id, t, cfg);
        assert id < CounterOf(after.sequences, c.stream);
      } else {
        assert CounterOf(app.sequences, s) < CounterOf(after.sequences, s);
      }
    }
  }

  lemma {:induction false} TickKeeps(app: App, u: Uuid, rate: Rate, c: Clock, start60: nat, start20: nat, cfg: Settings)
    requires Invariant(app, start60, start20, cfg)
    requires rate == Hz60 ==> app.unreliable.Some?
    requires rate == Hz20 ==> app.reliable.Some?
    ensures Invariant(if rate == Hz60 then Pace60(app, u, c, cfg) else Pace20(app, u, c, cfg), start60, start20, cfg)
  {
    hide PacketData;
    var s := if rate == Hz60 then app.unreliable.value else app.reliable.value;
    var stamp := if rate == Hz60 then c.stamp60 else c.stamp20;
    var sent := SendPacket(app, u, s, rate, stamp, cfg);
    assert sent.log[..|app.log|] == app.log;
    SendKeepsNumbered(app, u, s, rate, stamp, cfg);
    SendKeepsPackets(app, u, s, rate, stamp, cfg);
    var after := if rate == Hz60 then Pace60(app, u, c, cfg) else Pace20(app, u, c, cfg);
    assert Numbered(after) && SendsArePackets(after, cfg);
  }

  lemma {:induction false} PaceKeeps(app: App, c: Clock, start60: nat, start20: nat, cfg: Settings)
    requires Invariant(app, start60, start20, cfg)
    ensures var after := Pace(app, c, cfg).0;
      && Invariant(after, start60, start20, cfg)
      && (app.last60 <= c.now && app.last20 <= c.now ==> after.last60 <= c.now && after.last20 <= c.now)
  {
    hide SendPacket, Invariant;
    if app.server.Some? {
      var u := app.server.value;
      var a := CheckDuration(app, c.checked, cfg);
      DurationKeeps(app, c.checked, start60, start20, cfg);
      if !Due60(a, c.now) || a.unreliable.Some? {
        if Due60(a, c.now) {
          TickKeeps(a, u, Hz60, c, start60, start20, cfg);
          PaceFrame(a, u, c, cfg);
        }
        var b := if Due60(a, c.now) then Pace60(a, u, c, cfg) else a;
        if Due20(b, c.now) && b.reliable.Some? {
          TickKeeps(b, u, Hz20, c, start60, start20, cfg);
          PaceFrame(b, u, c, cfg);
        }
      }
    }
  }

  lemma {:induction false} DurationKeeps(app: App, checked: nat, start60: nat, start20: nat, cfg: Settings)
    requires Invariant(app, start60, start20, cfg)
    ensures var a := CheckDuration(app, checked, cfg);
      Invariant(a, start60, start20, cfg) && a.last60 == app.last60 && a.last20 == app.last20
  {
    var a := CheckDuration(app, checked, cfg);
    assert Numbered(a) && SendsArePackets(a, cfg) && ClassesKept(a);
  }

  lemma {:induction false} PaceFrame(app: App, u: Uuid, c: Clock, cfg: Settings)
    ensures app.unreliable.Some? ==> Pace60(app, u, c, cfg).last20 == app.last20
    ensures app.reliable.Some? ==> Pace20(app, u, c, cfg).last60 == app.last60
  {
  }

  // ------------------------------------------------------------------
  // Every run
  // ------------------------------------------------------------------

  lemma {:induction false} StartHolds(start60: nat, start20: nat, cfg: Settings)
    ensures Invariant(Start(start60, start20), start60, start20, cfg)
  {
  }

  lemma {:induction false} RunKeeps(start60: nat, start20: nat, rounds: seq<Round>, cfg: Settings)
    ensures Invariant(Run(start60, start20, rounds, cfg), start60, start20, cfg)
  {
    if rounds != [] {
      var init, last := rounds[..|rounds| - 1], rounds[|rounds| - 1];
      RunKeeps(start60, start20, init, cfg);
      hide Invariant, Drain, Pace;
      var before := Run(start60, start20, init, cfg);
      DrainKeeps(before, last.polled, start60, start20, cfg);
      PaceKeeps(Drain(before, last.polled, cfg), last.clock, start60, start20, cfg);
    } else {
      StartHolds(start60, start20, cfg);
    }
  }

  // With a clock that never goes back, the timers never run ahead of it.
  lemma {:induction false} TimersBehindClock(start60: nat, start20: nat, rounds: seq<Round>, cfg: Settings)
    requires ClockMonotonic(start60, start20, rounds)
    ensures var app := Run(start60, start20, rounds, cfg);
      && app.last60 <= Now(start60, start20, rounds)
      && app.last20 <= Now(start60, start20, rounds)
  {
    if rounds != [] {
      var init, last := rounds[..|rounds| - 1], rounds[|rounds| - 1];
      forall k | 0 <= k < |init| ensures Now(start60, start20, init[..k]) <= init[k].clock.now {
        assert init[..k] == rounds[..k] && init[k] == rounds[k];
      }
      TimersBehindClock(start60, start20, init, cfg);
      RunKeeps(start60, start20, init, cfg);
      hide Invariant, Drain, Pace;
      var before := Run(start60, start20, init, cfg);
      DrainKeeps(before, last.polled, start60, start20, cfg);
      PaceKeeps(Drain(before, last.polled, cfg), last.clock, start60, start20, cfg);
    }
  }

  // Each timer stands at its start plus one interval per packet sent and is never ahead of
  // the clock, so the number of packets never exceeds the elapsed time over the interval.
  lemma {:induction false} PacingWithoutDrift(start60: nat, start20: nat, rounds: seq<Round>, cfg: Settings)
    requires ClockMonotonic(start60, start20, rounds)
    ensures var app := Run(start60, start20, rounds, cfg);
      var now := Now(start60, start20, rounds);
      && app.last60 == start60 + Count(app.log, Hz60) * INTERVAL_60HZ <= now
      && app.last20 == start20 + Count(app.log, Hz20) * INTERVAL_20HZ <= now
      && Count(app.log, Hz60) <= (now - start60) / INTERVAL_60HZ
      && Count(app.log, Hz20) <= (now - start20) / INTERVAL_20HZ
  {
    TimersBehindClock(start60, start20, rounds, cfg);
    RunKeeps(start60, start20, rounds, cfg);
  }

  // The ids of the packets sent on a stream are 0, 1, 2, ... up to its counter.
  lemma {:induction false} IdsWithoutGaps(start60: nat, start20: nat, rounds: seq<Round>, cfg: Settings, s: StreamId)
    ensures var app := Run(start60, start20, rounds, cfg);
      IdsOn(app.log, s) == UpTo(CounterOf(app.sequences, s))
  {
    RunKeeps(start60, start20, rounds, cfg);
  }

  // ------------------------------------------------------------------
  // The counters of a class add up to the packets sent at its rate
  // ------------------------------------------------------------------

  function SumOfCounters(ids: seq<StreamId>, sequences: map<StreamId, nat>): nat {
    if ids == [] then 0 else CounterOf(sequences, ids[0]) + SumOfCounters(ids[1..], sequences)
  }

  function SumOfLengths(ids: seq<StreamId>, log: seq<Sent>): nat {
    if ids == [] then 0 else |IdsOn(log, ids[0])| + SumOfLengths(ids[1..], log)
  }

  lemma {:induction false} LengthsSnoc(ids: seq<StreamId>, log: seq<Sent>, e: Sent)
    requires NoRepeats(ids)
    ensures SumOfLengths(ids, log + [e]) == SumOfLengths(ids, log) + (if e.stream in ids then 1 else 0)
  {
    if ids != [] {
      assert (log + [e])[..|log|] == log;
      assert ids[0] !in ids[1..];
      LengthsSnoc(ids[1..], log, e);
    }
  }

  lemma {:induction false} LengthsEmpty(ids: seq<StreamId>)
    ensures SumOfLengths(ids, []) == 0
  {
    if ids != [] {
      LengthsEmpty(ids[1..]);
    }
  }

  lemma {:induction false} LengthsCount(ids: seq<StreamId>, log: seq<Sent>, rate: Rate)
    requires NoRepeats(ids)
    requires forall k :: 0 <= k < |log| ==> (log[k].stream in ids <==> log[k].rate == rate)
    ensures SumOfLengths(ids, log) == Count(log, rate)
  {
    if log == [] {
      LengthsEmpty(ids);
    } else {
      var init, e := log[..|log| - 1], log[|log| - 1];
      LengthsCount(ids, init, rate);
      LengthsSnoc(ids, init, e);
      assert log == init + [e];
    }
  }

  lemma {:induction false} CountersAreLengths(ids: seq<StreamId>, app: App)
    requires Numbered(app)
    ensures SumOfCounters(ids, app.sequences) == SumOfLengths(ids, app.log)
  {
    if ids != [] {
      CountersAreLengths(ids[1..], app);
      assert IdsOn(app.log, ids[0]) == UpTo(CounterOf(app.sequences, ids[0]));
    }
  }

  // However the streams of one class that have a counter are listed (each once), their
  // counters sum to the packets sent at that class's rate.
  lemma {:induction false} CountersSumToSends(start60: nat, start20: nat, rounds: seq<Round>, cfg: Settings,
                                              ids: seq<StreamId>, rate: Rate)
    requires NoRepeats(ids)
    requires forall s :: s in ids <==>
      s in Run(start60, start20, rounds, cfg).sequences && (IsReliable(s) <==> rate == Hz20)
    ensures var app := Run(start60, start20, rounds, cfg);
      SumOfCounters(ids, app.sequences) == Count(app.log, rate)
  {
    RunKeeps(start60, start20, rounds, cfg);
    var app := Run(start60, start20, rounds, cfg);
    forall k | 0 <= k < |app.log| ensures app.log[k].stream in ids <==> app.log[k].rate == rate {
      LoggedHasCounter(app, k);
    }
    CountersAreLengths(ids, app);
    LengthsCount(ids, app.log, rate);
  }

  lemma {:induction false} LoggedHasCounter(app: App, k: nat)
    requires Numbered(app) && k < |app.log|
    ensures app.log[k].stream in app.sequences
  {
    var s := app.log[k].stream;
    LoggedOnStream(app.log, k);
    assert IdsOn(app.log, s) == UpTo(CounterOf(app.sequences, s));
  }

  lemma {:induction false} LoggedOnStream(log: seq<Sent>, k: nat)
    requires k < |log|
    ensures IdsOn(log, log[k].stream) != []
  {
    if k < |log| - 1 {
      LoggedOnStream(log[..|log| - 1], k);
    }
  }

  // ------------------------------------------------------------------
  // Warm-up
  // ------------------------------------------------------------------

  // `as_secs() > warmup` counts whole seconds, so recording starts one second after the
  // warm-up; the packets of the warm-up have used up ids all the same (IdsWithoutGaps).
  lemma {:induction false} RecordsAfterWarmup(app: App, e: Polled, cfg: Settings)
    ensures var after := OnEvent(app, e, cfg).records;
      && (after == app.records || (|after| == |app.records| + 1 && app.records <= after))
      && (after != app.records <==>
            && e.event.Message? && (exists p: Packets.Packet :: p.Valid() && e.event.data == Packets.Serialize(p))
            && app.started.Some? && e.now >= app.started.value + (cfg.warmupSecs + 1) * NANOS_PER_SECOND)
  {
    hide Packets.Parse, Packets.Serialize;
    if e.event.Message? {
      Packets.AcceptsExactlySerialized(e.event.data);
      if app.started.Some? {
        WholeSeconds(Since(e.now, app.started.value), cfg.warmupSecs);
      }
    }
  }

  lemma {:induction false} WholeSeconds(nanos: nat, secs: nat)
    ensures nanos / NANOS_PER_SECOND > secs <==> nanos >= (secs + 1) * NANOS_PER_SECOND
  {
  }

  // The first Connected starts the clock of a run, and nothing sets it again.
  lemma {:induction false} StartedOnce(app: App, polled: seq<Polled>, c: Clock, cfg: Settings)
    requires app.started.Some?
    ensures Iterate(app, polled, c, cfg).0.started == app.started
  {
    hide Drain, PacketData;
    DrainKeepsStart(app, polled, cfg);
  }

  lemma {:induction false} DrainKeepsStart(app: App, polled: seq<Polled>, cfg: Settings)
    requires app.started.Some?
    ensures Drain(app, polled, cfg).started == app.started
    decreases polled
  {
    hide Packets.Parse;
    if polled != [] {
      DrainKeepsStart(OnEvent(app, polled[0], cfg), polled[1..], cfg);
    }
  }
}
