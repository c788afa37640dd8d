// The benchmark client: polls events, then sends one packet on the unreliable stream every
// 16666 microseconds and one on the reliable stream every 50 milliseconds, catching up
// one packet per round when it is late.
module BenchmarkClient {
  import opened Bytes
  import opened Options
  import opened Sockets
  import opened Records
  import Packets = BenchmarkPacket

  const NANOS_PER_SECOND: nat := 1_000_000_000
  const INTERVAL_60HZ: nat := 16_666_000 // Duration::from_micros(16666), in nanoseconds
  const INTERVAL_20HZ: nat := 50_000_000 // Duration::from_millis(50)

  // Command-line settings; the payload is the slice of the entropy pool of the chosen size.
  datatype Settings = Settings(durationSecs: nat, warmupSecs: nat, payload: seq<byte>)

  datatype Rate = Hz60 | Hz20

  datatype Sent = Sent(rate: Rate, stream: StreamId, id: nat)

  // The locals of `run_benchmark`; clocks are in nanoseconds. A sequence counter is a u64:
  // its value here is the number of packets sent, taken modulo 2^64 where it enters a packet.
  // `log`, `commands` and `records` collect what leaves the loop.
  datatype App = App(
    server: Option<Uuid>,
    started: Option<nat>,
    last60: nat,
    last20: nat,
    unreliable: Option<StreamId>,
    reliable: Option<StreamId>,
    sequences: map<StreamId, nat>,
    nextStreamId: StreamId,
    needStop: bool,
    log: seq<Sent>,
    commands: seq<Command>,
    records: seq<Record>)

  function Start(now60: nat, now20: nat): App {
    App(None, None, now60, now20, None, None, map[], 0, false, [], [], [])
  }

  // An event with the two clocks that are read while it is handled: the monotonic one, and
  // the wall clock in microseconds.
  datatype Polled = Polled(event: Event, now: nat, wall: nat)

  // The clocks of one pacing round: the duration check, `now`, and the two time stamps.
  datatype Clock = Clock(checked: nat, now: nat, stamp60: nat, stamp20: nat)

  // duration_since saturates at zero.
  function Since(now: nat, earlier: nat): nat {
    if now >= earlier then now - earlier else 0
  }

  // ------------------------------------------------------------------
  // One event
  // ------------------------------------------------------------------

  function OnConnected(app: App, u: Uuid, now: nat): App {
    var first := (app.nextStreamId + 1) % U16;
    var second := (first + 1) % U16;
    app.(server := Some(u),
         nextStreamId := second,
         commands := app.commands + [CreateStream(u, first, Unreliable), CreateStream(u, second, Reliable)],
         started := if app.started.None? then Some(now) else app.started)
  }

  function OnMessage(app: App, stream: StreamId, data: seq<byte>, now: nat, wall: nat, cfg: Settings): App {
    match Packets.Parse(data)
    case None => app
    case Some(p) =>
      if app.started.Some? && Since(now, app.started.value) / NANOS_PER_SECOND > cfg.warmupSecs
      then app.(records := app.records + [RecordOf(stream, p, wall)])
      else app
  }

  function RecordOf(stream: StreamId, p: Packets.Packet, wall: nat): Record {
    Record(p.id, stream, Since(wall, p.timestamp), |p.payload|, wall)
  }

  function OnEvent(app: App, e: Polled, cfg: Settings): App {
    match e.event
    case Connected(u) => OnConnected(app, u, e.now)
    case Disconnected(_) => app.(server := None, needStop := true)
    case Message(_, stream, data) => OnMessage(app, stream, data, e.now, e.wall, cfg)
    case Error(_) => app
    case StreamCreated(_, s) => SetStream(app, s, Some(s))
    case StreamClosed(_, s) => SetStream(app, s, None)
  }

  function SetStream(app: App, s: StreamId, value: Option<StreamId>): App {
    if IsReliable(s) then app.(reliable := value) else app.(unreliable := value)
  }

  // The inner polling loop; it is left at the first Disconnected.
  function Drain(app: App, polled: seq<Polled>, cfg: Settings): App
    decreases polled
  {
    if polled == [] then app
    else if polled[0].event.Disconnected? then OnEvent(app, polled[0], cfg)
    else Drain(OnEvent(app, polled[0], cfg), polled[1..], cfg)
  }

  // ------------------------------------------------------------------
  // One pacing round
  // ------------------------------------------------------------------

  function CounterOf(sequences: map<StreamId, nat>, s: StreamId): nat {
    if s in sequences then sequences[s] else 0
  }

  function PacketData(id: nat, stamp: nat, cfg: Settings): seq<byte> {
    Packets.Serialize(Packets.Packet(id % U64, stamp % U64, cfg.payload))
  }

  function SendPacket(app: App, u: Uuid, stream: StreamId, rate: Rate, stamp: nat, cfg: Settings): App {
    var id := CounterOf(app.sequences, stream);
    app.(sequences := app.sequences[stream := id + 1],
         log := app.log + [Sent(rate, stream, id)],
         commands := app.commands + [Send(u, stream, PacketData(id, stamp, cfg))])
  }

  predicate Due60(app: App, now: nat) {
    Since(now, app.last60) >= INTERVAL_60HZ
  }

  predicate Due20(app: App, now: nat) {
    Since(now, app.last20) >= INTERVAL_20HZ
  }

  function Pace60(app: App, u: Uuid, c: Clock, cfg: Settings): App
    requires app.unreliable.Some?
  {
    SendPacket(app, u, app.unreliable.value, Hz60, c.stamp60, cfg).(last60 := app.last60 + INTERVAL_60HZ)
  }

  function Pace20(app: App, u: Uuid, c: Clock, cfg: Settings): App
    requires app.reliable.Some?
  {
    SendPacket(app, u, app.reliable.value, Hz20, c.stamp20, cfg).(last20 := app.last20 + INTERVAL_20HZ)
  }

  function CheckDuration(app: App, checked: nat, cfg: Settings): App {
    if app.started.Some? && Since(checked, app.started.value) >= cfg.durationSecs * NANOS_PER_SECOND
    then app.(needStop := true) else app
  }

  // The state after the round, and whether the loop is left. A missing stream skips the rest
  // of the round, the stop check included.
  function Pace(app: App, c: Clock, cfg: Settings): (App, bool) {
    if app.server.None? then (app, app.needStop) else
    var u := app.server.value;
    var a := CheckDuration(app, c.checked, cfg);
    if Due60(a, c.now) && a.unreliable.None? then (a, false) else
    var b := if Due60(a, c.now) then Pace60(a, u, c, cfg) else a;
    if Due20(b, c.now) && b.reliable.None? then (b, false) else
    var d := if Due20(b, c.now) then Pace20(b, u, c, cfg) else b;
    (d, d.needStop)
  }

  function Iterate(app: App, polled: seq<Polled>, c: Clock, cfg: Settings): (App, bool) {
    Pace(Drain(app, polled, cfg), c, cfg)
  }

  // ------------------------------------------------------------------
  // The loop body
  // ------------------------------------------------------------------

  class BenchmarkClient {
    const cfg: Settings
    const peer: GamePeer
    var server: Option<Uuid>
    var started: Option<nat>
    var last60: nat
    var last20: nat
    var unreliable: Option<StreamId>
    var reliable: Option<StreamId>
    var sequences: map<StreamId, nat>
    var needStop: bool
    ghost var log: seq<Sent>
    var records: seq<Record>

    ghost predicate Valid()
      reads this, peer
    {
      peer.Valid()
    }

    ghost function View(): App
      reads this, peer
    {
      App(server, started, last60, last20, unreliable, reliable, sequences, peer.nextStreamId, needStop,
          log, peer.commands, records)
    }

    constructor (now60: nat, now20: nat, cfg: Settings)
      ensures Valid() && fresh(peer) && View() == Start(now60, now20) && this.cfg == cfg
    {
      this.cfg := cfg;
      peer := new GamePeer();
      server, started, unreliable, reliable := None, None, None, None;
      last60, last20 := now60, now20;
      sequences, needStop := map[], false;
      log, records := [], [];
    }

    method HandleEvent(e: Polled)
      requires Valid()
      modifies this, peer
      ensures Valid()
      ensures View() == OnEvent(old(View()), e, cfg)
    {
      hide OnMessage, SetStream, OnConnected, Creations, NumberedInOrder;
      match e.event
      case Connected(u) =>
        AskForStreams(u, e.now);
      case Disconnected(_) =>
        server := None;
        needStop := true;
      case Message(_, stream, data) =>
        HandleMessage(stream, data, e.now, e.wall);
      case Error(_) =>
      case StreamCreated(_, s) =>
        HandleStream(s, Some(s));
      case StreamClosed(_, s) =>
        HandleStream(s, None);
    }

    method AskForStreams(u: Uuid, now: nat)
      requires Valid()
      modifies this`server, this`started, peer
      ensures Valid()
      ensures View() == OnConnected(old(View()), u, now)
    {
      hide Creations, NumberedInOrder;
      ghost var commands := peer.commands;
      server := Some(u);
      peer.CreateStream(u, Unreliable);
      ghost var first := peer.nextStreamId;
      peer.CreateStream(u, Reliable);
      assert peer.commands == commands + [CreateStream(u, first, Unreliable), CreateStream(u, peer.nextStreamId, Reliable)];
      if started.None? {
        started := Some(now);
      }
    }

    method HandleMessage(stream: StreamId, data: seq<byte>, now: nat, wall: nat)
      requires Valid()
      modifies this`records
      ensures Valid()
      ensures View() == OnMessage(old(View()), stream, data, now, wall, cfg)
    {
      hide Packets.Parse;
      var parsed := Packets.FromBytes(data);
      if parsed.Some? {
        var rtt := Since(wall, parsed.value.timestamp);
        if started.Some? && Since(now, started.value) / NANOS_PER_SECOND > cfg.warmupSecs {
          records := records + [Record(parsed.value.id, stream, rtt, |parsed.value.payload|, wall)];
        }
      }
    }

    // A created or closed stream sets or clears the option of its reliability class.
    method HandleStream(s: StreamId, value: Option<StreamId>)
      requires Valid()
      modifies this`reliable, this`unreliable
      ensures Valid()
      ensures View() == SetStream(old(View()), s, value)
    {
      if IsReliable(s) {
        reliable := value;
      } else {
        unreliable := value;
      }
    }

    method Transmit(u: Uuid, stream: StreamId, rate: Rate, stamp: nat)
      requires Valid()
      modifies this`sequences, this`log, peer
      ensures Valid()
      ensures View() == SendPacket(old(View()), u, stream, rate, stamp, cfg)
    {
      hide Packets.Serialize, Creations, NumberedInOrder;
      if stream !in sequences {
        sequences := sequences[stream := 0];
      }
      var id := sequences[stream];
      var data := Packets.ToBytes(Packets.Packet(id % U64, stamp % U64, cfg.payload));
      peer.Send(u, stream, data);
      log := log + [Sent(rate, stream, id)];
      sequences := sequences[stream := id + 1];
    }

    method PollEvents(polled: seq<Polled>)
      requires Valid()
      modifies this, peer
      ensures Valid()
      ensures View() == Drain(old(View()), polled, cfg)
    {
      hide OnEvent;
      ghost var entry := View();
      var i := 0;
      var broken := false;
      while i < |polled| && !broken
        invariant i <= |polled| && Valid()
        invariant !broken ==> Drain(entry, polled, cfg) == Drain(View(), polled[i..], cfg)
        invariant broken ==> Drain(entry, polled, cfg) == View()
      {
        HandleEvent(polled[i]);
        broken := polled[i].event.Disconnected?;
        i := i + 1;
      }
    }

    method StopWhenDone(checked: nat)
      requires Valid()
      modifies this`needStop
      ensures Valid()
      ensures View() == CheckDuration(old(View()), checked, cfg)
    {
      if started.Some? && Since(checked, started.value) >= cfg.durationSecs * NANOS_PER_SECOND {
        needStop := true;
      }
    }

    method Tick60(u: Uuid, c: Clock)
      requires Valid()
      requires unreliable.Some?
      modifies this`last60, this`sequences, this`log, peer
      ensures Valid()
      ensures View() == Pace60(old(View()), u, c, cfg)
    {
      hide SendPacket;
      Transmit(u, unreliable.value, Hz60, c.stamp60);
      last60 := last60 + INTERVAL_60HZ;
    }

    method Tick20(u: Uuid, c: Clock)
      requires Valid()
      requires reliable.Some?
      modifies this`last20, this`sequences, this`log, peer
      ensures Valid()
      ensures View() == Pace20(old(View()), u, c, cfg)
    {
      hide SendPacket;
      Transmit(u, reliable.value, Hz20, c.stamp20);
      last20 := last20 + INTERVAL_20HZ;
    }

    method PaceRound(c: Clock) returns (stop: bool)
      requires Valid()
      modifies this, peer
      ensures Valid()
      ensures (View(), stop) == Pace(old(View()), c, cfg)
    {
      hide CheckDuration, Pace60, Pace20;
      if server.None? {
        return needStop;
      }
      var u := server.value;
      StopWhenDone(c.checked);
      if Since(c.now, last60) >= INTERVAL_60HZ {
        if unreliable.None? {
          return false;
        }
        Tick60(u, c);
      }
      if Since(c.now, last20) >= INTERVAL_20HZ {
        if reliable.None? {
          return false;
        }
        Tick20(u, c);
      }
      return needStop;
    }

    method Round(polled: seq<Polled>, c: Clock) returns (stop: bool)
      requires Valid()
      modifies this, peer
      ensures Valid()
      ensures (View(), stop) == Iterate(old(View()), polled, c, cfg)
    {
      hide Drain, Pace;
      PollEvents(polled);
      stop := PaceRound(c);
    }
  }
}
