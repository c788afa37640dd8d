// Everything the client's loop has done, told from the events it polled and the clocks it read.
module ClientHistory {
  import opened Options
  import opened Sockets
  import opened Records
  import opened BenchmarkClient
  import Runs = ClientRuns
  import Packets = BenchmarkPacket

  // ------------------------------------------------------------------
  // Events
  // ------------------------------------------------------------------

  // Polling ends with the first Disconnected.
  function Handled(polled: seq<Polled>): seq<Polled> {
    if polled == [] then []
    else if polled[0].event.Disconnected? then [polled[0]]
    else [polled[0]] + Handled(polled[1..])
  }

  function Seen(rounds: seq<Runs.Round>): seq<Polled> {
    if rounds == [] then [] else Seen(rounds[..|rounds| - 1]) + Handled(rounds[|rounds| - 1].polled)
  }

  // The connection of the last Connected, unless a Disconnected came after it.
  function Server(seen: seq<Polled>): Option<Uuid> {
    if seen == [] then None else
    match seen[|seen| - 1].event
    case Connected(u) => Some(u)
    case Disconnected(_) => None
    case _ => Server(seen[..|seen| - 1])
  }

  // When the first Connected was handled.
  function StartedAt(seen: seq<Polled>): Option<nat> {
    if seen == [] then None else
    var before, e := StartedAt(seen[..|seen| - 1]), seen[|seen| - 1];
    if before.None? && e.event.Connected? then Some(e.now) else before
  }

  // The last stream created or closed among those with both low id bits clear, or among the
  // others.
  function StreamOf(seen: seq<Polled>, reliable: bool): Option<StreamId> {
    if seen == [] then None else
    var before, e := StreamOf(seen[..|seen| - 1], reliable), seen[|seen| - 1].event;
    if e.StreamCreated? && (e.stream % 4 != 0) == reliable then Some(e.stream)
    else if e.StreamClosed? && (e.stream % 4 != 0) == reliable then None
    else before
  }

  function Connects(seen: seq<Polled>): nat {
    if seen == [] then 0 else Connects(seen[..|seen| - 1]) + if seen[|seen| - 1].event.Connected? then 1 else 0
  }

  // The packets that arrived one second or more after the warm-up, each with its stream, its
  // round-trip time (zero if the clock went back), the length of its payload and its arrival.
  function RecordsOf(seen: seq<Polled>, cfg: Settings): seq<Record> {
    if seen == [] then [] else
    var init, e := seen[..|seen| - 1], seen[|seen| - 1];
    var before := RecordsOf(init, cfg);
    if !e.event.Message? || StartedAt(init).None? then before else
    match Packets.Parse(e.event.data)
    case None => before
    case Some(p) =>
      if e.now >= StartedAt(init).value + (cfg.warmupSecs + 1) * 1_000_000_000 then
        before + [Record(p.id, e.event.stream, if e.wall > p.timestamp then e.wall - p.timestamp else 0, |p.payload|, e.wall)]
      else before
  }

  // What the k-th and later connections ask for: an unreliable stream, then a reliable one,
  // numbered on from those of the connections before.
  function StreamRequests(k: nat, events: seq<Polled>): seq<Command>
    decreases |events|
  {
    if events == [] then [] else
    match events[0].event
    case Connected(u) =>
      [CreateStream(u, (2 * k + 1) % 0x1_0000, Unreliable), CreateStream(u, (2 * k + 2) % 0x1_0000, Reliable)]
      + StreamRequests(k + 1, events[1..])
    case _ => StreamRequests(k, events[1..])
  }

  ghost predicate EventsAgree(app: App, seen: seq<Polled>, cfg: Settings) {
    && app.server == Server(seen)
    && app.started == StartedAt(seen)
    && app.unreliable == StreamOf(seen, false)
    && app.reliable == StreamOf(seen, true)
    && app.records == RecordsOf(seen, cfg)
    && app.nextStreamId == (2 * Connects(seen)) % 0x1_0000
  }

  lemma {:induction false} SeenSnoc(seen: seq<Polled>, e: Polled, cfg: Settings)
    ensures Server(seen + [e]) == match e.event case Connected(u) => Some(u) case Disconnected(_) => None case _ => Server(seen)
    ensures StartedAt(seen + [e]) == if StartedAt(seen).None? && e.event.Connected? then Some(e.now) else StartedAt(seen)
    ensures Connects(seen + [e]) == Connects(seen) + if e.event.Connected? then 1 else 0
    ensures forall reliable ::
      (StreamOf(seen + [e], reliable)
       == if e.event.StreamCreated? && (e.event.stream % 4 != 0) == reliable then Some(e.event.stream)
          else if e.event.StreamClosed? && (e.event.stream % 4 != 0) == reliable then None
          else StreamOf(seen, reliable))
  {
    assert (seen + [e])[..|seen|] == seen;
  }

  lemma {:induction false} NumbersGoOn(k: nat)
    ensures ((2 * k) % 0x1_0000 + 1) % 0x1_0000 == (2 * k + 1) % 0x1_0000
    ensures ((2 * k + 1) % 0x1_0000 + 1) % 0x1_0000 == (2 * k + 2) % 0x1_0000
  {
  }

  lemma {:induction false} EventAgrees(app: App, seen: seq<Polled>, e: Polled, cfg: Settings)
    requires EventsAgree(app, seen, cfg)
    ensures EventsAgree(OnEvent(app, e, cfg), seen + [e], cfg)
    ensures OnEvent(app, e, cfg).commands == app.commands + StreamRequests(Connects(seen), [e])
    ensures OnEvent(app, e, cfg).needStop == (app.needStop || e.event.Disconnected?)
  {
    hide Server, StartedAt, StreamOf, Connects, RecordsOf, Packets.Parse;
    SeenSnoc(seen, e, cfg);
    RecordsSnoc(app, seen, e, cfg);
    NumbersGoOn(Connects(seen));
    assert [e][1..] == [];
  }

  lemma {:induction false} RecordsSnoc(app: App, seen: seq<Polled>, e: Polled, cfg: Settings)
    requires EventsAgree(app, seen, cfg)
    ensures OnEvent(app, e, cfg).records == RecordsOf(seen + [e], cfg)
  {
    hide Server, StartedAt, StreamOf, Connects, Packets.Parse;
    assert (seen + [e])[..|seen|] == seen;
    if e.event.Message? && app.started.Some? {
      Runs.WholeSeconds(Since(e.now, app.started.value), cfg.warmupSecs);
    }
  }

  lemma {:induction false} RequestsCons(k: nat, e: Polled, rest: seq<Polled>)
    ensures StreamRequests(k, [e] + rest)
         == StreamRequests(k, [e]) + StreamRequests(k + if e.event.Connected? then 1 else 0, rest)
  {
    assert ([e] + rest)[1..] == rest && [e][1..] == [];
    assert StreamRequests(k, []) == [] && StreamRequests(k + 1, []) == [];
  }

  ghost predicate HasDisconnect(events: seq<Polled>) {
    exists k :: 0 <= k < |events| && events[k].event.Disconnected?
  }

  lemma {:induction false} DrainAgrees(app: App, seen: seq<Polled>, polled: seq<Polled>, cfg: Settings)
    requires EventsAgree(app, seen, cfg)
    ensures var after := Drain(app, polled, cfg);
      && EventsAgree(after, seen + Handled(polled), cfg)
      && after.commands == app.commands + StreamRequests(Connects(seen), Handled(polled))
      && (after.needStop <==> app.needStop || HasDisconnect(Handled(polled)))
      && after.log == app.log && after.sequences == app.sequences
      && after.last60 == app.last60 && after.last20 == app.last20
    decreases polled
  {
    hide OnEvent, EventsAgree, StreamRequests, Connects, HasDisconnect, Drain, Handled;
    DrainStep(app, polled, cfg);
    if polled == [] {
      assert seen + [] == seen;
      NoRequests(Connects(seen));
    } else {
      var e, rest := polled[0], polled[1..];
      var next := OnEvent(app, e, cfg);
      EventAgrees(app, seen, e, cfg);
      Runs.EventFrame(app, e, cfg);
      DisconnectCons(e, []);
      if !e.event.Disconnected? {
        SeenSnoc(seen, e, cfg);
        DrainAgrees(next, seen + [e], rest, cfg);
        RequestsCons(Connects(seen), e, Handled(rest));
        assert seen + Handled(polled) == seen + [e] + Handled(rest);
        DisconnectCons(e, Handled(rest));
      } else {
        assert [e] + [] == [e];
      }
    }
  }

  lemma {:induction false} DrainStep(app: App, polled: seq<Polled>, cfg: Settings)
    ensures polled == [] ==> Drain(app, polled, cfg) == app && Handled(polled) == []
    ensures polled != [] && polled[0].event.Disconnected? ==>
      Drain(app, polled, cfg) == OnEvent(app, polled[0], cfg) && Handled(polled) == [polled[0]]
    ensures polled != [] && !polled[0].event.Disconnected? ==>
      && Drain(app, polled, cfg) == Drain(OnEvent(app, polled[0], cfg), polled[1..], cfg)
      && Handled(polled) == [polled[0]] + Handled(polled[1..])
  {
    hide OnEvent;
  }

  lemma {:induction false} NoRequests(k: nat)
    ensures StreamRequests(k, []) == [] && !HasDisconnect([])
  {
  }

  lemma {:induction false} DisconnectCons(e: Polled, rest: seq<Polled>)
    ensures HasDisconnect([e] + rest) <==> e.event.Disconnected? || HasDisconnect(rest)
  {
    var all := [e] + rest;
    if k :| 0 <= k < |rest| && rest[k].event.Disconnected? {
      assert all[k + 1] == rest[k];
    }
    if k :| 0 <= k < |all| && all[k].event.Disconnected? {
      assert k > 0 ==> rest[k - 1] == all[k];
    }
    assert all[0] == e;
  }

  // ------------------------------------------------------------------
  // Pacing
  // ------------------------------------------------------------------

  // A timer fires once its next multiple of 16.666 or 50 milliseconds has been reached.
  predicate Fires60(start60: nat, log: seq<Sent>, now: nat) {
    now >= start60 + (Runs.Count(log, Hz60) + 1) * 16_666_000
  }

  predicate Fires20(start20: nat, log: seq<Sent>, now: nat) {
    now >= start20 + (Runs.Count(log, Hz20) + 1) * 50_000_000
  }

  // A packet's id is the number of packets sent on its stream before.
  function Next(log: seq<Sent>, rate: Rate, s: StreamId): Sent {
    Sent(rate, s, |Runs.IdsOn(log, s)|)
  }

  // A timer that fires while its stream is missing ends the round.
  predicate CutShort(start60: nat, start20: nat, log: seq<Sent>, seen: seq<Polled>, now: nat) {
    Server(seen).Some? && ((Fires60(start60, log, now) && StreamOf(seen, false).None?)
                           || (Fires20(start20, log, now) && StreamOf(seen, true).None?))
  }

  function Sends60(start60: nat, log: seq<Sent>, seen: seq<Polled>, now: nat): seq<Sent> {
    if Server(seen).Some? && Fires60(start60, log, now) && StreamOf(seen, false).Some?
    then [Next(log, Hz60, StreamOf(seen, false).value)] else []
  }

  function Sends20(start60: nat, start20: nat, log: seq<Sent>, seen: seq<Polled>, now: nat): seq<Sent> {
    if Server(seen).Some? && Fires20(start20, log, now) && StreamOf(seen, true).Some?
       && !(Fires60(start60, log, now) && StreamOf(seen, false).None?)
    then [Next(log, Hz20, StreamOf(seen, true).value)] else []
  }

  // The log of all packets sent.
  function LogOf(start60: nat, start20: nat, rounds: seq<Runs.Round>): seq<Sent> {
    if rounds == [] then [] else
    var log := LogOf(start60, start20, rounds[..|rounds| - 1]);
    var now := rounds[|rounds| - 1].clock.now;
    log + Sends60(start60, log, Seen(rounds), now) + Sends20(start60, start20, log, Seen(rounds), now)
  }

  function SendOf(u: Uuid, x: Sent, stamp: nat, cfg: Settings): Command {
    Send(u, x.stream, Packets.Serialize(Packets.Packet(x.id % 0x1_0000_0000_0000_0000, stamp % 0x1_0000_0000_0000_0000, cfg.payload)))
  }

  function SendsOf(u: Uuid, xs: seq<Sent>, stamp: nat, cfg: Settings): seq<Command> {
    if xs == [] then [] else [SendOf(u, xs[0], stamp, cfg)] + SendsOf(u, xs[1..], stamp, cfg)
  }

  function NewSends(start60: nat, start20: nat, log: seq<Sent>, seen: seq<Polled>, c: Clock, cfg: Settings): seq<Command> {
    if Server(seen).None? then [] else
    SendsOf(Server(seen).value, Sends60(start60, log, seen, c.now), c.stamp60, cfg)
    + SendsOf(Server(seen).value, Sends20(start60, start20, log, seen, c.now), c.stamp20, cfg)
  }

  // All commands: in each round the requests for streams, then the packets.
  function CommandsOf(start60: nat, start20: nat, rounds: seq<Runs.Round>, cfg: Settings): seq<Command> {
    if rounds == [] then [] else
    var init, r := rounds[..|rounds| - 1], rounds[|rounds| - 1];
    CommandsOf(start60, start20, init, cfg)
    + StreamRequests(Connects(Seen(init)), Handled(r.polled))
    + NewSends(start60, start20, LogOf(start60, start20, init), Seen(rounds), r.clock, cfg)
  }

  // The benchmark's time is over (at once if that time is zero).
  predicate TimeUp(seen: seq<Polled>, checked: nat, cfg: Settings) {
    StartedAt(seen).Some?
    && (cfg.durationSecs == 0 || checked >= StartedAt(seen).value + cfg.durationSecs * 1_000_000_000)
  }

  ghost predicate Stopping(rounds: seq<Runs.Round>, cfg: Settings) {
    if rounds == [] then false else
    var r := rounds[|rounds| - 1];
    Stopping(rounds[..|rounds| - 1], cfg) || HasDisconnect(Handled(r.polled))
    || (Server(Seen(rounds)).Some? && TimeUp(Seen(rounds), r.clock.checked, cfg))
  }

  // What one pacing round does, from a state as it is in a run.
  lemma {:induction false} PaceExactly(app: App, seen: seq<Polled>, c: Clock, start60: nat, start20: nat, cfg: Settings)
    requires EventsAgree(app, seen, cfg) && Runs.Invariant(app, start60, start20, cfg)
    ensures var (after, stop) := Pace(app, c, cfg);
      && EventsAgree(after, seen, cfg)
      && after.log == app.log + Sends60(start60, app.log, seen, c.now) + Sends20(start60, start20, app.log, seen, c.now)
      && after.commands == app.commands + NewSends(start60, start20, app.log, seen, c, cfg)
      && (after.needStop <==> app.needStop || (Server(seen).Some? && TimeUp(seen, c.checked, cfg)))
      && (stop <==> after.needStop && !CutShort(start60, start20, app.log, seen, c.now))
  {
    if app.server.None? {
      hide Packets.Serialize, Runs.Invariant, StartedAt, StreamOf, RecordsOf, Connects;
    } else {
      hide EventsAgree, Runs.Invariant, Server, CheckDuration, Pace, TimeUp, CutShort, NewSends, Sends60, Sends20;
      var a := CheckDuration(app, c.checked, cfg);
      SameServer(app, seen, cfg);
      DurationExactly(app, seen, c.checked, start60, start20, cfg);
      SameServer(a, seen, cfg);
      PaceOf(app, c, cfg);
      if Due60(a, c.now) {
        Late60(a, seen, c, start60, start20, cfg);
      } else {
        NotLate60(a, seen, c, start60, start20, cfg);
      }
    }
  }

  // A pacing round after the duration check.
  function Ticks(a: App, u: Uuid, c: Clock, cfg: Settings): (App, bool) {
    if Due60(a, c.now) && a.unreliable.None? then (a, false) else
    var b := if Due60(a, c.now) then Pace60(a, u, c, cfg) else a;
    if Due20(b, c.now) && b.reliable.None? then (b, false) else
    var d := if Due20(b, c.now) then Pace20(b, u, c, cfg) else b;
    (d, d.needStop)
  }

  lemma {:induction false} PaceOf(app: App, c: Clock, cfg: Settings)
    requires app.server.Some?
    ensures Pace(app, c, cfg) == Ticks(CheckDuration(app, c.checked, cfg), app.server.value, c, cfg)
  {
    hide CheckDuration, Pace60, Pace20, Due60, Due20;
  }

  lemma {:induction false} NoSends(u: Uuid, stamp: nat, cfg: Settings)
    ensures SendsOf(u, [], stamp, cfg) == []
  {
  }

  lemma {:induction false} Late60(a: App, seen: seq<Polled>, c: Clock, start60: nat, start20: nat, cfg: Settings)
    requires EventsAgree(a, seen, cfg) && Runs.Invariant(a, start60, start20, cfg)
    requires Due60(a, c.now) && a.server.Some?
    ensures var (after, stop) := Ticks(a, a.server.value, c, cfg);
      && EventsAgree(after, seen, cfg)
      && after.log == a.log + Sends60(start60, a.log, seen, c.now) + Sends20(start60, start20, a.log, seen, c.now)
      && after.commands == a.commands + NewSends(start60, start20, a.log, seen, c, cfg)
      && after.needStop == a.needStop
      && (stop <==> after.needStop && !CutShort(start60, start20, a.log, seen, c.now))
  {
    hide EventsAgree, Runs.Invariant, Server, StreamOf, Pace60, Pace20, Due60, Due20, Fires60, Fires20, SendsOf;
    var u := a.server.value;
    SameServer(a, seen, cfg);
    Firing(a, start60, start20, cfg, c.now);
    NoSends(u, c.stamp60, cfg);
    NoSends(u, c.stamp20, cfg);
    if a.unreliable.Some? {
      Tick60Exactly(a, u, seen, c, start60, start20, cfg);
      var b := Pace60(a, u, c, cfg);
      if Due20(b, c.now) && b.reliable.Some? {
        Tick20Exactly(b, u, seen, c, cfg);
      }
    }
  }

  lemma {:induction false} NotLate60(a: App, seen: seq<Polled>, c: Clock, start60: nat, start20: nat, cfg: Settings)
    requires EventsAgree(a, seen, cfg) && Runs.Invariant(a, start60, start20, cfg)
    requires !Due60(a, c.now) && a.server.Some?
    ensures var (after, stop) := Ticks(a, a.server.value, c, cfg);
      && EventsAgree(after, seen, cfg)
      && after.log == a.log + Sends60(start60, a.log, seen, c.now) + Sends20(start60, start20, a.log, seen, c.now)
      && after.commands == a.commands + NewSends(start60, start20, a.log, seen, c, cfg)
      && after.needStop == a.needStop
      && (stop <==> after.needStop && !CutShort(start60, start20, a.log, seen, c.now))
  {
    hide EventsAgree, Runs.Invariant, Server, StreamOf, Pace60, Pace20, Due60, Due20, Fires60, Fires20, SendsOf, Runs.IdsOn, CounterOf;
    var u := a.server.value;
    SameServer(a, seen, cfg);
    Firing(a, start60, start20, cfg, c.now);
    NoSends(u, c.stamp60, cfg);
    NoSends(u, c.stamp20, cfg);
    if Due20(a, c.now) && a.reliable.Some? {
      Counted(a, start60, start20, cfg);
      Tick20Exactly(a, u, seen, c, cfg);
    }
  }

  // The streams a state would send on, and the numbers of their next packets.
  lemma {:induction false} SameServer(app: App, seen: seq<Polled>, cfg: Settings)
    requires EventsAgree(app, seen, cfg)
    ensures app.server == Server(seen) && app.started == StartedAt(seen)
    ensures app.unreliable == StreamOf(seen, false) && app.reliable == StreamOf(seen, true)
  {
    hide Server, StartedAt, StreamOf, RecordsOf, Connects;
  }

  lemma {:induction false} DurationExactly(app: App, seen: seq<Polled>, checked: nat, start60: nat, start20: nat, cfg: Settings)
    requires EventsAgree(app, seen, cfg) && Runs.Invariant(app, start60, start20, cfg)
    ensures var a := CheckDuration(app, checked, cfg);
      && a == app.(needStop := app.needStop || TimeUp(seen, checked, cfg))
      && EventsAgree(a, seen, cfg) && Runs.Invariant(a, start60, start20, cfg)
  {
    hide Server, StartedAt, StreamOf, RecordsOf, Connects, Runs.Invariant;
    Runs.DurationKeeps(app, checked, start60, start20, cfg);
  }

  lemma {:induction false} SendExactly(app: App, u: Uuid, s: StreamId, rate: Rate, stamp: nat, cfg: Settings, id: nat)
    requires CounterOf(app.sequences, s) == id
    ensures var after := SendPacket(app, u, s, rate, stamp, cfg);
      && after == app.(sequences := after.sequences, log := after.log, commands := after.commands)
      && after.log == app.log + [Sent(rate, s, id)]
      && after.commands == app.commands + SendsOf(u, [Sent(rate, s, id)], stamp, cfg)
      && forall t: StreamId :: t != s ==> CounterOf(after.sequences, t) == CounterOf(app.sequences, t)
  {
    hide Packets.Serialize;
    assert [Sent(rate, s, id)][1..] == [];
  }

  lemma {:induction false} Tick60Exactly(app: App, u: Uuid, seen: seq<Polled>, c: Clock, start60: nat, start20: nat, cfg: Settings)
    requires EventsAgree(app, seen, cfg) && Runs.Invariant(app, start60, start20, cfg)
    requires app.unreliable.Some?
    ensures var after := Pace60(app, u, c, cfg);
      var x := Next(app.log, Hz60, app.unreliable.value);
      && EventsAgree(after, seen, cfg)
      && after.log == app.log + [x]
      && after.commands == app.commands + SendsOf(u, [x], c.stamp60, cfg)
      && after.needStop == app.needStop && (Due20(after, c.now) <==> Due20(app, c.now)) && after.reliable == app.reliable
      && (app.reliable.Some? ==>
            CounterOf(after.sequences, app.reliable.value) == |Runs.IdsOn(app.log, app.reliable.value)|)
  {
    hide Server, StartedAt, StreamOf, RecordsOf, Connects, Runs.Invariant, Runs.IdsOn, SendPacket, SendsOf, CounterOf;
    Counted(app, start60, start20, cfg);
    Distinct(app, start60, start20, cfg);
    var s := app.unreliable.value;
    SendExactly(app, u, s, Hz60, c.stamp60, cfg, |Runs.IdsOn(app.log, s)|);
  }

  lemma {:induction false} Tick20Exactly(app: App, u: Uuid, seen: seq<Polled>, c: Clock, cfg: Settings)
    requires EventsAgree(app, seen, cfg) && app.reliable.Some?
    ensures var after := Pace20(app, u, c, cfg);
      var x := Sent(Hz20, app.reliable.value, CounterOf(app.sequences, app.reliable.value));
      && EventsAgree(after, seen, cfg)
      && after.log == app.log + [x]
      && after.commands == app.commands + SendsOf(u, [x], c.stamp20, cfg)
      && after.needStop == app.needStop
  {
    hide Server, StartedAt, StreamOf, RecordsOf, Connects, SendPacket, SendsOf, CounterOf;
    var s := app.reliable.value;
    SendExactly(app, u, s, Hz20, c.stamp20, cfg, CounterOf(app.sequences, s));
  }

  lemma {:induction false} Firing(app: App, start60: nat, start20: nat, cfg: Settings, now: nat)
    requires Runs.Invariant(app, start60, start20, cfg)
    ensures Due60(app, now) <==> Fires60(start60, app.log, now)
    ensures Due20(app, now) <==> Fires20(start20, app.log, now)
  {
    hide Runs.Numbered, Runs.ClassesKept, Runs.SendsArePackets, Runs.Count;
  }

  lemma {:induction false} Distinct(app: App, start60: nat, start20: nat, cfg: Settings)
    requires Runs.Invariant(app, start60, start20, cfg)
    ensures app.unreliable.Some? && app.reliable.Some? ==> app.unreliable.value != app.reliable.value
  {
    hide Runs.Numbered, Runs.OnSchedule, Runs.SendsArePackets;
  }

  lemma {:induction false} Counted(app: App, start60: nat, start20: nat, cfg: Settings)
    requires Runs.Invariant(app, start60, start20, cfg)
    ensures forall s: StreamId :: |Runs.IdsOn(app.log, s)| == CounterOf(app.sequences, s)
  {
    hide Runs.OnSchedule, Runs.ClassesKept, Runs.SendsArePackets, CounterOf, Runs.IdsOn;
    forall s: StreamId ensures |Runs.IdsOn(app.log, s)| == CounterOf(app.sequences, s) {
      assert Runs.IdsOn(app.log, s) == Runs.UpTo(CounterOf(app.sequences, s));
    }
  }

  // ------------------------------------------------------------------
  // Every run
  // ------------------------------------------------------------------

  ghost predicate Agrees(app: App, start60: nat, start20: nat, rounds: seq<Runs.Round>, cfg: Settings) {
    && EventsAgree(app, Seen(rounds), cfg)
    && app.log == LogOf(start60, start20, rounds)
    && app.commands == CommandsOf(start60, start20, rounds, cfg)
    && (app.needStop <==> Stopping(rounds, cfg))
  }

  lemma {:induction false} RoundAgrees(app: App, start60: nat, start20: nat, rounds: seq<Runs.Round>, r: Runs.Round, cfg: Settings)
    requires Agrees(app, start60, start20, rounds, cfg) && Runs.Invariant(app, start60, start20, cfg)
    ensures var (after, stop) := Iterate(app, r.polled, r.clock, cfg);
      && Agrees(after, start60, start20, rounds + [r], cfg)
      && (stop <==> Stopping(rounds + [r], cfg)
                    && !CutShort(start60, start20, LogOf(start60, start20, rounds), Seen(rounds + [r]), r.clock.now))
  {
    hide EventsAgree, Runs.Invariant, Drain, Pace, Handled, HasDisconnect, TimeUp, CutShort, Sends60, Sends20, NewSends, StreamRequests, Connects, Server;
    assert (rounds + [r])[..|rounds|] == rounds;
    DrainAgrees(app, Seen(rounds), r.polled, cfg);
    Runs.DrainKeeps(app, r.polled, start60, start20, cfg);
    var mid := Drain(app, r.polled, cfg);
    PaceExactly(mid, Seen(rounds + [r]), r.clock, start60, start20, cfg);
  }

  lemma {:induction false} NothingYet(start60: nat, start20: nat, cfg: Settings)
    ensures Agrees(Start(start60, start20), start60, start20, [], cfg)
  {
  }

  lemma {:induction false} RunOfRound(start60: nat, start20: nat, rounds: seq<Runs.Round>, r: Runs.Round, cfg: Settings)
    ensures Runs.Run(start60, start20, rounds + [r], cfg)
         == Iterate(Runs.Run(start60, start20, rounds, cfg), r.polled, r.clock, cfg).0
  {
    hide Iterate;
    assert (rounds + [r])[..|rounds|] == rounds;
  }

  lemma {:induction false} RunAgrees(start60: nat, start20: nat, rounds: seq<Runs.Round>, cfg: Settings)
    ensures Agrees(Runs.Run(start60, start20, rounds, cfg), start60, start20, rounds, cfg)
  {
    if rounds == [] {
      NothingYet(start60, start20, cfg);
    } else {
      var init, r := rounds[..|rounds| - 1], rounds[|rounds| - 1];
      assert rounds == init + [r];
      RunOfRound(start60, start20, init, r, cfg);
      hide Agrees, Runs.Invariant, Iterate, Runs.Run;
      RunAgrees(start60, start20, init, cfg);
      Runs.RunKeeps(start60, start20, init, cfg);
      RoundAgrees(Runs.Run(start60, start20, init, cfg), start60, start20, init, r, cfg);
    }
  }

  // After any number of rounds: the connection and the two streams in use, the records, every
  // packet sent with its rate, stream and id, and every command given, in order.
  lemma {:induction false} RunMeaning(start60: nat, start20: nat, rounds: seq<Runs.Round>, cfg: Settings)
    ensures var app := Runs.Run(start60, start20, rounds, cfg);
      var seen := Seen(rounds);
      && app.server == Server(seen) && app.started == StartedAt(seen)
      && app.unreliable == StreamOf(seen, false) && app.reliable == StreamOf(seen, true)
      && app.records == RecordsOf(seen, cfg)
      && app.log == LogOf(start60, start20, rounds)
      && app.commands == CommandsOf(start60, start20, rounds, cfg)
  {
    hide Runs.Run, Server, StartedAt, StreamOf, RecordsOf, LogOf, CommandsOf, Stopping, Connects, Seen;
    RunAgrees(start60, start20, rounds, cfg);
  }

  // The loop is left at the end of a round exactly when by then a Disconnected was polled or
  // the time was found to be over, and no timer that fired in this round missed its stream.
  lemma {:induction false} LeftExactly(start60: nat, start20: nat, rounds: seq<Runs.Round>, r: Runs.Round, cfg: Settings)
    ensures Iterate(Runs.Run(start60, start20, rounds, cfg), r.polled, r.clock, cfg).1
       <==> Stopping(rounds + [r], cfg)
            && !CutShort(start60, start20, LogOf(start60, start20, rounds), Seen(rounds + [r]), r.clock.now)
  {
    hide Runs.Run, Iterate, Agrees, Runs.Invariant, Stopping, CutShort, LogOf, Seen;
    RunAgrees(start60, start20, rounds, cfg);
    Runs.RunKeeps(start60, start20, rounds, cfg);
    RoundAgrees(Runs.Run(start60, start20, rounds, cfg), start60, start20, rounds, r, cfg);
  }
}
