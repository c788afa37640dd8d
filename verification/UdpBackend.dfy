// The UDP backend: one socket, connections identified by a UUID that travels in every
// datagram, peers accepted on their first datagram and re-addressed on every later one.
module UdpBackend {
  import opened Bytes
  import opened Options
  import opened Sockets
  import opened Traces

  const HEADER_SIZE: nat := 18 // 16 bytes (UUID) + 2 bytes (stream id)
  const BUFFER_SIZE: nat := 2048

  datatype Datagram = Datagram(from: Addr, to: Addr, bytes: seq<byte>)

  // `bound` is whether a socket exists.
  datatype State = State(bound: bool, connections: map<Uuid, Addr>, known: map<Uuid, seq<StreamId>>)

  const INITIAL: State := State(false, map[], map[])

  // What drives the backend: commands, with what the operating system answers to them, and
  // datagrams as the 2048-byte receive buffer holds them.
  datatype Input =
    | Bind(ok: bool)
    | Connect(ok: bool, target: Option<Addr>, newUuid: Uuid)
    | Command(command: Sockets.Command)
    | Packet(buf: seq<byte>, from: Addr)

  // What a step posts to the game and hands to the socket.
  datatype Output = Output(entries: seq<Entry>, sent: seq<(Addr, seq<byte>)>)

  // ------------------------------------------------------------------
  // The wire format
  // ------------------------------------------------------------------

  function Frame(u: Uuid, s: StreamId, data: seq<byte>): (d: seq<byte>)
    ensures |d| == HEADER_SIZE + |data|
  {
    u + PutBe(2, s) + data
  }

  function HeaderUuid(d: seq<byte>): Uuid
    requires |d| >= HEADER_SIZE
  {
    d[..16]
  }

  function HeaderStream(d: seq<byte>): StreamId
    requires |d| >= HEADER_SIZE
  {
    Widths();
    GetBe(d[16..18])
  }

  // recv_from keeps what fits its buffer.
  function Received(d: seq<byte>): seq<byte> {
    if |d| <= BUFFER_SIZE then d else d[..BUFFER_SIZE]
  }

  // The part of a message that reaches the other side through the receive buffer.
  function Fitting(data: seq<byte>): (kept: seq<byte>)
    ensures kept <= data
  {
    if |data| <= BUFFER_SIZE - HEADER_SIZE then data else data[..BUFFER_SIZE - HEADER_SIZE]
  }

  lemma {:induction false} FrameReceived(u: Uuid, s: StreamId, data: seq<byte>)
    ensures var d := Received(Frame(u, s, data));
      |d| >= HEADER_SIZE && HeaderUuid(d) == u && HeaderStream(d) == s && d[HEADER_SIZE..] == Fitting(data)
  {
    hide PutBe, GetBe;
    var d := Received(Frame(u, s, data));
    assert d[16..18] == PutBe(2, s);
    Widths();
    GetPut(2, s);
  }

  // ------------------------------------------------------------------
  // One step, as a function
  // ------------------------------------------------------------------

  function Step(st: State, i: Input): (State, Output) {
    match i
    case Bind(ok) => (st.(bound := st.bound || ok), Output([], []))
    case Connect(ok, target, newUuid) =>
      var st' := st.(bound := st.bound || ok);
      if target.None? then (st', Output([], [])) else
      (st'.(connections := st.connections[newUuid := target.value]), Output([Network(Connected(newUuid))], []))
    case Command(c) => (st, CommandOutput(st, c))
    case Packet(buf, from) =>
      if |buf| < HEADER_SIZE then (st, Output([], [])) else PacketStep(st, buf, from)
  }

  function CommandOutput(st: State, c: Sockets.Command): Output {
    match c
    case Send(u, s, data) =>
      Output([], if st.bound && u in st.connections then [(st.connections[u], Frame(u, s, data))] else [])
    case CreateStream(u, n, r) => Output([Entry(FromCommand, StreamCreated(u, NewStream(n, r)))], [])
    case CloseStream(u, s) => Output([Entry(FromCommand, StreamClosed(u, s))], [])
  }

  function PacketStep(st: State, buf: seq<byte>, from: Addr): (State, Output)
    requires |buf| >= HEADER_SIZE
  {
    var u, s := HeaderUuid(buf), HeaderStream(buf);
    var streams := KnownOf(st.known, u);
    (State(st.bound, st.connections[u := from], st.known[u := Learn(streams, s)]),
     Output(Accept(st.connections, u) + Delivery(streams, u, s, buf[HEADER_SIZE..]), []))
  }

  function Accept(connections: map<Uuid, Addr>, u: Uuid): seq<Entry> {
    if u in connections then [] else [Network(Connected(u))]
  }

  // ------------------------------------------------------------------
  // The backend
  // ------------------------------------------------------------------

  class UdpBackend {
    var bound: bool
    var connections: map<Uuid, Addr>
    var known: map<Uuid, seq<StreamId>>
    ghost var trace: seq<Entry>
    ghost var sent: seq<(Addr, seq<byte>)>

    ghost function View(): State
      reads this
    {
      State(bound, connections, known)
    }

    constructor ()
      ensures View() == INITIAL && trace == [] && sent == []
    {
      bound, connections, known := false, map[], map[];
      trace, sent := [], [];
    }

    ghost method Post(origin: Origin, ev: Event)
      modifies this`trace
      ensures trace == old(trace) + [Entry(origin, ev)]
    {
      trace := trace + [Entry(origin, ev)];
    }

    method Bind(ok: bool)
      modifies this`bound
      ensures (View(), Output([], [])) == Step(old(View()), Input.Bind(ok))
    {
      if !bound {
        bound := ok;
      }
    }

    method Connect(ok: bool, target: Option<Addr>, newUuid: Uuid)
      modifies this`bound, this`connections, this`trace
      ensures var (st, out) := Step(old(View()), Input.Connect(ok, target, newUuid));
        View() == st && trace == old(trace) + out.entries
    {
      if !bound {
        bound := ok;
      }
      if target.Some? {
        connections := connections[newUuid := target.value];
        Post(FromNetwork, Connected(newUuid));
      }
    }

    method ProcessCommand(c: Sockets.Command)
      modifies this`trace, this`sent
      ensures var (st, out) := Step(old(View()), Command(c));
        View() == st && trace == old(trace) + out.entries && sent == old(sent) + out.sent
    {
      match c
      case Send(u, s, data) =>
        if bound && u in connections {
          var packet: seq<byte> := [];
          packet := packet + u;
          packet := packet + PutBe(2, s);
          packet := packet + data;
          assert packet == Frame(u, s, data);
          sent := sent + [(connections[u], packet)];
        }
      case CreateStream(u, n, r) =>
        Post(FromCommand, StreamCreated(u, NewStream(n, r)));
      case CloseStream(u, s) =>
        Post(FromCommand, StreamClosed(u, s));
    }

    method ProcessPacket(buf: seq<byte>, from: Addr)
      modifies this`connections, this`known, this`trace
      ensures var (st, out) := Step(old(View()), Packet(buf, from));
        View() == st && trace == old(trace) + out.entries
      ensures connections == if |buf| >= 18 then old(connections)[buf[..16] := from] else old(connections)
    {
      hide GetBe, PutBe, NewStream, CommandOutput, Accept, Announce;
      if |buf| < HEADER_SIZE {
        return;
      }
      var u, s := HeaderUuid(buf), HeaderStream(buf);
      ghost var st := View();
      AcceptOrReaddress(u, from);
      AnnounceOnce(u, s);
      Post(FromNetwork, Message(u, s, buf[HEADER_SIZE..]));
      assert trace == old(trace) + (Accept(st.connections, u)
                                    + Delivery(KnownOf(st.known, u), u, s, buf[HEADER_SIZE..]));
    }

    method AcceptOrReaddress(u: Uuid, from: Addr)
      modifies this`connections, this`trace
      ensures connections == old(connections)[u := from]
      ensures trace == old(trace) + Accept(old(connections), u)
    {
      if u !in connections {
        connections := connections[u := from];
        Post(FromNetwork, Connected(u));
      } else if connections[u] != from {
        connections := connections[u := from];
      }
    }

    method AnnounceOnce(u: Uuid, s: StreamId)
      modifies this`known, this`trace
      ensures known == old(known)[u := Learn(KnownOf(old(known), u), s)]
      ensures trace == old(trace) + Announce(KnownOf(old(known), u), u, s)
    {
      if u !in known {
        known := known[u := []];
      }
      if s !in known[u] {
        known := known[u := known[u] + [s]];
        Post(FromNetwork, StreamCreated(u, s));
      }
    }
  }

  // ------------------------------------------------------------------
  // Runs
  // ------------------------------------------------------------------

  datatype Log = Log(state: State, trace: seq<Entry>)

  function Run(inputs: seq<Input>): Log {
    if inputs == [] then Log(INITIAL, []) else
    var before := Run(inputs[..|inputs| - 1]);
    var (st, out) := Step(before.state, inputs[|inputs| - 1]);
    Log(st, before.trace + out.entries)
  }

  // Every Connect draws a UUID that is not in use.
  ghost predicate FreshUuids(inputs: seq<Input>) {
    forall k :: 0 <= k < |inputs| && inputs[k].Connect? && inputs[k].target.Some?
      ==> inputs[k].newUuid !in Run(inputs[..k]).state.connections
  }

  // The tables say exactly what the trace says about u.
  ghost predicate SummaryOf(st: State, trace: seq<Entry>, u: Uuid) {
    match PhaseOf(trace, u)
    case Fresh => u !in st.connections && u !in st.known && FirstArrivals(trace, u) == []
    case Open(streams) => u in st.connections && KnownOf(st.known, u) == streams == FirstArrivals(trace, u)
    case _ => false
  }

  ghost predicate Summary(log: Log) {
    forall u: Uuid :: SummaryOf(log.state, log.trace, u)
  }

  // For every interleaving of commands and datagrams, in any order and of any content.
  lemma {:induction false} StateIsSummaryOfTrace(inputs: seq<Input>)
    requires FreshUuids(inputs)
    ensures Summary(Run(inputs))
  {
    if inputs != [] {
      var init, i := inputs[..|inputs| - 1], inputs[|inputs| - 1];
      forall k | 0 <= k < |init| && init[k].Connect? && init[k].target.Some?
        ensures init[k].newUuid !in Run(init[..k]).state.connections
      {
        assert init[..k] == inputs[..k] && init[k] == inputs[k];
      }
      StateIsSummaryOfTrace(init);
      StepKeepsSummary(Run(init), i);
    }
  }

  lemma {:induction false} StepKeepsSummary(log: Log, i: Input)
    requires Summary(log)
    requires i.Connect? && i.target.Some? ==> i.newUuid !in log.state.connections
    ensures var (st, out) := Step(log.state, i); Summary(Log(st, log.trace + out.entries))
  {
    hide PacketStep, PhaseOf, FirstArrivals;
    var (st, out) := Step(log.state, i);
    forall u: Uuid ensures SummaryOf(st, log.trace + out.entries, u) {
      assert SummaryOf(log.state, log.trace, u);
      if i.Packet? && |i.buf| >= HEADER_SIZE {
        PacketKeepsSummary(log, i.buf, i.from, u);
      } else if out.entries == [] {
        assert log.trace + out.entries == log.trace;
      } else {
        PhaseSnoc(log.trace, out.entries[0], u);
      }
    }
  }

  lemma {:induction false} PacketKeepsSummary(log: Log, buf: seq<byte>, from: Addr, u: Uuid)
    requires |buf| >= HEADER_SIZE && Summary(log)
    ensures var (st, out) := PacketStep(log.state, buf, from); SummaryOf(st, log.trace + out.entries, u)
  {
    hide PhaseOf, FirstArrivals, GetBe;
    assert SummaryOf(log.state, log.trace, u) && SummaryOf(log.state, log.trace, HeaderUuid(buf));
    var v, s, data := HeaderUuid(buf), HeaderStream(buf), buf[HEADER_SIZE..];
    var accept := Accept(log.state.connections, v);
    var streams := KnownOf(log.state.known, v);
    var t := log.trace + accept;
    assert log.trace + PacketStep(log.state, buf, from).1.entries == t + Delivery(streams, v, s, data);
    if accept == [] {
      assert t == log.trace;
    } else {
      PhaseSnoc(log.trace, accept[0], u);
      PhaseSnoc(log.trace, accept[0], v);
    }
    DeliveryPhase(t, v, s, data, u);
  }

  // The same in terms of positions in the trace: the connections are the UUIDs that were
  // announced as connected, each announced once; a stream is known exactly when it was
  // announced, each once; every message comes after both announcements.
  lemma {:induction false} TraceOfRun(inputs: seq<Input>, u: Uuid)
    requires FreshUuids(inputs)
    ensures var Log(st, trace) := Run(inputs);
      && (u in st.connections <==> Occurs(trace, Connected(u)))
      && (forall s :: s in KnownOf(st.known, u) <==> Occurs(trace, StreamCreated(u, s)))
      && NoRepeats(KnownOf(st.known, u))
      && !Occurs(trace, Disconnected(u))
      && (forall i, j :: 0 <= i < j < |trace| && Concerns(trace[i], u) && Concerns(trace[j], u)
            ==> !trace[j].event.Connected? && (trace[j].event.StreamCreated? ==> trace[j].event != trace[i].event))
      && (forall k :: 0 <= k < |trace| && Concerns(trace[k], u) && trace[k].event.Message?
            ==> exists i, j :: (0 <= i < j < k && At(trace, i, Connected(u))
                                && At(trace, j, StreamCreated(u, trace[k].event.stream))))
  {
    hide Step, FirstArrivals;
    StateIsSummaryOfTrace(inputs);
    var Log(st, trace) := Run(inputs);
    assert SummaryOf(st, trace, u);
    PhaseFacts(trace, u);
    if PhaseOf(trace, u).Fresh? {
      NothingOccurred(trace, Connected(u));
      forall s ensures !Occurs(trace, StreamCreated(u, s)) {
        NothingOccurred(trace, StreamCreated(u, s));
      }
    } else {
      StreamsDistinctInPhase(trace, u);
    }
    forall i, j | 0 <= i < j < |trace| && Concerns(trace[i], u) && Concerns(trace[j], u)
      ensures !trace[j].event.Connected? && (trace[j].event.StreamCreated? ==> trace[j].event != trace[i].event)
    {
      EventsUnique(trace, u, i, j);
    }
    forall k | 0 <= k < |trace| && Concerns(trace[k], u) && trace[k].event.Message?
      ensures exists i, j :: (0 <= i < j < k && At(trace, i, Connected(u))
                              && At(trace, j, StreamCreated(u, trace[k].event.stream)))
    {
      MessagePreceded(trace, u, k);
    }
  }

  // A Connect that draws a UUID already in use breaks the summary, and only such a one does.
  lemma {:induction false} FreshnessIsNeeded(log: Log, ok: bool, target: Addr, u: Uuid)
    requires Summary(log)
    ensures var (st, out) := Step(log.state, Connect(ok, Some(target), u));
      Summary(Log(st, log.trace + out.entries)) <==> u !in log.state.connections
  {
    var (st, out) := Step(log.state, Connect(ok, Some(target), u));
    assert SummaryOf(log.state, log.trace, u);
    if u in log.state.connections {
      PhaseSnoc(log.trace, Network(Connected(u)), u);
      assert !SummaryOf(st, log.trace + out.entries, u);
    } else {
      StepKeepsSummary(log, Connect(ok, Some(target), u));
    }
  }
}
