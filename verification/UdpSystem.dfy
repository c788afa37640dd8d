// Clients, a lossy datagram network and the echo server as one transition system.
//
// The network remembers every datagram ever sent; delivering picks any of them. So a
// datagram may be lost (never picked), duplicated (picked again) or overtaken.
module UdpSystem {
  import opened Bytes
  import opened Options
  import opened Sockets
  import opened Traces
  import opened Records
  import opened BenchmarkClient
  import Udp = UdpBackend
  import Packets = BenchmarkPacket
  import Echo = EchoServer
  import Runs = ClientRuns

  // Fixed addresses, and what each client was started with.
  datatype World = World(server: Addr, addrs: seq<Addr>, cfgs: seq<Settings>) {
    ghost predicate Valid() {
      |cfgs| == |addrs| && NoRepeats(addrs) && server !in addrs
    }
  }

  // A client process. `posted` is everything its backend ever put in the event channel, of
  // which the game has polled the first `polled`; of the game's commands the backend has
  // executed the first `executed`.
  datatype Client = Client(
    uuid: Option<Uuid>, start60: nat, start20: nat,
    backend: Udp.State, posted: seq<Entry>, polled: nat, app: App, executed: nat)

  datatype Server = Server(
    backend: Udp.State, posted: seq<Entry>, polled: nat, replies: seq<Command>, executed: nat)

  datatype System = System(clients: seq<Client>, server: Server, net: set<Udp.Datagram>)

  datatype Label =
    | ClientConnect(i: nat, newUuid: Uuid)
    | ClientPoll(i: nat, now: nat, wall: nat)
    | ClientPace(i: nat, clock: Clock)
    | ClientExecute(i: nat)
    | ClientReceive(i: nat, d: Udp.Datagram)
    | ServerReceive(d: Udp.Datagram)
    | ServerPoll
    | ServerExecute

  // ------------------------------------------------------------------
  // Steps
  // ------------------------------------------------------------------

  function InitialClient(start60: nat, start20: nat): Client {
    Client(None, start60, start20, Udp.INITIAL, [], 0, Start(start60, start20), 0)
  }

  // The server has executed its Bind.
  function InitialServer(): Server {
    Server(Udp.State(true, map[], map[]), [], 0, [], 0)
  }

  // Each client's clocks may start anywhere.
  ghost predicate Initial(w: World, sys: System) {
    && w.Valid() && |sys.clients| == |w.addrs|
    && sys.server == InitialServer() && sys.net == {}
    && forall i :: 0 <= i < |sys.clients| ==>
         sys.clients[i] == InitialClient(sys.clients[i].start60, sys.clients[i].start20)
  }

  function Datagrams(from: Addr, sent: seq<(Addr, seq<byte>)>): set<Udp.Datagram> {
    set m | m in sent :: Udp.Datagram(from, m.0, m.1)
  }

  // A client's backend takes one step; what it sends leaves from the client's address.
  function Drive(c: Client, input: Udp.Input): (Client, seq<(Addr, seq<byte>)>) {
    var (backend, out) := Udp.Step(c.backend, input);
    (c.(backend := backend, posted := c.posted + out.entries), out.sent)
  }

  function DriveServer(s: Server, input: Udp.Input): (Server, seq<(Addr, seq<byte>)>) {
    var (backend, out) := Udp.Step(s.backend, input);
    (s.(backend := backend, posted := s.posted + out.entries), out.sent)
  }

  function WithClient(w: World, sys: System, i: nat, step: (Client, seq<(Addr, seq<byte>)>)): System
    requires i < |sys.clients| == |w.addrs|
  {
    System(sys.clients[i := step.0], sys.server, sys.net + Datagrams(w.addrs[i], step.1))
  }

  function WithServer(w: World, sys: System, step: (Server, seq<(Addr, seq<byte>)>)): System {
    System(sys.clients, step.0, sys.net + Datagrams(w.server, step.1))
  }

  function ReplyList(ev: Event): seq<Command> {
    match Echo.Reply(ev)
    case None => []
    case Some(c) => [c]
  }

  ghost predicate Enabled(w: World, sys: System, l: Label)
    requires |sys.clients| == |w.addrs| == |w.cfgs|
  {
    match l
    case ClientConnect(i, u) => i < |sys.clients| && sys.clients[i].uuid.None? && Unused(sys.clients, u)
    case ClientPoll(i, _, _) => i < |sys.clients| && sys.clients[i].polled < |sys.clients[i].posted|
    case ClientPace(i, _) => i < |sys.clients|
    case ClientExecute(i) => i < |sys.clients| && sys.clients[i].executed < |sys.clients[i].app.commands|
    case ClientReceive(i, d) => i < |sys.clients| && d in sys.net && d.to == w.addrs[i]
    case ServerReceive(d) => d in sys.net && d.to == w.server
    case ServerPoll => sys.server.polled < |sys.server.posted|
    case ServerExecute => sys.server.executed < |sys.server.replies|
  }

  ghost predicate Unused(clients: seq<Client>, u: Uuid) {
    forall j :: 0 <= j < |clients| ==> clients[j].uuid != Some(u)
  }

  function ConnectStep(w: World, c: Client, u: Uuid): (Client, seq<(Addr, seq<byte>)>) {
    Drive(c.(uuid := Some(u)), Udp.Connect(true, Some(w.server), u))
  }

  function PollStep(c: Client, now: nat, wall: nat, cfg: Settings): Client
    requires c.polled < |c.posted|
  {
    c.(app := OnEvent(c.app, Polled(c.posted[c.polled].event, now, wall), cfg), polled := c.polled + 1)
  }

  function PaceStep(c: Client, clock: Clock, cfg: Settings): Client {
    c.(app := Pace(c.app, clock, cfg).0)
  }

  function ExecuteStep(c: Client): (Client, seq<(Addr, seq<byte>)>)
    requires c.executed < |c.app.commands|
  {
    Drive(c.(executed := c.executed + 1), Udp.Command(c.app.commands[c.executed]))
  }

  function ReceiveStep(c: Client, d: Udp.Datagram): (Client, seq<(Addr, seq<byte>)>) {
    Drive(c, Udp.Packet(Udp.Received(d.bytes), d.from))
  }

  function ServerReceiveStep(s: Server, d: Udp.Datagram): (Server, seq<(Addr, seq<byte>)>) {
    DriveServer(s, Udp.Packet(Udp.Received(d.bytes), d.from))
  }

  function ServerPollStep(s: Server): Server
    requires s.polled < |s.posted|
  {
    s.(polled := s.polled + 1, replies := s.replies + ReplyList(s.posted[s.polled].event))
  }

  function ServerExecuteStep(s: Server): (Server, seq<(Addr, seq<byte>)>)
    requires s.executed < |s.replies|
  {
    DriveServer(s.(executed := s.executed + 1), Udp.Command(s.replies[s.executed]))
  }

  ghost function Next(w: World, sys: System, l: Label): System
    requires |sys.clients| == |w.addrs| == |w.cfgs| && Enabled(w, sys, l)
  {
    match l
    case ClientConnect(i, u) => WithClient(w, sys, i, ConnectStep(w, sys.clients[i], u))
    case ClientPoll(i, now, wall) => WithClient(w, sys, i, (PollStep(sys.clients[i], now, wall, w.cfgs[i]), []))
    case ClientPace(i, clock) => WithClient(w, sys, i, (PaceStep(sys.clients[i], clock, w.cfgs[i]), []))
    case ClientExecute(i) => WithClient(w, sys, i, ExecuteStep(sys.clients[i]))
    case ClientReceive(i, d) => WithClient(w, sys, i, ReceiveStep(sys.clients[i], d))
    case ServerReceive(d) => WithServer(w, sys, ServerReceiveStep(sys.server, d))
    case ServerPoll => WithServer(w, sys, (ServerPollStep(sys.server), []))
    case ServerExecute => WithServer(w, sys, ServerExecuteStep(sys.server))
  }

  // A run: each state follows from the one before by the label between them.
  ghost predicate IsRun(w: World, run: seq<System>, labels: seq<Label>) {
    && |run| == |labels| + 1
    && Initial(w, run[0])
    && forall k :: 0 <= k < |labels| ==> IsStep(w, run[k], labels[k], run[k + 1])
  }

  ghost predicate IsStep(w: World, sys: System, l: Label, sys': System) {
    |sys.clients| == |w.addrs| == |w.cfgs| && Enabled(w, sys, l) && sys' == Next(w, sys, l)
  }

  // ------------------------------------------------------------------
  // Provenance
  // ------------------------------------------------------------------

  // The game of client c called Send with these arguments.
  ghost predicate Passed(c: Client, u: Uuid, s: StreamId, data: seq<byte>) {
    exists k :: 0 <= k < |c.app.commands| && c.app.commands[k] == Send(u, s, data)
  }

  // The bytes are what a 2048-byte receive buffer keeps of something the client passed to
  // Send under its own UUID u.
  ghost predicate From(c: Client, u: Uuid, s: StreamId, kept: seq<byte>) {
    c.uuid == Some(u) && exists data :: Passed(c, u, s, data) && kept == Udp.Fitting(data)
  }

  ghost predicate FromOwner(clients: seq<Client>, u: Uuid, s: StreamId, kept: seq<byte>) {
    exists i :: 0 <= i < |clients| && From(clients[i], u, s, kept)
  }

  // A datagram on its way from client c to the server, or back.
  ghost predicate Request(w: World, c: Client, addr: Addr, d: Udp.Datagram) {
    c.uuid.Some? && exists s, data ::
      Passed(c, c.uuid.value, s, data) && d == Udp.Datagram(addr, w.server, Udp.Frame(c.uuid.value, s, data))
  }

  ghost predicate Answer(w: World, c: Client, addr: Addr, d: Udp.Datagram) {
    c.uuid.Some? && exists s, kept ::
      From(c, c.uuid.value, s, kept) && d == Udp.Datagram(w.server, addr, Udp.Frame(c.uuid.value, s, kept))
  }

  ghost predicate Explained(w: World, clients: seq<Client>, d: Udp.Datagram)
    requires |clients| == |w.addrs|
  {
    exists i :: 0 <= i < |clients| && (Request(w, clients[i], w.addrs[i], d) || Answer(w, clients[i], w.addrs[i], d))
  }

  // ------------------------------------------------------------------
  // The invariant
  // ------------------------------------------------------------------

  // A client's backend knows one connection, its own, and always sends it to the server.
  ghost predicate BackendOk(w: World, c: Client) {
    match c.uuid
    case None => c.backend.connections == map[]
    case Some(u) => c.backend.connections == map[u := w.server]
  }

  ghost predicate PostedOk(c: Client) {
    forall k :: 0 <= k < |c.posted| && c.posted[k].event.Message? ==>
      From(c, c.posted[k].event.connection, c.posted[k].event.stream, c.posted[k].event.data)
  }

  ghost predicate MadeFrom(r: Record, data: seq<byte>) {
    Packets.Parse(data).Some? && r == RecordOf(r.streamId, Packets.Parse(data).value, r.recvTimestamp)
  }

  // A record was made from a packet that the client sent on that stream.
  ghost predicate RecordOk(c: Client, r: Record) {
    exists u: Uuid, data: seq<byte> :: Passed(c, u, r.streamId, data) && MadeFrom(r, Udp.Fitting(data))
  }

  ghost predicate RecordsOk(c: Client) {
    forall k :: 0 <= k < |c.app.records| ==> RecordOk(c, c.app.records[k])
  }

  ghost predicate ClientOk(w: World, c: Client, cfg: Settings) {
    && BackendOk(w, c) && PostedOk(c) && RecordsOk(c)
    && Runs.Invariant(c.app, c.start60, c.start20, cfg)
  }

  ghost predicate UuidsDistinct(clients: seq<Client>) {
    forall i, j :: 0 <= i < j < |clients| && clients[i].uuid.Some? ==> clients[i].uuid != clients[j].uuid
  }

  ghost predicate Owns(w: World, clients: seq<Client>, u: Uuid, addr: Addr)
    requires |clients| == |w.addrs|
  {
    exists i :: 0 <= i < |clients| && clients[i].uuid == Some(u) && addr == w.addrs[i]
  }

  ghost predicate ServerOk(w: World, clients: seq<Client>, s: Server)
    requires |clients| == |w.addrs|
  {
    && (forall u :: u in s.backend.connections ==> Owns(w, clients, u, s.backend.connections[u]))
    && (forall k :: 0 <= k < |s.posted| && s.posted[k].event.Message? ==>
          FromOwner(clients, s.posted[k].event.connection, s.posted[k].event.stream, s.posted[k].event.data))
    && (forall k :: 0 <= k < |s.replies| ==>
          s.replies[k].Send? && FromOwner(clients, s.replies[k].connection, s.replies[k].stream, s.replies[k].data))
  }

  ghost predicate NetOk(w: World, clients: seq<Client>, net: set<Udp.Datagram>)
    requires |clients| == |w.addrs|
  {
    forall d :: d in net ==> Explained(w, clients, d)
  }

  ghost predicate Inv(w: World, sys: System) {
    && w.Valid() && |sys.clients| == |w.addrs|
    && UuidsDistinct(sys.clients)
    && (forall i :: 0 <= i < |sys.clients| ==> ClientOk(w, sys.clients[i], w.cfgs[i]))
    && ServerOk(w, sys.clients, sys.server)
    && NetOk(w, sys.clients, sys.net)
  }

  // ------------------------------------------------------------------
  // What has been passed to Send stays passed
  // ------------------------------------------------------------------

  ghost predicate Grows(c: Client, c': Client) {
    && (c.uuid.Some? ==> c'.uuid == c.uuid)
    && c.app.commands <= c'.app.commands
  }

  lemma {:induction false} PassedGrows(c: Client, c': Client, u: Uuid, s: StreamId, data: seq<byte>)
    requires Grows(c, c') && Passed(c, u, s, data)
    ensures Passed(c', u, s, data)
  {
    var k :| 0 <= k < |c.app.commands| && c.app.commands[k] == Send(u, s, data);
    assert c'.app.commands[k] == Send(u, s, data);
  }

  lemma {:induction false} FromGrows(c: Client, c': Client, u: Uuid, s: StreamId, kept: seq<byte>)
    requires Grows(c, c') && From(c, u, s, kept)
    ensures From(c', u, s, kept)
  {
    hide Passed;
    var data :| Passed(c, u, s, data) && kept == Udp.Fitting(data);
    PassedGrows(c, c', u, s, data);
  }

  lemma {:induction false} ExplainedGrows(w: World, c: Client, c': Client, addr: Addr, d: Udp.Datagram)
    requires Grows(c, c')
    ensures Request(w, c, addr, d) ==> Request(w, c', addr, d)
    ensures Answer(w, c, addr, d) ==> Answer(w, c', addr, d)
  {
    hide Passed, From, Udp.Frame;
    if Request(w, c, addr, d) {
      var u := c.uuid.value;
      var s, data :| Passed(c, u, s, data) && d == Udp.Datagram(addr, w.server, Udp.Frame(u, s, data));
      PassedGrows(c, c', u, s, data);
    }
    if Answer(w, c, addr, d) {
      var u := c.uuid.value;
      var s, kept :| From(c, u, s, kept) && d == Udp.Datagram(w.server, addr, Udp.Frame(u, s, kept));
      FromGrows(c, c', u, s, kept);
    }
  }

  lemma {:induction false} OwnerGrows(clients: seq<Client>, i: nat, c': Client, u: Uuid, s: StreamId, kept: seq<byte>)
    requires i < |clients| && Grows(clients[i], c') && FromOwner(clients, u, s, kept)
    ensures FromOwner(clients[i := c'], u, s, kept)
  {
    hide From;
    var j :| 0 <= j < |clients| && From(clients[j], u, s, kept);
    if j == i {
      FromGrows(clients[i], c', u, s, kept);
    }
    assert From(clients[i := c'][j], u, s, kept);
  }

  lemma {:induction false} ServerOkGrows(w: World, clients: seq<Client>, i: nat, c': Client, server: Server)
    requires i < |clients| == |w.addrs| && Grows(clients[i], c') && ServerOk(w, clients, server)
    ensures ServerOk(w, clients[i := c'], server)
  {
    hide FromOwner;
    var after := clients[i := c'];
    forall u | u in server.backend.connections ensures Owns(w, after, u, server.backend.connections[u]) {
      var j :| 0 <= j < |clients| && clients[j].uuid == Some(u) && server.backend.connections[u] == w.addrs[j];
      assert after[j].uuid == Some(u);
    }
    forall k | 0 <= k < |server.posted| && server.posted[k].event.Message?
      ensures FromOwner(after, server.posted[k].event.connection, server.posted[k].event.stream, server.posted[k].event.data)
    {
      var e := server.posted[k].event;
      OwnerGrows(clients, i, c', e.connection, e.stream, e.data);
    }
    forall k | 0 <= k < |server.replies|
      ensures FromOwner(after, server.replies[k].connection, server.replies[k].stream, server.replies[k].data)
    {
      var c := server.replies[k];
      OwnerGrows(clients, i, c', c.connection, c.stream, c.data);
    }
  }

  lemma {:induction false} NetOkGrows(w: World, clients: seq<Client>, i: nat, c': Client, net: set<Udp.Datagram>)
    requires i < |clients| == |w.addrs| && Grows(clients[i], c') && NetOk(w, clients, net)
    ensures NetOk(w, clients[i := c'], net)
  {
    hide Request, Answer;
    var after := clients[i := c'];
    forall d | d in net ensures Explained(w, after, d) {
      var j :| 0 <= j < |clients| && (Request(w, clients[j], w.addrs[j], d) || Answer(w, clients[j], w.addrs[j], d));
      ExplainedGrows(w, clients[i], c', w.addrs[i], d);
      assert Request(w, after[j], w.addrs[j], d) || Answer(w, after[j], w.addrs[j], d);
    }
  }

  // A client step keeps the invariant if the client stays in order and its datagrams are
  // requests of its own.
  lemma {:induction false} ClientStepKeeps(w: World, sys: System, i: nat, step: (Client, seq<(Addr, seq<byte>)>))
    requires Inv(w, sys) && i < |sys.clients|
    requires Grows(sys.clients[i], step.0) && ClientOk(w, step.0, w.cfgs[i])
    requires step.0.uuid == sys.clients[i].uuid
          || (step.0.uuid.Some? && Unused(sys.clients, step.0.uuid.value))
    requires forall d :: d in Datagrams(w.addrs[i], step.1) ==> Request(w, step.0, w.addrs[i], d)
    ensures Inv(w, WithClient(w, sys, i, step))
  {
    hide ClientOk, ServerOk, Request, Answer, Datagrams;
    var after := sys.clients[i := step.0];
    ServerOkGrows(w, sys.clients, i, step.0, sys.server);
    NetOkGrows(w, sys.clients, i, step.0, sys.net);
    forall d | d in Datagrams(w.addrs[i], step.1) ensures Explained(w, after, d) {
      assert Request(w, after[i], w.addrs[i], d);
    }
  }

  lemma {:induction false} ServerStepKeeps(w: World, sys: System, step: (Server, seq<(Addr, seq<byte>)>))
    requires Inv(w, sys)
    requires ServerOk(w, sys.clients, step.0)
    requires forall d :: d in Datagrams(w.server, step.1) ==> Explained(w, sys.clients, d)
    ensures Inv(w, WithServer(w, sys, step))
  {
    hide ClientOk, ServerOk, Explained, Datagrams;
  }

  // ------------------------------------------------------------------
  // Client steps
  // ------------------------------------------------------------------

  // Growing commands and nothing else keeps what was posted and recorded explained.
  lemma {:induction false} CarryPosted(c: Client, c': Client)
    requires PostedOk(c) && Grows(c, c') && c'.posted == c.posted
    ensures PostedOk(c')
  {
    hide From;
    forall k | 0 <= k < |c'.posted| && c'.posted[k].event.Message?
      ensures From(c', c'.posted[k].event.connection, c'.posted[k].event.stream, c'.posted[k].event.data)
    {
      var e := c.posted[k].event;
      FromGrows(c, c', e.connection, e.stream, e.data);
    }
  }

  lemma {:induction false} RecordGrows(c: Client, c': Client, r: Record)
    requires Grows(c, c') && RecordOk(c, r)
    ensures RecordOk(c', r)
  {
    hide Passed, MadeFrom;
    var u: Uuid, data: seq<byte> :| Passed(c, u, r.streamId, data) && MadeFrom(r, Udp.Fitting(data));
    PassedGrows(c, c', u, r.streamId, data);
  }

  lemma {:induction false} CarryRecords(c: Client, c': Client)
    requires RecordsOk(c) && Grows(c, c') && c'.app.records == c.app.records
    ensures RecordsOk(c')
  {
    hide RecordOk;
    forall k | 0 <= k < |c'.app.records| ensures RecordOk(c', c'.app.records[k]) {
      RecordGrows(c, c', c.app.records[k]);
    }
  }

  // A backend step that posts no message keeps the client in order.
  lemma {:induction false} CarryDriven(w: World, c: Client, c': Client, cfg: Settings, entries: seq<Entry>)
    requires ClientOk(w, c, cfg) && c'.app == c.app && c'.start60 == c.start60 && c'.start20 == c.start20
    requires c.uuid.Some? ==> c'.uuid == c.uuid
    requires BackendOk(w, c') && c'.posted == c.posted + entries
    requires forall k :: 0 <= k < |entries| && entries[k].event.Message? ==>
      From(c', entries[k].event.connection, entries[k].event.stream, entries[k].event.data)
    ensures ClientOk(w, c', cfg) && Grows(c, c')
  {
    hide From, Runs.Invariant, BackendOk, RecordsOk;
    CarryRecords(c, c');
    forall k | 0 <= k < |c'.posted| && c'.posted[k].event.Message?
      ensures From(c', c'.posted[k].event.connection, c'.posted[k].event.stream, c'.posted[k].event.data)
    {
      if k < |c.posted| {
        var e := c.posted[k].event;
        FromGrows(c, c', e.connection, e.stream, e.data);
      } else {
        assert c'.posted[k] == entries[k - |c.posted|];
      }
    }
  }

  lemma {:induction false} ConnectKeeps(w: World, sys: System, i: nat, u: Uuid)
    requires Inv(w, sys) && Enabled(w, sys, ClientConnect(i, u))
    ensures Inv(w, Next(w, sys, ClientConnect(i, u)))
  {
    hide Inv;
    var c := sys.clients[i];
    var step := ConnectStep(w, c, u);
    InvClient(w, sys, i);
    CarryDriven(w, c, step.0, w.cfgs[i], [Network(Connected(u))]);
    ClientStepKeeps(w, sys, i, step);
  }

  lemma {:induction false} InvClient(w: World, sys: System, i: nat)
    requires Inv(w, sys) && i < |sys.clients|
    ensures |sys.clients| == |w.addrs| == |w.cfgs| && ClientOk(w, sys.clients[i], w.cfgs[i])
  {
  }

  lemma {:induction false} PaceStepKeeps(w: World, sys: System, i: nat, clock: Clock)
    requires Inv(w, sys) && Enabled(w, sys, ClientPace(i, clock))
    ensures Inv(w, Next(w, sys, ClientPace(i, clock)))
  {
    hide Inv, Pace, Runs.Invariant, PostedOk, RecordsOk;
    InvClient(w, sys, i);
    var c := sys.clients[i];
    var c' := PaceStep(c, clock, w.cfgs[i]);
    Runs.PaceKeeps(c.app, clock, c.start60, c.start20, w.cfgs[i]);
    PaceGrows(c.app, clock, w.cfgs[i]);
    CarryPosted(c, c');
    CarryRecords(c, c');
    ClientStepKeeps(w, sys, i, (c', []));
  }

  lemma {:induction false} PaceGrows(app: App, clock: Clock, cfg: Settings)
    ensures var after := Pace(app, clock, cfg).0; app.commands <= after.commands && after.records == app.records
  {
    hide PacketData;
  }

  lemma {:induction false} PollStepKeeps(w: World, sys: System, i: nat, now: nat, wall: nat)
    requires Inv(w, sys) && Enabled(w, sys, ClientPoll(i, now, wall))
    ensures Inv(w, Next(w, sys, ClientPoll(i, now, wall)))
  {
    hide Inv, OnEvent, Runs.Invariant, PostedOk, RecordsOk;
    InvClient(w, sys, i);
    var c := sys.clients[i];
    var e := Polled(c.posted[c.polled].event, now, wall);
    var c' := PollStep(c, now, wall, w.cfgs[i]);
    Runs.EventKeeps(c.app, e, c.start60, c.start20, w.cfgs[i]);
    PollRecords(c, now, wall, w.cfgs[i]);
    CarryPosted(c, c');
    ClientStepKeeps(w, sys, i, (c', []));
  }

  lemma {:induction false} PollRecords(c: Client, now: nat, wall: nat, cfg: Settings)
    requires c.polled < |c.posted| && PostedOk(c) && RecordsOk(c)
    ensures var c' := PollStep(c, now, wall, cfg); Grows(c, c') && RecordsOk(c')
  {
    hide RecordOk, Packets.Parse, Udp.Fitting;
    var c' := PollStep(c, now, wall, cfg);
    var ev := c.posted[c.polled].event;
    assert Grows(c, c');
    forall k | 0 <= k < |c'.app.records| ensures RecordOk(c', c'.app.records[k]) {
      var r := c'.app.records[k];
      if k < |c.app.records| {
        assert r == c.app.records[k];
        RecordGrows(c, c', r);
      } else {
        assert ev.Message? && From(c, ev.connection, ev.stream, ev.data);
        MessageRecord(c, ev.connection, ev.data, r);
        RecordGrows(c, c', r);
      }
    }
  }

  lemma {:induction false} MessageRecord(c: Client, u: Uuid, kept: seq<byte>, r: Record)
    requires From(c, u, r.streamId, kept) && MadeFrom(r, kept)
    ensures RecordOk(c, r)
  {
    hide Passed, MadeFrom, Udp.Fitting;
    var data :| Passed(c, u, r.streamId, data) && kept == Udp.Fitting(data);
    assert Passed(c, u, r.streamId, data) && MadeFrom(r, Udp.Fitting(data));
  }

  lemma {:induction false} ExecuteKeeps(w: World, sys: System, i: nat)
    requires Inv(w, sys) && Enabled(w, sys, ClientExecute(i))
    ensures Inv(w, Next(w, sys, ClientExecute(i)))
  {
    hide Inv, Udp.Frame, NewStream;
    InvClient(w, sys, i);
    var c := sys.clients[i];
    var command := c.app.commands[c.executed];
    var step := ExecuteStep(c);
    CarryDriven(w, c, step.0, w.cfgs[i], Udp.CommandOutput(c.backend, command).entries);
    forall d | d in Datagrams(w.addrs[i], step.1) ensures Request(w, step.0, w.addrs[i], d) {
      assert Passed(step.0, command.connection, command.stream, command.data);
    }
    ClientStepKeeps(w, sys, i, step);
  }

  // What reaches a client's address is an answer to that client.
  lemma {:induction false} OnlyAnswersArrive(w: World, sys: System, i: nat, d: Udp.Datagram)
    requires Inv(w, sys) && i < |sys.clients| && d in sys.net && d.to == w.addrs[i]
    ensures Answer(w, sys.clients[i], w.addrs[i], d)
  {
    hide ClientOk, ServerOk, Passed, From, Udp.Frame;
    var j :| 0 <= j < |sys.clients| && (Request(w, sys.clients[j], w.addrs[j], d) || Answer(w, sys.clients[j], w.addrs[j], d));
    assert w.server !in w.addrs && w.addrs[i] in w.addrs;
  }

  lemma {:induction false} ReceiveKeeps(w: World, sys: System, i: nat, d: Udp.Datagram)
    requires Inv(w, sys) && Enabled(w, sys, ClientReceive(i, d))
    ensures Inv(w, Next(w, sys, ClientReceive(i, d)))
  {
    hide Inv, From, Udp.Frame, Udp.Received, MadeFrom, Udp.HeaderStream;
    OnlyAnswersArrive(w, sys, i, d);
    InvClient(w, sys, i);
    var c := sys.clients[i];
    var u := c.uuid.value;
    var s, kept :| From(c, u, s, kept) && d == Udp.Datagram(w.server, w.addrs[i], Udp.Frame(u, s, kept));
    var step := ReceiveStep(c, d);
    Udp.FrameReceived(u, s, kept);
    FittingTwice(c, u, s, kept);
    var entries := step.0.posted[|c.posted|..];
    assert step.0.posted == c.posted + entries;
    FromGrows(c, step.0, u, s, kept);
    CarryDriven(w, c, step.0, w.cfgs[i], entries);
    ClientStepKeeps(w, sys, i, step);
  }

  lemma {:induction false} FittingTwice(c: Client, u: Uuid, s: StreamId, kept: seq<byte>)
    requires From(c, u, s, kept)
    ensures Udp.Fitting(kept) == kept
  {
  }

  // ------------------------------------------------------------------
  // Server steps
  // ------------------------------------------------------------------

  // What reaches the server is a request by some client.
  lemma {:induction false} OnlyRequestsArrive(w: World, sys: System, d: Udp.Datagram)
    requires Inv(w, sys) && d in sys.net && d.to == w.server
    ensures exists i :: 0 <= i < |sys.clients| && Request(w, sys.clients[i], w.addrs[i], d)
  {
    hide ClientOk, ServerOk, Passed, From, Udp.Frame;
    var j :| 0 <= j < |sys.clients| && (Request(w, sys.clients[j], w.addrs[j], d) || Answer(w, sys.clients[j], w.addrs[j], d));
    assert w.server !in w.addrs && w.addrs[j] in w.addrs;
  }

  lemma {:induction false} ServerReceiveKeeps(w: World, sys: System, d: Udp.Datagram)
    requires Inv(w, sys) && Enabled(w, sys, ServerReceive(d))
    ensures Inv(w, Next(w, sys, ServerReceive(d)))
  {
    hide Inv, ServerOk, From, Passed, Udp.Frame, Udp.Received, Udp.Fitting, Udp.HeaderStream;
    assert Inv(w, sys) && |sys.clients| == |w.addrs| by { InvShape(w, sys); }
    OnlyRequestsArrive(w, sys, d);
    var i :| 0 <= i < |sys.clients| && Request(w, sys.clients[i], w.addrs[i], d);
    var c := sys.clients[i];
    var u := c.uuid.value;
    var s, data :| Passed(c, u, s, data) && d == Udp.Datagram(w.addrs[i], w.server, Udp.Frame(u, s, data));
    Udp.FrameReceived(u, s, data);
    var kept := Udp.Fitting(data);
    assert From(c, u, s, kept) by { FromPassed(c, u, s, data); }
    var step := ServerReceiveStep(sys.server, d);
    InvShape(w, sys);
    ServerLearns(w, sys.clients, sys.server, i, u, s, kept, Udp.Received(d.bytes));
    ServerStepKeeps(w, sys, step);
  }

  lemma {:induction false} InvShape(w: World, sys: System)
    requires Inv(w, sys)
    ensures |sys.clients| == |w.addrs| == |w.cfgs| && ServerOk(w, sys.clients, sys.server)
  {
    hide ClientOk, ServerOk;
  }

  lemma {:induction false} FromPassed(c: Client, u: Uuid, s: StreamId, data: seq<byte>)
    requires c.uuid == Some(u) && Passed(c, u, s, data)
    ensures From(c, u, s, Udp.Fitting(data))
  {
    hide Passed;
  }

  lemma {:induction false} ServerLearns(w: World, clients: seq<Client>, server: Server,
                                        i: nat, u: Uuid, s: StreamId, kept: seq<byte>, buf: seq<byte>)
    requires |clients| == |w.addrs| && i < |clients| && ServerOk(w, clients, server) && From(clients[i], u, s, kept)
    requires |buf| >= Udp.HEADER_SIZE && Udp.HeaderUuid(buf) == u && Udp.HeaderStream(buf) == s
    requires buf[Udp.HEADER_SIZE..] == kept
    ensures ServerOk(w, clients, DriveServer(server, Udp.Packet(buf, w.addrs[i])).0)
  {
    hide From, Udp.HeaderStream;
    var after := DriveServer(server, Udp.Packet(buf, w.addrs[i])).0;
    assert clients[i].uuid == Some(u) by { FromUuid(clients[i], u, s, kept); }
    forall v | v in after.backend.connections ensures Owns(w, clients, v, after.backend.connections[v]) {
    }
    forall k | 0 <= k < |after.posted| && after.posted[k].event.Message?
      ensures FromOwner(clients, after.posted[k].event.connection, after.posted[k].event.stream, after.posted[k].event.data)
    {
      if k >= |server.posted| {
        assert after.posted[k].event == Message(u, s, kept);
      }
    }
  }

  lemma {:induction false} FromUuid(c: Client, u: Uuid, s: StreamId, kept: seq<byte>)
    requires From(c, u, s, kept)
    ensures c.uuid == Some(u)
  {
  }

  lemma {:induction false} ServerPollKeeps(w: World, sys: System)
    requires Inv(w, sys) && Enabled(w, sys, ServerPoll)
    ensures Inv(w, Next(w, sys, ServerPoll))
  {
    hide Inv, FromOwner, Echo.Reply;
    InvShape(w, sys);
    var server := sys.server;
    var ev := server.posted[server.polled].event;
    var after := ServerPollStep(server);
    if Echo.Reply(ev).Some? {
      Echo.EchoIsIdentical(ev);
    }
    ServerStepKeeps(w, sys, (after, []));
  }

  lemma {:induction false} ServerExecuteKeeps(w: World, sys: System)
    requires Inv(w, sys) && Enabled(w, sys, ServerExecute)
    ensures Inv(w, Next(w, sys, ServerExecute))
  {
    hide Inv, From, Udp.Frame, Request;
    InvShape(w, sys);
    var server := sys.server;
    var c := server.replies[server.executed];
    var step := ServerExecuteStep(server);
    assert ServerOk(w, sys.clients, step.0);
    forall d | d in Datagrams(w.server, step.1) ensures Explained(w, sys.clients, d) {
      var u := c.connection;
      assert d == Udp.Datagram(w.server, server.backend.connections[u], Udp.Frame(u, c.stream, c.data));
      AnswerGoesToOwner(w, sys, u, c.stream, c.data, d);
    }
    ServerStepKeeps(w, sys, step);
  }

  // The address that the server has for u is that of the client whose message it answers.
  lemma {:induction false} AnswerGoesToOwner(w: World, sys: System, u: Uuid, s: StreamId, kept: seq<byte>, d: Udp.Datagram)
    requires Inv(w, sys) && |sys.clients| == |w.addrs| && u in sys.server.backend.connections
    requires FromOwner(sys.clients, u, s, kept)
    requires d == Udp.Datagram(w.server, sys.server.backend.connections[u], Udp.Frame(u, s, kept))
    ensures Explained(w, sys.clients, d)
  {
    hide ClientOk, Passed, Udp.Frame, Udp.Fitting;
    assert Owns(w, sys.clients, u, sys.server.backend.connections[u]);
    var i :| 0 <= i < |sys.clients| && From(sys.clients[i], u, s, kept);
    var j :| 0 <= j < |sys.clients| && sys.clients[j].uuid == Some(u) && sys.server.backend.connections[u] == w.addrs[j];
    assert i == j;
    assert Answer(w, sys.clients[i], w.addrs[i], d);
  }

  // ------------------------------------------------------------------
  // Every run
  // ------------------------------------------------------------------

  lemma {:induction false} InitialHolds(w: World, sys: System)
    requires Initial(w, sys)
    ensures Inv(w, sys)
  {
    forall i | 0 <= i < |sys.clients| ensures ClientOk(w, sys.clients[i], w.cfgs[i]) && sys.clients[i].uuid.None? {
      var c := sys.clients[i];
      assert c == InitialClient(c.start60, c.start20);
      Runs.StartHolds(c.start60, c.start20, w.cfgs[i]);
    }
  }

  lemma {:induction false} StepKeeps(w: World, sys: System, l: Label, sys': System)
    requires Inv(w, sys) && IsStep(w, sys, l, sys')
    ensures Inv(w, sys')
  {
    hide Inv, Enabled, Next;
    assert sys' == Next(w, sys, l);
    match l
    case ClientConnect(i, u) => ConnectKeeps(w, sys, i, u);
    case ClientPoll(i, now, wall) => PollStepKeeps(w, sys, i, now, wall);
    case ClientPace(i, clock) => PaceStepKeeps(w, sys, i, clock);
    case ClientExecute(i) => ExecuteKeeps(w, sys, i);
    case ClientReceive(i, d) => ReceiveKeeps(w, sys, i, d);
    case ServerReceive(d) => ServerReceiveKeeps(w, sys, d);
    case ServerPoll => ServerPollKeeps(w, sys);
    case ServerExecute => ServerExecuteKeeps(w, sys);
  }

  lemma {:induction false} RunHolds(w: World, run: seq<System>, labels: seq<Label>, k: nat)
    requires IsRun(w, run, labels) && k < |run|
    ensures Inv(w, run[k])
  {
    hide Inv, IsStep, Initial;
    if k == 0 {
      InitialHolds(w, run[0]);
    } else {
      RunHolds(w, run, labels, k - 1);
      StepKeeps(w, run[k - 1], labels[k - 1], run[k]);
    }
  }

  // Whatever the network does, every message a client's backend posts carries the client's
  // own UUID and, on the same stream, bytes that its game had passed to Send, as far as a
  // receive buffer holds them: all of them if they were at most 2030.
  lemma {:induction false} EndToEndProvenance(w: World, run: seq<System>, labels: seq<Label>, k: nat, i: nat, m: nat)
    requires IsRun(w, run, labels) && k < |run| && i < |run[k].clients|
    requires m < |run[k].clients[i].posted| && run[k].clients[i].posted[m].event.Message?
    ensures var c := run[k].clients[i];
      var e := c.posted[m].event;
      c.uuid == Some(e.connection)
      && exists data :: Passed(c, e.connection, e.stream, data) && e.data <= data
                        && (|data| <= Udp.BUFFER_SIZE - Udp.HEADER_SIZE ==> e.data == data)
  {
    hide Inv, Passed;
    RunHolds(w, run, labels, k);
    InvClient(w, run[k], i);
    var c := run[k].clients[i];
    var e := c.posted[m].event;
    assert From(c, e.connection, e.stream, e.data);
    var data :| Passed(c, e.connection, e.stream, data) && e.data == Udp.Fitting(data);
    assert e.data <= data;
  }

  // The server sends a datagram with a client's UUID to that client's address only.
  lemma {:induction false} AnswersStayWithTheirClient(w: World, run: seq<System>, labels: seq<Label>, k: nat,
                                                      i: nat, d: Udp.Datagram)
    requires IsRun(w, run, labels) && k < |run| && i < |run[k].clients| == |w.addrs|
    requires d in run[k].net && d.from == w.server
    ensures |d.bytes| >= Udp.HEADER_SIZE
    ensures run[k].clients[i].uuid == Some(Udp.HeaderUuid(d.bytes)) ==> d.to == w.addrs[i]
  {
    hide Inv, IsRun, Answer;
    RunHolds(w, run, labels, k);
    InvShape(w, run[k]);
    var j := AnswerOf(w, run[k], d);
    AnswerHeader(w, run[k].clients[j], w.addrs[j], d);
    SameOwner(w, run[k], i, j);
  }

  lemma {:induction false} AnswerOf(w: World, sys: System, d: Udp.Datagram) returns (j: nat)
    requires Inv(w, sys) && d in sys.net && d.from == w.server
    ensures j < |sys.clients| == |w.addrs| && Answer(w, sys.clients[j], w.addrs[j], d)
  {
    hide ClientOk, ServerOk, Passed, From, Udp.Frame;
    j :| 0 <= j < |sys.clients| && (Request(w, sys.clients[j], w.addrs[j], d) || Answer(w, sys.clients[j], w.addrs[j], d));
    assert w.addrs[j] in w.addrs;
  }

  lemma {:induction false} AnswerHeader(w: World, c: Client, addr: Addr, d: Udp.Datagram)
    requires Answer(w, c, addr, d)
    ensures d.to == addr && |d.bytes| >= Udp.HEADER_SIZE && c.uuid == Some(Udp.HeaderUuid(d.bytes))
  {
    hide From;
    var u := c.uuid.value;
    var s, kept :| From(c, u, s, kept) && d == Udp.Datagram(w.server, addr, Udp.Frame(u, s, kept));
    assert Udp.Frame(u, s, kept)[..16] == u;
  }

  lemma {:induction false} SameOwner(w: World, sys: System, i: nat, j: nat)
    requires Inv(w, sys) && i < |sys.clients| && j < |sys.clients|
    ensures sys.clients[i].uuid.Some? && sys.clients[i].uuid == sys.clients[j].uuid ==> i == j
  {
    hide ClientOk, ServerOk, NetOk;
  }

  // The packet with this id and time stamp, as the client's game passed it to Send.
  ghost predicate Measures(c: Client, r: Record, id: nat, stamp: nat, cfg: Settings) {
    && id < CounterOf(c.app.sequences, r.streamId)
    && (exists u: Uuid :: Passed(c, u, r.streamId, PacketData(id, stamp, cfg)))
    && r.packetId == id % U64
    && r.rttUs == Since(r.recvTimestamp, stamp % U64)
    && r.payloadSize <= |cfg.payload|
    && (Packets.HEADER_SIZE + |cfg.payload| <= Udp.BUFFER_SIZE - Udp.HEADER_SIZE ==> r.payloadSize == |cfg.payload|)
  }

  // Every record measures a packet that the client sent on that very stream: its id, the time
  // since its stamp, and its payload or what the receive buffer kept of it.
  lemma {:induction false} RecordsMeasureSends(w: World, run: seq<System>, labels: seq<Label>, k: nat, i: nat, m: nat)
    requires IsRun(w, run, labels) && k < |run| && i < |run[k].clients| == |w.cfgs|
    requires m < |run[k].clients[i].app.records|
    ensures var c := run[k].clients[i];
      exists id, stamp :: Measures(c, c.app.records[m], id, stamp, w.cfgs[i])
  {
    hide IsRun, Inv, Measures, MadeFrom, Runs.Invariant;
    RunHolds(w, run, labels, k);
    InvClient(w, run[k], i);
    var c := run[k].clients[i];
    var r := c.app.records[m];
    assert RecordOk(c, r);
    var u: Uuid, data: seq<byte> :| Passed(c, u, r.streamId, data) && MadeFrom(r, Udp.Fitting(data));
    SendsOf(c, w.cfgs[i]);
    var _, _ := MeasuredPacket(c, u, data, r, w.cfgs[i]);
  }

  lemma {:induction false} SendsOf(c: Client, cfg: Settings)
    requires Runs.Invariant(c.app, c.start60, c.start20, cfg)
    ensures Runs.SendsArePackets(c.app, cfg)
  {
  }

  lemma {:induction false} MeasuredPacket(c: Client, u: Uuid, data: seq<byte>, r: Record, cfg: Settings)
    returns (id: nat, stamp: nat)
    requires Passed(c, u, r.streamId, data) && MadeFrom(r, Udp.Fitting(data))
    requires Runs.SendsArePackets(c.app, cfg)
    ensures Measures(c, r, id, stamp, cfg)
  {
    hide Packets.Parse, Packets.Serialize;
    var n :| 0 <= n < |c.app.commands| && c.app.commands[n] == Send(u, r.streamId, data);
    assert Runs.IsPacketOf(data, r.streamId, c.app.sequences, cfg);
    id, stamp :| id < CounterOf(c.app.sequences, r.streamId) && data == PacketData(id, stamp, cfg);
    var p := Packets.Packet(id % U64, stamp % U64, cfg.payload);
    var kept := Udp.Fitting(data);
    assert data == Packets.Serialize(p) && kept == data[..|kept|];
    Packets.TruncationKeepsHeader(p, |kept|);
  }

  // So every recorded id is below its stream's counter.
  lemma {:induction false} RecordedIdsWereSent(w: World, run: seq<System>, labels: seq<Label>, k: nat, i: nat, m: nat)
    requires IsRun(w, run, labels) && k < |run| && i < |run[k].clients|
    requires m < |run[k].clients[i].app.records|
    ensures var app := run[k].clients[i].app;
      app.records[m].packetId < CounterOf(app.sequences, app.records[m].streamId)
  {
    hide IsRun, Passed, Inv, ClientOk, PacketData, Since, CounterOf;
    RunHolds(w, run, labels, k);
    InvClient(w, run[k], i);
    RecordsMeasureSends(w, run, labels, k, i, m);
    var c := run[k].clients[i];
    var id, stamp :| Measures(c, c.app.records[m], id, stamp, w.cfgs[i]);
  }
}
