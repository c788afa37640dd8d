// The benchmark over TCP: clients, the echo server and every interleaving of their tasks as one
// transition system on top of TcpSystem.
module TcpBenchmark {
  import opened Bytes
  import opened Options
  import opened Sockets
  import opened Traces
  import opened Records
  import opened BenchmarkClient
  import opened Subsequences
  import Packets = BenchmarkPacket
  import Echo = EchoServer
  import Runs = ClientRuns
  import Tcp = TcpSystem
  import TcpTasks = TcpBackend

  type Payload = (StreamId, seq<byte>)

  // A client process: its one connection, everything its tasks have posted, of which the game
  // has polled the first `polled`, and of the game's commands the first `executed` were taken
  // by the main loop.
  datatype Client = Client(
    uuid: Option<Uuid>, start60: nat, start20: nat,
    posted: seq<Entry>, polled: nat, app: App, executed: nat)

  // The server process owns the ends that its listener accepted.
  datatype Server = Server(ends: set<Uuid>, posted: seq<Entry>, polled: nat, replies: seq<Command>, executed: nat)

  datatype System = System(tcp: Tcp.State, clients: seq<Client>, server: Server)

  datatype Label =
    | ClientConnect(i: nat, u: Uuid)
    | ServerAccept(v: Uuid, opener: Uuid)
    | Background(l: Tcp.Label)
    | TaskStep(l: Tcp.Label)
    | ClientPoll(i: nat, now: nat, wall: nat)
    | ClientPace(i: nat, clock: Clock)
    | ClientExecute(i: nat)
    | ServerPoll
    | ServerExecute

  // Channel traffic that the game does not see.
  predicate IsBackground(l: Tcp.Label) {
    l.Report? || l.Register? || l.Write?
  }

  // A peer handler reads a frame or ends, and posts to its own process.
  predicate IsTask(l: Tcp.Label) {
    l.Read? || l.Finish?
  }

  function InitialClient(start60: nat, start20: nat): Client {
    Client(None, start60, start20, [], 0, Start(start60, start20), 0)
  }

  ghost predicate Initial(cfgs: seq<Settings>, sys: System) {
    && |sys.clients| == |cfgs| && sys.tcp == Tcp.INITIAL && sys.server == Server({}, [], 0, [], 0)
    && forall i :: 0 <= i < |sys.clients| ==>
         sys.clients[i] == InitialClient(sys.clients[i].start60, sys.clients[i].start20)
  }

  // What the main loop of a process makes of a command: a Send needs a write handle in its own
  // table, the stream commands post their events at once.
  function CommandLabel(c: Command): Tcp.Label {
    match c
    case Send(u, s, data) => Tcp.Send(u, s, data)
    case CreateStream(u, n, r) => Tcp.CreateStream(u, n, r)
    case CloseStream(u, s) => Tcp.CloseStream(u, s)
  }

  function Execute(tcp: Tcp.State, own: set<Uuid>, c: Command): Tcp.State
    requires Executable(tcp, own, c)
  {
    if c.Send? && c.connection !in own then tcp else Tcp.Next(tcp, CommandLabel(c))
  }

  predicate Executable(tcp: Tcp.State, own: set<Uuid>, c: Command) {
    (c.Send? && c.connection !in own) || Tcp.Enabled(tcp, CommandLabel(c))
  }

  function OwnOf(c: Client): set<Uuid> {
    if c.uuid.Some? then {c.uuid.value} else {}
  }

  ghost predicate Enabled(sys: System, l: Label) {
    match l
    case ClientConnect(i, u) => i < |sys.clients| && sys.clients[i].uuid.None? && Tcp.Enabled(sys.tcp, Tcp.Connect(u))
    case ServerAccept(v, o) => Tcp.Enabled(sys.tcp, Tcp.Accept(v, o))
    case Background(t) => IsBackground(t) && Tcp.Enabled(sys.tcp, t)
    case TaskStep(t) => IsTask(t) && Tcp.Enabled(sys.tcp, t)
    case ClientPoll(i, _, _) => i < |sys.clients| && sys.clients[i].polled < |sys.clients[i].posted|
    case ClientPace(i, _) => i < |sys.clients|
    case ClientExecute(i) =>
      && i < |sys.clients| && sys.clients[i].executed < |sys.clients[i].app.commands|
      && Executable(sys.tcp, OwnOf(sys.clients[i]), sys.clients[i].app.commands[sys.clients[i].executed])
    case ServerPoll => sys.server.polled < |sys.server.posted|
    case ServerExecute =>
      && sys.server.executed < |sys.server.replies|
      && Executable(sys.tcp, sys.server.ends, sys.server.replies[sys.server.executed])
  }

  // The entries by which the TCP step lengthened the trace.
  function New(tcp: Tcp.State, tcp': Tcp.State): seq<Entry> {
    if |tcp.trace| <= |tcp'.trace| then tcp'.trace[|tcp.trace|..] else []
  }

  function Post(c: Client, entries: seq<Entry>): Client {
    c.(posted := c.posted + entries)
  }

  function PostServer(s: Server, entries: seq<Entry>): Server {
    s.(posted := s.posted + entries)
  }

  // What a task of end u posts goes to the process that owns u.
  function Deliver(sys: System, u: Uuid, entries: seq<Entry>, tcp': Tcp.State): System {
    System(tcp',
           seq(|sys.clients|, i requires 0 <= i < |sys.clients| =>
             if sys.clients[i].uuid == Some(u) then Post(sys.clients[i], entries) else sys.clients[i]),
           if u in sys.server.ends then PostServer(sys.server, entries) else sys.server)
  }

  function PollStep(c: Client, now: nat, wall: nat, cfg: Settings): Client
    requires c.polled < |c.posted|
  {
    c.(app := OnEvent(c.app, Polled(c.posted[c.polled].event, now, wall), cfg), polled := c.polled + 1)
  }

  function ServerPollStep(s: Server): Server
    requires s.polled < |s.posted|
  {
    s.(polled := s.polled + 1,
       replies := s.replies + match Echo.Reply(s.posted[s.polled].event) case None => [] case Some(c) => [c])
  }

  ghost function Next(cfgs: seq<Settings>, sys: System, l: Label): System
    requires |cfgs| == |sys.clients| && Enabled(sys, l)
  {
    match l
    case ClientConnect(i, u) =>
      var tcp := Tcp.Next(sys.tcp, Tcp.Connect(u));
      sys.(tcp := tcp, clients := sys.clients[i := Post(sys.clients[i], New(sys.tcp, tcp)).(uuid := Some(u))])
    case ServerAccept(v, o) =>
      var tcp := Tcp.Next(sys.tcp, Tcp.Accept(v, o));
      sys.(tcp := tcp, server := PostServer(sys.server, New(sys.tcp, tcp)).(ends := sys.server.ends + {v}))
    case Background(t) => sys.(tcp := Tcp.Next(sys.tcp, t))
    case TaskStep(t) =>
      var tcp := Tcp.Next(sys.tcp, t);
      Deliver(sys, t.u, New(sys.tcp, tcp), tcp)
    case ClientPoll(i, now, wall) => sys.(clients := sys.clients[i := PollStep(sys.clients[i], now, wall, cfgs[i])])
    case ClientPace(i, clock) =>
      sys.(clients := sys.clients[i := sys.clients[i].(app := Pace(sys.clients[i].app, clock, cfgs[i]).0)])
    case ClientExecute(i) =>
      var c := sys.clients[i];
      var tcp := Execute(sys.tcp, OwnOf(c), c.app.commands[c.executed]);
      sys.(tcp := tcp, clients := sys.clients[i := Post(c, New(sys.tcp, tcp)).(executed := c.executed + 1)])
    case ServerPoll => sys.(server := ServerPollStep(sys.server))
    case ServerExecute =>
      var s := sys.server;
      var tcp := Execute(sys.tcp, s.ends, s.replies[s.executed]);
      sys.(tcp := tcp, server := PostServer(s, New(sys.tcp, tcp)).(executed := s.executed + 1))
  }

  ghost predicate IsStep(cfgs: seq<Settings>, sys: System, l: Label, sys': System) {
    |cfgs| == |sys.clients| && Enabled(sys, l) && sys' == Next(cfgs, sys, l)
  }

  // A run: each state follows from the one before by the label between them.
  ghost predicate IsRun(cfgs: seq<Settings>, run: seq<System>, labels: seq<Label>) {
    && |run| == |labels| + 1 && Initial(cfgs, run[0])
    && forall k :: 0 <= k < |labels| ==> IsStep(cfgs, run[k], labels[k], run[k + 1])
  }

  // ------------------------------------------------------------------
  // Lists of payloads and of packet ids
  // ------------------------------------------------------------------

  // The payloads of the Sends on connection u, in order.
  function SendsOf(commands: seq<Command>, u: Uuid): seq<Payload> {
    if commands == [] then [] else
    var before := SendsOf(commands[..|commands| - 1], u);
    var c := commands[|commands| - 1];
    if c.Send? && c.connection == u then before + [(c.stream, c.data)] else before
  }

  // Stream and packet id of those payloads that are packets.
  function IdsOf(payloads: seq<Payload>): seq<(StreamId, nat)> {
    if payloads == [] then [] else
    var before := IdsOf(payloads[..|payloads| - 1]);
    var (s, data) := payloads[|payloads| - 1];
    match Packets.Parse(data)
    case None => before
    case Some(p) => before + [(s, p.id)]
  }

  function Recorded(records: seq<Record>): seq<(StreamId, nat)> {
    if records == [] then [] else
    Recorded(records[..|records| - 1]) + [(records[|records| - 1].streamId, records[|records| - 1].packetId)]
  }

  function Logged(log: seq<Sent>): seq<(StreamId, nat)> {
    if log == [] then [] else
    Logged(log[..|log| - 1]) + [(log[|log| - 1].stream, log[|log| - 1].id % U64)]
  }

  lemma {:induction false} SendsSnoc(commands: seq<Command>, c: Command, u: Uuid)
    ensures SendsOf(commands + [c], u)
         == if c.Send? && c.connection == u then SendsOf(commands, u) + [(c.stream, c.data)] else SendsOf(commands, u)
  {
    assert (commands + [c])[..|commands|] == commands;
  }

  lemma {:induction false} IdsSnoc(payloads: seq<Payload>, x: Payload)
    ensures IdsOf(payloads + [x])
         == match Packets.Parse(x.1) case None => IdsOf(payloads) case Some(p) => IdsOf(payloads) + [(x.0, p.id)]
  {
    assert (payloads + [x])[..|payloads|] == payloads;
  }

  lemma {:induction false} RecordedSnoc(records: seq<Record>, r: Record)
    ensures Recorded(records + [r]) == Recorded(records) + [(r.streamId, r.packetId)]
  {
    assert (records + [r])[..|records|] == records;
  }

  lemma {:induction false} LoggedSnoc(log: seq<Sent>, e: Sent)
    ensures Logged(log + [e]) == Logged(log) + [(e.stream, e.id % U64)]
  {
    assert (log + [e])[..|log|] == log;
  }

  // Leaving out payloads leaves out ids.
  lemma {:induction false} SubIds(a: seq<Payload>, b: seq<Payload>)
    requires Sub(a, b)
    ensures Sub(IdsOf(a), IdsOf(b))
    decreases |b|
  {
    hide Packets.Parse;
    if a != [] && b != [] {
      var b', last := b[..|b| - 1], b[|b| - 1];
      assert b == b' + [last];
      IdsSnoc(b', last);
      if Sub(a, b') {
        SubIds(a, b');
        if Packets.Parse(last.1).Some? {
          SubSnoc(IdsOf(a), IdsOf(b'), (last.0, Packets.Parse(last.1).value.id));
        }
      } else {
        var a' := a[..|a| - 1];
        assert a == a' + [last];
        SubIds(a', b');
        IdsSnoc(a', last);
        if Packets.Parse(last.1).Some? {
          SubSnoc(IdsOf(a'), IdsOf(b'), (last.0, Packets.Parse(last.1).value.id));
        }
      }
    }
  }

  lemma {:induction false} FittingSub(sends: seq<Payload>)
    ensures Sub(Tcp.Fitting(sends), sends)
  {
    hide TcpTasks.Packet;
    if sends != [] {
      var init, last := sends[..|sends| - 1], sends[|sends| - 1];
      FittingSub(init);
      SubSnoc(Tcp.Fitting(init), init, last);
      assert sends == init + [last] && last == (last.0, last.1);
    }
  }

  // ------------------------------------------------------------------
  // The invariant
  // ------------------------------------------------------------------

  // Accepted ends are the server's, the others belong to one client each, and connections join
  // a client's end to one of the server's.
  ghost predicate OwnersOk(sys: System) {
    && (forall i, u :: 0 <= i < |sys.clients| && sys.clients[i].uuid == Some(u) ==>
          u in sys.tcp.ends && u !in sys.server.ends)
    && (forall i, j :: 0 <= i < j < |sys.clients| && sys.clients[i].uuid.Some? ==>
          sys.clients[i].uuid != sys.clients[j].uuid)
    && (forall v :: v in sys.server.ends ==> v in sys.tcp.ends && sys.tcp.ends[v].peer.Some?)
    && (forall u :: u in sys.tcp.ends && u !in sys.server.ends && sys.tcp.ends[u].peer.Some? ==>
          sys.tcp.ends[u].peer.value in sys.server.ends)
  }

  ghost predicate MessagesFor(entries: seq<Entry>, own: set<Uuid>) {
    forall k :: 0 <= k < |entries| && entries[k].event.Message? ==>
      entries[k].origin == FromNetwork && entries[k].event.connection in own
  }

  // A connected client: its events are those of its end, its end got some of its sends, and it
  // recorded some of the packets among the messages it polled.
  ghost predicate ConnectedOk(tcp: Tcp.State, c: Client, u: Uuid) {
    && u in tcp.ends && c.polled <= |c.posted| && c.executed <= |c.app.commands|
    && MessagesFor(c.posted, {u})
    && Tcp.Received(c.posted, u) == Tcp.Received(tcp.trace, u)
    && Sub(tcp.ends[u].passed, SendsOf(c.app.commands[..c.executed], u))
    && Sub(Recorded(c.app.records), IdsOf(Tcp.Received(c.posted[..c.polled], u)))
  }

  // Every packet among the commands was logged.
  ghost predicate CommandsLogged(app: App) {
    forall u: Uuid :: Sub(IdsOf(SendsOf(app.commands, u)), Logged(app.log))
  }

  ghost predicate ClientOk(tcp: Tcp.State, c: Client, cfg: Settings) {
    && CommandsLogged(c.app) && Runs.Invariant(c.app, c.start60, c.start20, cfg)
    && match c.uuid
       case None => c.posted == [] && c.polled == 0 && c.executed == 0 && c.app.records == [] && c.app.commands == []
                    && c.app.server.None?
       case Some(u) => ConnectedOk(tcp, c, u)
  }

  ghost predicate ServerEndOk(tcp: Tcp.State, s: Server, v: Uuid) {
    && Tcp.Received(s.posted, v) == Tcp.Received(tcp.trace, v)
    && v in tcp.ends && s.executed <= |s.replies| && Sub(tcp.ends[v].passed, SendsOf(s.replies[..s.executed], v))
  }

  ghost predicate ServerOk(tcp: Tcp.State, s: Server)
  {
    && s.polled <= |s.posted| && s.executed <= |s.replies|
    && MessagesFor(s.posted, s.ends)
    && (forall v :: v in s.ends ==> ServerEndOk(tcp, s, v))
    && (forall v: Uuid :: Sub(SendsOf(s.replies, v), Tcp.Received(s.posted[..s.polled], v)))
  }

  ghost predicate Inv(cfgs: seq<Settings>, sys: System) {
    && |cfgs| == |sys.clients|
    && Tcp.EndsOk(sys.tcp) && Tcp.LinksOk(sys.tcp)
    && OwnersOk(sys)
    && (forall i :: 0 <= i < |sys.clients| ==> ClientOk(sys.tcp, sys.clients[i], cfgs[i]))
    && ServerOk(sys.tcp, sys.server)
  }

  // ------------------------------------------------------------------
  // What a TCP step does to ends and trace
  // ------------------------------------------------------------------

  lemma {:induction false} ReceivedConcat(a: seq<Entry>, b: seq<Entry>, u: Uuid)
    ensures Tcp.Received(a + b, u) == Tcp.Received(a, u) + Tcp.Received(b, u)
  {
    if b == [] {
      assert a + b == a;
    } else {
      var init, last := b[..|b| - 1], b[|b| - 1];
      ReceivedConcat(a, init, u);
      assert a + b == (a + init) + [last] && b == init + [last];
      hide Tcp.Received;
      Tcp.ReceivedSnoc(a + init, last, u);
      Tcp.ReceivedSnoc(init, last, u);
    }
  }

  lemma {:induction false} NoMessages(entries: seq<Entry>, own: set<Uuid>, u: Uuid)
    requires MessagesFor(entries, own) && u !in own
    ensures Tcp.Received(entries, u) == []
  {
    if entries != [] {
      NoMessages(entries[..|entries| - 1], own, u);
    }
  }

  // An end keeps what was passed to it, up to a Send.
  ghost predicate SameSends(tcp: Tcp.State, tcp': Tcp.State, u: Uuid) {
    u in tcp.ends ==> u in tcp'.ends && tcp'.ends[u].passed == tcp.ends[u].passed
  }

  lemma {:induction false} StepTrace(tcp: Tcp.State, l: Tcp.Label)
    requires Tcp.Enabled(tcp, l)
    ensures var after := Tcp.Next(tcp, l);
      && after.trace == tcp.trace + New(tcp, after)
      && MessagesFor(New(tcp, after), if l.Read? then {l.u} else {})
  {
    hide NewStream, TcpTasks.Packet, TcpTasks.PacketStream;
    var after := Tcp.Next(tcp, l);
    assert tcp.trace <= after.trace;
    assert tcp.trace == tcp.trace + [];
  }

  lemma {:induction false} StepSends(tcp: Tcp.State, l: Tcp.Label, u: Uuid)
    requires Tcp.Enabled(tcp, l) && u in tcp.ends
    ensures var after := Tcp.Next(tcp, l);
      && u in after.ends
      && (after.ends[u].passed == tcp.ends[u].passed
          || (l.Send? && l.u == u && after.ends[u].passed == tcp.ends[u].passed + [(l.s, l.data)]))
      && (after.ends[u].peer == tcp.ends[u].peer || (l.Accept? && l.opener == u))
  {
    hide NewStream, TcpTasks.Packet, TcpTasks.OnFrame;
  }

  // A step that sends nothing and posts no message for u leaves the connected client in order.
  lemma {:induction false} ClientUntouched(tcp: Tcp.State, tcp': Tcp.State, c: Client, u: Uuid)
    requires ConnectedOk(tcp, c, u) && SameSends(tcp, tcp', u)
    requires Tcp.Received(tcp'.trace, u) == Tcp.Received(tcp.trace, u)
    ensures ConnectedOk(tcp', c, u)
  {
    hide Tcp.Received, SendsOf, IdsOf, Sub, Recorded;
  }

  lemma {:induction false} ServerUntouched(tcp: Tcp.State, tcp': Tcp.State, s: Server)
    requires ServerOk(tcp, s)
    requires forall v :: v in s.ends ==> SameSends(tcp, tcp', v) && Tcp.Received(tcp'.trace, v) == Tcp.Received(tcp.trace, v)
    ensures ServerOk(tcp', s)
  {
    hide Tcp.Received, SendsOf, IdsOf, Sub;
    forall v | v in s.ends ensures ServerEndOk(tcp', s, v) {
      assert ServerEndOk(tcp, s, v);
    }
  }

  // The trace grows by entries without messages for u.
  lemma {:induction false} SameReceived(tcp: Tcp.State, l: Tcp.Label, u: Uuid)
    requires Tcp.Enabled(tcp, l) && !(l.Read? && l.u == u)
    ensures Tcp.Received(Tcp.Next(tcp, l).trace, u) == Tcp.Received(tcp.trace, u)
  {
    hide Tcp.Received, Tcp.Next, MessagesFor, New;
    var after := Tcp.Next(tcp, l);
    StepTrace(tcp, l);
    ReceivedConcat(tcp.trace, New(tcp, after), u);
    NoMessages(New(tcp, after), if l.Read? then {l.u} else {}, u);
    assert Tcp.Received(tcp.trace, u) + [] == Tcp.Received(tcp.trace, u);
  }

  // All steps but Send and Read, seen from one end.
  lemma {:induction false} QuietStep(tcp: Tcp.State, l: Tcp.Label, u: Uuid)
    requires Tcp.Enabled(tcp, l) && !(l.Read? && l.u == u) && !(l.Send? && l.u == u)
    ensures SameSends(tcp, Tcp.Next(tcp, l), u)
    ensures Tcp.Received(Tcp.Next(tcp, l).trace, u) == Tcp.Received(tcp.trace, u)
  {
    hide Tcp.Received, Tcp.Next, Tcp.Enabled;
    SameReceived(tcp, l, u);
    if u in tcp.ends {
      StepSends(tcp, l, u);
    }
  }

  lemma {:induction false} ClientQuiet(tcp: Tcp.State, l: Tcp.Label, c: Client, cfg: Settings)
    requires Tcp.Enabled(tcp, l) && ClientOk(tcp, c, cfg)
    requires c.uuid.Some? ==> !(l.Read? && l.u == c.uuid.value) && !(l.Send? && l.u == c.uuid.value)
    ensures ClientOk(Tcp.Next(tcp, l), c, cfg)
  {
    hide Tcp.Next, Tcp.Enabled, ConnectedOk, CommandsLogged, Runs.Invariant;
    if c.uuid.Some? {
      QuietStep(tcp, l, c.uuid.value);
      ClientUntouched(tcp, Tcp.Next(tcp, l), c, c.uuid.value);
    }
  }

  lemma {:induction false} ServerQuiet(tcp: Tcp.State, l: Tcp.Label, s: Server)
    requires Tcp.Enabled(tcp, l) && ServerOk(tcp, s)
    requires !(l.Read? && l.u in s.ends) && !(l.Send? && l.u in s.ends)
    ensures ServerOk(Tcp.Next(tcp, l), s)
  {
    hide Tcp.Next, Tcp.Enabled, ServerOk, Tcp.Received;
    forall v | v in s.ends
      ensures SameSends(tcp, Tcp.Next(tcp, l), v) && Tcp.Received(Tcp.Next(tcp, l).trace, v) == Tcp.Received(tcp.trace, v)
    {
      QuietStep(tcp, l, v);
    }
    ServerUntouched(tcp, Tcp.Next(tcp, l), s);
  }

  lemma {:induction false} TcpKeeps(tcp: Tcp.State, l: Tcp.Label)
    requires Tcp.EndsOk(tcp) && Tcp.LinksOk(tcp) && Tcp.Enabled(tcp, l)
    ensures Tcp.EndsOk(Tcp.Next(tcp, l)) && Tcp.LinksOk(Tcp.Next(tcp, l))
  {
    hide Tcp.EndsOk, Tcp.LinksOk, Tcp.Next, Tcp.Enabled;
    Tcp.StepKeepsEnds(tcp, l);
    Tcp.StepKeepsLinks(tcp, l);
  }

  // Owners are settled by Connect and Accept only.
  lemma {:induction false} OwnersQuiet(sys: System, l: Tcp.Label, sys': System)
    requires OwnersOk(sys) && Tcp.Enabled(sys.tcp, l) && !l.Connect? && !l.Accept?
    requires sys'.tcp == Tcp.Next(sys.tcp, l) && sys'.server.ends == sys.server.ends
    requires |sys'.clients| == |sys.clients|
    requires forall i :: 0 <= i < |sys.clients| ==> sys'.clients[i].uuid == sys.clients[i].uuid
    ensures OwnersOk(sys')
  {
    hide Tcp.Enabled, Tcp.Next;
    SameEnds(sys.tcp, l);
    forall u | u in sys.tcp.ends ensures u in sys'.tcp.ends && sys'.tcp.ends[u].peer == sys.tcp.ends[u].peer {
      StepSends(sys.tcp, l, u);
    }
  }

  lemma {:induction false} SameEnds(tcp: Tcp.State, l: Tcp.Label)
    requires Tcp.Enabled(tcp, l) && !l.Connect? && !l.Accept?
    ensures Tcp.Next(tcp, l).ends.Keys == tcp.ends.Keys
  {
    hide NewStream, TcpTasks.Packet, TcpTasks.OnFrame, TcpTasks.WriteStep;
  }

  // ------------------------------------------------------------------
  // Posting to the owner
  // ------------------------------------------------------------------

  // The entries of a step are posted to the client of end u; its sends are as before.
  lemma {:induction false} ClientPosted(tcp: Tcp.State, l: Tcp.Label, c: Client, u: Uuid)
    requires ConnectedOk(tcp, c, u) && Tcp.Enabled(tcp, l) && (l.Read? ==> l.u == u) && !(l.Send? && l.u == u)
    ensures ConnectedOk(Tcp.Next(tcp, l), Post(c, New(tcp, Tcp.Next(tcp, l))), u)
  {
    hide Tcp.Received, SendsOf, IdsOf, Sub, Recorded, Tcp.Next, Tcp.Enabled, New;
    var after := Tcp.Next(tcp, l);
    var es := New(tcp, after);
    StepTrace(tcp, l);
    StepSends(tcp, l, u);
    ReceivedConcat(tcp.trace, es, u);
    ReceivedConcat(c.posted, es, u);
    assert (c.posted + es)[..c.polled] == c.posted[..c.polled];
  }

  lemma {:induction false} ServerPosted(tcp: Tcp.State, l: Tcp.Label, s: Server)
    requires ServerOk(tcp, s) && Tcp.Enabled(tcp, l) && (l.Read? ==> l.u in s.ends) && !(l.Send? && l.u in s.ends)
    ensures ServerOk(Tcp.Next(tcp, l), PostServer(s, New(tcp, Tcp.Next(tcp, l))))
  {
    hide Tcp.Received, SendsOf, Sub, Tcp.Next, Tcp.Enabled, New;
    var after := Tcp.Next(tcp, l);
    var es := New(tcp, after);
    StepTrace(tcp, l);
    assert (s.posted + es)[..s.polled] == s.posted[..s.polled];
    forall v | v in s.ends ensures ServerEndOk(after, PostServer(s, es), v) {
      assert ServerEndOk(tcp, s, v);
      StepSends(tcp, l, v);
      ReceivedConcat(tcp.trace, es, v);
      ReceivedConcat(s.posted, es, v);
    }
  }

  // ------------------------------------------------------------------
  // Steps
  // ------------------------------------------------------------------

  lemma {:induction false} InvClient(cfgs: seq<Settings>, sys: System, i: nat)
    requires Inv(cfgs, sys) && i < |sys.clients|
    ensures |cfgs| == |sys.clients| && ClientOk(sys.tcp, sys.clients[i], cfgs[i])
  {
  }

  lemma {:induction false} InvParts(cfgs: seq<Settings>, sys: System)
    requires Inv(cfgs, sys)
    ensures |cfgs| == |sys.clients| && Tcp.EndsOk(sys.tcp) && Tcp.LinksOk(sys.tcp)
    ensures OwnersOk(sys) && ServerOk(sys.tcp, sys.server)
  {
  }

  lemma {:induction false} BackgroundKeeps(cfgs: seq<Settings>, sys: System, l: Tcp.Label)
    requires Inv(cfgs, sys) && Enabled(sys, Background(l))
    ensures Inv(cfgs, Next(cfgs, sys, Background(l)))
  {
    hide Tcp.EndsOk, Tcp.LinksOk, Tcp.Next, Tcp.Enabled, OwnersOk, ClientOk, ServerOk;
    var after := Next(cfgs, sys, Background(l));
    TcpKeeps(sys.tcp, l);
    OwnersQuiet(sys, l, after);
    ServerQuiet(sys.tcp, l, sys.server);
    forall i | 0 <= i < |sys.clients| ensures ClientOk(after.tcp, after.clients[i], cfgs[i]) {
      ClientQuiet(sys.tcp, l, sys.clients[i], cfgs[i]);
    }
  }

  lemma {:induction false} TaskKeeps(cfgs: seq<Settings>, sys: System, l: Tcp.Label)
    requires Inv(cfgs, sys) && Enabled(sys, TaskStep(l))
    ensures Inv(cfgs, Next(cfgs, sys, TaskStep(l)))
  {
    hide Tcp.EndsOk, Tcp.LinksOk, Tcp.Next, Tcp.Enabled, OwnersOk, ClientOk, ServerOk, New;
    var after := Next(cfgs, sys, TaskStep(l));
    TcpKeeps(sys.tcp, l);
    OwnersQuiet(sys, l, after);
    if l.u in sys.server.ends {
      ServerPosted(sys.tcp, l, sys.server);
    } else {
      ServerQuiet(sys.tcp, l, sys.server);
    }
    forall i | 0 <= i < |sys.clients| ensures ClientOk(after.tcp, after.clients[i], cfgs[i]) {
      if sys.clients[i].uuid == Some(l.u) {
        ClientPostedOk(sys.tcp, l, sys.clients[i], cfgs[i], l.u);
      } else {
        ClientQuiet(sys.tcp, l, sys.clients[i], cfgs[i]);
      }
    }
  }

  lemma {:induction false} ClientPostedOk(tcp: Tcp.State, l: Tcp.Label, c: Client, cfg: Settings, u: Uuid)
    requires ClientOk(tcp, c, cfg) && c.uuid == Some(u)
    requires Tcp.Enabled(tcp, l) && (l.Read? ==> l.u == u) && !(l.Send? && l.u == u)
    ensures ClientOk(Tcp.Next(tcp, l), Post(c, New(tcp, Tcp.Next(tcp, l))), cfg)
  {
    hide Tcp.Next, Tcp.Enabled, ConnectedOk, CommandsLogged, Runs.Invariant, New;
    ClientPosted(tcp, l, c, u);
  }

  lemma {:induction false} ConnectKeeps(cfgs: seq<Settings>, sys: System, i: nat, u: Uuid)
    requires Inv(cfgs, sys) && Enabled(sys, ClientConnect(i, u))
    ensures Inv(cfgs, Next(cfgs, sys, ClientConnect(i, u)))
  {
    hide Tcp.EndsOk, Tcp.LinksOk, OwnersOk, ClientOk, ServerOk;
    var l := Tcp.Connect(u);
    var after := Next(cfgs, sys, ClientConnect(i, u));
    TcpKeeps(sys.tcp, l);
    ConnectOwners(cfgs, sys, i, u);
    ServerQuiet(sys.tcp, l, sys.server);
    forall j | 0 <= j < |sys.clients| ensures ClientOk(after.tcp, after.clients[j], cfgs[j]) {
      if j == i {
        NewClientOk(sys.tcp, sys.clients[i], cfgs[i], u);
      } else {
        ClientQuiet(sys.tcp, l, sys.clients[j], cfgs[j]);
      }
    }
  }

  lemma {:induction false} ConnectOwners(cfgs: seq<Settings>, sys: System, i: nat, u: Uuid)
    requires |cfgs| == |sys.clients| && OwnersOk(sys) && Enabled(sys, ClientConnect(i, u))
    ensures OwnersOk(Next(cfgs, sys, ClientConnect(i, u)))
  {
    hide New;
  }

  lemma {:induction false} NewClientOk(tcp: Tcp.State, c: Client, cfg: Settings, u: Uuid)
    requires ClientOk(tcp, c, cfg) && c.uuid.None? && Tcp.Enabled(tcp, Tcp.Connect(u)) && Tcp.LinksOk(tcp)
    ensures var after := Tcp.Next(tcp, Tcp.Connect(u));
      ClientOk(after, Post(c, New(tcp, after)).(uuid := Some(u)), cfg)
  {
    hide CommandsLogged, Runs.Invariant, SendsOf, IdsOf, Tcp.Received, Tcp.Fitting;
    var after := Tcp.Next(tcp, Tcp.Connect(u));
    var e := Network(Connected(u));
    assert New(tcp, after) == [e];
    Tcp.ReceivedSnoc(tcp.trace, e, u);
    Tcp.ReceivedSnoc([], e, u);
    assert [] + [e] == [e] && Tcp.Received([], u) == [] by { NothingReceived(u); }
  }

  lemma {:induction false} NothingReceived(u: Uuid)
    ensures Tcp.Received([], u) == []
  {
  }

  lemma {:induction false} AcceptKeeps(cfgs: seq<Settings>, sys: System, v: Uuid, o: Uuid)
    requires Inv(cfgs, sys) && Enabled(sys, ServerAccept(v, o))
    ensures Inv(cfgs, Next(cfgs, sys, ServerAccept(v, o)))
  {
    hide Tcp.EndsOk, Tcp.LinksOk, OwnersOk, ClientOk, ServerOk;
    var l := Tcp.Accept(v, o);
    var after := Next(cfgs, sys, ServerAccept(v, o));
    TcpKeeps(sys.tcp, l);
    AcceptOwners(cfgs, sys, v, o);
    NotYetOwned(sys, v);
    NewEndOk(sys.tcp, sys.server, v, o);
    forall j | 0 <= j < |sys.clients| ensures ClientOk(after.tcp, after.clients[j], cfgs[j]) {
      ClientQuiet(sys.tcp, l, sys.clients[j], cfgs[j]);
    }
  }

  lemma {:induction false} NotYetOwned(sys: System, v: Uuid)
    requires OwnersOk(sys) && v !in sys.tcp.ends
    ensures v !in sys.server.ends
  {
  }

  lemma {:induction false} AcceptOwners(cfgs: seq<Settings>, sys: System, v: Uuid, o: Uuid)
    requires |cfgs| == |sys.clients| && OwnersOk(sys) && Enabled(sys, ServerAccept(v, o))
    ensures OwnersOk(Next(cfgs, sys, ServerAccept(v, o)))
  {
    hide New;
  }

  lemma {:induction false} NewEndOk(tcp: Tcp.State, s: Server, v: Uuid, o: Uuid)
    requires ServerOk(tcp, s) && Tcp.Enabled(tcp, Tcp.Accept(v, o)) && Tcp.LinksOk(tcp) && v !in s.ends
    ensures var after := Tcp.Next(tcp, Tcp.Accept(v, o));
      ServerOk(after, PostServer(s, New(tcp, after)).(ends := s.ends + {v}))
  {
    hide SendsOf, Tcp.Received, Tcp.Fitting;
    var l := Tcp.Accept(v, o);
    var after := Tcp.Next(tcp, l);
    var e := Network(Connected(v));
    var s' := PostServer(s, New(tcp, after)).(ends := s.ends + {v});
    assert New(tcp, after) == [e];
    assert (s.posted + [e])[..s.polled] == s.posted[..s.polled];
    forall w | w in s'.ends ensures ServerEndOk(after, s', w) {
      Tcp.ReceivedSnoc(tcp.trace, e, w);
      Tcp.ReceivedSnoc(s.posted, e, w);
      if w in s.ends {
        assert ServerEndOk(tcp, s, w);
      } else {
        NoMessages(s.posted, s.ends, v);
      }
    }
  }

  // A step of one client's game.
  lemma {:induction false} GameStepKeeps(cfgs: seq<Settings>, sys: System, i: nat, c: Client)
    requires Inv(cfgs, sys) && i < |sys.clients| && c.uuid == sys.clients[i].uuid
    requires ClientOk(sys.tcp, c, cfgs[i])
    ensures Inv(cfgs, sys.(clients := sys.clients[i := c]))
  {
    hide Tcp.EndsOk, Tcp.LinksOk, ClientOk, ServerOk;
  }

  lemma {:induction false} PollKeeps(cfgs: seq<Settings>, sys: System, i: nat, now: nat, wall: nat)
    requires Inv(cfgs, sys) && Enabled(sys, ClientPoll(i, now, wall))
    ensures Inv(cfgs, Next(cfgs, sys, ClientPoll(i, now, wall)))
  {
    hide Inv, ClientOk, OnEvent;
    InvClient(cfgs, sys, i);
    PollKeepsClient(sys.tcp, sys.clients[i], now, wall, cfgs[i]);
    GameStepKeeps(cfgs, sys, i, PollStep(sys.clients[i], now, wall, cfgs[i]));
  }

  lemma {:induction false} PollKeepsClient(tcp: Tcp.State, c: Client, now: nat, wall: nat, cfg: Settings)
    requires ClientOk(tcp, c, cfg) && c.polled < |c.posted|
    ensures ClientOk(tcp, PollStep(c, now, wall, cfg), cfg)
  {
    hide Runs.Invariant, SendsOf, IdsOf, Recorded, Logged, Sub, OnEvent, Tcp.Received, CommandsLogged;
    var e := Polled(c.posted[c.polled].event, now, wall);
    Runs.EventKeeps(c.app, e, c.start60, c.start20, cfg);
    EventKeepsLogged(c.app, e, cfg);
    Runs.EventFrame(c.app, e, cfg);
    EventRecords(c, c.uuid.value, now, wall, cfg);
    var after := PollStep(c, now, wall, cfg);
    assert after.app.commands[..c.executed] == c.app.commands[..c.executed];
  }

  // No event adds a Send.
  lemma {:induction false} EventKeepsLogged(app: App, e: Polled, cfg: Settings)
    requires CommandsLogged(app)
    ensures CommandsLogged(OnEvent(app, e, cfg))
  {
    hide OnEvent, SendsOf, IdsOf, Logged, Sub;
    Runs.EventFrame(app, e, cfg);
    var after := OnEvent(app, e, cfg);
    forall u: Uuid ensures Sub(IdsOf(SendsOf(after.commands, u)), Logged(after.log)) {
      NoNewSends(app.commands, after.commands, u);
    }
  }

  lemma {:induction false} NoNewSends(commands: seq<Command>, commands': seq<Command>, u: Uuid)
    requires commands <= commands'
    requires forall k :: |commands| <= k < |commands'| ==> !commands'[k].Send?
    ensures SendsOf(commands', u) == SendsOf(commands, u)
  {
    if |commands'| > |commands| {
      NoNewSends(commands, commands'[..|commands'| - 1], u);
    } else {
      assert commands' == commands;
    }
  }

  // Polling a message records its packet or leaves it out.
  lemma {:induction false} EventRecords(c: Client, u: Uuid, now: nat, wall: nat, cfg: Settings)
    requires c.polled < |c.posted| && MessagesFor(c.posted, {u})
    requires Sub(Recorded(c.app.records), IdsOf(Tcp.Received(c.posted[..c.polled], u)))
    ensures var after := PollStep(c, now, wall, cfg);
      Sub(Recorded(after.app.records), IdsOf(Tcp.Received(c.posted[..after.polled], u)))
  {
    hide IdsOf, Recorded, Sub, Tcp.Received, Packets.Parse;
    var entry := c.posted[c.polled];
    var got := Tcp.Received(c.posted[..c.polled], u);
    assert c.posted[..c.polled + 1] == c.posted[..c.polled] + [entry];
    Tcp.ReceivedSnoc(c.posted[..c.polled], entry, u);
    if entry.event.Message? {
      var x := (entry.event.stream, entry.event.data);
      IdsSnoc(got, x);
      if Packets.Parse(x.1).Some? {
        var p := Packets.Parse(x.1).value;
        SubSnoc(Recorded(c.app.records), IdsOf(got), (x.0, p.id));
        RecordedSnoc(c.app.records, RecordOf(x.0, p, wall));
      }
    }
  }

  lemma {:induction false} PaceKeeps(cfgs: seq<Settings>, sys: System, i: nat, clock: Clock)
    requires Inv(cfgs, sys) && Enabled(sys, ClientPace(i, clock))
    ensures Inv(cfgs, Next(cfgs, sys, ClientPace(i, clock)))
  {
    hide Inv, ClientOk, Pace;
    InvClient(cfgs, sys, i);
    PaceKeepsClient(sys.tcp, sys.clients[i], clock, cfgs[i]);
    GameStepKeeps(cfgs, sys, i, sys.clients[i].(app := Pace(sys.clients[i].app, clock, cfgs[i]).0));
  }

  lemma {:induction false} PaceKeepsClient(tcp: Tcp.State, c: Client, clock: Clock, cfg: Settings)
    requires ClientOk(tcp, c, cfg)
    ensures ClientOk(tcp, c.(app := Pace(c.app, clock, cfg).0), cfg)
  {
    hide Runs.Invariant, SendsOf, IdsOf, Recorded, Logged, Sub, Pace, Tcp.Received, CommandsLogged;
    Runs.PaceKeeps(c.app, clock, c.start60, c.start20, cfg);
    PaceKeepsLogged(c.app, clock, cfg);
    PaceOffline(c.app, clock, cfg);
    var after := Pace(c.app, clock, cfg).0;
    assert c.uuid.Some? ==> after.commands[..c.executed] == c.app.commands[..c.executed];
  }

  lemma {:induction false} PaceOffline(app: App, clock: Clock, cfg: Settings)
    ensures app.server.None? ==> Pace(app, clock, cfg).0 == app
  {
    hide SendPacket, CheckDuration;
  }

  lemma {:induction false} PaceKeepsLogged(app: App, clock: Clock, cfg: Settings)
    requires CommandsLogged(app)
    ensures var after := Pace(app, clock, cfg).0;
      CommandsLogged(after) && app.commands <= after.commands && after.records == app.records
  {
    hide SendPacket, CommandsLogged;
    if app.server.Some? {
      var u := app.server.value;
      var a := CheckDuration(app, clock.checked, cfg);
      assert CommandsLogged(a) by { SameCommands(app, a); }
      if !Due60(a, clock.now) || a.unreliable.Some? {
        var b := if Due60(a, clock.now) then Pace60(a, u, clock, cfg) else a;
        if Due60(a, clock.now) {
          SendLogged(a, u, a.unreliable.value, Hz60, clock.stamp60, cfg);
          SameCommands(SendPacket(a, u, a.unreliable.value, Hz60, clock.stamp60, cfg), b);
        }
        assert CommandsLogged(b) && app.commands <= b.commands && b.records == app.records;
        if Due20(b, clock.now) && b.reliable.Some? {
          var d := Pace20(b, u, clock, cfg);
          SendLogged(b, u, b.reliable.value, Hz20, clock.stamp20, cfg);
          SameCommands(SendPacket(b, u, b.reliable.value, Hz20, clock.stamp20, cfg), d);
          assert CommandsLogged(d) && app.commands <= d.commands && d.records == app.records;
          assert Pace(app, clock, cfg).0 == d;
        } else {
          assert Pace(app, clock, cfg).0 == b;
        }
      } else {
        assert Pace(app, clock, cfg).0 == a;
      }
    }
  }

  lemma {:induction false} SameCommands(app: App, app': App)
    requires CommandsLogged(app) && app'.commands == app.commands && app'.log == app.log
    ensures CommandsLogged(app')
  {
  }

  // A packet is sent and logged under the same stream and id.
  lemma {:induction false} SendLogged(app: App, u: Uuid, s: StreamId, rate: Rate, stamp: nat, cfg: Settings)
    requires CommandsLogged(app)
    ensures var after := SendPacket(app, u, s, rate, stamp, cfg);
      CommandsLogged(after) && app.commands <= after.commands && after.records == app.records
  {
    hide SendsOf, IdsOf, Logged, Sub, PacketData, CounterOf;
    var after := SendPacket(app, u, s, rate, stamp, cfg);
    var id := CounterOf(app.sequences, s);
    var data := PacketData(id, stamp, cfg);
    PacketId(id, stamp, cfg);
    LoggedSnoc(app.log, Sent(rate, s, id));
    forall w: Uuid ensures Sub(IdsOf(SendsOf(after.commands, w)), Logged(after.log)) {
      var sends := SendsOf(app.commands, w);
      assert Sub(IdsOf(sends), Logged(app.log));
      SendsSnoc(app.commands, Send(u, s, data), w);
      IdsSnoc(sends, (s, data));
      SubSnoc(IdsOf(sends), Logged(app.log), (s, id % U64));
    }
  }

  lemma {:induction false} PacketId(id: nat, stamp: nat, cfg: Settings)
    ensures Packets.Parse(PacketData(id, stamp, cfg)).Some? && Packets.Parse(PacketData(id, stamp, cfg)).value.id == id % U64
  {
    hide Packets.Parse, Packets.Serialize;
    Packets.ParseSerialize(Packets.Packet(id % U64, stamp % U64, cfg.payload));
  }

  // ------------------------------------------------------------------
  // Commands reach the main loop
  // ------------------------------------------------------------------

  lemma {:induction false} SendsUpTo(commands: seq<Command>, n: nat, u: Uuid)
    requires n < |commands|
    ensures var c := commands[n];
      SendsOf(commands[..n + 1], u)
      == if c.Send? && c.connection == u then SendsOf(commands[..n], u) + [(c.stream, c.data)] else SendsOf(commands[..n], u)
  {
    hide SendsOf;
    assert commands[..n + 1] == commands[..n] + [commands[n]];
    SendsSnoc(commands[..n], commands[n], u);
  }

  // What a step of the main loop may do to the payloads passed to an end.
  ghost predicate Passes(before: seq<Payload>, after: seq<Payload>, c: Command, u: Uuid) {
    after == before || (c.Send? && c.connection == u && after == before + [(c.stream, c.data)])
  }

  lemma {:induction false} PassesSub(before: seq<Payload>, after: seq<Payload>, commands: seq<Command>, n: nat, u: Uuid)
    requires n < |commands| && Sub(before, SendsOf(commands[..n], u)) && Passes(before, after, commands[n], u)
    ensures Sub(after, SendsOf(commands[..n + 1], u))
  {
    hide SendsOf, Sub;
    SendsUpTo(commands, n, u);
    SubSnoc(before, SendsOf(commands[..n], u), (if commands[n].Send? then (commands[n].stream, commands[n].data) else (0, [])));
  }

  lemma {:induction false} ExecuteTrace(tcp: Tcp.State, own: set<Uuid>, c: Command, u: Uuid)
    requires Executable(tcp, own, c)
    ensures var after := Execute(tcp, own, c);
      && after.trace == tcp.trace + New(tcp, after) && MessagesFor(New(tcp, after), {})
      && (u in tcp.ends ==> u in after.ends && Passes(tcp.ends[u].passed, after.ends[u].passed, c, u))
      && (u in tcp.ends && u !in own ==> after.ends[u].passed == tcp.ends[u].passed)
      && Tcp.Received(after.trace, u) == Tcp.Received(tcp.trace, u) + Tcp.Received(New(tcp, after), u)
      && Tcp.Received(New(tcp, after), u) == []
  {
    hide Tcp.Next, Tcp.Enabled, Tcp.Received, New;
    var after := Execute(tcp, own, c);
    if c.Send? && c.connection !in own {
      assert New(tcp, after) == [] by { NothingNew(tcp); }
      assert tcp.trace + [] == tcp.trace;
    } else {
      StepTrace(tcp, CommandLabel(c));
      if u in tcp.ends {
        StepSends(tcp, CommandLabel(c), u);
      }
    }
    ReceivedConcat(tcp.trace, New(tcp, after), u);
    NoMessages(New(tcp, after), {}, u);
  }

  lemma {:induction false} NothingNew(tcp: Tcp.State)
    ensures New(tcp, tcp) == []
  {
  }

  lemma {:induction false} ExecuteKeepsTcp(sys: System, own: set<Uuid>, c: Command, sys': System)
    requires Executable(sys.tcp, own, c) && sys'.tcp == Execute(sys.tcp, own, c)
    requires Tcp.EndsOk(sys.tcp) && Tcp.LinksOk(sys.tcp) && OwnersOk(sys)
    requires sys'.server.ends == sys.server.ends && |sys'.clients| == |sys.clients|
    requires forall i :: 0 <= i < |sys.clients| ==> sys'.clients[i].uuid == sys.clients[i].uuid
    ensures Tcp.EndsOk(sys'.tcp) && Tcp.LinksOk(sys'.tcp) && OwnersOk(sys')
  {
    hide Tcp.EndsOk, Tcp.LinksOk, Tcp.Next, Tcp.Enabled;
    if !(c.Send? && c.connection !in own) {
      hide OwnersOk;
      TcpKeeps(sys.tcp, CommandLabel(c));
      OwnersQuiet(sys, CommandLabel(c), sys');
    }
  }

  // The client whose command is executed.
  lemma {:induction false} ExecutingClient(tcp: Tcp.State, c: Client, u: Uuid)
    requires ConnectedOk(tcp, c, u) && c.uuid == Some(u) && c.executed < |c.app.commands|
    requires Executable(tcp, {u}, c.app.commands[c.executed])
    ensures var after := Execute(tcp, {u}, c.app.commands[c.executed]);
      ConnectedOk(after, Post(c, New(tcp, after)).(executed := c.executed + 1), u)
  {
    hide Tcp.Received, SendsOf, IdsOf, Sub, Recorded, Execute, Executable, New;
    var command := c.app.commands[c.executed];
    var after := Execute(tcp, {u}, command);
    var es := New(tcp, after);
    ExecuteTrace(tcp, {u}, command, u);
    ReceivedConcat(c.posted, es, u);
    assert (c.posted + es)[..c.polled] == c.posted[..c.polled];
    PassesSub(tcp.ends[u].passed, after.ends[u].passed, c.app.commands, c.executed, u);
  }

  // Some process executed a command; this client is not of that process.
  lemma {:induction false} BystandingClient(tcp: Tcp.State, own: set<Uuid>, command: Command, c: Client, cfg: Settings)
    requires ClientOk(tcp, c, cfg) && Executable(tcp, own, command) && (c.uuid.Some? ==> c.uuid.value !in own)
    ensures ClientOk(Execute(tcp, own, command), c, cfg)
  {
    hide Execute, Executable, ConnectedOk, CommandsLogged, Runs.Invariant, Tcp.Received, New;
    if c.uuid.Some? {
      var u := c.uuid.value;
      ExecuteTrace(tcp, own, command, u);
      assert u in tcp.ends by { EndExists(tcp, c, u); }
      ClientUntouched(tcp, Execute(tcp, own, command), c, u);
    }
  }

  lemma {:induction false} EndExists(tcp: Tcp.State, c: Client, u: Uuid)
    requires ConnectedOk(tcp, c, u)
    ensures u in tcp.ends
  {
  }

  lemma {:induction false} BystandingServer(tcp: Tcp.State, own: set<Uuid>, command: Command, s: Server)
    requires ServerOk(tcp, s) && Executable(tcp, own, command) && own !! s.ends
    ensures ServerOk(Execute(tcp, own, command), s)
  {
    hide Execute, Executable, Tcp.Received, New, SendsOf, Sub;
    var after := Execute(tcp, own, command);
    forall v | v in s.ends ensures SameSends(tcp, after, v) && Tcp.Received(after.trace, v) == Tcp.Received(tcp.trace, v) {
      assert ServerEndOk(tcp, s, v);
      ExecuteTrace(tcp, own, command, v);
    }
    ServerUntouched(tcp, after, s);
  }

  lemma {:induction false} ClientExecuteKeeps(cfgs: seq<Settings>, sys: System, i: nat)
    requires Inv(cfgs, sys) && Enabled(sys, ClientExecute(i))
    ensures Inv(cfgs, Next(cfgs, sys, ClientExecute(i)))
  {
    hide Tcp.EndsOk, Tcp.LinksOk, ServerOk, Execute, Executable, ConnectedOk, CommandsLogged, Runs.Invariant, New;
    var c := sys.clients[i];
    var own := OwnOf(c);
    var command := c.app.commands[c.executed];
    var after := Next(cfgs, sys, ClientExecute(i));
    assert ClientOk(sys.tcp, c, cfgs[i]);
    ExecuteKeepsTcp(sys, own, command, after);
    BystandingServer(sys.tcp, own, command, sys.server);
    forall j | 0 <= j < |sys.clients| ensures ClientOk(after.tcp, after.clients[j], cfgs[j]) {
      if j == i {
        ExecutingClient(sys.tcp, c, c.uuid.value);
      } else {
        BystandingClient(sys.tcp, own, command, sys.clients[j], cfgs[j]);
      }
    }
  }

  lemma {:induction false} ServerExecuteKeeps(cfgs: seq<Settings>, sys: System)
    requires Inv(cfgs, sys) && Enabled(sys, ServerExecute)
    ensures Inv(cfgs, Next(cfgs, sys, ServerExecute))
  {
    hide Tcp.EndsOk, Tcp.LinksOk, ServerOk, ClientOk, Execute, Executable, New;
    var s := sys.server;
    var command := s.replies[s.executed];
    var after := Next(cfgs, sys, ServerExecute);
    ExecuteKeepsTcp(sys, s.ends, command, after);
    ExecutingServer(sys.tcp, s);
    forall j | 0 <= j < |sys.clients| ensures ClientOk(after.tcp, after.clients[j], cfgs[j]) {
      BystandingClient(sys.tcp, s.ends, command, sys.clients[j], cfgs[j]);
    }
  }

  lemma {:induction false} ExecutingServer(tcp: Tcp.State, s: Server)
    requires ServerOk(tcp, s) && s.executed < |s.replies| && Executable(tcp, s.ends, s.replies[s.executed])
    ensures var after := Execute(tcp, s.ends, s.replies[s.executed]);
      ServerOk(after, PostServer(s, New(tcp, after)).(executed := s.executed + 1))
  {
    hide Tcp.Received, SendsOf, Sub, Execute, Executable, New;
    var command := s.replies[s.executed];
    var after := Execute(tcp, s.ends, command);
    var es := New(tcp, after);
    var s' := PostServer(s, es).(executed := s.executed + 1);
    ExecuteTrace(tcp, s.ends, command, command.connection);
    assert (s.posted + es)[..s.polled] == s.posted[..s.polled];
    forall v | v in s.ends ensures ServerEndOk(after, s', v) {
      assert ServerEndOk(tcp, s, v);
      ExecuteTrace(tcp, s.ends, command, v);
      ReceivedConcat(s.posted, es, v);
      PassesSub(tcp.ends[v].passed, after.ends[v].passed, s.replies, s.executed, v);
    }
  }

  lemma {:induction false} ServerPollKeeps(cfgs: seq<Settings>, sys: System)
    requires Inv(cfgs, sys) && Enabled(sys, ServerPoll)
    ensures Inv(cfgs, Next(cfgs, sys, ServerPoll))
  {
    hide Tcp.EndsOk, Tcp.LinksOk, ClientOk, ServerOk;
    PollKeepsServer(sys.tcp, sys.server);
  }

  lemma {:induction false} PollKeepsServer(tcp: Tcp.State, s: Server)
    requires ServerOk(tcp, s) && s.polled < |s.posted|
    ensures ServerOk(tcp, ServerPollStep(s))
  {
    hide Tcp.Received, SendsOf, Sub, Echo.Reply;
    var s' := ServerPollStep(s);
    forall v | v in s.ends ensures ServerEndOk(tcp, s', v) {
      assert ServerEndOk(tcp, s, v);
      assert s'.replies[..s.executed] == s.replies[..s.executed];
    }
    forall v: Uuid ensures Sub(SendsOf(s'.replies, v), Tcp.Received(s.posted[..s'.polled], v)) {
      ReplyFollows(s, v);
    }
  }

  // A reply is the message that it answers.
  lemma {:induction false} ReplyFollows(s: Server, v: Uuid)
    requires s.polled < |s.posted| && MessagesFor(s.posted, s.ends)
    requires Sub(SendsOf(s.replies, v), Tcp.Received(s.posted[..s.polled], v))
    ensures var s' := ServerPollStep(s); Sub(SendsOf(s'.replies, v), Tcp.Received(s.posted[..s'.polled], v))
  {
    hide Tcp.Received, SendsOf, Sub, Packets.Parse, Packets.Serialize;
    var entry := s.posted[s.polled];
    var got := Tcp.Received(s.posted[..s.polled], v);
    assert s.posted[..s.polled + 1] == s.posted[..s.polled] + [entry];
    Tcp.ReceivedSnoc(s.posted[..s.polled], entry, v);
    var reply := Echo.Reply(entry.event);
    if reply.Some? {
      Echo.EchoIsIdentical(entry.event);
      SendsSnoc(s.replies, reply.value, v);
      SubSnoc(SendsOf(s.replies, v), got, (entry.event.stream, entry.event.data));
    } else {
      assert s.replies + [] == s.replies;
      if entry.event.Message? {
        SubSnoc(SendsOf(s.replies, v), got, (entry.event.stream, entry.event.data));
      }
    }
  }

  // ------------------------------------------------------------------
  // Every run
  // ------------------------------------------------------------------

  lemma {:induction false} InitialHolds(cfgs: seq<Settings>, sys: System)
    requires Initial(cfgs, sys)
    ensures Inv(cfgs, sys)
  {
    Tcp.RunHolds([]);
    forall i | 0 <= i < |sys.clients| ensures ClientOk(sys.tcp, sys.clients[i], cfgs[i]) {
      Runs.StartHolds(sys.clients[i].start60, sys.clients[i].start20, cfgs[i]);
    }
  }

  lemma {:induction false} StepKeeps(cfgs: seq<Settings>, sys: System, l: Label)
    requires Inv(cfgs, sys) && Enabled(sys, l)
    ensures Inv(cfgs, Next(cfgs, sys, l))
  {
    hide Inv, Next, Enabled;
    match l
    case ClientConnect(i, u) => ConnectKeeps(cfgs, sys, i, u);
    case ServerAccept(v, o) => AcceptKeeps(cfgs, sys, v, o);
    case Background(t) => BackgroundKeeps(cfgs, sys, t);
    case TaskStep(t) => TaskKeeps(cfgs, sys, t);
    case ClientPoll(i, now, wall) => PollKeeps(cfgs, sys, i, now, wall);
    case ClientPace(i, clock) => PaceKeeps(cfgs, sys, i, clock);
    case ClientExecute(i) => ClientExecuteKeeps(cfgs, sys, i);
    case ServerPoll => ServerPollKeeps(cfgs, sys);
    case ServerExecute => ServerExecuteKeeps(cfgs, sys);
  }

  lemma {:induction false} RunHolds(cfgs: seq<Settings>, run: seq<System>, labels: seq<Label>, k: nat)
    requires IsRun(cfgs, run, labels) && k < |run|
    ensures Inv(cfgs, run[k])
  {
    hide Inv, IsStep, Initial;
    if k == 0 {
      InitialHolds(cfgs, run[0]);
    } else {
      RunHolds(cfgs, run, labels, k - 1);
      assert IsStep(cfgs, run[k - 1], labels[k - 1], run[k]);
      OneStep(cfgs, run[k - 1], labels[k - 1], run[k]);
    }
  }

  lemma {:induction false} OneStep(cfgs: seq<Settings>, sys: System, l: Label, sys': System)
    requires Inv(cfgs, sys) && IsStep(cfgs, sys, l, sys')
    ensures Inv(cfgs, sys')
  {
    hide Inv, Next, Enabled;
    StepKeeps(cfgs, sys, l);
  }

  // In every run, what a client records are some of the packets it sent, in the order in which
  // it sent them: TCP neither repeats nor overtakes.
  lemma {:induction false} RecordsFollowSends(cfgs: seq<Settings>, run: seq<System>, labels: seq<Label>, k: nat, i: nat)
    requires IsRun(cfgs, run, labels) && k < |run| && i < |run[k].clients|
    ensures var app := run[k].clients[i].app; Sub(Recorded(app.records), Logged(app.log))
  {
    hide Inv, IsRun, ConnectedOk, ServerOk, OwnersOk, Tcp.EndsOk, Tcp.LinksOk, Sub, Logged;
    RunHolds(cfgs, run, labels, k);
    InvClient(cfgs, run[k], i);
    InvParts(cfgs, run[k]);
    var c := run[k].clients[i];
    if c.uuid.Some? {
      ThereAndBack(cfgs, run[k], i, c.uuid.value);
    } else {
      NothingRecorded(c.app.log);
    }
  }

  lemma {:induction false} NothingRecorded(log: seq<Sent>)
    ensures Sub(Recorded([]), Logged(log))
  {
  }

  // The chain from the client's sends to the server and back to its records.
  lemma {:induction false} ThereAndBack(cfgs: seq<Settings>, sys: System, i: nat, u: Uuid)
    requires Inv(cfgs, sys) && i < |sys.clients| && sys.clients[i].uuid == Some(u)
    ensures var app := sys.clients[i].app; Sub(Recorded(app.records), Logged(app.log))
  {
    hide Tcp.EndsOk, Sub, IdsOf, SendsOf, Logged, Recorded, Tcp.Received, Tcp.Fitting, Runs.Invariant;
    var c := sys.clients[i];
    assert ClientOk(sys.tcp, c, cfgs[i]) && Tcp.LinkOk(sys.tcp, u);
    var commands := c.app.commands;
    var polled, posted := Tcp.Received(c.posted[..c.polled], u), Tcp.Received(c.posted, u);
    ReceivedPrefix(c.posted, c.polled, u);
    if sys.tcp.ends[u].peer.None? {
      assert posted == [] && polled == [];
      EmptySub(polled, SendsOf(commands, u));
    } else {
      var v := sys.tcp.ends[u].peer.value;
      assert Tcp.LinkOk(sys.tcp, v) && ServerEndOk(sys.tcp, sys.server, v);
      Delivered(sys.tcp, v, u, polled);
      SentUpTo(sys.server.replies, sys.server.executed, v, sys.tcp.ends[v].passed);
      SubTransitive(polled, sys.tcp.ends[v].passed, SendsOf(sys.server.replies, v));
      var served := Tcp.Received(sys.server.posted[..sys.server.polled], v);
      SubTransitive(polled, SendsOf(sys.server.replies, v), served);
      ReceivedPrefix(sys.server.posted, sys.server.polled, v);
      Delivered(sys.tcp, u, v, served);
      SentUpTo(commands, c.executed, u, sys.tcp.ends[u].passed);
      SubTransitive(served, sys.tcp.ends[u].passed, SendsOf(commands, u));
      SubTransitive(polled, served, SendsOf(commands, u));
    }
    SubIds(polled, SendsOf(commands, u));
    SubTransitive(Recorded(c.app.records), IdsOf(polled), IdsOf(SendsOf(commands, u)));
    SubTransitive(Recorded(c.app.records), IdsOf(SendsOf(commands, u)), Logged(c.app.log));
  }

  lemma {:induction false} EmptySub(a: seq<Payload>, b: seq<Payload>)
    requires a == []
    ensures Sub(a, b)
  {
  }

  lemma {:induction false} ReceivedPrefix(entries: seq<Entry>, n: nat, u: Uuid)
    requires n <= |entries|
    ensures Tcp.Received(entries[..n], u) <= Tcp.Received(entries, u)
  {
    hide Tcp.Received;
    assert entries == entries[..n] + entries[n..];
    ReceivedConcat(entries[..n], entries[n..], u);
  }

  // Part of what end w received is a subsequence of what was passed to its partner v.
  lemma {:induction false} Delivered(tcp: Tcp.State, v: Uuid, w: Uuid, got: seq<Payload>)
    requires w in tcp.ends && Tcp.LinkOk(tcp, w) && tcp.ends[w].peer == Some(v) && got <= Tcp.Received(tcp.trace, w)
    ensures Sub(got, tcp.ends[v].passed)
  {
    hide Tcp.Received, Tcp.Fitting, Sub;
    FittingSub(tcp.ends[v].passed);
    SubPrefix(Tcp.Fitting(tcp.ends[v].passed), got, tcp.ends[v].passed);
  }

  lemma {:induction false} SentUpTo(commands: seq<Command>, n: nat, u: Uuid, passed: seq<Payload>)
    requires n <= |commands| && Sub(passed, SendsOf(commands[..n], u))
    ensures Sub(passed, SendsOf(commands, u))
    decreases |commands| - n
  {
    hide SendsOf, Sub;
    if n == |commands| {
      assert commands[..n] == commands;
    } else {
      PassesSub(passed, passed, commands, n, u);
      SentUpTo(commands, n + 1, u, passed);
    }
  }
}
