// Any number of QUIC processes that open connections and streams to each other, in every
// interleaving. A process is the list of inputs its backend has taken.
//
// The network delivers what the processes write: a stream reader takes the next whole message
// of what its peer has written so far, a datagram reader any datagram of its peer, at any time
// and any number of times.
module QuicSystem {
  import opened Bytes
  import opened Options
  import opened Sockets
  import opened QuicStreams
  import opened QuicBackend
  import opened QuicHistory
  import opened Subsequences

  // One side of a connection: the process, and the UUID it drew for the connection.
  datatype Side = Side(process: nat, connection: Uuid)

  // A bidirectional stream: the wires of its two sides, and the messages that their readers
  // have posted.
  datatype Stream = Stream(
    opener: Side, half: nat, acceptor: Option<(Side, nat)>,
    toAcceptor: seq<seq<byte>>, toOpener: seq<seq<byte>>)

  // `peer` joins the two sides of every connection since its handshake; `dialled` has those
  // sides that asked for it, and `started` those whose process has been told.
  datatype System = System(
    histories: seq<seq<Input>>, peer: map<Side, Side>, dialled: set<Side>, started: set<Side>,
    streams: seq<Stream>)

  datatype Label =
    | Handshake(from: Side, to: Side)
    | Connect(side: Side)
    | Accept(side: Side)
    | Local(p: nat, input: Input)
    | AcceptStream(k: nat)
    | ReadAccepted(k: nat)
    | ReadOpened(k: nat)
    | ReadDatagram(side: Side, n: nat)

  // What the game does, and the registrations that the main loop takes from its channels.
  predicate IsLocal(i: Input) {
    i.Send? || i.CreateStream? || i.CloseStream? || i.ConnectionRegistered? || i.StreamRegistered?
  }

  function StateOf(sys: System, p: nat): State
    requires p < |sys.histories|
  {
    Run(sys.histories[p])
  }

  // A side that exists and whose readers run.
  predicate Reads(sys: System, side: Side) {
    side.process < |sys.histories| && side.connection in StateOf(sys, side.process).readers
  }

  function OpenerWire(sys: System, k: nat): Option<Wire> {
    if k >= |sys.streams| then None else
    var st := sys.streams[k];
    if st.opener.process < |sys.histories| && st.half < |StateOf(sys, st.opener.process).wires|
    then Some(StateOf(sys, st.opener.process).wires[st.half]) else None
  }

  function AcceptorWire(sys: System, k: nat): Option<Wire> {
    if k >= |sys.streams| || sys.streams[k].acceptor.None? then None else
    var (side, h) := sys.streams[k].acceptor.value;
    if side.process < |sys.histories| && h < |StateOf(sys, side.process).wires|
    then Some(StateOf(sys, side.process).wires[h]) else None
  }

  predicate IsNew(sys: System, side: Side) {
    side.process < |sys.histories| && side in sys.peer && side !in sys.started
  }

  predicate Enabled(sys: System, l: Label) {
    match l
    case Handshake(from, to) =>
      && from.process < |sys.histories| && to.process < |sys.histories|
      && from !in sys.peer && to !in sys.peer && from != to
    case Connect(side) => IsNew(sys, side) && side in sys.dialled
    case Accept(side) => IsNew(sys, side) && side !in sys.dialled
    case Local(p, i) => p < |sys.histories| && IsLocal(i)
    case AcceptStream(k) =>
      && k < |sys.streams| && OpenerWire(sys, k).Some? && |OpenerWire(sys, k).value.header| >= 2
      && sys.streams[k].acceptor.None? && sys.streams[k].opener in sys.peer
      && Reads(sys, sys.peer[sys.streams[k].opener])
    case ReadAccepted(k) =>
      && k < |sys.streams| && sys.streams[k].acceptor.Some?
      && OpenerWire(sys, k).Some? && |OpenerWire(sys, k).value.header| >= 2 && AcceptorWire(sys, k).Some?
      && |sys.streams[k].toAcceptor| < |Decode(OpenerWire(sys, k).value.body)|
    case ReadOpened(k) =>
      && k < |sys.streams| && sys.streams[k].acceptor.Some?
      && OpenerWire(sys, k).Some? && AcceptorWire(sys, k).Some?
      && |sys.streams[k].toOpener| < |Decode(AcceptorWire(sys, k).value.body)|
    case ReadDatagram(side, n) =>
      && side in sys.peer && side.process < |sys.histories| && sys.peer[side].process < |sys.histories|
      && n < |StateOf(sys, sys.peer[side].process).datagrams|
      && StateOf(sys, sys.peer[side].process).datagrams[n].0 == sys.peer[side].connection
  }

  function Take(sys: System, p: nat, i: Input): System
    requires p < |sys.histories|
  {
    sys.(histories := sys.histories[p := sys.histories[p] + [i]])
  }

  // A Reliable CreateStream on a connection that the main loop knows opens a stream.
  function LocalStep(sys: System, p: nat, i: Input): System
    requires p < |sys.histories|
  {
    var after := Take(sys, p, i);
    if i.CreateStream? && i.reliability.Reliable? && i.u in StateOf(sys, p).connections
    then after.(streams := sys.streams + [Stream(Side(p, i.u), |StateOf(sys, p).wires|, None, [], [])])
    else after
  }

  function AcceptStreamStep(sys: System, k: nat): System
    requires Enabled(sys, AcceptStream(k))
  {
    var st := sys.streams[k];
    var side := sys.peer[st.opener];
    var number := StreamNumber(OpenerWire(sys, k).value.header);
    Take(sys, side.process, StreamAccepted(side.connection, number))
    .(streams := sys.streams[k := st.(acceptor := Some((side, |StateOf(sys, side.process).wires|)))])
  }

  function ReadAcceptedStep(sys: System, k: nat): System
    requires Enabled(sys, ReadAccepted(k))
  {
    var st := sys.streams[k];
    var side := st.acceptor.value.0;
    var wire := OpenerWire(sys, k).value;
    var m := Decode(wire.body)[|st.toAcceptor|];
    Take(sys, side.process, MessageRead(side.connection, StreamNumber(wire.header), m))
    .(streams := sys.streams[k := st.(toAcceptor := st.toAcceptor + [m])])
  }

  function ReadOpenedStep(sys: System, k: nat): System
    requires Enabled(sys, ReadOpened(k))
  {
    var st := sys.streams[k];
    var m := Decode(AcceptorWire(sys, k).value.body)[|st.toOpener|];
    Take(sys, st.opener.process, MessageRead(st.opener.connection, OpenerWire(sys, k).value.number, m))
    .(streams := sys.streams[k := st.(toOpener := st.toOpener + [m])])
  }

  function Next(sys: System, l: Label): System
    requires Enabled(sys, l)
  {
    match l
    case Handshake(from, to) =>
      sys.(peer := sys.peer[from := to][to := from], dialled := sys.dialled + {from})
    case Connect(side) =>
      Take(sys, side.process, Input.Connected(side.connection)).(started := sys.started + {side})
    case Accept(side) =>
      Take(sys, side.process, Accepted(side.connection)).(started := sys.started + {side})
    case Local(p, i) => LocalStep(sys, p, i)
    case AcceptStream(k) => AcceptStreamStep(sys, k)
    case ReadAccepted(k) => ReadAcceptedStep(sys, k)
    case ReadOpened(k) => ReadOpenedStep(sys, k)
    case ReadDatagram(side, n) =>
      Take(sys, side.process, DatagramRead(side.connection, StateOf(sys, sys.peer[side].process).datagrams[n].1))
  }

  function Nothing(processes: nat): System {
    System(seq(processes, (p: nat) => []), map[], {}, {}, [])
  }

  // A run is any sequence of steps; one that is not enabled does nothing.
  function RunSystem(processes: nat, labels: seq<Label>): System {
    if labels == [] then Nothing(processes) else
    var before := RunSystem(processes, labels[..|labels| - 1]);
    if Enabled(before, labels[|labels| - 1]) then Next(before, labels[|labels| - 1]) else before
  }

  // ------------------------------------------------------------------
  // The invariant
  // ------------------------------------------------------------------

  // Connections join two different sides.
  ghost predicate PeersOk(sys: System) {
    forall s :: s in sys.peer ==>
      && s.process < |sys.histories| && sys.peer[s] in sys.peer
      && sys.peer[sys.peer[s]] == s && sys.peer[s] != s
  }

  ghost predicate IsPeer(sys: System, s: Side, t: Side) {
    s in sys.peer && sys.peer[s] == t
  }

  // Both wires belong to the stream, under one number; each reader has posted a first part of
  // what the other side's wire decodes to.
  ghost predicate StreamOk(sys: System, k: nat)
    requires k < |sys.streams|
  {
    var st := sys.streams[k];
    && OpenerWire(sys, k).Some?
    && var w := OpenerWire(sys, k).value;
       && w.connection == st.opener.connection && w.header == PutBe(2, w.number)
       && st.toAcceptor <= Decode(w.body)
       && match st.acceptor
          case None => st.toAcceptor == [] && st.toOpener == []
          case Some((side, h)) =>
            && IsPeer(sys, st.opener, side) && AcceptorWire(sys, k).Some?
            && AcceptorWire(sys, k).value.connection == side.connection
            && AcceptorWire(sys, k).value.number == w.number
            && st.toOpener <= Decode(AcceptorWire(sys, k).value.body)
  }

  ghost predicate StreamsOk(sys: System) {
    forall k :: 0 <= k < |sys.streams| ==> StreamOk(sys, k)
  }

  // The reader of `side` has posted m from stream k.
  ghost predicate PostedFrom(sys: System, k: nat, side: Side, n: StreamId, m: seq<byte>) {
    && k < |sys.streams| && OpenerWire(sys, k).Some? && OpenerWire(sys, k).value.number == n
    && var st := sys.streams[k];
       || (st.opener == side && m in st.toOpener)
       || (st.acceptor.Some? && st.acceptor.value.0 == side && m in st.toAcceptor)
  }

  ghost predicate HasDatagram(sys: System, side: Side, bytes: seq<byte>) {
    side.process < |sys.histories| && (side.connection, bytes) in StateOf(sys, side.process).datagrams
  }

  // Where a process got an input of its readers from.
  ghost predicate Explained(sys: System, p: nat, i: Input) {
    match i
    case MessageRead(v, n, m) => exists k: nat :: PostedFrom(sys, k, Side(p, v), n, m)
    case DatagramRead(v, bytes) => Side(p, v) in sys.peer && HasDatagram(sys, sys.peer[Side(p, v)], bytes)
    case _ => true
  }

  ghost predicate HistoriesOk(sys: System) {
    forall p, j :: 0 <= p < |sys.histories| && 0 <= j < |sys.histories[p]| ==> Explained(sys, p, sys.histories[p][j])
  }

  ghost predicate Inv(sys: System) {
    PeersOk(sys) && StreamsOk(sys) && HistoriesOk(sys)
  }

  // ------------------------------------------------------------------
  // Nothing is taken back
  // ------------------------------------------------------------------

  ghost predicate StreamGrows(st: Stream, st': Stream) {
    && st'.opener == st.opener && st'.half == st.half
    && (st.acceptor.Some? ==> st'.acceptor == st.acceptor)
    && st.toAcceptor <= st'.toAcceptor && st.toOpener <= st'.toOpener
  }

  ghost predicate SystemGrows(sys: System, sys': System) {
    && |sys.histories| == |sys'.histories|
    && (forall p :: 0 <= p < |sys.histories| ==> sys.histories[p] <= sys'.histories[p])
    && (forall s :: s in sys.peer ==> IsPeer(sys', s, sys.peer[s]))
    && |sys.streams| <= |sys'.streams|
    && (forall k :: 0 <= k < |sys.streams| ==> StreamGrows(sys.streams[k], sys'.streams[k]))
  }

  lemma {:induction false} WiresGrow(sys: System, sys': System, k: nat)
    requires SystemGrows(sys, sys') && k < |sys.streams|
    ensures OpenerWire(sys, k).Some? ==>
      OpenerWire(sys', k).Some? && WireGrows(OpenerWire(sys, k).value, OpenerWire(sys', k).value)
    ensures AcceptorWire(sys, k).Some? ==>
      AcceptorWire(sys', k).Some? && WireGrows(AcceptorWire(sys, k).value, AcceptorWire(sys', k).value)
  {
    hide Run, WireGrows;
    var (st, st') := (sys.streams[k], sys'.streams[k]);
    assert StreamGrows(st, st');
    if OpenerWire(sys, k).Some? {
      RunGrows(sys.histories[st.opener.process], sys'.histories[st.opener.process]);
    }
    if AcceptorWire(sys, k).Some? {
      var side := st.acceptor.value.0;
      RunGrows(sys.histories[side.process], sys'.histories[side.process]);
    }
  }

  lemma {:induction false} DecodeGrows(body: seq<byte>, body': seq<byte>)
    requires body <= body'
    ensures Decode(body) <= Decode(body')
  {
    hide Decode;
    assert body'[..|body|] == body;
    TruncationYieldsPrefix(body', |body|);
  }

  // A stream whose own record did not change is still in order.
  lemma {:induction false} StreamStaysOk(sys: System, sys': System, k: nat)
    requires SystemGrows(sys, sys') && k < |sys.streams| && StreamOk(sys, k) && sys'.streams[k] == sys.streams[k]
    ensures StreamOk(sys', k)
  {
    hide Decode, OpenerWire, AcceptorWire, PutBe;
    WiresGrow(sys, sys', k);
    DecodeGrows(OpenerWire(sys, k).value.body, OpenerWire(sys', k).value.body);
    if sys.streams[k].acceptor.Some? {
      DecodeGrows(AcceptorWire(sys, k).value.body, AcceptorWire(sys', k).value.body);
    }
  }

  lemma {:induction false} ExplainedGrows(sys: System, sys': System, p: nat, i: Input)
    requires SystemGrows(sys, sys') && Explained(sys, p, i)
    ensures Explained(sys', p, i)
  {
    hide OpenerWire, AcceptorWire, Run;
    if i.MessageRead? {
      var k: nat :| PostedFrom(sys, k, Side(p, i.u), i.number, i.data);
      WiresGrow(sys, sys', k);
      assert StreamGrows(sys.streams[k], sys'.streams[k]);
      assert PostedFrom(sys', k, Side(p, i.u), i.number, i.data);
    } else if i.DatagramRead? {
      var side := sys.peer[Side(p, i.u)];
      assert IsPeer(sys', Side(p, i.u), side);
      RunGrows(sys.histories[side.process], sys'.histories[side.process]);
    }
  }

  // A step that leaves the histories as they are.
  lemma {:induction false} SameHistories(sys: System, sys': System)
    requires HistoriesOk(sys) && SystemGrows(sys, sys') && sys'.histories == sys.histories
    ensures HistoriesOk(sys')
  {
    hide Explained, SystemGrows;
    forall q, j | 0 <= q < |sys'.histories| && 0 <= j < |sys'.histories[q]|
      ensures Explained(sys', q, sys'.histories[q][j])
    {
      ExplainedGrows(sys, sys', q, sys.histories[q][j]);
    }
  }

  // One process takes one input that is explained in the new system.
  lemma {:induction false} TakeKeepsHistories(sys: System, sys': System, p: nat, i: Input)
    requires HistoriesOk(sys) && SystemGrows(sys, sys') && p < |sys.histories|
    requires sys'.histories == sys.histories[p := sys.histories[p] + [i]]
    requires Explained(sys', p, i)
    ensures HistoriesOk(sys')
  {
    hide Explained, SystemGrows;
    forall q, j | 0 <= q < |sys'.histories| && 0 <= j < |sys'.histories[q]|
      ensures Explained(sys', q, sys'.histories[q][j])
    {
      if j < |sys.histories[q]| {
        assert sys'.histories[q][j] == sys.histories[q][j];
        ExplainedGrows(sys, sys', q, sys.histories[q][j]);
      }
    }
  }

  // ------------------------------------------------------------------
  // Steps
  // ------------------------------------------------------------------

  // Only one stream record may change, and that one is in order.
  lemma {:induction false} StreamsStayOk(sys: System, sys': System, changed: nat)
    requires StreamsOk(sys) && SystemGrows(sys, sys')
    requires forall k :: 0 <= k < |sys.streams| && k != changed ==> sys'.streams[k] == sys.streams[k]
    requires |sys'.streams| <= |sys.streams| || (|sys'.streams| == |sys.streams| + 1 && changed == |sys.streams|)
    requires changed < |sys'.streams| ==> StreamOk(sys', changed)
    ensures StreamsOk(sys')
  {
    hide StreamOk, SystemGrows;
    forall k | 0 <= k < |sys'.streams| ensures StreamOk(sys', k) {
      if k != changed {
        assert StreamOk(sys, k);
        StreamStaysOk(sys, sys', k);
      }
    }
  }

  lemma {:induction false} HandshakeKeeps(sys: System, from: Side, to: Side)
    requires Inv(sys) && Enabled(sys, Handshake(from, to))
    ensures Inv(Next(sys, Handshake(from, to)))
  {
    hide StreamOk, Explained;
    var after := Next(sys, Handshake(from, to));
    assert SystemGrows(sys, after);
    SameHistories(sys, after);
    forall k | 0 <= k < |after.streams| ensures StreamOk(after, k) {
      StreamStaysOk(sys, after, k);
    }
  }

  // A process takes an input that needs no explanation, and no stream is opened.
  lemma {:induction false} TakeKeeps(sys: System, sys': System, p: nat, i: Input)
    requires Inv(sys) && p < |sys.histories| && Explained(sys', p, i)
    requires sys'.histories == sys.histories[p := sys.histories[p] + [i]]
    requires sys'.peer == sys.peer && sys'.streams == sys.streams
    ensures Inv(sys')
  {
    hide StreamOk, Explained;
    assert SystemGrows(sys, sys');
    TakeKeepsHistories(sys, sys', p, i);
    forall k | 0 <= k < |sys'.streams| ensures StreamOk(sys', k) {
      StreamStaysOk(sys, sys', k);
    }
  }

  lemma {:induction false} OpenKeeps(sys: System, p: nat, i: Input)
    requires Inv(sys) && Enabled(sys, Local(p, i))
    requires i.CreateStream? && i.reliability.Reliable? && i.u in StateOf(sys, p).connections
    ensures Inv(LocalStep(sys, p, i))
  {
    hide StreamOk, Explained, Run, SystemGrows;
    var after := LocalStep(sys, p, i);
    var k := |sys.streams|;
    LocalGrows(sys, p, i);
    TakeKeepsHistories(sys, after, p, i) by { assert Explained(after, p, i) by { NeedsNothing(after, p, i); } }
    OpenedStreamOk(sys, p, i);
    StreamsStayOk(sys, after, k);
  }

  lemma {:induction false} NeedsNothing(sys: System, p: nat, i: Input)
    requires !i.MessageRead? && !i.DatagramRead?
    ensures Explained(sys, p, i)
  {
  }

  lemma {:induction false} LocalGrows(sys: System, p: nat, i: Input)
    requires Enabled(sys, Local(p, i))
    ensures SystemGrows(sys, LocalStep(sys, p, i))
  {
    hide Run;
  }

  lemma {:induction false} OpenedStreamOk(sys: System, p: nat, i: Input)
    requires Enabled(sys, Local(p, i))
    requires i.CreateStream? && i.reliability.Reliable? && i.u in StateOf(sys, p).connections
    ensures StreamOk(LocalStep(sys, p, i), |sys.streams|)
  {
    hide Decode, PutBe, NewStream, Run;
    RunSnoc(sys.histories[p], i);
  }

  lemma {:induction false} AcceptStreamKeeps(sys: System, k: nat)
    requires Inv(sys) && Enabled(sys, AcceptStream(k))
    ensures Inv(Next(sys, AcceptStream(k)))
  {
    hide StreamOk, Explained, Run, SystemGrows;
    var after := AcceptStreamStep(sys, k);
    var st := sys.streams[k];
    var side := sys.peer[st.opener];
    var i := StreamAccepted(side.connection, StreamNumber(OpenerWire(sys, k).value.header));
    assert StreamOk(sys, k);
    AcceptStreamGrows(sys, k);
    NeedsNothing(after, side.process, i);
    TakeKeepsHistories(sys, after, side.process, i);
    AcceptedStreamOk(sys, k);
    StreamsStayOk(sys, after, k);
  }

  lemma {:induction false} AcceptStreamGrows(sys: System, k: nat)
    requires Enabled(sys, AcceptStream(k))
    ensures SystemGrows(sys, AcceptStreamStep(sys, k))
  {
    hide Run, StreamNumber;
  }

  lemma {:induction false} AcceptedStreamOk(sys: System, k: nat)
    requires Enabled(sys, AcceptStream(k)) && StreamOk(sys, k) && PeersOk(sys)
    ensures StreamOk(AcceptStreamStep(sys, k), k)
  {
    hide Decode, PutBe, GetBe, NewStream, Run;
    var after := AcceptStreamStep(sys, k);
    var side := sys.peer[sys.streams[k].opener];
    var w := OpenerWire(sys, k).value;
    AcceptStreamGrows(sys, k);
    WiresGrow(sys, after, k);
    DecodeGrows(w.body, OpenerWire(after, k).value.body);
    NumberRead(w.number);
    RunSnoc(sys.histories[side.process], StreamAccepted(side.connection, w.number));
  }

  lemma {:induction false} NumberRead(number: StreamId)
    ensures |PutBe(2, number)| == 2 && StreamNumber(PutBe(2, number)) == number
  {
    Widths();
    GetPut(2, number);
    assert PutBe(2, number)[..2] == PutBe(2, number);
  }

  lemma {:induction false} NextMessage(got: seq<seq<byte>>, body: seq<byte>)
    requires got <= Decode(body) && |got| < |Decode(body)|
    ensures got + [Decode(body)[|got|]] <= Decode(body)
  {
    hide Decode;
  }

  lemma {:induction false} ReadAcceptedKeeps(sys: System, k: nat)
    requires Inv(sys) && Enabled(sys, ReadAccepted(k))
    ensures Inv(Next(sys, ReadAccepted(k)))
  {
    hide StreamOk, Explained, Run, SystemGrows, Decode, OpenerWire;
    var after := ReadAcceptedStep(sys, k);
    var side := sys.streams[k].acceptor.value.0;
    var w := OpenerWire(sys, k).value;
    var m := Decode(w.body)[|sys.streams[k].toAcceptor|];
    assert StreamOk(sys, k);
    ReadAcceptedGrows(sys, k);
    ReadAcceptedOk(sys, k);
    TakeKeepsHistories(sys, after, side.process, MessageRead(side.connection, StreamNumber(w.header), m));
    StreamsStayOk(sys, after, k);
  }

  lemma {:induction false} ReadAcceptedGrows(sys: System, k: nat)
    requires Enabled(sys, ReadAccepted(k))
    ensures SystemGrows(sys, ReadAcceptedStep(sys, k))
  {
    hide Run, StreamNumber, Decode;
  }

  lemma {:induction false} ReadAcceptedOk(sys: System, k: nat)
    requires Enabled(sys, ReadAccepted(k)) && StreamOk(sys, k)
    ensures var side := sys.streams[k].acceptor.value.0;
      var w := OpenerWire(sys, k).value;
      var m := Decode(w.body)[|sys.streams[k].toAcceptor|];
      var after := ReadAcceptedStep(sys, k);
      StreamOk(after, k) && Explained(after, side.process, MessageRead(side.connection, StreamNumber(w.header), m))
  {
    hide Decode, PutBe, GetBe, OpenerWire, AcceptorWire, SystemGrows, StreamNumber, Run;
    var after := ReadAcceptedStep(sys, k);
    var (w, a) := (OpenerWire(sys, k).value, AcceptorWire(sys, k).value);
    var st := sys.streams[k];
    ReadAcceptedGrows(sys, k);
    WiresGrow(sys, after, k);
    NextMessage(st.toAcceptor, w.body);
    DecodeGrows(w.body, OpenerWire(after, k).value.body);
    DecodeGrows(a.body, AcceptorWire(after, k).value.body);
    NumberRead(w.number);
    var m := Decode(w.body)[|st.toAcceptor|];
    assert after.streams[k].toAcceptor[|st.toAcceptor|] == m;
    assert PostedFrom(after, k, st.acceptor.value.0, w.number, m);
  }

  lemma {:induction false} ReadOpenedKeeps(sys: System, k: nat)
    requires Inv(sys) && Enabled(sys, ReadOpened(k))
    ensures Inv(Next(sys, ReadOpened(k)))
  {
    hide StreamOk, Explained, Run, SystemGrows, Decode, AcceptorWire;
    var after := ReadOpenedStep(sys, k);
    var side := sys.streams[k].opener;
    var m := Decode(AcceptorWire(sys, k).value.body)[|sys.streams[k].toOpener|];
    assert StreamOk(sys, k);
    ReadOpenedGrows(sys, k);
    ReadOpenedOk(sys, k);
    TakeKeepsHistories(sys, after, side.process, MessageRead(side.connection, OpenerWire(sys, k).value.number, m));
    StreamsStayOk(sys, after, k);
  }

  lemma {:induction false} ReadOpenedGrows(sys: System, k: nat)
    requires Enabled(sys, ReadOpened(k))
    ensures SystemGrows(sys, ReadOpenedStep(sys, k))
  {
    hide Run, Decode;
  }

  lemma {:induction false} ReadOpenedOk(sys: System, k: nat)
    requires Enabled(sys, ReadOpened(k)) && StreamOk(sys, k)
    ensures var side := sys.streams[k].opener;
      var m := Decode(AcceptorWire(sys, k).value.body)[|sys.streams[k].toOpener|];
      var after := ReadOpenedStep(sys, k);
      StreamOk(after, k)
      && Explained(after, side.process, MessageRead(side.connection, OpenerWire(sys, k).value.number, m))
  {
    hide Decode, PutBe, OpenerWire, AcceptorWire, SystemGrows, Run;
    var after := ReadOpenedStep(sys, k);
    var (w, a) := (OpenerWire(sys, k).value, AcceptorWire(sys, k).value);
    var st := sys.streams[k];
    ReadOpenedGrows(sys, k);
    WiresGrow(sys, after, k);
    NextMessage(st.toOpener, a.body);
    DecodeGrows(w.body, OpenerWire(after, k).value.body);
    DecodeGrows(a.body, AcceptorWire(after, k).value.body);
    var m := Decode(a.body)[|st.toOpener|];
    assert after.streams[k].toOpener[|st.toOpener|] == m;
    assert PostedFrom(after, k, st.opener, w.number, m);
  }

  lemma {:induction false} ReadDatagramKeeps(sys: System, side: Side, n: nat)
    requires Inv(sys) && Enabled(sys, ReadDatagram(side, n))
    ensures Inv(Next(sys, ReadDatagram(side, n)))
  {
    hide Inv, Run;
    var other := sys.peer[side];
    var d := StateOf(sys, other.process).datagrams[n];
    var after := Next(sys, ReadDatagram(side, n));
    RunGrows(sys.histories[other.process], after.histories[other.process]);
    assert d == (other.connection, d.1) && d in StateOf(sys, other.process).datagrams;
    assert HasDatagram(after, other, d.1);
    TakeKeeps(sys, after, side.process, DatagramRead(side.connection, d.1));
  }

  lemma {:induction false} StepKeeps(sys: System, l: Label)
    requires Inv(sys) && Enabled(sys, l)
    ensures Inv(Next(sys, l))
  {
    hide Inv;
    match l
    case Handshake(from, to) => HandshakeKeeps(sys, from, to);
    case Connect(side) => TakeKeeps(sys, Next(sys, l), side.process, Input.Connected(side.connection));
    case Accept(side) => TakeKeeps(sys, Next(sys, l), side.process, Accepted(side.connection));
    case Local(p, i) =>
      if i.CreateStream? && i.reliability.Reliable? && i.u in StateOf(sys, p).connections {
        OpenKeeps(sys, p, i);
      } else {
        TakeKeeps(sys, Next(sys, l), p, i);
      }
    case AcceptStream(k) => AcceptStreamKeeps(sys, k);
    case ReadAccepted(k) => ReadAcceptedKeeps(sys, k);
    case ReadOpened(k) => ReadOpenedKeeps(sys, k);
    case ReadDatagram(side, n) => ReadDatagramKeeps(sys, side, n);
  }

  lemma {:induction false} RunKeeps(processes: nat, labels: seq<Label>)
    ensures Inv(RunSystem(processes, labels))
  {
    if labels != [] {
      var before, l := RunSystem(processes, labels[..|labels| - 1]), labels[|labels| - 1];
      RunKeeps(processes, labels[..|labels| - 1]);
      if Enabled(before, l) {
        hide Enabled, Next, Inv;
        StepKeeps(before, l);
      }
    }
  }

  // ------------------------------------------------------------------
  // What every run delivers
  // ------------------------------------------------------------------

  // Every message sent on a stream is shorter than 2^32 bytes, which its length field can hold.
  ghost predicate ShortSends(sys: System) {
    forall p, j :: 0 <= p < |sys.histories| && 0 <= j < |sys.histories[p]| && sys.histories[p][j].Send?
      ==> |sys.histories[p][j].data| < U32
  }

  // The payloads that the game on `side` sent on stream s, in order.
  function SentBy(sys: System, side: Side, s: StreamId): seq<seq<byte>>
    requires side.process < |sys.histories|
  {
    SentOn(sys.histories[side.process], side.connection, s)
  }

  lemma {:induction false} SentAreShort(inputs: seq<Input>, u: Uuid, s: StreamId)
    requires forall j :: 0 <= j < |inputs| && inputs[j].Send? ==> |inputs[j].data| < U32
    ensures forall m :: m in SentOn(inputs, u, s) ==> |m| < U32
  {
    if inputs != [] {
      SentAreShort(inputs[..|inputs| - 1], u, s);
    }
  }

  // What a wire decodes to is a subsequence of what the game sent on its stream.
  lemma {:induction false} WireDelivers(inputs: seq<Input>, h: nat, got: seq<seq<byte>>)
    requires h < |Run(inputs).wires| && got <= Decode(Run(inputs).wires[h].body)
    requires forall j :: 0 <= j < |inputs| && inputs[j].Send? ==> |inputs[j].data| < U32
    ensures var w := Run(inputs).wires[h];
      got <= w.sent && Sub(got, SentOn(inputs, w.connection, NewStream(w.number, Reliable)))
  {
    hide Run, Decode, Frames, NewStream, SentOn, Sub;
    RunHolds(inputs);
    RunWiresSent(inputs);
    var w := Run(inputs).wires[h];
    var s := NewStream(w.number, Reliable);
    assert WireOk(w) && WireSent(inputs, w);
    SentAreShort(inputs, w.connection, s);
    SubMembers(w.sent, SentOn(inputs, w.connection, s));
    FramesReadBack(w.sent);
    DecodeGrows(w.body, Frames(w.sent));
    SubPrefix(w.sent, got, SentOn(inputs, w.connection, s));
  }

  // For every stream of every run, in each direction: the messages posted by the reader are, in
  // order, some of those that the other side's game sent on that stream, and a first part of
  // those that were written. Both sides know the stream under the same encoded id.
  lemma {:induction false} StreamsDeliverInOrder(processes: nat, labels: seq<Label>, k: nat)
    requires var sys := RunSystem(processes, labels); ShortSends(sys) && k < |sys.streams|
    ensures var sys := RunSystem(processes, labels);
      var st := sys.streams[k];
      && OpenerWire(sys, k).Some?
      && var w := OpenerWire(sys, k).value;
         var s := NewStream(w.number, Reliable);
         && st.toAcceptor <= w.sent && Sub(st.toAcceptor, SentBy(sys, st.opener, s))
         && (st.acceptor.Some? ==>
               var side := st.acceptor.value.0;
               && IsPeer(sys, st.opener, side) && side.process < |sys.histories| && AcceptorWire(sys, k).Some?
               && AcceptorWire(sys, k).value.number == w.number
               && st.toOpener <= AcceptorWire(sys, k).value.sent && Sub(st.toOpener, SentBy(sys, side, s)))
  {
    hide Run, Decode, NewStream, SentOn, Sub, Enabled, Next;
    var sys := RunSystem(processes, labels);
    RunKeeps(processes, labels);
    hide RunSystem;
    var st := sys.streams[k];
    assert StreamOk(sys, k);
    WireDelivers(sys.histories[st.opener.process], st.half, st.toAcceptor);
    if st.acceptor.Some? {
      var (side, h) := st.acceptor.value;
      WireDelivers(sys.histories[side.process], h, st.toOpener);
    }
  }

  // Whatever a game receives, reliably or by datagram, the game on the other side of that
  // connection sent on the same stream.
  lemma {:induction false} Provenance(processes: nat, labels: seq<Label>, p: nat, n: nat)
    requires var sys := RunSystem(processes, labels);
      && ShortSends(sys) && p < |sys.histories| && n < |StateOf(sys, p).trace|
      && StateOf(sys, p).trace[n].event.Message?
    ensures var sys := RunSystem(processes, labels);
      var e := StateOf(sys, p).trace[n].event;
      var side := Side(p, e.connection);
      && side in sys.peer && sys.peer[side].process < |sys.histories|
      && e.data in SentBy(sys, sys.peer[side], e.stream)
  {
    hide Run, Decode, SentOn, Sub, Enabled, Next, Explained, StreamsOk, RunSystem, IsRead;
    var sys := RunSystem(processes, labels);
    RunKeeps(processes, labels);
    var e := StateOf(sys, p).trace[n].event;
    var j := RunMessagesRead(sys.histories[p], n);
    var i := sys.histories[p][j];
    assert Explained(sys, p, i);
    if i.MessageRead? {
      ReadWasSent(processes, labels, p, i, e);
    } else {
      DatagramWasSent(sys, p, i, e);
    }
  }

  lemma {:induction false} ReadWasSent(processes: nat, labels: seq<Label>, p: nat, i: Input, e: Event)
    requires ShortSends(RunSystem(processes, labels))
    requires Explained(RunSystem(processes, labels), p, i) && i.MessageRead?
    requires e.Message? && IsRead(i, e.connection, e.stream, e.data)
    ensures var sys := RunSystem(processes, labels);
      var side := Side(p, e.connection);
      && side in sys.peer && sys.peer[side].process < |sys.histories|
      && e.data in SentBy(sys, sys.peer[side], e.stream)
  {
    hide Run, Decode, SentOn, Sub, Enabled, Next, RunSystem, NewStream, OpenerWire, AcceptorWire, StreamsOk, HistoriesOk;
    var sys := RunSystem(processes, labels);
    var side := Side(p, i.u);
    RunKeeps(processes, labels);
    var k: nat :| PostedFrom(sys, k, side, i.number, i.data);
    StreamsDeliverInOrder(processes, labels, k);
    var st := sys.streams[k];
    StreamRecord(sys, k);
    var s := NewStream(i.number, Reliable);
    if st.opener == side && i.data in st.toOpener {
      SubMembers(st.toOpener, SentBy(sys, st.acceptor.value.0, s));
    } else {
      SubMembers(st.toAcceptor, SentBy(sys, st.opener, s));
    }
  }

  lemma {:induction false} StreamRecord(sys: System, k: nat)
    requires Inv(sys) && k < |sys.streams|
    ensures var st := sys.streams[k];
      && st.opener.process < |sys.histories|
      && (st.acceptor.None? ==> st.toOpener == [])
      && (st.acceptor.Some? ==> IsPeer(sys, st.opener, st.acceptor.value.0) && IsPeer(sys, st.acceptor.value.0, st.opener))
  {
    hide Run, Decode;
    assert StreamOk(sys, k);
  }

  lemma {:induction false} DatagramWasSent(sys: System, p: nat, i: Input, e: Event)
    requires PeersOk(sys) && Explained(sys, p, i) && i.DatagramRead?
    requires e.Message? && IsRead(i, e.connection, e.stream, e.data)
    ensures var side := Side(p, e.connection);
      && side in sys.peer && sys.peer[side].process < |sys.histories|
      && e.data in SentBy(sys, sys.peer[side], e.stream)
  {
    hide Run, SentOn, GetBe, PutBe, IsReliable;
    var other := sys.peer[Side(p, i.u)];
    var inputs := sys.histories[other.process];
    RunDatagramsSent(inputs);
    assert DatagramSent(inputs, other.connection, i.bytes);
    var s: StreamId, data :| !IsReliable(s) && data in SentOn(inputs, other.connection, s) && i.bytes == PutBe(2, s) + data;
    NumberRead(s);
    assert i.bytes[..2] == PutBe(2, s) == PutBe(2, s)[..2] && i.bytes[2..] == data;
  }
}
