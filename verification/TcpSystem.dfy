// Every interleaving of main loops, listeners and peer tasks of the processes that talk to
// each other over TCP. The state is the set of connection ends; each belongs to one process
// and is named by the UUID that this process drew for it.
module TcpSystem {
  import opened Bytes
  import opened Options
  import opened Sockets
  import opened Traces
  import opened TcpBackend

  datatype State = State(ends: map<Uuid, End>, registrations: seq<Uuid>, trace: seq<Entry>)

  const INITIAL: State := State(map[], [], [])

  // Steps of the main loops, the listeners and the peer tasks. An end opened by Connect is
  // registered at once; one that a listener accepts posts Connected, starts its task, and
  // reports to its main loop through a bounded channel.
  datatype Label =
    | Connect(u: Uuid)
    | Accept(v: Uuid, opener: Uuid)
    | Report(v: Uuid)
    | Register
    | Send(u: Uuid, s: StreamId, data: seq<byte>)
    | CreateStream(u: Uuid, number: StreamId, reliability: Reliability)
    | CloseStream(u: Uuid, s: StreamId)
    | Write(u: Uuid, ok: bool)
    | Read(u: Uuid)
    | Finish(u: Uuid)

  predicate Enabled(st: State, l: Label) {
    match l
    case Connect(u) => u !in st.ends
    case Accept(v, o) => v !in st.ends && o in st.ends && st.ends[o].peer.None?
    case Report(v) => v in st.ends && !st.ends[v].reported && |st.registrations| < REGISTRATION_CAPACITY
    case Register => st.registrations != [] && st.registrations[0] in st.ends
    case Send(u, _, _) => u in st.ends && st.ends[u].running ==> |st.ends[u].queue| < WRITE_CAPACITY
    case CreateStream(_, _, _) => true
    case CloseStream(_, _) => true
    case Write(u, _) => u in st.ends && st.ends[u].running && st.ends[u].queue != []
    case Read(u) =>
      && u in st.ends && st.ends[u].running && st.ends[u].peer.Some?
      && st.ends[u].peer.value in st.ends && st.ends[u].read < |st.ends[st.ends[u].peer.value].wire|
    case Finish(u) => u in st.ends && st.ends[u].running
  }

  function Next(st: State, l: Label): State
    requires Enabled(st, l)
  {
    match l
    case Connect(u) =>
      st.(ends := st.ends[u := NewEnd(None, true)], trace := st.trace + [Network(Connected(u))])
    case Accept(v, o) =>
      st.(ends := st.ends[o := st.ends[o].(peer := Some(v))][v := NewEnd(Some(o), false)],
          trace := st.trace + [Network(Connected(v))])
    case Report(v) =>
      st.(ends := st.ends[v := st.ends[v].(reported := true)], registrations := st.registrations + [v])
    case Register =>
      var v := st.registrations[0];
      st.(ends := st.ends[v := RegisterStep(st.ends[v])], registrations := st.registrations[1..])
    case Send(u, s, data) =>
      if u !in st.ends then st else st.(ends := st.ends[u := SendStep(st.ends[u], s, data)])
    case CreateStream(u, n, r) =>
      st.(trace := st.trace + [Entry(FromCommand, StreamCreated(u, NewStream(n, r)))])
    case CloseStream(u, s) =>
      st.(trace := st.trace + [Entry(FromCommand, StreamClosed(u, s))])
    case Write(u, ok) => st.(ends := st.ends[u := WriteStep(st.ends[u], ok)])
    case Read(u) =>
      var e := st.ends[u];
      var (e', entries) := ReadStep(e, u, st.ends[e.peer.value].wire[e.read]);
      st.(ends := st.ends[u := e'], trace := st.trace + entries)
    case Finish(u) =>
      st.(ends := st.ends[u := FinishStep(st.ends[u])], trace := st.trace + [Network(Disconnected(u))])
  }

  // A run is any sequence of steps; one that is not enabled does nothing.
  function Run(labels: seq<Label>): State {
    if labels == [] then INITIAL else
    var before := Run(labels[..|labels| - 1]);
    if Enabled(before, labels[|labels| - 1]) then Next(before, labels[|labels| - 1]) else before
  }

  // ------------------------------------------------------------------
  // Trace of one connection end
  // ------------------------------------------------------------------

  ghost predicate PhaseOk(st: State, u: Uuid) {
    if u !in st.ends then PhaseOf(st.trace, u) == Fresh
    else if st.ends[u].running then PhaseOf(st.trace, u) == Open(st.ends[u].known)
    else PhaseOf(st.trace, u) == Closed(st.ends[u].known)
  }

  ghost predicate PhasesOk(st: State) {
    forall u: Uuid :: PhaseOk(st, u)
  }

  // ------------------------------------------------------------------
  // What was delivered
  // ------------------------------------------------------------------

  // The (stream, payload) pairs of u's messages, in order.
  function Received(trace: seq<Entry>, u: Uuid): seq<(StreamId, seq<byte>)> {
    if trace == [] then [] else
    var before := Received(trace[..|trace| - 1], u);
    var e := trace[|trace| - 1];
    if Concerns(e, u) && e.event.Message? then before + [(e.event.stream, e.event.data)] else before
  }

  // Those pairs whose packet is within the codec's limit.
  function Fitting(sends: seq<(StreamId, seq<byte>)>): seq<(StreamId, seq<byte>)> {
    if sends == [] then [] else
    var before := Fitting(sends[..|sends| - 1]);
    var (s, data) := sends[|sends| - 1];
    if |Packet(s, data)| <= MAX_FRAME then before + [(s, data)] else before
  }

  function Packets(sends: seq<(StreamId, seq<byte>)>): (ps: seq<seq<byte>>)
    ensures |ps| == |sends|
  {
    if sends == [] then [] else
    Packets(sends[..|sends| - 1]) + [Packet(sends[|sends| - 1].0, sends[|sends| - 1].1)]
  }

  // The wire carries the packets of the fitting sends that have left the channel, in order,
  // or of some first part of them after a write error.
  ghost predicate EndOk(e: End) {
    && |e.queue| <= |e.passed|
    && e.queue == Packets(e.passed)[|e.passed| - |e.queue|..]
    && var written := Fitting(e.passed[..|e.passed| - |e.queue|]);
       e.wire <= Packets(written) && (!e.cut ==> e.wire == Packets(written))
  }

  ghost predicate LinkOk(st: State, u: Uuid)
    requires u in st.ends
  {
    var e := st.ends[u];
    match e.peer
    case None => e.read == 0 && Received(st.trace, u) == []
    case Some(v) =>
      && v in st.ends && v != u && st.ends[v].peer == Some(u)
      && e.read <= |Fitting(st.ends[v].passed)|
      && Received(st.trace, u) == Fitting(st.ends[v].passed)[..e.read]
  }

  ghost predicate EndsOk(st: State) {
    forall u :: u in st.ends ==> EndOk(st.ends[u])
  }

  ghost predicate LinksOk(st: State) {
    && (forall u :: u in st.ends ==> LinkOk(st, u))
    && (forall u: Uuid :: u !in st.ends ==> Received(st.trace, u) == [])
  }

  // ------------------------------------------------------------------
  // Proofs about packets
  // ------------------------------------------------------------------

  lemma {:induction false} SendsSnoc(sends: seq<(StreamId, seq<byte>)>, x: (StreamId, seq<byte>))
    ensures Packets(sends + [x]) == Packets(sends) + [Packet(x.0, x.1)]
    ensures Fitting(sends + [x]) == Fitting(sends) + if |Packet(x.0, x.1)| <= MAX_FRAME then [x] else []
  {
    assert (sends + [x])[..|sends|] == sends;
  }

  lemma {:induction false} PacketsIndex(sends: seq<(StreamId, seq<byte>)>, i: nat)
    requires i < |sends|
    ensures Packets(sends)[i] == Packet(sends[i].0, sends[i].1)
  {
    if i < |sends| - 1 {
      PacketsIndex(sends[..|sends| - 1], i);
    }
  }

  lemma {:induction false} FittingPrefix(sends: seq<(StreamId, seq<byte>)>, n: nat)
    requires n <= |sends|
    ensures Fitting(sends[..n]) <= Fitting(sends)
  {
    if n == |sends| {
      assert sends[..n] == sends;
    } else {
      FittingPrefix(sends[..|sends| - 1], n);
      assert sends[..|sends| - 1][..n] == sends[..n];
    }
  }

  lemma {:induction false} SendKeepsEnd(e: End, s: StreamId, data: seq<byte>)
    requires EndOk(e)
    ensures EndOk(SendStep(e, s, data))
    ensures Fitting(e.passed) <= Fitting(SendStep(e, s, data).passed)
  {
    hide Packet, Packets, Fitting;
    var n := |e.passed| - |e.queue|;
    SendsSnoc(e.passed, (s, data));
    assert (e.passed + [(s, data)])[..n] == e.passed[..n];
  }

  lemma {:induction false} WriteKeepsEnd(e: End, ok: bool)
    requires EndOk(e) && e.queue != []
    ensures EndOk(WriteStep(e, ok)) && e.wire <= WriteStep(e, ok).wire
  {
    hide Packet, Packets, Fitting;
    var n := |e.passed| - |e.queue|;
    assert e.queue[0] == Packets(e.passed)[n];
    PacketsIndex(e.passed, n);
    SendsSnoc(e.passed[..n], e.passed[n]);
    assert e.passed[..n + 1] == e.passed[..n] + [e.passed[n]];
    var written := Fitting(e.passed[..n]);
    SendsSnoc(written, e.passed[n]);
    assert written + [] == written;
    assert e.queue[1..] == Packets(e.passed)[n + 1..];
  }

  // The frame at position `read` of an end's wire is the packet of its fitting send there.
  lemma {:induction false} WireFrame(e: End, read: nat)
    requires EndOk(e) && read < |e.wire|
    ensures read < |Fitting(e.passed)|
    ensures e.wire[read] == Packet(Fitting(e.passed)[read].0, Fitting(e.passed)[read].1)
  {
    hide Packet, Packets, Fitting;
    var n := |e.passed| - |e.queue|;
    FittingPrefix(e.passed, n);
    PacketsIndex(Fitting(e.passed[..n]), read);
  }

  // ------------------------------------------------------------------
  // Proofs about traces
  // ------------------------------------------------------------------

  lemma {:induction false} ReceivedSnoc(trace: seq<Entry>, e: Entry, u: Uuid)
    ensures Received(trace + [e], u)
         == if Concerns(e, u) && e.event.Message? then Received(trace, u) + [(e.event.stream, e.event.data)]
            else Received(trace, u)
  {
    assert (trace + [e])[..|trace|] == trace;
  }

  lemma {:induction false} ReceivedDelivery(trace: seq<Entry>, known: seq<StreamId>, u: Uuid, s: StreamId, data: seq<byte>, w: Uuid)
    ensures Received(trace + Delivery(known, u, s, data), w)
         == if w == u then Received(trace, w) + [(s, data)] else Received(trace, w)
  {
    hide Received;
    var announce := Announce(known, u, s);
    var t := trace + announce;
    assert trace + Delivery(known, u, s, data) == t + [Network(Message(u, s, data))];
    if announce == [] { assert t == trace; } else { ReceivedSnoc(trace, announce[0], w); }
    ReceivedSnoc(t, Network(Message(u, s, data)), w);
  }

  predicate Silent(l: Label) {
    l.Report? || l.Register? || l.Send? || l.Write?
  }

  lemma {:induction false} StepKeepsPhases(st: State, l: Label)
    requires PhasesOk(st) && Enabled(st, l)
    ensures PhasesOk(Next(st, l))
  {
    hide PhaseOk, PhaseOf, Next, Enabled;
    forall u: Uuid ensures PhaseOk(Next(st, l), u) {
      assert PhaseOk(st, u);
      if l.Read? {
        ReadKeepsPhase(st, l.u, u);
      } else if Silent(l) {
        SilentKeepsPhase(st, l, u);
      } else {
        EntryKeepsPhase(st, l, u);
      }
    }
  }

  lemma {:induction false} SilentKeepsPhase(st: State, l: Label, u: Uuid)
    requires PhaseOk(st, u) && Enabled(st, l) && Silent(l)
    ensures PhaseOk(Next(st, l), u)
  {
    hide PhaseOf, Packet;
  }

  lemma {:induction false} EntryKeepsPhase(st: State, l: Label, u: Uuid)
    requires PhaseOk(st, u) && Enabled(st, l) && !Silent(l) && !l.Read?
    ensures PhaseOk(Next(st, l), u)
  {
    hide PhaseOf, NewStream;
    PhaseSnoc(st.trace, Next(st, l).trace[|st.trace|], u);
  }

  lemma {:induction false} ReadKeepsPhase(st: State, v: Uuid, u: Uuid)
    requires PhasesOk(st) && Enabled(st, Read(v))
    ensures PhaseOk(Next(st, Read(v)), u)
  {
    hide PhaseOf, GetBe, Delivery;
    assert PhaseOk(st, u) && PhaseOk(st, v);
    var frame := st.ends[st.ends[v].peer.value].wire[st.ends[v].read];
    if |frame| < 2 {
      assert Next(st, Read(v)).trace == st.trace;
    } else {
      DeliveryPhase(st.trace, v, PacketStream(frame), frame[2..], u);
    }
  }

  lemma {:induction false} StepKeepsEnds(st: State, l: Label)
    requires EndsOk(st) && Enabled(st, l)
    ensures EndsOk(Next(st, l))
  {
    hide Packet, Packets, Fitting, WriteStep, SendStep, OnFrame, EndOk;
    assert forall p, r :: EndOk(NewEnd(p, r)) by { NewEndOk(); }
    var after := Next(st, l);
    forall u | u in after.ends ensures EndOk(after.ends[u]) {
      if l.Send? && u == l.u {
        SendKeepsEnd(st.ends[u], l.s, l.data);
      } else if l.Write? && u == l.u {
        WriteKeepsEnd(st.ends[u], l.ok);
      } else if u in st.ends {
        SameChannel(st.ends[u], after.ends[u]);
      }
    }
  }

  lemma {:induction false} NewEndOk()
    ensures forall p, r :: EndOk(NewEnd(p, r))
  {
  }

  lemma {:induction false} SameChannel(e: End, e': End)
    ensures EndOk(e) && e'.passed == e.passed && e'.queue == e.queue && e'.wire == e.wire && e'.cut == e.cut ==> EndOk(e')
  {
  }

  predicate SameLink(e: End, e': End) {
    e'.peer == e.peer && e'.read == e.read && e'.passed == e.passed
  }

  // Steps that leave partners, read positions, sends and deliveries as they are.
  lemma {:induction false} LinksUnchanged(st: State, st': State)
    requires LinksOk(st)
    requires forall u :: u in st.ends ==> u in st'.ends && SameLink(st.ends[u], st'.ends[u])
    requires forall u :: u in st'.ends && u !in st.ends ==> st'.ends[u].peer.None? && st'.ends[u].read == 0
    requires forall u: Uuid :: Received(st'.trace, u) == Received(st.trace, u)
    ensures LinksOk(st')
  {
    hide Fitting, Received;
    forall u | u in st'.ends ensures LinkOk(st', u) {
      if u in st.ends {
        assert LinkOk(st, u);
      }
    }
  }

  lemma {:induction false} SendKeepsLinks(st: State, u: Uuid, s: StreamId, data: seq<byte>)
    requires EndsOk(st) && LinksOk(st) && Enabled(st, Label.Send(u, s, data)) && u in st.ends
    ensures LinksOk(Next(st, Label.Send(u, s, data)))
  {
    hide Fitting, Received, EndOk, Packet;
    var after := Next(st, Label.Send(u, s, data));
    SendKeepsEnd(st.ends[u], s, data);
    forall w | w in after.ends ensures LinkOk(after, w) {
      assert LinkOk(st, w);
    }
  }

  lemma {:induction false} AcceptKeepsLinks(st: State, v: Uuid, o: Uuid)
    requires LinksOk(st) && Enabled(st, Accept(v, o))
    ensures LinksOk(Next(st, Accept(v, o)))
  {
    hide Fitting, Received;
    var after := Next(st, Accept(v, o));
    forall w: Uuid ensures Received(after.trace, w) == Received(st.trace, w) {
      ReceivedSnoc(st.trace, Network(Connected(v)), w);
    }
    forall w | w in after.ends ensures LinkOk(after, w) {
      assert LinkOk(st, o);
      if w in st.ends {
        assert LinkOk(st, w);
      }
    }
  }

  lemma {:induction false} ReadKeepsLinks(st: State, u: Uuid)
    requires EndsOk(st) && LinksOk(st) && Enabled(st, Read(u))
    ensures LinksOk(Next(st, Read(u)))
  {
    hide Fitting, Received, EndOk, Packet, PacketStream, Delivery;
    var after := Next(st, Read(u));
    var e := st.ends[u];
    var v := e.peer.value;
    var send := ReadSend(st, u);
    var (s, data) := send;
    forall w: Uuid ensures Received(after.trace, w)
        == if w == u then Received(st.trace, w) + [(s, data)] else Received(st.trace, w) {
      ReceivedDelivery(st.trace, e.known, u, s, data, w);
    }
    forall w | w in after.ends ensures LinkOk(after, w) {
      assert LinkOk(st, w);
    }
  }

  // The send whose packet an enabled Read takes off the wire.
  lemma {:induction false} ReadSend(st: State, u: Uuid) returns (send: (StreamId, seq<byte>))
    requires EndsOk(st) && Enabled(st, Read(u))
    ensures var e := st.ends[u]; var sends := Fitting(st.ends[e.peer.value].passed);
      && e.read < |sends| && send == sends[e.read]
      && Next(st, Read(u)).trace == st.trace + Delivery(e.known, u, send.0, send.1)
  {
    hide Fitting, EndOk, Packet, PacketStream, Delivery;
    var e := st.ends[u];
    var v := e.peer.value;
    WireFrame(st.ends[v], e.read);
    send := Fitting(st.ends[v].passed)[e.read];
    PacketParts(send.0, send.1);
  }

  lemma {:induction false} StepKeepsLinks(st: State, l: Label)
    requires EndsOk(st) && LinksOk(st) && Enabled(st, l)
    ensures LinksOk(Next(st, l))
  {
    hide Packet, Fitting, OnFrame, EndOk, EndsOk, LinksOk, Received, NewStream;
    var after := Next(st, l);
    if l.Read? {
      ReadKeepsLinks(st, l.u);
    } else if l.Send? && l.u in st.ends {
      SendKeepsLinks(st, l.u, l.s, l.data);
    } else if l.Accept? {
      AcceptKeepsLinks(st, l.v, l.opener);
    } else {
      forall u: Uuid ensures Received(after.trace, u) == Received(st.trace, u) {
        if after.trace != st.trace {
          ReceivedSnoc(st.trace, after.trace[|st.trace|], u);
        }
      }
      LinksUnchanged(st, after);
    }
  }

  // ------------------------------------------------------------------
  // Every run
  // ------------------------------------------------------------------

  lemma {:induction false} RunHolds(labels: seq<Label>)
    ensures PhasesOk(Run(labels)) && EndsOk(Run(labels)) && LinksOk(Run(labels))
  {
    if labels != [] {
      var before, l := Run(labels[..|labels| - 1]), labels[|labels| - 1];
      RunHolds(labels[..|labels| - 1]);
      if Enabled(before, l) {
        hide Enabled, Next, PhasesOk, EndsOk, LinksOk;
        StepKeepsPhases(before, l);
        StepKeepsEnds(before, l);
        StepKeepsLinks(before, l);
      }
    }
  }

  // Each end's events are Connected, then each stream announced once and before its
  // messages, then at most one Disconnected with nothing after it.
  lemma {:induction false} TraceOfRun(labels: seq<Label>, u: Uuid)
    ensures var State(ends, _, trace) := Run(labels);
      && (u in ends <==> Occurs(trace, Connected(u)))
      && (u in ends && !ends[u].running <==> Occurs(trace, Disconnected(u)))
      && (forall i, j :: 0 <= i < j < |trace| && Concerns(trace[i], u) && Concerns(trace[j], u)
            ==> !trace[i].event.Disconnected? && !trace[j].event.Connected?
                && (trace[j].event.StreamCreated? ==> trace[j].event != trace[i].event))
      && (forall k :: 0 <= k < |trace| && Concerns(trace[k], u) && trace[k].event.Message?
            ==> exists i, j :: (0 <= i < j < k && At(trace, i, Connected(u))
                                && At(trace, j, StreamCreated(u, trace[k].event.stream))))
  {
    hide Enabled, Next, EndsOk, LinksOk;
    RunHolds(labels);
    var State(ends, _, trace) := Run(labels);
    assert PhaseOk(Run(labels), u);
    PhaseFacts(trace, u);
    if u !in ends {
      NothingOccurred(trace, Connected(u));
    }
    forall i, j | 0 <= i < j < |trace| && Concerns(trace[i], u) && Concerns(trace[j], u)
      ensures !trace[i].event.Disconnected? && !trace[j].event.Connected?
        && (trace[j].event.StreamCreated? ==> trace[j].event != trace[i].event)
    {
      EventsUnique(trace, u, i, j);
    }
    forall k | 0 <= k < |trace| && Concerns(trace[k], u) && trace[k].event.Message?
      ensures exists i, j :: (0 <= i < j < k && At(trace, i, Connected(u))
                              && At(trace, j, StreamCreated(u, trace[k].event.stream)))
    {
      MessagePreceded(trace, u, k);
    }
  }

  // The messages posted at one end are, in order and without gap, a first part of what the
  // other end's main loop queued, leaving out packets above the codec's limit.
  lemma {:induction false} DeliveredIsPrefixOfQueued(labels: seq<Label>, u: Uuid)
    requires u in Run(labels).ends && Run(labels).ends[u].peer.Some?
    ensures var st := Run(labels); var v := st.ends[u].peer.value;
      && v in st.ends && st.ends[v].peer == Some(u)
      && Received(st.trace, u) <= Fitting(st.ends[v].passed)
  {
    hide Enabled, Next, PhasesOk, EndsOk, Fitting, Received;
    RunHolds(labels);
    assert LinkOk(Run(labels), u);
  }

  // If every packet is within the limit, nothing is left out.
  lemma {:induction false} FittingAll(sends: seq<(StreamId, seq<byte>)>)
    requires forall k :: 0 <= k < |sends| ==> |sends[k].1| <= MAX_FRAME - 2
    ensures Fitting(sends) == sends
  {
    hide Packet;
    if sends != [] {
      FittingAll(sends[..|sends| - 1]);
      assert sends == sends[..|sends| - 1] + [(sends[|sends| - 1].0, sends[|sends| - 1].1)];
    }
  }
}
