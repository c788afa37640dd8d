// The GameNetworkingSockets backend: the library reports connection state changes for
// handles, and two tables tie handles to the UUIDs the game sees.
module GnsBackend {
  import opened Bytes
  import opened Sockets
  import opened Traces

  // GnsConnection: a handle that the library hands out.
  type Handle = nat

  datatype LinkState = NoState | Connecting | FindingRoute | LinkConnected | ClosedByPeer | ProblemDetectedLocally | OtherState

  datatype State = State(
    handleToUuid: map<Handle, Uuid>,
    uuidToHandle: map<Uuid, Handle>,
    known: map<Uuid, seq<StreamId>>)

  const INITIAL: State := State(map[], map[], map[])

  // A state change carries what accepting the connection answered (a client answers Ok
  // without asking the library) and the UUID drawn if one is needed.
  datatype Input =
    | StateChange(conn: Handle, before: LinkState, after: LinkState, accepted: bool, newUuid: Uuid)
    | Incoming(conn: Handle, payload: seq<byte>)
    | Command(command: Sockets.Command)

  datatype Outgoing = Outgoing(conn: Handle, reliable: bool, lane: nat, bytes: seq<byte>)

  // ------------------------------------------------------------------
  // One step, as a function
  // ------------------------------------------------------------------

  function Register(st: State, conn: Handle, u: Uuid): State {
    st.(handleToUuid := st.handleToUuid[conn := u], uuidToHandle := st.uuidToHandle[u := conn])
  }

  function Unregister(st: State, conn: Handle): State
    requires conn in st.handleToUuid
  {
    var u := st.handleToUuid[conn];
    State(st.handleToUuid - {conn}, st.uuidToHandle - {u}, st.known - {u})
  }

  predicate Ends(l: LinkState) {
    l.ClosedByPeer? || l.ProblemDetectedLocally?
  }

  function EventStep(st: State, i: Input): (State, seq<Entry>)
    requires i.StateChange?
  {
    if i.before.NoState? && i.after.Connecting? then
      if i.accepted then (Register(st, i.conn, i.newUuid), [Network(Connected(i.newUuid))]) else (st, [])
    else if i.before.Connecting? && i.after.LinkConnected? then
      if i.conn !in st.handleToUuid
      then (Register(st, i.conn, i.newUuid), [Network(Connected(i.newUuid))]) else (st, [])
    else if Ends(i.after) && i.conn in st.handleToUuid then
      (Unregister(st, i.conn), [Network(Disconnected(st.handleToUuid[i.conn]))])
    else (st, [])
  }

  function PayloadStream(payload: seq<byte>): StreamId
    requires |payload| >= 2
  {
    Widths();
    GetBe(payload[..2])
  }

  function MessageStep(st: State, conn: Handle, payload: seq<byte>): (State, seq<Entry>) {
    if conn !in st.handleToUuid || |payload| < 2 then (st, []) else
    var u, s := st.handleToUuid[conn], PayloadStream(payload);
    var streams := KnownOf(st.known, u);
    (st.(known := st.known[u := Learn(streams, s)]), Delivery(streams, u, s, payload[2..]))
  }

  function Step(st: State, i: Input): (State, seq<Entry>) {
    match i
    case StateChange(_, _, _, _, _) => EventStep(st, i)
    case Incoming(conn, payload) => MessageStep(st, conn, payload)
    case Command(CreateStream(u, n, r)) => (st, [Entry(FromCommand, StreamCreated(u, NewStream(n, r)))])
    case Command(CloseStream(u, s)) => (st, [Entry(FromCommand, StreamClosed(u, s))])
    case Command(Send(_, _, _)) => (st, [])
  }

  // What a Send gives to the library: one message on the lane of its reliability class.
  function Dispatch(st: State, u: Uuid, s: StreamId, data: seq<byte>): seq<Outgoing> {
    if u !in st.uuidToHandle then [] else
    [Outgoing(st.uuidToHandle[u], IsReliable(s), if IsReliable(s) then 0 else 1, PutBe(2, s) + data)]
  }

  // ------------------------------------------------------------------
  // The backend
  // ------------------------------------------------------------------

  class GnsBackend {
    var handleToUuid: map<Handle, Uuid>
    var uuidToHandle: map<Uuid, Handle>
    var known: map<Uuid, seq<StreamId>>
    var hasSocket: bool
    ghost var trace: seq<Entry>
    ghost var sent: seq<Outgoing>

    ghost function View(): State
      reads this
    {
      State(handleToUuid, uuidToHandle, known)
    }

    constructor ()
      ensures View() == INITIAL && trace == [] && sent == [] && !hasSocket
    {
      handleToUuid, uuidToHandle, known := map[], map[], map[];
      hasSocket, trace, sent := false, [], [];
    }

    ghost method Post(origin: Origin, ev: Event)
      modifies this`trace
      ensures trace == old(trace) + [Entry(origin, ev)]
    {
      trace := trace + [Entry(origin, ev)];
    }

    method Insert(conn: Handle, u: Uuid)
      modifies this`handleToUuid, this`uuidToHandle, this`trace
      ensures View() == Register(old(View()), conn, u)
      ensures trace == old(trace) + [Network(Connected(u))]
    {
      handleToUuid := handleToUuid[conn := u];
      uuidToHandle := uuidToHandle[u := conn];
      Post(FromNetwork, Connected(u));
    }

    // `closed` is whether the handle is given back to the library.
    method HandleEvent(i: Input) returns (closed: bool)
      requires i.StateChange?
      modifies this`handleToUuid, this`uuidToHandle, this`known, this`trace
      ensures var (st, entries) := EventStep(old(View()), i);
        View() == st && trace == old(trace) + entries
      ensures closed <==> Ends(i.after)
    {
      closed := false;
      match (i.before, i.after)
      case (NoState, Connecting) =>
        if i.accepted {
          Insert(i.conn, i.newUuid);
        }
      case (Connecting, LinkConnected) =>
        if i.conn !in handleToUuid {
          Insert(i.conn, i.newUuid);
        }
      case (_, ClosedByPeer) =>
        Remove(i.conn);
        closed := true;
      case (_, ProblemDetectedLocally) =>
        Remove(i.conn);
        closed := true;
      case _ =>
    }

    method Remove(conn: Handle)
      modifies this`handleToUuid, this`uuidToHandle, this`known, this`trace
      ensures conn !in old(handleToUuid) ==> View() == old(View()) && trace == old(trace)
      ensures conn in old(handleToUuid) ==> View() == Unregister(old(View()), conn)
      ensures conn in old(handleToUuid) ==>
        trace == old(trace) + [Network(Disconnected(old(handleToUuid)[conn]))]
    {
      if conn in handleToUuid {
        var u := handleToUuid[conn];
        handleToUuid := handleToUuid - {conn};
        uuidToHandle := uuidToHandle - {u};
        known := known - {u};
        Post(FromNetwork, Disconnected(u));
      }
    }

    method HandleMessage(conn: Handle, payload: seq<byte>)
      modifies this`known, this`trace
      ensures var (st, entries) := MessageStep(old(View()), conn, payload);
        View() == st && trace == old(trace) + entries
    {
      hide GetBe;
      if conn in handleToUuid {
        var u := handleToUuid[conn];
        if |payload| >= 2 {
          var s := PayloadStream(payload);
          if u !in known {
            known := known[u := []];
          }
          if s !in known[u] {
            known := known[u := known[u] + [s]];
            Post(FromNetwork, StreamCreated(u, s));
          }
          Post(FromNetwork, Message(u, s, payload[2..]));
        }
      }
    }

    method ProcessCommand(c: Sockets.Command)
      modifies this`trace, this`sent
      ensures var (st, entries) := Step(old(View()), Command(c));
        View() == st && trace == old(trace) + entries
      ensures sent == old(sent)
        + if c.Send? && hasSocket then Dispatch(View(), c.connection, c.stream, c.data) else []
    {
      match c
      case Send(u, s, data) =>
        if u in uuidToHandle {
          if hasSocket {
            var packet: seq<byte> := [];
            packet := packet + PutBe(2, s);
            packet := packet + data;
            assert packet == PutBe(2, s) + data;
            var lane := if IsReliable(s) then 0 else 1;
            sent := sent + [Outgoing(uuidToHandle[u], IsReliable(s), lane, packet)];
          }
        }
      case CreateStream(u, n, r) =>
        Post(FromCommand, StreamCreated(u, NewStream(n, r)));
      case CloseStream(u, s) =>
        Post(FromCommand, StreamClosed(u, s));
    }
  }

  // What one side dispatches, the other side posts under the stream it was sent on; every
  // stream but an Unreliable one goes reliably, on lane 0.
  lemma {:induction false} DispatchDelivers(st: State, u: Uuid, n: StreamId, r: Reliability, data: seq<byte>,
                                            receiver: State, conn: Handle)
    requires u in st.uuidToHandle && conn in receiver.handleToUuid
    ensures var s := NewStream(n, r);
      var out := Dispatch(st, u, s, data);
      var posted := MessageStep(receiver, conn, out[0].bytes).1;
      && |out| == 1 && out[0].conn == st.uuidToHandle[u]
      && (out[0].reliable <==> r != Unreliable) && (out[0].lane == 0 <==> r != Unreliable)
      && posted != [] && posted[|posted| - 1] == Network(Message(receiver.handleToUuid[conn], s, data))
  {
    hide PutBe, GetBe, NewStream, IsReliable, Announce;
    var s := NewStream(n, r);
    StreamIdentity(n, r);
    Widths();
    GetPut(2, s);
    assert (PutBe(2, s) + data)[..2] == PutBe(2, s) && (PutBe(2, s) + data)[2..] == data;
  }

  // ------------------------------------------------------------------
  // Runs
  // ------------------------------------------------------------------

  datatype Log = Log(state: State, trace: seq<Entry>)

  function Run(inputs: seq<Input>): Log {
    if inputs == [] then Log(INITIAL, []) else
    var before := Run(inputs[..|inputs| - 1]);
    var (st, entries) := Step(before.state, inputs[|inputs| - 1]);
    Log(st, before.trace + entries)
  }

  ghost predicate Inverse(st: State) {
    && (forall h :: h in st.handleToUuid ==>
          st.handleToUuid[h] in st.uuidToHandle && st.uuidToHandle[st.handleToUuid[h]] == h)
    && (forall u :: u in st.uuidToHandle ==>
          st.uuidToHandle[u] in st.handleToUuid && st.handleToUuid[st.uuidToHandle[u]] == u)
  }

  // u's phase in the trace, and what the tables must then hold for u.
  ghost predicate AgreesOn(st: State, trace: seq<Entry>, u: Uuid) {
    match PhaseOf(trace, u)
    case Open(streams) => u in st.uuidToHandle && KnownOf(st.known, u) == streams
    case Violation => false
    case _ => u !in st.uuidToHandle && u !in st.known
  }

  ghost predicate Consistent(log: Log) {
    Inverse(log.state) && forall u: Uuid :: AgreesOn(log.state, log.trace, u)
  }

  // The two assumptions: the library announces a new connection only for a handle that is
  // not registered, and no UUID is drawn twice.
  ghost predicate Allowed(log: Log, i: Input) {
    i.StateChange? ==>
      && (i.before.NoState? && i.after.Connecting? ==> i.conn !in log.state.handleToUuid)
      && PhaseOf(log.trace, i.newUuid).Fresh?
  }

  ghost predicate AllowedRun(inputs: seq<Input>) {
    forall k :: 0 <= k < |inputs| ==> Allowed(Run(inputs[..k]), inputs[k])
  }

  lemma {:induction false} TablesAgree(inputs: seq<Input>)
    requires AllowedRun(inputs)
    ensures Consistent(Run(inputs))
  {
    if inputs != [] {
      var init, i := inputs[..|inputs| - 1], inputs[|inputs| - 1];
      forall k | 0 <= k < |init| ensures Allowed(Run(init[..k]), init[k]) {
        assert init[..k] == inputs[..k] && init[k] == inputs[k];
      }
      TablesAgree(init);
      StepKeepsConsistent(Run(init), i);
    }
  }

  lemma {:induction false} StepKeepsConsistent(log: Log, i: Input)
    requires Consistent(log) && Allowed(log, i)
    ensures var (st, entries) := Step(log.state, i); Consistent(Log(st, log.trace + entries))
  {
    hide PhaseOf, MessageStep, EventStep;
    var (st, entries) := Step(log.state, i);
    match i
    case StateChange(_, _, _, _, _) => EventKeepsConsistent(log, i);
    case Incoming(conn, payload) => MessageKeepsConsistent(log, conn, payload);
    case Command(c) =>
      forall u: Uuid ensures AgreesOn(st, log.trace + entries, u) {
        assert AgreesOn(log.state, log.trace, u);
        if entries == [] {
          assert log.trace + entries == log.trace;
        } else {
          PhaseSnoc(log.trace, entries[0], u);
        }
      }
  }

  lemma {:induction false} EventKeepsInverse(st: State, i: Input)
    requires Inverse(st) && i.StateChange? && i.newUuid !in st.uuidToHandle
    requires i.before.NoState? && i.after.Connecting? ==> i.conn !in st.handleToUuid
    ensures Inverse(EventStep(st, i).0)
  {
  }

  lemma {:induction false} EventKeepsConsistent(log: Log, i: Input)
    requires Consistent(log) && Allowed(log, i) && i.StateChange?
    ensures var (st, entries) := EventStep(log.state, i); Consistent(Log(st, log.trace + entries))
  {
    hide PhaseOf;
    assert AgreesOn(log.state, log.trace, i.newUuid);
    EventKeepsInverse(log.state, i);
    var (st, entries) := EventStep(log.state, i);
    forall u: Uuid ensures AgreesOn(st, log.trace + entries, u) {
      EventKeepsAgreement(log, i, u);
    }
  }

  lemma {:induction false} EventKeepsAgreement(log: Log, i: Input, u: Uuid)
    requires Inverse(log.state) && Allowed(log, i) && i.StateChange?
    requires AgreesOn(log.state, log.trace, u) && AgreesOn(log.state, log.trace, i.newUuid)
    ensures var (st, entries) := EventStep(log.state, i); AgreesOn(st, log.trace + entries, u)
  {
    hide PhaseOf;
    var (st, entries) := EventStep(log.state, i);
    if entries == [] {
      assert log.trace + entries == log.trace;
    } else {
      PhaseSnoc(log.trace, entries[0], u);
    }
  }

  lemma {:induction false} MessageKeepsConsistent(log: Log, conn: Handle, payload: seq<byte>)
    requires Consistent(log)
    ensures var (st, entries) := MessageStep(log.state, conn, payload); Consistent(Log(st, log.trace + entries))
  {
    hide PhaseOf, GetBe, Delivery;
    var (st, entries) := MessageStep(log.state, conn, payload);
    forall u: Uuid ensures AgreesOn(st, log.trace + entries, u) {
      assert AgreesOn(log.state, log.trace, u);
      if conn !in log.state.handleToUuid || |payload| < 2 {
        assert log.trace + entries == log.trace;
      } else {
        var v := log.state.handleToUuid[conn];
        assert AgreesOn(log.state, log.trace, v);
        DeliveryPhase(log.trace, v, PayloadStream(payload), payload[2..], u);
      }
    }
  }

  // The assumption on handles is exactly what the accept branch relies on: from consistent
  // tables, accepting a connection keeps them inverse if and only if its handle was free.
  lemma {:induction false} AcceptNeedsFreeHandle(log: Log, conn: Handle, u: Uuid)
    requires Consistent(log) && PhaseOf(log.trace, u).Fresh?
    ensures var (st, entries) := EventStep(log.state, StateChange(conn, NoState, Connecting, true, u));
      Inverse(st) <==> conn !in log.state.handleToUuid
  {
    hide PhaseOf;
    assert AgreesOn(log.state, log.trace, u);
    if conn in log.state.handleToUuid {
      var w := log.state.handleToUuid[conn];
      var st := Register(log.state, conn, u);
      assert w in st.uuidToHandle && st.handleToUuid[st.uuidToHandle[w]] == u != w;
    }
  }

  // In terms of positions in the trace, for any UUID: the live UUIDs are those connected and
  // not disconnected; each stream is announced once and before its messages; nothing follows
  // Disconnected.
  lemma {:induction false} TraceOfRun(inputs: seq<Input>, u: Uuid)
    requires AllowedRun(inputs)
    ensures var Log(st, trace) := Run(inputs);
      && (u in st.uuidToHandle <==> Occurs(trace, Connected(u)) && !Occurs(trace, Disconnected(u)))
      && (forall i, j :: 0 <= i < j < |trace| && Concerns(trace[i], u) && Concerns(trace[j], u)
            ==> !trace[i].event.Disconnected? && !trace[j].event.Connected?
                && (trace[j].event.StreamCreated? ==> trace[j].event != trace[i].event))
      && (forall k :: 0 <= k < |trace| && Concerns(trace[k], u) && trace[k].event.Message?
            ==> exists i, j :: (0 <= i < j < k && At(trace, i, Connected(u))
                                && At(trace, j, StreamCreated(u, trace[k].event.stream))))
  {
    hide Step;
    TablesAgree(inputs);
    var Log(st, trace) := Run(inputs);
    assert AgreesOn(st, trace, u);
    PhaseFacts(trace, u);
    if PhaseOf(trace, u).Fresh? {
      NothingOccurred(trace, Connected(u));
    }
    forall i, j | 0 <= i < j < |trace| && Concerns(trace[i], u) && Concerns(trace[j], u)
      ensures !trace[i].event.Disconnected? && !trace[j].event.Connected?
        && (trace[j].event.StreamCreated? ==> trace[j].event != trace[i].event)
    {
      EventsUnique(trace, u, i, j);
    }
    forall k | 0 <= k < |trace| && Concerns(trace[k], u) && trace[k].event.Message?
      ensures exists i, j :: (0 <= i < j < k && At(trace, i, Connected(u))
                              && At(trace, j, StreamCreated(u, trace[k].event.stream)))
    {
      MessagePreceded(trace, u, k);
    }
  }
}
