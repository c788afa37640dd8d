// The benchmark server: keeps the list of connected clients and sends every valid packet
// back on the connection and stream it came from.
module EchoServer {
  import opened Options
  import opened Sockets
  import opened Traces
  import Packets = BenchmarkPacket

  function Without(clients: seq<Uuid>, u: Uuid): seq<Uuid> {
    if clients == [] then [] else
    (if clients[0] == u then [] else [clients[0]]) + Without(clients[1..], u)
  }

  function ClientsAfter(clients: seq<Uuid>, ev: Event): seq<Uuid> {
    match ev
    case Connected(u) => clients + [u]
    case Disconnected(u) => Without(clients, u)
    case _ => clients
  }

  function Reply(ev: Event): Option<Command> {
    if !ev.Message? then None else
    match Packets.Parse(ev.data)
    case None => None
    case Some(p) => Some(Send(ev.connection, ev.stream, Packets.Serialize(p)))
  }

  class EchoServer {
    var clients: seq<Uuid>

    constructor ()
      ensures clients == []
    {
      clients := [];
    }

    method HandleEvent(ev: Event) returns (reply: Option<Command>)
      modifies this
      ensures clients == ClientsAfter(old(clients), ev)
      ensures reply == Reply(ev)
    {
      reply := None;
      match ev
      case Connected(u) =>
        clients := clients + [u];
      case Disconnected(u) =>
        clients := Without(clients, u);
      case Message(u, s, data) =>
        var parsed := Packets.FromBytes(data);
        if parsed.Some? {
          var echo := Packets.ToBytes(parsed.value);
          reply := Some(Send(u, s, echo));
        }
      case _ =>
    }
  }

  // What is echoed is byte for byte what arrived.
  lemma {:induction false} EchoIsIdentical(ev: Event)
    requires Reply(ev).Some?
    ensures ev.Message? && Reply(ev).value == Send(ev.connection, ev.stream, ev.data)
  {
    hide Packets.Parse, Packets.Serialize;
    Packets.SerializeParse(ev.data);
  }

  // A message is answered exactly when it is some packet's serialised form.
  lemma {:induction false} AnsweredExactlyPackets(ev: Event)
    ensures Reply(ev).Some? <==> ev.Message? && exists p: Packets.Packet :: p.Valid() && ev.data == Packets.Serialize(p)
  {
    hide Packets.Parse, Packets.Serialize;
    if ev.Message? {
      Packets.AcceptsExactlySerialized(ev.data);
    }
  }

  // ------------------------------------------------------------------
  // The client list over a whole trace
  // ------------------------------------------------------------------

  function ClientsOf(trace: seq<Entry>): seq<Uuid> {
    if trace == [] then [] else ClientsAfter(ClientsOf(trace[..|trace| - 1]), trace[|trace| - 1].event)
  }

  lemma {:induction false} WithoutMembers(clients: seq<Uuid>, u: Uuid)
    ensures forall v :: v in Without(clients, u) <==> v in clients && v != u
    ensures NoRepeats(clients) ==> NoRepeats(Without(clients, u))
  {
    if clients != [] {
      WithoutMembers(clients[1..], u);
      assert NoRepeats(clients) ==> NoRepeats(clients[1..]) && clients[0] !in clients[1..];
      assert forall v :: v in clients <==> v == clients[0] || v in clients[1..];
    }
  }

  // On any trace that keeps to the connection protocol, the list holds the open connections,
  // each once.
  lemma {:induction false} ClientsAreOpenConnections(trace: seq<Entry>)
    requires CommandEntries(trace)
    requires forall u: Uuid :: PhaseOf(trace, u) != Violation
    ensures NoRepeats(ClientsOf(trace))
    ensures forall u: Uuid :: u in ClientsOf(trace) <==> PhaseOf(trace, u).Open?
  {
    if trace != [] {
      var init, e := trace[..|trace| - 1], trace[|trace| - 1];
      assert CommandEntries(init) && (e.origin == FromCommand ==> e == trace[|trace| - 1]);
      forall u: Uuid ensures PhaseOf(init, u) != Violation {
        assert PhaseOf(trace, u) != Violation;
      }
      ClientsAreOpenConnections(init);
      if e.event.Disconnected? {
        WithoutMembers(ClientsOf(init), e.event.connection);
      }
      if e.event.Connected? {
        var u := e.event.connection;
        assert PhaseOf(trace, u) != Violation && u !in ClientsOf(init);
        assert ClientsOf(trace) == ClientsOf(init) + [u];
      }
    }
  }
}
