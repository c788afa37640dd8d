// The TCP backend: a main loop with a table of write channels, and per connection one task
// that reads frames off the socket and writes queued packets to it.
//
// The length-delimited codec is taken to deliver frames whole and in order, up to its
// default limit of 8 MiB.
module TcpBackend {
  import opened Bytes
  import opened Options
  import opened Sockets
  import opened Traces

  const MAX_FRAME: nat := 8 * 1024 * 1024
  const WRITE_CAPACITY: nat := 100
  const REGISTRATION_CAPACITY: nat := 16

  // Stream id, then payload; the codec adds the length.
  function Packet(s: StreamId, data: seq<byte>): (p: seq<byte>)
    ensures |p| == 2 + |data|
  {
    PutBe(2, s) + data
  }

  function PacketStream(p: seq<byte>): StreamId
    requires |p| >= 2
  {
    Widths();
    GetBe(p[..2])
  }

  lemma {:induction false} PacketParts(s: StreamId, data: seq<byte>)
    ensures PacketStream(Packet(s, data)) == s && Packet(s, data)[2..] == data
  {
    hide GetBe, PutBe;
    Widths();
    GetPut(2, s);
    assert Packet(s, data)[..2] == PutBe(2, s);
  }

  // What a task does with one frame: its list of known streams and the events it posts.
  function OnFrame(known: seq<StreamId>, u: Uuid, frame: seq<byte>): (seq<StreamId>, seq<Entry>) {
    if |frame| < 2 then (known, []) else
    var s := PacketStream(frame);
    (Learn(known, s), Delivery(known, u, s, frame[2..]))
  }

  // ------------------------------------------------------------------
  // One end of a connection, and what each task does to it
  // ------------------------------------------------------------------

  // One end of a connection. `passed` lists what its main loop put in the write channel, of
  // which `queue` is still there; `wire` lists the frames written to the socket, and `read`
  // counts the other end's frames that were read from it. After a write error nothing more
  // reaches the wire (`cut`).
  datatype End = End(
    peer: Option<Uuid>,
    reported: bool, registered: bool, running: bool,
    passed: seq<(StreamId, seq<byte>)>, queue: seq<seq<byte>>,
    wire: seq<seq<byte>>, cut: bool, read: nat,
    known: seq<StreamId>)

  function NewEnd(peer: Option<Uuid>, registered: bool): End {
    End(peer, registered, registered, true, [], [], [], false, 0, [])
  }

  function SendStep(e: End, s: StreamId, data: seq<byte>): End {
    if !e.registered || !e.running then e else
    e.(passed := e.passed + [(s, data)], queue := e.queue + [Packet(s, data)])
  }

  function WriteStep(e: End, ok: bool): End
    requires e.queue != []
  {
    var p := e.queue[0];
    if |p| > MAX_FRAME then e.(queue := e.queue[1..])
    else if e.cut || !ok then e.(queue := e.queue[1..], cut := true)
    else e.(queue := e.queue[1..], wire := e.wire + [p])
  }

  function ReadStep(e: End, u: Uuid, frame: seq<byte>): (End, seq<Entry>) {
    var (known, entries) := OnFrame(e.known, u, frame);
    (e.(known := known, read := e.read + 1), entries)
  }

  function RegisterStep(e: End): End {
    e.(registered := true)
  }

  function FinishStep(e: End): End {
    e.(running := false)
  }

  // ------------------------------------------------------------------
  // Peer handlers and main loop
  // ------------------------------------------------------------------

  // The bounded channel between the main loop and a peer's handler; `open` until that handler
  // ends. `passed` is everything the main loop has put in.
  class WriteChannel {
    var queue: seq<seq<byte>>
    var open: bool
    ghost var passed: seq<(StreamId, seq<byte>)>

    ghost predicate Carries(e: End)
      reads this
    {
      e.queue == queue && e.running == open && e.passed == passed
    }

    constructor ()
      ensures forall peer, registered :: Carries(NewEnd(peer, registered))
    {
      queue, open, passed := [], true, [];
    }
  }

  // The task of one connection. `wire` lists the frames it got written to the socket, of the
  // other side's frames it has taken the first `read`, and after a write error nothing more
  // reaches the wire (`cut`).
  class PeerHandler {
    const uuid: Uuid
    const writes: WriteChannel
    var known: seq<StreamId>
    ghost var wire: seq<seq<byte>>
    ghost var cut: bool
    ghost var read: nat
    ghost var trace: seq<Entry>

    // e is the end that this task serves.
    ghost predicate Serves(e: End)
      reads this, writes
    {
      writes.Carries(e) && e.known == known && e.wire == wire && e.cut == cut && e.read == read
    }

    constructor (uuid: Uuid, writes: WriteChannel)
      ensures this.uuid == uuid && this.writes == writes && trace == []
      ensures forall peer, registered ::
        writes.Carries(NewEnd(peer, registered)) ==> Serves(NewEnd(peer, registered))
    {
      this.uuid, this.writes, known := uuid, writes, [];
      wire, cut, read, trace := [], false, 0, [];
    }

    method Read(frame: seq<byte>, ghost e: End)
      requires Serves(e)
      modifies this`known, this`read, this`trace
      ensures Serves(ReadStep(e, uuid, frame).0)
      ensures trace == old(trace) + ReadStep(e, uuid, frame).1
    {
      hide GetBe;
      if |frame| >= 2 {
        var s := PacketStream(frame);
        if s !in known {
          known := known + [s];
          trace := trace + [Network(StreamCreated(uuid, s))];
        }
        trace := trace + [Network(Message(uuid, s, frame[2..]))];
      }
      read := read + 1;
    }

    // The socket ended or failed.
    method Finish(ghost e: End)
      requires Serves(e)
      modifies this`trace, writes`open
      ensures Serves(FinishStep(e))
      ensures trace == old(trace) + [Network(Disconnected(uuid))]
    {
      trace := trace + [Network(Disconnected(uuid))];
      writes.open := false;
    }

    // The next packet of the channel goes to the socket; `ok` is whether the write succeeds. A
    // packet above the codec's limit is given up.
    method Write(ok: bool, ghost e: End)
      requires Serves(e) && writes.queue != []
      modifies this`wire, this`cut, writes`queue
      ensures Serves(WriteStep(e, ok))
    {
      var packet := writes.queue[0];
      writes.queue := writes.queue[1..];
      if |packet| <= MAX_FRAME {
        cut := cut || !ok;
        wire := if cut then wire else wire + [packet];
      }
    }
  }

  // The main loop's table.
  class TcpBackend {
    var peers: map<Uuid, WriteChannel>

    // e is the end called u, as far as the main loop is concerned with it.
    ghost predicate Holds(u: Uuid, e: End)
      reads this, if u in peers then {peers[u]} else {}
    {
      (u in peers <==> e.registered) && (u in peers ==> peers[u].Carries(e))
    }

    constructor ()
      ensures forall u, peer :: Holds(u, NewEnd(peer, false))
    {
      peers := map[];
    }

    method Register(u: Uuid, writes: WriteChannel, ghost e: End)
      requires writes.Carries(e)
      modifies this
      ensures Holds(u, RegisterStep(e))
      ensures peers == old(peers)[u := writes]
    {
      peers := peers[u := writes];
    }

    // Waits while the channel is full; an end that is not registered, or whose handler has
    // ended, drops the packet.
    method Send(u: Uuid, s: StreamId, data: seq<byte>, ghost e: End)
      requires Holds(u, e)
      requires e.registered && e.running ==> |e.queue| < WRITE_CAPACITY
      modifies if u in peers then {peers[u]} else {}
      ensures Holds(u, SendStep(e, s, data))
    {
      if u in peers {
        var packet: seq<byte> := [];
        packet := packet + PutBe(2, s);
        packet := packet + data;
        assert packet == Packet(s, data);
        if peers[u].open {
          peers[u].queue := peers[u].queue + [packet];
          peers[u].passed := peers[u].passed + [(s, data)];
        }
      }
    }
  }
}
