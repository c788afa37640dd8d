// The vocabulary shared by every backend: connections, streams, commands and events, and
// the stream numbering of GamePeer.
module Sockets {
  import opened Bytes

  type Uuid = u: seq<byte> | |u| == 16 witness PutBe(16, 0)
  type StreamId = n: int | 0 <= n < 0x1_0000

  // A socket address; the programs only store and compare addresses.
  datatype Addr = Addr(ip: nat, port: nat)

  datatype Reliability = Reliable | Unreliable | Ordered

  datatype Event =
    | Connected(connection: Uuid)
    | Disconnected(connection: Uuid)
    | Message(connection: Uuid, stream: StreamId, data: seq<byte>)
    | Error(connection: Uuid)
    | StreamCreated(connection: Uuid, stream: StreamId)
    | StreamClosed(connection: Uuid, stream: StreamId)

  // The commands a game gives to its backend. `Bind` and `Connect` take their address from
  // the operating system's point of view; each backend models what it gets back.
  datatype Command =
    | Send(connection: Uuid, stream: StreamId, data: seq<byte>)
    | CreateStream(connection: Uuid, number: StreamId, reliability: Reliability)
    | CloseStream(connection: Uuid, stream: StreamId)

  // ------------------------------------------------------------------
  // Encoded stream ids
  // ------------------------------------------------------------------

  // `number << 2` on a u16 drops the two high bits; the masks are 0b10 and 0b11.
  function NewStream(number: StreamId, reliability: Reliability): StreamId {
    var shifted := (number * 4) % U16;
    match reliability
    case Unreliable => shifted
    case Ordered => shifted + 2
    case Reliable => shifted + 3
  }

  // stream_id & 0b11 != 0
  predicate IsReliable(id: StreamId) {
    id % 4 != 0
  }

  // stream_id & 0b10 != 0
  predicate IsOrdered(id: StreamId) {
    (id / 2) % 2 != 0
  }

  // How the statistics tool reads an id back: `id >> 2`, and the class from the two low bits.
  function StreamIndex(id: StreamId): StreamId {
    id / 4
  }

  function StreamClass(id: StreamId): Reliability {
    if id % 4 == 3 then Reliable else if IsOrdered(id) then Ordered else Unreliable
  }

  lemma {:induction false} ClassBits(id: StreamId)
    ensures StreamClass(id) == if id % 4 == 3 then Reliable else if id % 4 == 2 then Ordered else Unreliable
    ensures IsReliable(id) <==> id % 4 in {1, 2, 3}
    ensures IsOrdered(id) <==> id % 4 in {2, 3}
  {
    LowBits(id / 4, id % 4);
  }

  // The class survives encoding for every number, the number exactly when it is below 2^14.
  lemma {:induction false} StreamIdentity(number: StreamId, reliability: Reliability)
    ensures StreamClass(NewStream(number, reliability)) == reliability
    ensures StreamIndex(NewStream(number, reliability)) == number % 0x4000
    ensures StreamIndex(NewStream(number, reliability)) == number <==> number < 0x4000
    ensures IsReliable(NewStream(number, reliability)) <==> reliability != Unreliable
    ensures IsOrdered(NewStream(number, reliability)) <==> reliability != Unreliable
  {
    Shifted(number);
    LowBits(number % 0x4000, match reliability case Unreliable => 0 case Ordered => 2 case Reliable => 3);
  }

  // A shift by two drops what lies above 2^14.
  lemma {:induction false} Shifted(number: StreamId)
    ensures (number * 4) % U16 == 4 * (number % 0x4000)
  {
    Remainder16(number * 4, number / 0x4000, 4 * (number % 0x4000));
  }

  lemma {:induction false} Remainder16(k: nat, q: nat, r: nat)
    requires k == U16 * q + r && r < U16
    ensures k % U16 == r
  {
  }

  lemma {:induction false} LowBits(m: nat, b: nat)
    requires b < 4
    ensures (4 * m + b) / 4 == m && (4 * m + b) % 4 == b && (4 * m + b) / 2 == 2 * m + b / 2
  {
  }

  lemma {:induction false} StreamsDistinct(n: StreamId, r: Reliability, n': StreamId, r': Reliability)
    ensures NewStream(n, r) == NewStream(n', r') <==> r == r' && n % 0x4000 == n' % 0x4000
  {
    StreamIdentity(n, r);
    StreamIdentity(n', r');
    if r == r' && n % 0x4000 == n' % 0x4000 {
      SameEncoding(n, n');
    }
  }

  lemma {:induction false} SameEncoding(n: StreamId, n': StreamId)
    requires n % 0x4000 == n' % 0x4000
    ensures (n * 4) % U16 == (n' * 4) % U16
  {
    Shifted(n);
    Shifted(n');
  }

  // ------------------------------------------------------------------
  // GamePeer
  // ------------------------------------------------------------------

  // The stream creations in a list of commands, in order.
  function Creations(commands: seq<Command>): seq<Command> {
    if commands == [] then [] else
      var rest := Creations(commands[..|commands| - 1]);
      var last := commands[|commands| - 1];
      if last.CreateStream? then rest + [last] else rest
  }

  // The game's handle on its backend; `commands` is everything put in the command channel.
  class GamePeer {
    var nextStreamId: StreamId
    var commands: seq<Command>

    ghost predicate Valid()
      reads this
    {
      && nextStreamId == |Creations(commands)| % U16
      && NumberedInOrder(Creations(commands))
    }

    constructor ()
      ensures Valid() && commands == []
    {
      nextStreamId := 0;
      commands := [];
    }

    // The counter is a u16 and wraps in a release build.
    method CreateStream(connection: Uuid, reliability: Reliability)
      requires Valid()
      modifies this
      ensures Valid()
      ensures commands == old(commands) + [Command.CreateStream(connection, nextStreamId, reliability)]
      ensures nextStreamId == (old(nextStreamId) + 1) % U16 == (|Creations(old(commands))| + 1) % U16
    {
      ghost var before := commands;
      nextStreamId := (nextStreamId + 1) % U16;
      commands := commands + [Command.CreateStream(connection, nextStreamId, reliability)];
      assert commands[..|commands| - 1] == before;
    }

    method CloseStream(connection: Uuid, stream: StreamId)
      requires Valid()
      modifies this`commands
      ensures Valid()
      ensures commands == old(commands) + [Command.CloseStream(connection, stream)]
    {
      ghost var before := commands;
      commands := commands + [Command.CloseStream(connection, stream)];
      assert commands[..|commands| - 1] == before;
    }

    method Send(connection: Uuid, stream: StreamId, data: seq<byte>)
      requires Valid()
      modifies this`commands
      ensures Valid()
      ensures commands == old(commands) + [Command.Send(connection, stream, data)]
    {
      ghost var before := commands;
      commands := commands + [Command.Send(connection, stream, data)];
      assert commands[..|commands| - 1] == before;
    }
  }

  // The k-th creation carries the number k + 1, as a u16.
  ghost predicate NumberedInOrder(creations: seq<Command>) {
    forall k :: 0 <= k < |creations| ==>
      creations[k].CreateStream? && creations[k].number == (k + 1) % U16
  }

  // Two creations by one peer get the same encoded id exactly when they ask for the same
  // reliability and lie a multiple of 2^14 creations apart.
  lemma {:induction false} PeerStreamsDistinct(creations: seq<Command>, i: nat, j: nat)
    requires NumberedInOrder(creations) && i < j < |creations|
    ensures NewStream(creations[i].number, creations[i].reliability)
         == NewStream(creations[j].number, creations[j].reliability)
       <==> creations[i].reliability == creations[j].reliability && (j - i) % 0x4000 == 0
  {
    StreamsDistinct(creations[i].number, creations[i].reliability,
                    creations[j].number, creations[j].reliability);
    ModMod(i + 1);
    ModMod(j + 1);
    ModDifference(i + 1, j + 1);
  }

  lemma {:induction false} ModMod(k: nat)
    ensures (k % U16) % 0x4000 == k % 0x4000
  {
    var r := k % U16;
    RemainderUnique(k, 4 * (k / U16) + r / 0x4000, r % 0x4000);
  }

  lemma {:induction false} RemainderUnique(k: nat, q: nat, r: nat)
    requires k == 0x4000 * q + r && r < 0x4000
    ensures k % 0x4000 == r
  {
  }

  lemma {:induction false} ModDifference(a: nat, b: nat)
    requires a <= b
    ensures a % 0x4000 == b % 0x4000 <==> (b - a) % 0x4000 == 0
  {
  }
}
