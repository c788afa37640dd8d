// The benchmark packet: id, timestamp and CRC-32 in a 20-byte header, then the payload.
module BenchmarkPacket {
  import opened Bytes
  import opened Options
  import Crc32

  const HEADER_SIZE: nat := 20

  // `id` and `timestamp` are u64 in the program.
  datatype Packet = Packet(id: nat, timestamp: nat, payload: seq<byte>) {
    ghost predicate Valid() {
      id < U64 && timestamp < U64
    }
  }

  // What the checksum covers.
  function Covered(p: Packet): seq<byte> {
    PutBe(8, p.id) + PutBe(8, p.timestamp) + p.payload
  }

  function Serialize(p: Packet): (d: seq<byte>)
    ensures |d| == HEADER_SIZE + |p.payload|
  {
    PutBe(8, p.id) + PutBe(8, p.timestamp) + PutBe(4, Crc32.Crc(Covered(p))) + p.payload
  }

  function Parse(d: seq<byte>): (r: Option<Packet>)
    ensures r.Some? ==> |d| >= HEADER_SIZE && r.value.Valid() && r.value.payload == d[HEADER_SIZE..]
  {
    if |d| < HEADER_SIZE then None else
      Widths();
      var p := Packet(GetBe(d[..8]), GetBe(d[8..16]), d[20..]);
      if Crc32.Crc(Covered(p)) == GetBe(d[16..20]) then Some(p) else None
  }

  // to_bytes: the checksum is accumulated over three updates.
  method ToBytes(p: Packet) returns (buf: seq<byte>)
    ensures buf == Serialize(p)
  {
    hide Crc32.Crc, Crc32.Feed, PutBe;
    buf := [];
    buf := buf + PutBe(8, p.id);
    buf := buf + PutBe(8, p.timestamp);
    var hasher := new Crc32.Hasher();
    hasher.Update(PutBe(8, p.id));
    hasher.Update(PutBe(8, p.timestamp));
    hasher.Update(p.payload);
    var checksum := hasher.Finalize();
    assert hasher.fed == Covered(p);
    buf := buf + PutBe(4, checksum);
    buf := buf + p.payload;
  }

  // The `Bytes` handle that from_bytes consumes from the front.
  class Cursor {
    var rest: seq<byte>

    constructor (data: seq<byte>)
      ensures rest == data
    {
      rest := data;
    }

    method Get(n: nat) returns (x: nat)
      requires n <= |rest|
      modifies this
      ensures x == GetBe(old(rest)[..n]) && rest == old(rest)[n..]
    {
      x := GetBe(rest[..n]);
      rest := rest[n..];
    }
  }

  method FromBytes(data: seq<byte>) returns (r: Option<Packet>)
    ensures r == Parse(data)
  {
    hide Crc32.Crc, Crc32.Feed, PutBe, GetBe;
    if |data| < HEADER_SIZE {
      return None;
    }
    var cursor := new Cursor(data);
    var id := cursor.Get(8);
    var timestamp := cursor.Get(8);
    var checksum := cursor.Get(4);
    var payload := cursor.rest;
    assert data[8..][..8] == data[8..16] && data[8..][8..] == data[16..];
    assert data[16..][..4] == data[16..20] && data[16..][4..] == data[20..];
    var p := Packet(id, timestamp, payload);

    var hasher := new Crc32.Hasher();
    hasher.Update(PutBe(8, id));
    hasher.Update(PutBe(8, timestamp));
    hasher.Update(payload);
    assert hasher.fed == Covered(p);
    var actual := hasher.Finalize();
    if actual != checksum {
      return None;
    }
    return Some(p);
  }

  // Feeding id, timestamp and payload separately gives the checksum of their concatenation.
  lemma ThreeUpdates(p: Packet)
    ensures Crc32.Finish(Crc32.Feed(Crc32.Feed(Crc32.Feed(Crc32.ONES, PutBe(8, p.id)), PutBe(8, p.timestamp)), p.payload))
         == Crc32.Crc(Covered(p))
  {
    hide Crc32.Feed;
    Crc32.FeedConcat(Crc32.ONES, PutBe(8, p.id), PutBe(8, p.timestamp));
    Crc32.FeedConcat(Crc32.ONES, PutBe(8, p.id) + PutBe(8, p.timestamp), p.payload);
  }

  lemma Layout(p: Packet)
    ensures var d := Serialize(p);
      d[..8] == PutBe(8, p.id) && d[8..16] == PutBe(8, p.timestamp)
      && d[16..20] == PutBe(4, Crc32.Crc(Covered(p))) && d[20..] == p.payload
  {
    hide PutBe, Crc32.Crc, Covered;
  }

  // Byte for byte: the id in bytes 0 to 7, the timestamp in 8 to 15 and the checksum of these
  // and the payload in 16 to 19, each with its most significant byte first; then the payload.
  lemma {:induction false} HeaderBytes(p: Packet)
    ensures var d := Serialize(p);
      && |d| == 20 + |p.payload|
      && Spells(d[..8], p.id) && Spells(d[8..16], p.timestamp)
      && Spells(d[16..20], Crc32.Crc(d[..16] + d[20..]))
      && d[20..] == p.payload
  {
    hide PutBe, Crc32.Crc, Spells;
    var d := Serialize(p);
    Layout(p);
    assert d[..16] + d[20..] == Covered(p) by {
      assert d[..16] == d[..8] + d[8..16];
    }
    PutSpells(8, p.id);
    PutSpells(8, p.timestamp);
    PutSpells(4, Crc32.Crc(Covered(p)));
  }

  // Every packet survives the wire.
  lemma ParseSerialize(p: Packet)
    requires p.Valid()
    ensures Parse(Serialize(p)) == Some(p)
  {
    Widths();
    Layout(p);
    GetPut(8, p.id);
    GetPut(8, p.timestamp);
    GetPut(4, Crc32.Crc(Covered(p)));
  }

  // Re-serialising an accepted datagram gives back the same bytes.
  lemma SerializeParse(d: seq<byte>)
    requires Parse(d).Some?
    ensures Serialize(Parse(d).value) == d
  {
    hide PutBe, GetBe, Crc32.Crc;
    PutGet(d[..8]);
    PutGet(d[8..16]);
    PutGet(d[16..20]);
    assert d == d[..8] + d[8..16] + d[16..20] + d[20..];
  }

  // So the accepted byte strings are exactly the serialised packets.
  lemma AcceptsExactlySerialized(d: seq<byte>)
    ensures Parse(d).Some? <==> exists p: Packet :: p.Valid() && d == Serialize(p)
  {
    if Parse(d).Some? {
      SerializeParse(d);
    }
    forall p: Packet | p.Valid() && d == Serialize(p) ensures Parse(d).Some? {
      ParseSerialize(p);
    }
  }

  // The id and the timestamp sit in front of everything a receive buffer could cut off.
  lemma TruncationKeepsHeader(p: Packet, n: nat)
    requires p.Valid() && n <= |Serialize(p)|
    requires Parse(Serialize(p)[..n]).Some?
    ensures Parse(Serialize(p)[..n]).value.id == p.id
    ensures Parse(Serialize(p)[..n]).value.timestamp == p.timestamp
  {
    hide PutBe, GetBe, Crc32.Crc, Serialize;
    var d := Serialize(p);
    Layout(p);
    assert d[..n][..8] == d[..8] && d[..n][8..16] == d[8..16];
    Widths();
    GetPut(8, p.id);
    GetPut(8, p.timestamp);
  }

  // The checksummed part of a datagram.
  function CoveredBytes(d: seq<byte>): seq<byte>
    requires |d| >= HEADER_SIZE
  {
    d[..16] + d[20..]
  }

  lemma CoveredOfParts(d: seq<byte>)
    requires |d| >= HEADER_SIZE
    ensures Covered(Packet(GetBe(d[..8]), GetBe(d[8..16]), d[20..])) == CoveredBytes(d)
  {
    PutGet(d[..8]);
    PutGet(d[8..16]);
    assert d[..16] == d[..8] + d[8..16];
  }

  // A change to an accepted datagram that keeps its length and its checksum field, and that
  // stays within four consecutive bytes of the checksummed part, is rejected.
  lemma CorruptionRejected(d: seq<byte>, d': seq<byte>, i: nat)
    requires Parse(d).Some? && |d'| == |d| && d'[16..20] == d[16..20] && d' != d
    requires forall k :: 0 <= k < |CoveredBytes(d)| && !(i <= k < i + 4) ==> CoveredBytes(d')[k] == CoveredBytes(d)[k]
    ensures Parse(d') == None
  {
    hide Crc32.Crc, PutBe, GetBe;
    var m, m' := CoveredBytes(d), CoveredBytes(d');
    CoveredOfParts(d);
    CoveredOfParts(d');
    assert m != m' by {
      assert d[..16] == m[..16] && d[20..] == m[16..] && d'[..16] == m'[..16] && d'[20..] == m'[16..];
      assert d == d[..16] + d[16..20] + d[20..] && d' == d'[..16] + d'[16..20] + d'[20..];
    }
    var start := if i + 4 <= |m| then i else |m| - 4;
    Crc32.BurstDetected(m, m', start, 4);
  }

  // Changing only the checksum field is rejected too.
  lemma ChecksumChangeRejected(d: seq<byte>, d': seq<byte>)
    requires Parse(d).Some? && |d'| == |d| && d' != d
    requires d'[..16] == d[..16] && d'[20..] == d[20..]
    ensures Parse(d') == None
  {
    hide Crc32.Crc;
    assert d[..8] == d[..16][..8] && d[8..16] == d[..16][8..];
    assert d'[..8] == d'[..16][..8] && d'[8..16] == d'[..16][8..];
    assert d == d[..16] + d[16..20] + d[20..] && d' == d'[..16] + d'[16..20] + d'[20..];
    PutGet(d[16..20]);
    PutGet(d'[16..20]);
  }

  // Five bytes are too many: in every accepted datagram there is, wherever the window of
  // the checksummed part lies, a change within five consecutive bytes that is accepted.
  lemma FiveByteCorruptionAccepted(d: seq<byte>, i: nat)
    requires Parse(d).Some? && i + 5 <= |CoveredBytes(d)|
    ensures exists d' ::
              && |d'| == |d| && d' != d && d'[16..20] == d[16..20]
              && CoveredBytes(d')[..i] == CoveredBytes(d)[..i]
              && CoveredBytes(d')[i + 5..] == CoveredBytes(d)[i + 5..]
              && Parse(d').Some?
  {
    hide Crc32.Crc, Crc32.FlipGenerator, PutBe, GetBe;
    var m := CoveredBytes(d);
    var m' := m[..i] + Crc32.FlipGenerator(m[i..i + 5]) + m[i + 5..];
    Crc32.FiveByteChangeUndetected(m, i);
    var d' := Spliced(d, m');
    assert CoveredBytes(d)[..i] == m'[..i] && CoveredBytes(d)[i + 5..] == m'[i + 5..];
    CoveredOfParts(d);
    CoveredOfParts(d');
  }

  // The datagram d with other checksummed bytes.
  lemma {:induction false} Spliced(d: seq<byte>, covered: seq<byte>) returns (d': seq<byte>)
    requires |d| >= HEADER_SIZE && |covered| == |CoveredBytes(d)|
    ensures |d'| == |d| && d'[16..20] == d[16..20] && CoveredBytes(d') == covered
  {
    d' := covered[..16] + d[16..20] + covered[16..];
    assert d'[..16] == covered[..16] && d'[20..] == covered[16..];
  }
}
