// The QUIC backend's stream codec: each message on a reliable stream is a u32 length and
// then its bytes; a stream starts with the u16 number that its opener gave it.
module QuicStreams {
  import opened Bytes
  import opened Options
  import opened Sockets

  const LENGTH_SIZE: nat := 4

  // `data.len() as u32` keeps the low 32 bits.
  function Frame(m: seq<byte>): (f: seq<byte>)
    ensures |f| == LENGTH_SIZE + |m|
  {
    PutBe(4, |m| % U32) + m
  }

  function Frames(ms: seq<seq<byte>>): seq<byte> {
    if ms == [] then [] else Frame(ms[0]) + Frames(ms[1..])
  }

  // Everything that can be read off a byte stream that then ends.
  function Decode(bytes: seq<byte>): seq<seq<byte>>
    decreases |bytes|
  {
    if |bytes| < LENGTH_SIZE then [] else
    var len := GetBe(bytes[..LENGTH_SIZE]);
    if |bytes| < LENGTH_SIZE + len then [] else
    [bytes[LENGTH_SIZE..LENGTH_SIZE + len]] + Decode(bytes[LENGTH_SIZE + len..])
  }

  function Flatten(chunks: seq<seq<byte>>): seq<byte> {
    if chunks == [] then [] else chunks[0] + Flatten(chunks[1..])
  }

  lemma {:induction false} FlattenNone()
    ensures Flatten([]) == []
  {
  }

  lemma {:induction false} FlattenCons(chunk: seq<byte>, rest: seq<seq<byte>>)
    ensures Flatten([chunk] + rest) == chunk + Flatten(rest)
  {
    assert ([chunk] + rest)[1..] == rest;
  }

  lemma {:induction false} SplitAt(buf: seq<byte>, chunk: seq<byte>, rest: seq<byte>, take: nat)
    requires take <= |chunk|
    ensures buf + (chunk + rest) == (buf + chunk[..take]) + (chunk[take..] + rest)
    ensures take == |chunk| ==> chunk[..take] == chunk && chunk[take..] + rest == rest
  {
  }

  // ------------------------------------------------------------------
  // Reading a stream that arrives in chunks
  // ------------------------------------------------------------------

  // quinn's RecvStream: `chunks` is what will still arrive before the stream ends.
  class RecvStream {
    var chunks: seq<seq<byte>>

    constructor (chunks: seq<seq<byte>>)
      ensures this.chunks == chunks
    {
      this.chunks := chunks;
    }

    // read_exact: fails, having consumed everything, if the stream ends too early.
    method ReadExact(n: nat) returns (r: Option<seq<byte>>)
      modifies this
      ensures r.Some? <==> n <= |Flatten(old(chunks))|
      ensures r.Some? ==> r.value == Flatten(old(chunks))[..n] && Flatten(chunks) == Flatten(old(chunks))[n..]
    {
      hide Flatten;
      var buf: seq<byte> := [];
      ghost var whole := Flatten(chunks);
      while |buf| < n && chunks != []
        invariant |buf| <= n
        invariant buf + Flatten(chunks) == whole
        decreases |chunks|, n - |buf|
      {
        var chunk := chunks[0];
        var rest := chunks[1..];
        FlattenCons(chunk, rest);
        assert chunks == [chunk] + rest;
        if |buf| + |chunk| <= n {
          SplitAt(buf, chunk, Flatten(rest), |chunk|);
          buf := buf + chunk;
          chunks := rest;
        } else {
          var take := n - |buf|;
          SplitAt(buf, chunk, Flatten(rest), take);
          FlattenCons(chunk[take..], rest);
          buf := buf + chunk[..take];
          chunks := [chunk[take..]] + rest;
        }
      }
      FlattenNone();
      if |buf| < n {
        return None;
      }
      return Some(buf);
    }
  }

  // stream_reading_loop: posts one message per frame until a read fails.
  method StreamReadingLoop(u: Uuid, number: StreamId, stream: RecvStream) returns (events: seq<Event>)
    modifies stream
    ensures events == Messages(u, number, Decode(Flatten(old(stream.chunks))))
  {
    hide GetBe, Flatten, Decode, Messages;
    events := [];
    MessagesNone(u, number);
    ghost var all := Flatten(stream.chunks);
    ghost var read := [];
    var open := true;
    while open
      invariant events == Messages(u, number, read)
      invariant open ==> Decode(all) == read + Decode(Flatten(stream.chunks))
      invariant !open ==> Decode(all) == read
      decreases open, |Flatten(stream.chunks)|
    {
      ghost var rest := Flatten(stream.chunks);
      var header := stream.ReadExact(LENGTH_SIZE);
      DecodeStep(rest);
      if header.None? {
        assert read + [] == read;
        open := false;
      } else {
        ghost var tail := Flatten(stream.chunks);
        var len := GetBe(header.value);
        var body := stream.ReadExact(len);
        if body.None? {
          assert read + [] == read;
          open := false;
        } else {
          events := events + [Message(u, NewStream(number, Reliable), body.value)];
          MessagesSnoc(u, number, read, body.value);
          SliceTwice(rest, tail, len);
          assert Decode(all) == (read + [body.value]) + Decode(Flatten(stream.chunks));
          read := read + [body.value];
        }
      }
    }
  }

  lemma {:induction false} SliceTwice(rest: seq<byte>, tail: seq<byte>, len: nat)
    requires LENGTH_SIZE + len <= |rest| && tail == rest[LENGTH_SIZE..]
    ensures tail[..len] == rest[LENGTH_SIZE..LENGTH_SIZE + len] && tail[len..] == rest[LENGTH_SIZE + len..]
  {
  }

  lemma {:induction false} MessagesNone(u: Uuid, number: StreamId)
    ensures Messages(u, number, []) == []
  {
  }

  function Messages(u: Uuid, number: StreamId, ms: seq<seq<byte>>): seq<Event> {
    if ms == [] then [] else [Message(u, NewStream(number, Reliable), ms[0])] + Messages(u, number, ms[1..])
  }

  lemma {:induction false} MessagesSnoc(u: Uuid, number: StreamId, ms: seq<seq<byte>>, m: seq<byte>)
    ensures Messages(u, number, ms + [m]) == Messages(u, number, ms) + [Message(u, NewStream(number, Reliable), m)]
  {
    if ms != [] {
      assert (ms + [m])[1..] == ms[1..] + [m];
      MessagesSnoc(u, number, ms[1..], m);
    } else {
      assert ms + [m] == [m];
    }
  }

  // The accepting side: the number first, then the reading loop. `id` is what it registers.
  method AcceptStream(u: Uuid, stream: RecvStream) returns (id: Option<StreamId>, events: seq<Event>)
    modifies stream
    ensures var bytes := Flatten(old(stream.chunks));
      && (id.Some? <==> |bytes| >= 2)
      && (id.Some? ==> id.value == NewStream(StreamNumber(bytes), Reliable)
                       && events == Messages(u, StreamNumber(bytes), Decode(bytes[2..])))
      && (id.None? ==> events == [])
  {
    hide GetBe, Decode;
    var header := stream.ReadExact(2);
    if header.None? {
      return None, [];
    }
    Widths();
    var number: StreamId := GetBe(header.value);
    events := StreamReadingLoop(u, number, stream);
    id := Some(NewStream(number, Reliable));
  }

  function StreamNumber(bytes: seq<byte>): StreamId
    requires |bytes| >= 2
  {
    Widths();
    GetBe(bytes[..2])
  }

  // ------------------------------------------------------------------
  // What the codec guarantees
  // ------------------------------------------------------------------

  lemma {:induction false} DecodeFrame(m: seq<byte>, rest: seq<byte>)
    requires |m| < U32
    ensures Decode(Frame(m) + rest) == [m] + Decode(rest)
  {
    hide GetBe, PutBe;
    var bytes := Frame(m) + rest;
    Widths();
    GetPut(4, |m|);
    assert bytes[..LENGTH_SIZE] == PutBe(4, |m|);
    assert bytes[LENGTH_SIZE..LENGTH_SIZE + |m|] == m && bytes[LENGTH_SIZE + |m|..] == rest;
  }

  // A message that long is never read back as itself: its length field is too small.
  lemma {:induction false} LongFrameMisread(m: seq<byte>, rest: seq<byte>)
    requires |m| >= U32
    ensures var read := Decode(Frame(m) + rest); read == [] || read[0] != m
  {
    hide GetBe, PutBe;
    var bytes := Frame(m) + rest;
    Widths();
    GetPut(4, |m| % U32);
    assert bytes[..LENGTH_SIZE] == PutBe(4, |m| % U32);
  }

  // The concatenated frames read back as the same messages exactly when every message is
  // shorter than 2^32 bytes.
  lemma {:induction false} FramesReadBack(ms: seq<seq<byte>>)
    ensures Decode(Frames(ms)) == ms <==> forall m :: m in ms ==> |m| < U32
  {
    hide Decode, Frame;
    if ms == [] {
      DecodeEmpty();
    } else {
      var m, rest := ms[0], ms[1..];
      assert forall x :: x in ms <==> x == m || x in rest;
      if |m| < U32 {
        DecodeFrame(m, Frames(rest));
        FramesReadBack(rest);
        assert ms == [m] + rest;
        assert Decode(Frames(ms))[1..] == Decode(Frames(rest));
      } else {
        LongFrameMisread(m, Frames(rest));
      }
    }
  }

  lemma {:induction false} DecodeEmpty()
    ensures Decode([]) == []
  {
  }

  function FrameEnd(bytes: seq<byte>): nat
    requires |bytes| >= LENGTH_SIZE
  {
    LENGTH_SIZE + GetBe(bytes[..LENGTH_SIZE])
  }

  lemma {:induction false} DecodeStep(bytes: seq<byte>)
    ensures |bytes| < LENGTH_SIZE || |bytes| < FrameEnd(bytes) ==> Decode(bytes) == []
    ensures |bytes| >= LENGTH_SIZE && |bytes| >= FrameEnd(bytes) ==>
      Decode(bytes) == [bytes[LENGTH_SIZE..FrameEnd(bytes)]] + Decode(bytes[FrameEnd(bytes)..])
  {
    hide GetBe;
  }

  // A frame is the low 32 bits of the length, most significant byte first, and the message.
  lemma {:induction false} FrameBytes(m: seq<byte>)
    ensures Spells(Frame(m)[..4], |m| % 0x1_0000_0000) && Frame(m)[4..] == m
  {
    hide PutBe, Spells;
    PutSpells(4, |m| % U32);
    assert Frame(m)[..4] == PutBe(4, |m| % U32);
  }

  lemma {:induction false} FrameAgain(bytes: seq<byte>)
    requires |bytes| >= LENGTH_SIZE && |bytes| >= FrameEnd(bytes)
    ensures bytes == Frame(bytes[LENGTH_SIZE..FrameEnd(bytes)]) + bytes[FrameEnd(bytes)..]
    ensures |bytes[LENGTH_SIZE..FrameEnd(bytes)]| < U32
  {
    hide PutBe, GetBe;
    Widths();
    var header, m, rest := bytes[..LENGTH_SIZE], bytes[LENGTH_SIZE..FrameEnd(bytes)], bytes[FrameEnd(bytes)..];
    PutGet(header);
    assert bytes == header + m + rest;
  }

  // Conversely nothing is skipped: what was read is the frames of the messages, shorter than
  // 2^32 bytes each, and a rest that is too short to be a whole frame.
  lemma {:induction false} NothingSkipped(bytes: seq<byte>) returns (rest: seq<byte>)
    ensures bytes == Frames(Decode(bytes)) + rest
    ensures |rest| < 4 || |rest| < 4 + GetBe(rest[..4])
    ensures forall m :: m in Decode(bytes) ==> |m| < U32
    decreases |bytes|
  {
    hide GetBe, Decode, Frame;
    DecodeStep(bytes);
    if |bytes| < LENGTH_SIZE || |bytes| < FrameEnd(bytes) {
      rest := bytes;
    } else {
      FrameAgain(bytes);
      var m, tail := bytes[LENGTH_SIZE..FrameEnd(bytes)], bytes[FrameEnd(bytes)..];
      rest := NothingSkipped(tail);
      assert Decode(bytes)[1..] == Decode(tail);
    }
  }

  // A stream that is cut short yields a prefix of the messages, never part of one.
  lemma {:induction false} TruncationYieldsPrefix(bytes: seq<byte>, n: nat)
    requires n <= |bytes|
    ensures Decode(bytes[..n]) <= Decode(bytes)
    decreases n
  {
    hide GetBe, Decode;
    var cut := bytes[..n];
    DecodeStep(bytes);
    DecodeStep(cut);
    if n >= LENGTH_SIZE {
      assert cut[..LENGTH_SIZE] == bytes[..LENGTH_SIZE];
      var end := FrameEnd(bytes);
      if n >= end {
        assert cut[LENGTH_SIZE..end] == bytes[LENGTH_SIZE..end];
        assert cut[end..] == bytes[end..][..n - end];
        TruncationYieldsPrefix(bytes[end..], n - end);
      }
    }
  }

  // Both together: from any part of the stream that has arrived, in any chunks, the loop
  // posts a prefix of the messages sent.
  lemma {:induction false} ArrivedMessagesArePrefix(ms: seq<seq<byte>>, chunks: seq<seq<byte>>)
    requires Flatten(chunks) <= Frames(ms)
    requires forall m :: m in ms ==> |m| < U32
    ensures Decode(Flatten(chunks)) <= ms
  {
    hide Decode, Frames, Flatten;
    FramesReadBack(ms);
    var n := |Flatten(chunks)|;
    assert Flatten(chunks) == Frames(ms)[..n];
    TruncationYieldsPrefix(Frames(ms), n);
  }

  // Opener, acceptor and every message agree on the encoded id of a stream.
  lemma {:induction false} StreamIdAgreed(u: Uuid, number: StreamId, ms: seq<seq<byte>>)
    requires forall m :: m in ms ==> |m| < U32
    ensures var bytes := PutBe(2, number) + Frames(ms);
      && |bytes| >= 2 && StreamNumber(bytes) == number
      && Messages(u, StreamNumber(bytes), Decode(bytes[2..])) == Messages(u, number, ms)
      && |Messages(u, number, ms)| == |ms|
      && (forall k :: 0 <= k < |ms| ==>
            Messages(u, number, ms)[k] == Message(u, NewStream(number, Reliable), ms[k]))
  {
    hide Decode, Frames, GetBe, PutBe;
    var bytes := PutBe(2, number) + Frames(ms);
    Widths();
    GetPut(2, number);
    assert bytes[..2] == PutBe(2, number) && bytes[2..] == Frames(ms);
    FramesReadBack(ms);
    MessagesShape(u, number, ms);
  }

  lemma {:induction false} MessagesShape(u: Uuid, number: StreamId, ms: seq<seq<byte>>)
    ensures |Messages(u, number, ms)| == |ms|
    ensures forall k :: 0 <= k < |ms| ==> Messages(u, number, ms)[k] == Message(u, NewStream(number, Reliable), ms[k])
  {
    hide NewStream;
    if ms != [] {
      MessagesShape(u, number, ms[1..]);
    }
  }
}
