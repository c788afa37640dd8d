// What the inputs of one QUIC process say about its state: whose stream each wire is, that
// everything on a wire or in a datagram was passed to Send, and that everything posted to the
// game was read.
module QuicHistory {
  import opened Bytes
  import opened Sockets
  import opened QuicStreams
  import opened QuicBackend
  import opened Subsequences

  // ------------------------------------------------------------------
  // Growth
  // ------------------------------------------------------------------

  ghost predicate WireGrows(w: Wire, w': Wire) {
    w'.connection == w.connection && w'.number == w.number && w'.header == w.header && w.body <= w'.body
  }

  ghost predicate Grows(st: State, st': State) {
    && |st.wires| <= |st'.wires|
    && (forall h :: 0 <= h < |st.wires| ==> WireGrows(st.wires[h], st'.wires[h]))
    && st.datagrams <= st'.datagrams
  }

  lemma {:induction false} StepGrows(st: State, i: Input)
    ensures Grows(st, Step(st, i))
  {
    hide Frame, PutBe, NewStream, IsReliable, StreamNumber, Remove;
  }

  lemma {:induction false} RunGrows(inputs: seq<Input>, inputs': seq<Input>)
    requires inputs <= inputs'
    ensures Grows(Run(inputs), Run(inputs'))
  {
    hide Step;
    if inputs == inputs' {
    } else {
      var init := inputs'[..|inputs'| - 1];
      RunGrows(inputs, init);
      StepGrows(Run(init), inputs'[|inputs'| - 1]);
      hide Run;
      GrowsTransitive(Run(inputs), Run(init), Step(Run(init), inputs'[|inputs'| - 1]));
    }
  }

  lemma {:induction false} GrowsTransitive(a: State, b: State, c: State)
    requires Grows(a, b) && Grows(b, c)
    ensures Grows(a, c)
  {
  }

  // ------------------------------------------------------------------
  // Owners of wires
  // ------------------------------------------------------------------

  ghost predicate OwnedBy(st: State, h: nat, key: Key) {
    h < |st.wires| && st.wires[h].connection == key.0 && NewStream(st.wires[h].number, Reliable) == key.1
  }

  ghost predicate OwnersOk(st: State) {
    && (forall key :: key in st.reliable ==> OwnedBy(st, st.reliable[key], key))
    && (forall k :: 0 <= k < |st.queue| && st.queue[k].handle.Some? ==>
          OwnedBy(st, st.queue[k].handle.value, (st.queue[k].connection, st.queue[k].stream)))
  }

  lemma {:induction false} StepKeepsOwners(st: State, i: Input)
    requires OwnersOk(st)
    ensures OwnersOk(Step(st, i))
  {
    hide Step, OwnersOk;
    StepGrows(st, i);
    if i.CreateStream? || i.StreamAccepted? {
      OpenKeepsOwners(st, i);
    } else {
      OthersKeepOwners(st, i);
    }
  }

  lemma {:induction false} OpenKeepsOwners(st: State, i: Input)
    requires OwnersOk(st) && Grows(st, Step(st, i)) && (i.CreateStream? || i.StreamAccepted?)
    ensures OwnersOk(Step(st, i))
  {
    hide NewStream, OwnedBy, Grows, PutBe;
    var after := Step(st, i);
    forall h: nat, key | OwnedBy(st, h, key) ensures OwnedBy(after, h, key) {
      OwnerGrows(st, after, h, key);
    }
    OpenedOwned(st, i);
  }

  lemma {:induction false} OthersKeepOwners(st: State, i: Input)
    requires OwnersOk(st) && Grows(st, Step(st, i)) && !i.CreateStream? && !i.StreamAccepted?
    ensures OwnersOk(Step(st, i))
  {
    hide NewStream, IsReliable, StreamNumber, Remove, OwnedBy, Grows, Write, PutBe;
    var after := Step(st, i);
    forall h: nat, key | OwnedBy(st, h, key) ensures OwnedBy(after, h, key) {
      OwnerGrows(st, after, h, key);
    }
  }

  lemma {:induction false} OwnerGrows(st: State, st': State, h: nat, key: Key)
    requires OwnedBy(st, h, key) && Grows(st, st')
    ensures OwnedBy(st', h, key)
  {
  }

  lemma {:induction false} OpenedOwned(st: State, i: Input)
    requires i.CreateStream? || i.StreamAccepted?
    ensures var after := Step(st, i);
      |after.queue| == |st.queue| + 1 && after.queue[|st.queue|].handle.Some? ==>
        var r := after.queue[|st.queue|]; OwnedBy(after, r.handle.value, (r.connection, r.stream))
  {
    hide NewStream, PutBe;
  }

  lemma {:induction false} RunOwners(inputs: seq<Input>)
    ensures OwnersOk(Run(inputs))
  {
    hide Step;
    if inputs != [] {
      RunOwners(inputs[..|inputs| - 1]);
      StepKeepsOwners(Run(inputs[..|inputs| - 1]), inputs[|inputs| - 1]);
    }
  }

  // ------------------------------------------------------------------
  // What was passed to Send
  // ------------------------------------------------------------------

  // The payloads of the Sends on one stream, in order.
  function SentOn(inputs: seq<Input>, u: Uuid, s: StreamId): seq<seq<byte>> {
    if inputs == [] then [] else
    var before := SentOn(inputs[..|inputs| - 1], u, s);
    var i := inputs[|inputs| - 1];
    if i.Send? && i.u == u && i.s == s then before + [i.data] else before
  }

  // A wire carries, in order and some left out, payloads sent on its own stream.
  ghost predicate WireSent(inputs: seq<Input>, w: Wire) {
    Sub(w.sent, SentOn(inputs, w.connection, NewStream(w.number, Reliable)))
  }

  ghost predicate WiresSent(inputs: seq<Input>, st: State) {
    forall h :: 0 <= h < |st.wires| ==> WireSent(inputs, st.wires[h])
  }

  lemma {:induction false} RunWiresSent(inputs: seq<Input>)
    ensures WiresSent(inputs, Run(inputs))
  {
    if inputs != [] {
      var init, i := inputs[..|inputs| - 1], inputs[|inputs| - 1];
      RunWiresSent(init);
      RunOwners(init);
      hide Run;
      StepKeepsWiresSent(init, Run(init), i);
      assert inputs == init + [i];
      assert Run(inputs) == Step(Run(init), i) by { RunSnoc(init, i); }
    }
  }

  lemma {:induction false} SentOnSnoc(inputs: seq<Input>, i: Input, u: Uuid, s: StreamId)
    ensures SentOn(inputs + [i], u, s)
         == if i.Send? && i.u == u && i.s == s then SentOn(inputs, u, s) + [i.data] else SentOn(inputs, u, s)
  {
    assert (inputs + [i])[..|inputs|] == inputs;
  }

  lemma {:induction false} StepKeepsWiresSent(inputs: seq<Input>, st: State, i: Input)
    requires WiresSent(inputs, st) && OwnersOk(st)
    ensures WiresSent(inputs + [i], Step(st, i))
  {
    hide Step, WireSent, OwnersOk;
    var after := Step(st, i);
    forall h | 0 <= h < |after.wires| ensures WireSent(inputs + [i], after.wires[h]) {
      WireAfter(st, i, h);
      if h < |st.wires| {
        assert WireSent(inputs, st.wires[h]);
        WireStaysSent(inputs, i, st.wires[h], after.wires[h]);
      } else {
        NothingSent(inputs + [i], after.wires[h]);
      }
    }
  }

  lemma {:induction false} NothingSent(inputs: seq<Input>, w: Wire)
    requires w.sent == []
    ensures WireSent(inputs, w)
  {
  }

  // One step leaves a wire's messages alone, or adds the one that was sent on its stream.
  lemma {:induction false} WireAfter(st: State, i: Input, h: nat)
    requires OwnersOk(st) && h < |Step(st, i).wires|
    ensures var after := Step(st, i).wires[h];
      if h >= |st.wires| then after.sent == [] else
        && after.connection == st.wires[h].connection && after.number == st.wires[h].number
        && (after.sent == st.wires[h].sent
            || (i.Send? && i.u == after.connection && i.s == NewStream(after.number, Reliable)
                && after.sent == st.wires[h].sent + [i.data]))
  {
    hide PutBe, NewStream, IsReliable, StreamNumber, Remove, OwnersOk, SendReliable;
    if i.Send? {
      SendAfter(st, i, h);
    }
  }

  lemma {:induction false} SendAfter(st: State, i: Input, h: nat)
    requires OwnersOk(st) && i.Send?
    ensures var after := SendReliable(st, i.u, i.s, i.data, i.ok, i.partial);
      && |after.wires| == |st.wires|
      && (h < |st.wires| ==>
            && after.wires[h].connection == st.wires[h].connection && after.wires[h].number == st.wires[h].number
            && (after.wires[h].sent == st.wires[h].sent
                || (i.u == st.wires[h].connection && i.s == NewStream(st.wires[h].number, Reliable)
                    && after.wires[h].sent == st.wires[h].sent + [i.data])))
  {
    hide Frame, NewStream;
    if (i.u, i.s) in st.reliable {
      assert OwnedBy(st, st.reliable[(i.u, i.s)], (i.u, i.s));
    }
  }

  lemma {:induction false} WireStaysSent(inputs: seq<Input>, i: Input, w: Wire, w': Wire)
    requires WireSent(inputs, w) && w'.connection == w.connection && w'.number == w.number
    requires w'.sent == w.sent
          || (i.Send? && i.u == w.connection && i.s == NewStream(w.number, Reliable) && w'.sent == w.sent + [i.data])
    ensures WireSent(inputs + [i], w')
  {
    hide SentOn, Sub;
    var s := NewStream(w.number, Reliable);
    hide NewStream;
    SentOnSnoc(inputs, i, w.connection, s);
    if i.Send? && i.u == w.connection && i.s == s {
      SubSnoc(w.sent, SentOn(inputs, w.connection, s), i.data);
    }
  }

  ghost predicate DatagramSent(inputs: seq<Input>, u: Uuid, bytes: seq<byte>) {
    exists s: StreamId, data :: !IsReliable(s) && data in SentOn(inputs, u, s) && bytes == PutBe(2, s) + data
  }

  lemma {:induction false} DatagramStaysSent(inputs: seq<Input>, i: Input, u: Uuid, bytes: seq<byte>)
    requires DatagramSent(inputs, u, bytes)
    ensures DatagramSent(inputs + [i], u, bytes)
  {
    hide SentOn, IsReliable, PutBe;
    var s: StreamId, data :| !IsReliable(s) && data in SentOn(inputs, u, s) && bytes == PutBe(2, s) + data;
    SentOnSnoc(inputs, i, u, s);
    assert data in SentOn(inputs + [i], u, s);
  }

  lemma {:induction false} RunDatagramsSent(inputs: seq<Input>)
    ensures forall d :: d in Run(inputs).datagrams ==> DatagramSent(inputs, d.0, d.1)
  {
    if inputs != [] {
      var init, i := inputs[..|inputs| - 1], inputs[|inputs| - 1];
      RunDatagramsSent(init);
      assert inputs == init + [i];
      RunSnoc(init, i);
      hide Run, DatagramSent;
      var st := Run(init);
      NewDatagram(init, st, i);
      forall d | d in Step(st, i).datagrams ensures DatagramSent(init + [i], d.0, d.1) {
        if d in st.datagrams {
          DatagramStaysSent(init, i, d.0, d.1);
        }
      }
    }
  }

  lemma {:induction false} NewDatagram(inputs: seq<Input>, st: State, i: Input)
    ensures forall d :: d in Step(st, i).datagrams && d !in st.datagrams ==> DatagramSent(inputs + [i], d.0, d.1)
  {
    hide IsReliable, PutBe, NewStream, StreamNumber, Remove, SentOn;
    if i.Send? {
      SentOnSnoc(inputs, i, i.u, i.s);
      var all := SentOn(inputs + [i], i.u, i.s);
      assert all[|all| - 1] == i.data;
      assert i.data in all;
    }
  }

  // ------------------------------------------------------------------
  // What was read
  // ------------------------------------------------------------------

  // The input from which a Message event comes.
  predicate IsRead(i: Input, u: Uuid, s: StreamId, data: seq<byte>) {
    (i.MessageRead? && i.u == u && s == NewStream(i.number, Reliable) && i.data == data)
    || (i.DatagramRead? && i.u == u && |i.bytes| >= 2 && s == StreamNumber(i.bytes) && data == i.bytes[2..])
  }

  lemma {:induction false} RunMessagesRead(inputs: seq<Input>, n: nat) returns (k: nat)
    requires n < |Run(inputs).trace| && Run(inputs).trace[n].event.Message?
    ensures var e := Run(inputs).trace[n].event;
      k < |inputs| && IsRead(inputs[k], e.connection, e.stream, e.data)
  {
    var init, i := inputs[..|inputs| - 1], inputs[|inputs| - 1];
    var st := Run(init);
    if n < |st.trace| {
      TraceGrows(st, i);
      k := RunMessagesRead(init, n);
    } else {
      k := |init|;
      PostedMessage(st, i, n);
    }
  }

  lemma {:induction false} TraceGrows(st: State, i: Input)
    ensures st.trace <= Step(st, i).trace
  {
    hide PutBe, NewStream, IsReliable, StreamNumber, Remove, Write;
  }

  lemma {:induction false} PostedMessage(st: State, i: Input, n: nat)
    requires |st.trace| <= n < |Step(st, i).trace| && Step(st, i).trace[n].event.Message?
    ensures var e := Step(st, i).trace[n].event; IsRead(i, e.connection, e.stream, e.data)
  {
    hide PutBe, NewStream, IsReliable, StreamNumber, Remove, Write;
  }
}
