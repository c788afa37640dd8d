// The state and the output of the UDP backend, told from its inputs alone.
module UdpHistory {
  import opened Bytes
  import opened Options
  import opened Sockets
  import opened Traces
  import opened EventLists
  import opened UdpBackend

  // A datagram that is long enough to carry the 18-byte header.
  predicate Headed(i: Input) {
    i.Packet? && |i.buf| >= 18
  }

  // Where the last datagram under u came from, or where the Connect that drew u went if that is
  // later.
  function AddressOf(inputs: seq<Input>, u: Uuid): Option<Addr> {
    if inputs == [] then None else
    var i := inputs[|inputs| - 1];
    if Headed(i) && i.buf[..16] == u then Some(i.from)
    else if i.Connect? && i.target.Some? && i.newUuid == u then i.target
    else AddressOf(inputs[..|inputs| - 1], u)
  }

  ghost predicate SocketMade(inputs: seq<Input>) {
    exists k :: 0 <= k < |inputs| && ((inputs[k].Bind? && inputs[k].ok) || (inputs[k].Connect? && inputs[k].ok))
  }

  // The table holds each UUID under exactly that address.
  lemma {:induction false} AddressesFollowDatagrams(inputs: seq<Input>, u: Uuid)
    ensures var st := Run(inputs).state;
      && (u in st.connections <==> AddressOf(inputs, u).Some?)
      && (u in st.connections ==> st.connections[u] == AddressOf(inputs, u).value)
      && (st.bound <==> SocketMade(inputs))
  {
    hide Step;
    if inputs != [] {
      var init, i := inputs[..|inputs| - 1], inputs[|inputs| - 1];
      AddressesFollowDatagrams(init, u);
      SocketSnoc(init, i);
      assert inputs == init + [i];
      StepAddress(Run(init).state, i, u);
    }
  }

  // What one input does to the address of u and to the socket.
  lemma {:induction false} StepAddress(st: State, i: Input, u: Uuid)
    ensures var after := Step(st, i).0;
      && (after.bound <==> st.bound || (i.Bind? && i.ok) || (i.Connect? && i.ok))
      && (Headed(i) && i.buf[..16] == u ==> u in after.connections && after.connections[u] == i.from)
      && (i.Connect? && i.target.Some? && i.newUuid == u ==>
            u in after.connections && after.connections[u] == i.target.value)
      && (!(Headed(i) && i.buf[..16] == u) && !(i.Connect? && i.target.Some? && i.newUuid == u) ==>
            (u in after.connections <==> u in st.connections)
            && (u in after.connections ==> after.connections[u] == st.connections[u]))
  {
    hide PacketStep, CommandOutput;
    if Headed(i) {
      PacketAddress(st, i.buf, i.from, u);
    }
  }

  lemma {:induction false} PacketAddress(st: State, buf: seq<byte>, from: Addr, u: Uuid)
    requires |buf| >= 18
    ensures var after := PacketStep(st, buf, from).0;
      && after.bound == st.bound
      && (u in after.connections <==> u in st.connections || buf[..16] == u)
      && (u in after.connections ==>
            after.connections[u] == if buf[..16] == u then from else st.connections[u])
  {
    hide HeaderStream, Learn;
  }

  lemma {:induction false} SocketSnoc(inputs: seq<Input>, i: Input)
    ensures SocketMade(inputs + [i]) <==>
      SocketMade(inputs) || (i.Bind? && i.ok) || (i.Connect? && i.ok)
  {
    var all := inputs + [i];
    if SocketMade(inputs) {
      var k :| 0 <= k < |inputs| && ((inputs[k].Bind? && inputs[k].ok) || (inputs[k].Connect? && inputs[k].ok));
      assert all[k] == inputs[k];
    }
    if SocketMade(all) {
      var k :| 0 <= k < |all| && ((all[k].Bind? && all[k].ok) || (all[k].Connect? && all[k].ok));
      assert k < |inputs| ==> all[k] == inputs[k];
    }
    assert all[|inputs|] == i;
  }

  // After any run a Send hands over exactly one datagram, to that address: the UUID, the stream
  // id with its high byte first, and the data. Without a socket or an address it does nothing.
  lemma {:induction false} SendEmits(inputs: seq<Input>, u: Uuid, s: StreamId, data: seq<byte>)
    ensures var st := Run(inputs).state;
      var (after, out) := Step(st, Command(Sockets.Command.Send(u, s, data)));
      && after == st && out.entries == []
      && out.sent == if SocketMade(inputs) && AddressOf(inputs, u).Some?
                     then [(AddressOf(inputs, u).value, u + [s / 256, s % 256] + data)] else []
  {
    hide AddressOf, SocketMade, Run, PutBe;
    AddressesFollowDatagrams(inputs, u);
    HighByteFirst(s);
  }

  // The messages that the datagrams among the inputs carry.
  function MessagesOf(inputs: seq<Input>): seq<Event> {
    if inputs == [] then [] else
    var before := MessagesOf(inputs[..|inputs| - 1]);
    var i := inputs[|inputs| - 1];
    if Headed(i) then before + [Message(i.buf[..16], Word(i.buf[16], i.buf[17]), i.buf[18..])] else before
  }

  function EventsOfCommands(inputs: seq<Input>): seq<Event> {
    if inputs == [] then [] else
    var before := EventsOfCommands(inputs[..|inputs| - 1]);
    var i := inputs[|inputs| - 1];
    if i.Command? then before + CommandEvent(i.command) else before
  }

  // Every datagram with a header is posted, as one message with its UUID, stream and payload, in
  // order of arrival and nothing else; and the stream commands post their events, in order.
  lemma {:induction false} EveryDatagramIsPosted(inputs: seq<Input>)
    ensures MessagesIn(Run(inputs).trace) == MessagesOf(inputs)
    ensures CommandEventsIn(Run(inputs).trace) == EventsOfCommands(inputs)
  {
    if inputs != [] {
      var init, i := inputs[..|inputs| - 1], inputs[|inputs| - 1];
      EveryDatagramIsPosted(init);
      var before := Run(init);
      assert Run(inputs).trace == before.trace + Step(before.state, i).1.entries by { LastEntries(inputs); }
      hide Run, Step, MessagesIn, CommandEventsIn;
      StepEntries(before.state, i);
      ListsConcat(before.trace, Step(before.state, i).1.entries);
    }
  }

  lemma {:induction false} LastEntries(inputs: seq<Input>)
    requires inputs != []
    ensures var before := Run(inputs[..|inputs| - 1]);
      Run(inputs).trace == before.trace + Step(before.state, inputs[|inputs| - 1]).1.entries
  {
    hide Step;
  }

  lemma {:induction false} StepEntries(st: State, i: Input)
    ensures var entries := Step(st, i).1.entries;
      && MessagesIn(entries)
         == (if Headed(i) then [Message(i.buf[..16], Word(i.buf[16], i.buf[17]), i.buf[18..])] else [])
      && CommandEventsIn(entries) == if i.Command? then CommandEvent(i.command) else []
  {
    hide Step, MessagesIn, CommandEventsIn, CommandEvent;
    if Headed(i) {
      PacketEntries(st, i.buf, i.from);
      assert Step(st, i) == PacketStep(st, i.buf, i.from) by { StepOfPacket(st, i); }
    } else {
      OtherEntries(st, i);
    }
  }

  lemma {:induction false} StepOfPacket(st: State, i: Input)
    requires Headed(i)
    ensures Step(st, i) == PacketStep(st, i.buf, i.from)
  {
    hide PacketStep;
  }

  lemma {:induction false} PacketEntries(st: State, buf: seq<byte>, from: Addr)
    requires |buf| >= 18
    ensures var entries := PacketStep(st, buf, from).1.entries;
      && MessagesIn(entries) == [Message(buf[..16], Word(buf[16], buf[17]), buf[18..])]
      && CommandEventsIn(entries) == []
  {
    hide Delivery, HeaderStream, MessagesIn, CommandEventsIn, Learn, Word;
    var u, s := HeaderUuid(buf), HeaderStream(buf);
    var streams := KnownOf(st.known, u);
    StreamOfHeader(buf);
    ListsOfDelivery(streams, u, s, buf[18..]);
    ListsConcat(Accept(st.connections, u), Delivery(streams, u, s, buf[18..]));
    ListsOfOne(Accept(st.connections, u));
  }

  lemma {:induction false} OtherEntries(st: State, i: Input)
    requires !Headed(i)
    ensures var entries := Step(st, i).1.entries;
      MessagesIn(entries) == [] && CommandEventsIn(entries) == if i.Command? then CommandEvent(i.command) else []
  {
    hide PacketStep, NewStream, MessagesIn, CommandEventsIn, Frame;
    ListsOfOne(Step(st, i).1.entries);
  }

  lemma {:induction false} StreamOfHeader(buf: seq<byte>)
    requires |buf| >= 18
    ensures HeaderStream(buf) == Word(buf[16], buf[17])
  {
    TwoBytes(buf[16..18]);
  }
}
