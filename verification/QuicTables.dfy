// The tables, the channels and the events of one QUIC process, told from its inputs alone.
module QuicTables {
  import opened Bytes
  import opened Options
  import opened Sockets
  import opened Traces
  import opened QuicStreams
  import opened QuicBackend

  // The id of stream number n of a class: the number above its two low bits, cut to 16 bits.
  function IdOf(n: StreamId, r: Reliability): StreamId {
    4 * (n % 0x4000) + (match r case Unreliable => 0 case Ordered => 2 case Reliable => 3)
  }

  lemma {:induction false} IdOfIsNewStream(n: StreamId, r: Reliability)
    ensures IdOf(n, r) == NewStream(n, r)
  {
    Shifted(n);
  }

  // ------------------------------------------------------------------
  // Connections
  // ------------------------------------------------------------------

  // The connections that the listener reported, in order, and how many the main loop took.
  function Accepts(inputs: seq<Input>): seq<Uuid> {
    if inputs == [] then [] else
    var before, i := Accepts(inputs[..|inputs| - 1]), inputs[|inputs| - 1];
    if i.Accepted? then before + [i.u] else before
  }

  function AcceptsTaken(inputs: seq<Input>): nat {
    if inputs == [] then 0 else
    var init := inputs[..|inputs| - 1];
    if inputs[|init|].ConnectionRegistered? && AcceptsTaken(init) < |Accepts(init)|
    then AcceptsTaken(init) + 1 else AcceptsTaken(init)
  }

  ghost predicate KnownTo(inputs: seq<Input>, u: Uuid) {
    || Input.Connected(u) in inputs
    || exists k :: 0 <= k < |Accepts(inputs)| && k < AcceptsTaken(inputs) && Accepts(inputs)[k] == u
  }

  ghost predicate ConnectionsAgree(st: State, inputs: seq<Input>) {
    && AcceptsTaken(inputs) <= |Accepts(inputs)|
    && st.accepted == Accepts(inputs)[AcceptsTaken(inputs)..]
    && forall u: Uuid :: u in st.connections <==> KnownTo(inputs, u)
  }

  lemma {:induction false} AcceptsSnoc(inputs: seq<Input>, i: Input)
    ensures Accepts(inputs + [i]) == if i.Accepted? then Accepts(inputs) + [i.u] else Accepts(inputs)
    ensures AcceptsTaken(inputs + [i])
         == AcceptsTaken(inputs) + if i.ConnectionRegistered? && AcceptsTaken(inputs) < |Accepts(inputs)| then 1 else 0
  {
    assert (inputs + [i])[..|inputs|] == inputs;
  }

  lemma {:induction false} KnownSnoc(inputs: seq<Input>, i: Input, u: Uuid)
    requires AcceptsTaken(inputs) <= |Accepts(inputs)|
    ensures KnownTo(inputs + [i], u)
       <==> KnownTo(inputs, u) || i == Input.Connected(u)
            || (i.ConnectionRegistered? && AcceptsTaken(inputs) < |Accepts(inputs)|
                && Accepts(inputs)[AcceptsTaken(inputs)] == u)
  {
    hide Accepts, AcceptsTaken;
    AcceptsSnoc(inputs, i);
    var n := AcceptsTaken(inputs);
    if KnownTo(inputs, u) && Input.Connected(u) !in inputs {
      var k :| 0 <= k < |Accepts(inputs)| && k < n && Accepts(inputs)[k] == u;
      assert Accepts(inputs + [i])[k] == u;
    }
    if i.ConnectionRegistered? && n < |Accepts(inputs)| && Accepts(inputs)[n] == u {
      assert Accepts(inputs + [i])[n] == u;
    }
  }

  // What one step does to the connections and the reports of new ones.
  lemma {:induction false} StepConnections(st: State, i: Input)
    ensures var after := Step(st, i);
      && after.accepted == (if i.Accepted? then st.accepted + [i.u]
                            else if i.ConnectionRegistered? && st.accepted != [] then st.accepted[1..] else st.accepted)
      && forall u: Uuid :: u in after.connections <==>
           u in st.connections || i == Input.Connected(u)
           || (i.ConnectionRegistered? && st.accepted != [] && st.accepted[0] == u)
  {
    hide Write, StreamNumber, NewStream, Remove, PutBe;
  }

  lemma {:induction false} KeepsConnections(st: State, inputs: seq<Input>, i: Input)
    requires ConnectionsAgree(st, inputs)
    ensures ConnectionsAgree(Step(st, i), inputs + [i])
  {
    hide Accepts, AcceptsTaken, KnownTo, Step;
    AcceptsSnoc(inputs, i);
    StepConnections(st, i);
    forall u: Uuid ensures u in Step(st, i).connections <==> KnownTo(inputs + [i], u) {
      KnownSnoc(inputs, i, u);
    }
  }

  // ------------------------------------------------------------------
  // Datagram readers
  // ------------------------------------------------------------------

  predicate Starts(i: Input, u: Uuid) {
    i == Input.Connected(u) || i == Accepted(u)
  }

  // The streams that u's datagram reader has heard of, in order of first arrival.
  function Heard(inputs: seq<Input>, u: Uuid): Option<seq<StreamId>> {
    if inputs == [] then None else
    var before, i := Heard(inputs[..|inputs| - 1], u), inputs[|inputs| - 1];
    if Starts(i, u) then Some([])
    else if i.DatagramRead? && i.u == u && |i.bytes| >= 2 && before.Some? then
      var s := Word(i.bytes[0], i.bytes[1]);
      if s in before.value then before else Some(before.value + [s])
    else before
  }

  ghost predicate ReadersAgree(st: State, inputs: seq<Input>) {
    forall u: Uuid ::
      && (u in st.readers <==> Heard(inputs, u).Some?)
      && (u in st.readers ==> st.readers[u] == Heard(inputs, u).value)
  }

  lemma {:induction false} NumberIsWord(bytes: seq<byte>)
    requires |bytes| >= 2
    ensures StreamNumber(bytes) == Word(bytes[0], bytes[1])
  {
    TwoBytes(bytes[..2]);
  }

  lemma {:induction false} HeardSnoc(inputs: seq<Input>, i: Input, u: Uuid)
    ensures Heard(inputs + [i], u)
         == if Starts(i, u) then Some([])
            else if i.DatagramRead? && i.u == u && |i.bytes| >= 2 && Heard(inputs, u).Some? then
              Some(Learn(Heard(inputs, u).value, Word(i.bytes[0], i.bytes[1])))
            else Heard(inputs, u)
  {
    hide Word;
    assert (inputs + [i])[..|inputs|] == inputs;
  }

  lemma {:induction false} KeepsReaders(st: State, inputs: seq<Input>, i: Input)
    requires ReadersAgree(st, inputs)
    ensures ReadersAgree(Step(st, i), inputs + [i])
  {
    hide Heard, Word, Write, StreamNumber, NewStream, Remove, PutBe, Learn;
    if i.DatagramRead? && |i.bytes| >= 2 {
      NumberIsWord(i.bytes);
    }
    forall u: Uuid
      ensures u in Step(st, i).readers <==> Heard(inputs + [i], u).Some?
      ensures u in Step(st, i).readers ==> Step(st, i).readers[u] == Heard(inputs + [i], u).value
    {
      HeardSnoc(inputs, i, u);
    }
  }

  // ------------------------------------------------------------------
  // Wires and the channel of stream registrations
  // ------------------------------------------------------------------

  datatype Half = Half(connection: Uuid, number: StreamId, header: seq<byte>)

  // The bidirectional streams: those this side opened on a known connection, where it first
  // writes the stream's number, and those the other side opened.
  ghost function Halves(inputs: seq<Input>): seq<Half> {
    if inputs == [] then [] else
    var init, i := inputs[..|inputs| - 1], inputs[|inputs| - 1];
    Halves(init) + NewHalf(init, i)
  }

  ghost function NewHalf(init: seq<Input>, i: Input): seq<Half> {
    if i.CreateStream? && i.reliability.Reliable? && KnownTo(init, i.u) then
      [Half(i.u, i.number, [i.number / 256, i.number % 256])]
    else if i.StreamAccepted? && Heard(init, i.u).Some? then [Half(i.u, i.number, [])]
    else []
  }

  // What was put in the channel: with a send half for each of these streams, without one for a
  // stream created in another class and for a stream first heard of in a datagram.
  ghost function Registrations(inputs: seq<Input>): seq<Registration> {
    if inputs == [] then [] else
    var init, i := inputs[..|inputs| - 1], inputs[|inputs| - 1];
    Registrations(init) + NewRegistration(init, i)
  }

  ghost function NewRegistration(init: seq<Input>, i: Input): seq<Registration> {
    if i.CreateStream? && !i.reliability.Reliable? then [Registration(i.u, IdOf(i.number, i.reliability), None)]
    else if i.CreateStream? then
      if KnownTo(init, i.u) then [Registration(i.u, IdOf(i.number, Reliable), Some(|Halves(init)|))] else []
    else if i.StreamAccepted? then
      if Heard(init, i.u).Some? then [Registration(i.u, IdOf(i.number, Reliable), Some(|Halves(init)|))] else []
    else if i.DatagramRead? && |i.bytes| >= 2 && Heard(init, i.u).Some?
            && Word(i.bytes[0], i.bytes[1]) !in Heard(init, i.u).value then
      [Registration(i.u, Word(i.bytes[0], i.bytes[1]), None)]
    else []
  }

  // How many of them the main loop took: one for each turn at the channel that found one.
  ghost function Taken(inputs: seq<Input>): nat {
    if inputs == [] then 0 else
    var init := inputs[..|inputs| - 1];
    if inputs[|init|].StreamRegistered? && Taken(init) < |Registrations(init)| then Taken(init) + 1 else Taken(init)
  }

  // The registration that i takes from the channel.
  ghost function TakenBy(inputs: seq<Input>, i: Input): Option<Registration> {
    if i.StreamRegistered? && Taken(inputs) < |Registrations(inputs)| then Some(Registrations(inputs)[Taken(inputs)]) else None
  }

  ghost predicate IsHalf(w: Wire, h: Half) {
    w.connection == h.connection && w.number == h.number && w.header == h.header
  }

  ghost predicate ChannelAgrees(st: State, inputs: seq<Input>) {
    && Taken(inputs) <= |Registrations(inputs)|
    && st.queue == Registrations(inputs)[Taken(inputs)..]
    && |st.wires| == |Halves(inputs)|
    && forall h :: 0 <= h < |st.wires| ==> IsHalf(st.wires[h], Halves(inputs)[h])
  }

  lemma {:induction false} ChannelSnoc(inputs: seq<Input>, i: Input)
    ensures Registrations(inputs + [i]) == Registrations(inputs) + NewRegistration(inputs, i)
    ensures Taken(inputs + [i]) == Taken(inputs) + if TakenBy(inputs, i).Some? then 1 else 0
    ensures Halves(inputs + [i]) == Halves(inputs) + NewHalf(inputs, i)
  {
    hide NewHalf, NewRegistration;
    assert (inputs + [i])[..|inputs|] == inputs;
  }

  // The channel after one step.
  lemma {:induction false} StepQueue(st: State, inputs: seq<Input>, i: Input)
    requires ConnectionsAgree(st, inputs) && ReadersAgree(st, inputs) && ChannelAgrees(st, inputs)
    ensures Step(st, i).queue
         == (if i.StreamRegistered? && st.queue != [] then st.queue[1..] else st.queue) + NewRegistration(inputs, i)
  {
    hide KnownTo, Heard, Halves, Registrations, Taken, Accepts, AcceptsTaken, NewStream, PutBe, StreamNumber, Write, Remove, Word;
    if i.CreateStream? {
      IdOfIsNewStream(i.number, i.reliability);
    } else if i.StreamAccepted? {
      IdOfIsNewStream(i.number, Reliable);
    } else if i.DatagramRead? && |i.bytes| >= 2 {
      NumberIsWord(i.bytes);
    }
  }

  lemma {:induction false} StepWires(st: State, inputs: seq<Input>, i: Input)
    requires ConnectionsAgree(st, inputs) && ReadersAgree(st, inputs) && ChannelAgrees(st, inputs)
    ensures var after := Step(st, i);
      && |after.wires| == |Halves(inputs + [i])|
      && forall h :: 0 <= h < |after.wires| ==> IsHalf(after.wires[h], Halves(inputs + [i])[h])
  {
    hide KnownTo, Heard, Halves, Registrations, Taken, Accepts, AcceptsTaken, NewStream, PutBe, StreamNumber, Remove, Frame, NewRegistration;
    ChannelSnoc(inputs, i);
    if i.CreateStream? {
      HighByteFirst(i.number);
    }
  }

  lemma {:induction false} KeepsChannel(st: State, inputs: seq<Input>, i: Input)
    requires ConnectionsAgree(st, inputs) && ReadersAgree(st, inputs) && ChannelAgrees(st, inputs)
    ensures ChannelAgrees(Step(st, i), inputs + [i])
  {
    hide KnownTo, Heard, Halves, Registrations, Taken, Step, NewRegistration, IsHalf, ConnectionsAgree, ReadersAgree;
    StepWires(st, inputs, i);
    StepQueue(st, inputs, i);
    ChannelSnoc(inputs, i);
  }

  // ------------------------------------------------------------------
  // The two tables of streams
  // ------------------------------------------------------------------

  predicate Has(r: Registration, key: Key) {
    r.connection == key.0 && r.stream == key.1
  }

  // Both low bits of a datagram stream's id are clear.
  predicate BringsHalf(r: Registration) {
    r.stream % 4 != 0 && r.handle.Some?
  }

  // The send half that was registered last for the stream and not closed since.
  ghost function HandleOf(inputs: seq<Input>, key: Key): Option<nat> {
    if inputs == [] then None else
    var init, i := inputs[..|inputs| - 1], inputs[|inputs| - 1];
    var taken := TakenBy(init, i);
    if i == Input.CloseStream(key.0, key.1) then None
    else if taken.Some? && Has(taken.value, key) && BringsHalf(taken.value) then taken.value.handle
    else HandleOf(init, key)
  }

  // Whether the stream was registered without one and not closed since.
  ghost predicate Listed(inputs: seq<Input>, key: Key) {
    if inputs == [] then false else
    var init, i := inputs[..|inputs| - 1], inputs[|inputs| - 1];
    var taken := TakenBy(init, i);
    i != Input.CloseStream(key.0, key.1)
    && (Listed(init, key) || (taken.Some? && Has(taken.value, key) && !BringsHalf(taken.value)))
  }

  ghost predicate TablesAgree(st: State, inputs: seq<Input>, key: Key) {
    && (key in st.reliable <==> HandleOf(inputs, key).Some?)
    && (key in st.reliable ==> st.reliable[key] == HandleOf(inputs, key).value)
    && (key in st.unreliable <==> Listed(inputs, key))
  }

  lemma {:induction false} TablesSnoc(inputs: seq<Input>, i: Input, key: Key)
    ensures var taken := TakenBy(inputs, i);
      && HandleOf(inputs + [i], key)
         == (if i == Input.CloseStream(key.0, key.1) then None
             else if taken.Some? && Has(taken.value, key) && BringsHalf(taken.value) then taken.value.handle
             else HandleOf(inputs, key))
      && (Listed(inputs + [i], key) <==>
            i != Input.CloseStream(key.0, key.1)
            && (Listed(inputs, key) || (taken.Some? && Has(taken.value, key) && !BringsHalf(taken.value))))
  {
    hide TakenBy, Has, BringsHalf;
    assert (inputs + [i])[..|inputs|] == inputs;
  }

  lemma {:induction false} QueueHead(st: State, inputs: seq<Input>)
    requires ChannelAgrees(st, inputs)
    ensures TakenBy(inputs, StreamRegistered) == if st.queue == [] then None else Some(st.queue[0])
  {
    hide Registrations, Taken, Halves, IsHalf;
  }

  lemma {:induction false} KeepsTables(st: State, inputs: seq<Input>, i: Input, key: Key)
    requires ChannelAgrees(st, inputs) && TablesAgree(st, inputs, key)
    ensures TablesAgree(Step(st, i), inputs + [i], key)
  {
    hide Registrations, Taken, HandleOf, Listed, TakenBy, Write, StreamNumber, NewStream, Remove, PutBe, Learn, ChannelAgrees, Step;
    TablesSnoc(inputs, i, key);
    if i.StreamRegistered? {
      QueueHead(st, inputs);
      StepRegisters(st, key);
    } else {
      NothingTaken(inputs, i);
      StepTables(st, i, key);
    }
  }

  lemma {:induction false} NothingTaken(inputs: seq<Input>, i: Input)
    requires !i.StreamRegistered?
    ensures TakenBy(inputs, i).None?
  {
  }

  lemma {:induction false} StepRegisters(st: State, key: Key)
    ensures var after := Step(st, StreamRegistered);
      var mine := st.queue != [] && Has(st.queue[0], key);
      && (if mine && BringsHalf(st.queue[0]) then key in after.reliable && after.reliable[key] == st.queue[0].handle.value
          else (key in after.reliable <==> key in st.reliable)
               && (key in after.reliable ==> after.reliable[key] == st.reliable[key]))
      && (key in after.unreliable <==> key in st.unreliable || (mine && !BringsHalf(st.queue[0])))
  {
  }

  lemma {:induction false} StepTables(st: State, i: Input, key: Key)
    requires !i.StreamRegistered?
    ensures var after := Step(st, i);
      if i == Input.CloseStream(key.0, key.1) then key !in after.reliable && key !in after.unreliable
      else (key in after.reliable <==> key in st.reliable)
           && (key in after.reliable ==> after.reliable[key] == st.reliable[key])
           && (key in after.unreliable <==> key in st.unreliable)
  {
    hide Write, StreamNumber, NewStream, Remove, PutBe, Learn;
    if i.CloseStream? {
      RemoveMembers(st.unreliable, (i.u, i.s));
    }
  }

  // ------------------------------------------------------------------
  // What is sent
  // ------------------------------------------------------------------

  // The send half that this Send writes to.
  ghost function Target(inputs: seq<Input>, i: Input): Option<nat> {
    if i.Send? && i.s % 4 != 0 && KnownTo(inputs, i.u) then HandleOf(inputs, (i.u, i.s)) else None
  }

  // Whether a write to this send half has failed.
  ghost predicate Broken(inputs: seq<Input>, h: nat) {
    if inputs == [] then false else
    var init, i := inputs[..|inputs| - 1], inputs[|inputs| - 1];
    Broken(init, h) || (Target(init, i) == Some(h) && !i.ok)
  }

  // The messages written to it, up to and with the one that failed.
  ghost function Written(inputs: seq<Input>, h: nat): seq<seq<byte>> {
    if inputs == [] then [] else
    var init, i := inputs[..|inputs| - 1], inputs[|inputs| - 1];
    if Target(init, i) == Some(h) && !Broken(init, h) then Written(init, h) + [i.data] else Written(init, h)
  }

  // The datagrams handed over: stream id with its high byte first, then the data.
  ghost function Datagrams(inputs: seq<Input>): seq<(Uuid, seq<byte>)> {
    if inputs == [] then [] else
    var init, i := inputs[..|inputs| - 1], inputs[|inputs| - 1];
    if i.Send? && i.s % 4 == 0 && i.ok && KnownTo(init, i.u)
    then Datagrams(init) + [(i.u, [i.s / 256, i.s % 256] + i.data)] else Datagrams(init)
  }

  ghost predicate WritesAgree(st: State, inputs: seq<Input>) {
    && (forall h :: 0 <= h < |st.wires| ==>
          (st.wires[h].broken <==> Broken(inputs, h)) && st.wires[h].sent == Written(inputs, h))
    && (forall h :: h >= |st.wires| ==> !Broken(inputs, h) && Written(inputs, h) == [])
    && st.datagrams == Datagrams(inputs)
  }

  lemma {:induction false} WritesSnoc(inputs: seq<Input>, i: Input, h: nat)
    ensures Broken(inputs + [i], h) <==> Broken(inputs, h) || (Target(inputs, i) == Some(h) && !i.ok)
    ensures Written(inputs + [i], h)
         == if Target(inputs, i) == Some(h) && !Broken(inputs, h) then Written(inputs, h) + [i.data] else Written(inputs, h)
  {
    hide Target;
    assert (inputs + [i])[..|inputs|] == inputs;
  }

  lemma {:induction false} DatagramsSnoc(inputs: seq<Input>, i: Input)
    ensures Datagrams(inputs + [i])
         == if i.Send? && i.s % 4 == 0 && i.ok && KnownTo(inputs, i.u)
            then Datagrams(inputs) + [(i.u, [i.s / 256, i.s % 256] + i.data)] else Datagrams(inputs)
  {
    hide KnownTo;
    assert (inputs + [i])[..|inputs|] == inputs;
  }

  lemma {:induction false} TargetOf(st: State, inputs: seq<Input>, i: Input)
    requires i.Send? && ConnectionsAgree(st, inputs) && TablesAgree(st, inputs, (i.u, i.s))
    ensures Target(inputs, i)
         == if IsReliable(i.s) && i.u in st.connections && (i.u, i.s) in st.reliable then Some(st.reliable[(i.u, i.s)]) else None
  {
    hide KnownTo, HandleOf, Listed, Accepts, AcceptsTaken;
  }

  lemma {:induction false} StepWrites(st: State, i: Input, h: nat)
    requires HandlesOk(st) && h < |Step(st, i).wires|
    ensures var w := Step(st, i).wires[h];
      var mine := i.Send? && IsReliable(i.s) && i.u in st.connections && (i.u, i.s) in st.reliable && st.reliable[(i.u, i.s)] == h;
      if h >= |st.wires| then !w.broken && w.sent == []
      else (w.broken <==> st.wires[h].broken || (mine && !i.ok))
           && w.sent == if mine && !st.wires[h].broken then st.wires[h].sent + [i.data] else st.wires[h].sent
  {
    hide PutBe, NewStream, StreamNumber, Remove, Frame, IsReliable, Learn;
  }

  lemma {:induction false} StepDatagrams(st: State, i: Input)
    ensures Step(st, i).datagrams
         == if i.Send? && i.u in st.connections && !IsReliable(i.s) && i.ok
            then st.datagrams + [(i.u, [i.s / 256, i.s % 256] + i.data)] else st.datagrams
  {
    hide PutBe, NewStream, StreamNumber, Remove, Frame, IsReliable, Learn, Write;
    if i.Send? {
      HighByteFirst(i.s);
    }
  }

  lemma {:induction false} WiresStay(st: State, i: Input)
    ensures |st.wires| <= |Step(st, i).wires|
  {
    hide PutBe, NewStream, StreamNumber, Remove, Write, IsReliable, Learn;
  }

  lemma {:induction false} KeepsWrites(st: State, inputs: seq<Input>, i: Input)
    requires HandlesOk(st) && ConnectionsAgree(st, inputs) && WritesAgree(st, inputs)
    requires i.Send? ==> TablesAgree(st, inputs, (i.u, i.s))
    ensures WritesAgree(Step(st, i), inputs + [i])
  {
    hide Step, Broken, Written, Datagrams, Target, KnownTo, HandlesOk, TablesAgree;
    var after := Step(st, i);
    WiresStay(st, i);
    StepDatagrams(st, i);
    DatagramsSnoc(inputs, i);
    TargetInRange(st, inputs, i);
    forall h: nat
      ensures h < |after.wires| ==>
        (after.wires[h].broken <==> Broken(inputs + [i], h)) && after.wires[h].sent == Written(inputs + [i], h)
      ensures h >= |after.wires| ==> !Broken(inputs + [i], h) && Written(inputs + [i], h) == []
    {
      WritesSnoc(inputs, i, h);
      if h < |after.wires| {
        StepWrites(st, i, h);
      }
    }
  }

  // A Send writes to one of the wires there are.
  lemma {:induction false} TargetInRange(st: State, inputs: seq<Input>, i: Input)
    requires HandlesOk(st) && ConnectionsAgree(st, inputs) && (i.Send? ==> TablesAgree(st, inputs, (i.u, i.s)))
    ensures Target(inputs, i)
         == if i.Send? && IsReliable(i.s) && i.u in st.connections && (i.u, i.s) in st.reliable then Some(st.reliable[(i.u, i.s)]) else None
    ensures Target(inputs, i).Some? ==> Target(inputs, i).value < |st.wires|
  {
    hide KnownTo, HandleOf, Listed, Accepts, AcceptsTaken, IsReliable, ConnectionsAgree, TablesAgree;
    if i.Send? {
      TargetOf(st, inputs, i);
    }
  }

  // ------------------------------------------------------------------
  // What is posted
  // ------------------------------------------------------------------

  function EventsIn(trace: seq<Posted>): (events: seq<Event>)
    ensures |events| == |trace|
  {
    if trace == [] then [] else EventsIn(trace[..|trace| - 1]) + [trace[|trace| - 1].event]
  }

  // What one input makes the process post.
  ghost function EventsOf(init: seq<Input>, i: Input): seq<Event> {
    match i
    case Connected(u) => [Event.Connected(u)]
    case Accepted(u) => [Event.Connected(u)]
    case ConnectionRegistered => []
    case StreamRegistered =>
      (match TakenBy(init, i)
       case None => []
       case Some(r) =>
         if !BringsHalf(r) && Listed(init, (r.connection, r.stream)) then [] else [StreamCreated(r.connection, r.stream)])
    case Send(u, s, _, ok, _) =>
      if !KnownTo(init, u) then []
      else if s % 4 == 0 then (if ok then [] else [Error(u)])
      else (match Target(init, i) case None => [] case Some(h) => if ok && !Broken(init, h) then [] else [Error(u)])
    case CreateStream(_, _, _) => []
    case CloseStream(u, s) => [StreamClosed(u, s)]
    case DatagramRead(u, bytes) =>
      if |bytes| >= 2 && Heard(init, u).Some? then [Message(u, Word(bytes[0], bytes[1]), bytes[2..])] else []
    case StreamAccepted(_, _) => []
    case MessageRead(u, n, m) => [Message(u, IdOf(n, Reliable), m)]
  }

  ghost function AllEvents(inputs: seq<Input>): seq<Event> {
    if inputs == [] then [] else
    AllEvents(inputs[..|inputs| - 1]) + EventsOf(inputs[..|inputs| - 1], inputs[|inputs| - 1])
  }

  lemma {:induction false} EventsInSnoc(trace: seq<Posted>, p: Posted)
    ensures EventsIn(trace + [p]) == EventsIn(trace) + [p.event]
  {
    assert (trace + [p])[..|trace|] == trace;
  }

  lemma {:induction false} EventsInConcat(a: seq<Posted>, b: seq<Posted>)
    ensures EventsIn(a + b) == EventsIn(a) + EventsIn(b)
  {
    hide EventsIn;
    if b == [] {
      assert a + b == a;
      EventsInOne(Posted(Error(NOBODY), false));
    } else {
      var init, last := b[..|b| - 1], b[|b| - 1];
      EventsInConcat(a, init);
      assert a + b == (a + init) + [last] && b == init + [last];
      EventsInSnoc(a + init, last);
      EventsInSnoc(init, last);
    }
  }

  lemma {:induction false} EventsInOne(p: Posted)
    ensures EventsIn([p]) == [p.event] && EventsIn([]) == []
  {
    assert [p][..0] == [];
  }

  lemma {:induction false} StepEvents(st: State, inputs: seq<Input>, i: Input)
    requires HandlesOk(st) && ConnectionsAgree(st, inputs) && ReadersAgree(st, inputs) && ChannelAgrees(st, inputs)
    requires WritesAgree(st, inputs) && forall key: Key :: TablesAgree(st, inputs, key)
    ensures st.trace <= Step(st, i).trace
    ensures EventsIn(Step(st, i).trace[|st.trace|..]) == EventsOf(inputs, i)
  {
    hide KnownTo, HandleOf, Listed, Accepts, AcceptsTaken, Heard, Registrations, Taken, Halves, Broken, Written, Datagrams, TakenBy, Target, EventsIn;
    hide HandlesOk, ConnectionsAgree, ReadersAgree, ChannelAgrees, WritesAgree, TablesAgree, Step, EventsOf;
    if i.Send? {
      assert TablesAgree(st, inputs, (i.u, i.s));
      SendEvents(st, inputs, i);
    } else if i.StreamRegistered? {
      if st.queue != [] {
        assert TablesAgree(st, inputs, (st.queue[0].connection, st.queue[0].stream));
      }
      RegisterEvents(st, inputs);
    } else {
      OtherEvents(st, inputs, i);
    }
  }

  lemma {:induction false} SendEvents(st: State, inputs: seq<Input>, i: Input)
    requires i.Send? && HandlesOk(st) && ConnectionsAgree(st, inputs) && WritesAgree(st, inputs) && TablesAgree(st, inputs, (i.u, i.s))
    ensures st.trace <= Step(st, i).trace
    ensures EventsIn(Step(st, i).trace[|st.trace|..]) == EventsOf(inputs, i)
  {
    hide KnownTo, HandleOf, Listed, Accepts, AcceptsTaken, Broken, Written, Datagrams, Target, Write, EventsIn, PutBe, TablesAgree;
    TargetInRange(st, inputs, i);
    EventsInOne(Posted(Error(i.u), false));
    assert Post(st.trace, Error(i.u))[|st.trace|..] == [Posted(Error(i.u), false)] && st.trace[|st.trace|..] == [];
  }

  lemma {:induction false} RegisterEvents(st: State, inputs: seq<Input>)
    requires ChannelAgrees(st, inputs)
    requires st.queue != [] ==> TablesAgree(st, inputs, (st.queue[0].connection, st.queue[0].stream))
    ensures var after := Step(st, StreamRegistered);
      st.trace <= after.trace && EventsIn(after.trace[|st.trace|..]) == EventsOf(inputs, StreamRegistered)
  {
    hide TakenBy, ChannelAgrees, EventsIn, HandleOf, Listed;
    QueueHead(st, inputs);
    assert st.trace[|st.trace|..] == [];
    if st.queue != [] {
      var created := StreamCreated(st.queue[0].connection, st.queue[0].stream);
      forall mark ensures (st.trace + [Posted(created, mark)])[|st.trace|..] == [Posted(created, mark)] {
      }
      EventsInOne(Posted(created, false));
      EventsInOne(Posted(created, true));
    } else {
      EventsInOne(Posted(Error(NOBODY), false));
    }
  }

  const NOBODY: Uuid := PutBe(16, 0)

  lemma {:induction false} OtherEvents(st: State, inputs: seq<Input>, i: Input)
    requires !i.Send? && !i.StreamRegistered? && ReadersAgree(st, inputs)
    ensures st.trace <= Step(st, i).trace
    ensures EventsIn(Step(st, i).trace[|st.trace|..]) == EventsOf(inputs, i)
  {
    hide Heard, EventsIn, PutBe, NewStream, StreamNumber, Remove, Learn, Word;
    var after := Step(st, i);
    if i.MessageRead? {
      IdOfIsNewStream(i.number, Reliable);
    } else if i.DatagramRead? && |i.bytes| >= 2 {
      NumberIsWord(i.bytes);
    }
    EventsInOne(if after.trace == st.trace then Posted(Error(NOBODY), false) else after.trace[|st.trace|]);
    assert after.trace[|st.trace|..] == if after.trace == st.trace then [] else [after.trace[|st.trace|]];
  }

  // ------------------------------------------------------------------
  // Every run
  // ------------------------------------------------------------------

  ghost predicate Agrees(st: State, inputs: seq<Input>) {
    && ConnectionsAgree(st, inputs) && ReadersAgree(st, inputs) && ChannelAgrees(st, inputs)
    && (forall key: Key :: TablesAgree(st, inputs, key))
    && WritesAgree(st, inputs)
    && EventsIn(st.trace) == AllEvents(inputs)
  }

  lemma {:induction false} StepAgrees(st: State, inputs: seq<Input>, i: Input)
    requires HandlesOk(st) && Agrees(st, inputs)
    ensures Agrees(Step(st, i), inputs + [i])
  {
    hide HandlesOk, ConnectionsAgree, ReadersAgree, ChannelAgrees, WritesAgree, TablesAgree, Step, EventsOf, EventsIn;
    KeepsConnections(st, inputs, i);
    KeepsReaders(st, inputs, i);
    KeepsChannel(st, inputs, i);
    forall key: Key ensures TablesAgree(Step(st, i), inputs + [i], key) {
      KeepsTables(st, inputs, i, key);
    }
    KeepsWrites(st, inputs, i);
    StepEvents(st, inputs, i);
    var posted := Step(st, i).trace[|st.trace|..];
    assert Step(st, i).trace == st.trace + posted;
    EventsInConcat(st.trace, posted);
    assert (inputs + [i])[..|inputs|] == inputs;
  }

  lemma {:induction false} NothingYet()
    ensures Agrees(INITIAL, [])
  {
  }

  lemma {:induction false} RunAgrees(inputs: seq<Input>)
    ensures Agrees(Run(inputs), inputs)
  {
    if inputs == [] {
      NothingYet();
    } else {
      var init, i := inputs[..|inputs| - 1], inputs[|inputs| - 1];
      RunAgrees(init);
      RunHolds(init);
      assert inputs == init + [i] && Run(inputs) == Step(Run(init), i);
      hide Agrees, Step, ListOk, MarksOk, WiresOk, HandlesOk, Run;
      StepAgrees(Run(init), init, i);
    }
  }

  // After any run: which connections are known, what waits in the two channels, which streams
  // have which send half or are listed without one, and what each wire is and carries.
  lemma {:induction false} TablesOfRun(inputs: seq<Input>)
    ensures var st := Run(inputs);
      && (forall u: Uuid :: u in st.connections <==> KnownTo(inputs, u))
      && AcceptsTaken(inputs) <= |Accepts(inputs)| && st.accepted == Accepts(inputs)[AcceptsTaken(inputs)..]
      && Taken(inputs) <= |Registrations(inputs)| && st.queue == Registrations(inputs)[Taken(inputs)..]
      && (forall key: Key :: key in st.reliable <==> HandleOf(inputs, key).Some?)
      && (forall key: Key :: key in st.reliable ==> st.reliable[key] == HandleOf(inputs, key).value)
      && (forall key: Key :: key in st.unreliable <==> Listed(inputs, key))
      && |st.wires| == |Halves(inputs)|
      && (forall h :: 0 <= h < |st.wires| ==>
            && st.wires[h].connection == Halves(inputs)[h].connection
            && st.wires[h].number == Halves(inputs)[h].number
            && st.wires[h].header == Halves(inputs)[h].header
            && st.wires[h].sent == Written(inputs, h)
            && (st.wires[h].broken <==> Broken(inputs, h)))
      && st.datagrams == Datagrams(inputs)
  {
    hide Run, KnownTo, Accepts, AcceptsTaken, Heard, Registrations, Taken, HandleOf, Listed, Halves, Broken, Written, Datagrams;
    hide EventsIn, AllEvents;
    RunAgrees(inputs);
    var st := Run(inputs);
    forall key: Key
      ensures key in st.reliable <==> HandleOf(inputs, key).Some?
      ensures key in st.reliable ==> st.reliable[key] == HandleOf(inputs, key).value
      ensures key in st.unreliable <==> Listed(inputs, key)
    {
      assert TablesAgree(st, inputs, key);
    }
  }

  // Every event that the process posts, in order, and no other.
  lemma {:induction false} EventsOfRun(inputs: seq<Input>)
    ensures EventsIn(Run(inputs).trace) == AllEvents(inputs)
  {
    hide Run, EventsIn, AllEvents;
    RunAgrees(inputs);
  }
}
