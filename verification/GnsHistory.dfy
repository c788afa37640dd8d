// The tables and the output of the GNS backend, told from its inputs alone.
module GnsHistory {
  import opened Bytes
  import opened Options
  import opened Sockets
  import opened Traces
  import opened EventLists
  import opened GnsBackend

  // The library reports that the connection is over.
  predicate Over(i: Input, h: Handle) {
    i.StateChange? && i.conn == h && (i.after == ClosedByPeer || i.after == ProblemDetectedLocally)
  }

  // A client of the server asks to be let in, and is accepted.
  predicate LetIn(i: Input, h: Handle) {
    i.StateChange? && i.conn == h && i.before == NoState && i.after == Connecting && i.accepted
  }

  predicate Completed(i: Input, h: Handle) {
    i.StateChange? && i.conn == h && i.before == Connecting && i.after == LinkConnected
  }

  // The UUID of a handle: drawn when it was last let in, or else when its connection was first
  // completed; none once the connection is over.
  function UuidOf(inputs: seq<Input>, h: Handle): Option<Uuid> {
    if inputs == [] then None else
    var before, i := UuidOf(inputs[..|inputs| - 1], h), inputs[|inputs| - 1];
    if Over(i, h) then None
    else if LetIn(i, h) || (Completed(i, h) && before == None) then Some(i.newUuid)
    else before
  }

  lemma {:induction false} UuidsFollowEvents(inputs: seq<Input>, h: Handle)
    ensures var table := Run(inputs).state.handleToUuid;
      && (h in table <==> UuidOf(inputs, h).Some?)
      && (h in table ==> table[h] == UuidOf(inputs, h).value)
  {
    hide Step;
    if inputs != [] {
      var init, i := inputs[..|inputs| - 1], inputs[|inputs| - 1];
      UuidsFollowEvents(init, h);
      StepUuid(Run(init).state, i, h);
    }
  }

  lemma {:induction false} StepUuid(st: State, i: Input, h: Handle)
    ensures var before, after := st.handleToUuid, Step(st, i).0.handleToUuid;
      && (Over(i, h) ==> h !in after)
      && (LetIn(i, h) || (Completed(i, h) && h !in before) ==> h in after && after[h] == i.newUuid)
      && (!Over(i, h) && !LetIn(i, h) && !(Completed(i, h) && h !in before) ==>
            (h in after <==> h in before) && (h in after ==> after[h] == before[h]))
  {
    hide PayloadStream, Delivery, Learn;
  }

  // In words: h is registered exactly when, after the last event that ended it, it was let in
  // or completed.
  lemma {:induction false} RegisteredSince(inputs: seq<Input>, h: Handle)
    ensures UuidOf(inputs, h).Some? <==>
      exists k :: 0 <= k < |inputs| && (LetIn(inputs[k], h) || Completed(inputs[k], h))
               && forall j :: k < j < |inputs| ==> !Over(inputs[j], h)
  {
    if inputs != [] {
      var init, i := inputs[..|inputs| - 1], inputs[|inputs| - 1];
      RegisteredSince(init, h);
      if Over(i, h) {
        assert !LetIn(i, h) && !Completed(i, h);
      } else if LetIn(i, h) || Completed(i, h) {
        assert inputs[|init|] == i;
      } else {
        assert forall k :: 0 <= k < |init| ==> init[k] == inputs[k];
        if UuidOf(init, h).Some? {
          var k :| 0 <= k < |init| && (LetIn(init[k], h) || Completed(init[k], h))
                && forall j :: k < j < |init| ==> !Over(init[j], h);
          assert LetIn(inputs[k], h) || Completed(inputs[k], h);
        }
      }
    }
  }

  // ------------------------------------------------------------------
  // Sending
  // ------------------------------------------------------------------

  // In an allowed run, a Send gives the library one message for the handle that carries the
  // UUID: the stream id with its high byte first, then the data; on lane 0 and reliably unless
  // both low bits of the id are clear. For any other UUID it gives nothing.
  lemma {:induction false} SendDispatches(inputs: seq<Input>, u: Uuid, s: StreamId, data: seq<byte>)
    requires AllowedRun(inputs)
    ensures var out := Dispatch(Run(inputs).state, u, s, data);
      && (forall h :: UuidOf(inputs, h) == Some(u) ==>
            out == [Outgoing(h, s % 4 != 0, if s % 4 != 0 then 0 else 1, [s / 256, s % 256] + data)])
      && ((forall h :: UuidOf(inputs, h) != Some(u)) ==> out == [])
  {
    hide UuidOf, Run, PutBe, AgreesOn, AllowedRun;
    var st := Run(inputs).state;
    TablesAgree(inputs);
    HighByteFirst(s);
    forall h ensures UuidOf(inputs, h) == Some(u) <==> h in st.handleToUuid && st.handleToUuid[h] == u {
      UuidsFollowEvents(inputs, h);
    }
    if u in st.uuidToHandle {
      assert UuidOf(inputs, st.uuidToHandle[u]) == Some(u);
    }
  }

  // ------------------------------------------------------------------
  // Receiving
  // ------------------------------------------------------------------

  // The messages that arrived for handles registered at that time and carry a stream id.
  function MessagesOf(inputs: seq<Input>): seq<Event> {
    if inputs == [] then [] else
    var init, i := inputs[..|inputs| - 1], inputs[|inputs| - 1];
    if i.Incoming? && |i.payload| >= 2 && UuidOf(init, i.conn).Some?
    then MessagesOf(init) + [Message(UuidOf(init, i.conn).value, Word(i.payload[0], i.payload[1]), i.payload[2..])]
    else MessagesOf(init)
  }

  function EventsOfCommands(inputs: seq<Input>): seq<Event> {
    if inputs == [] then [] else
    var before, i := EventsOfCommands(inputs[..|inputs| - 1]), inputs[|inputs| - 1];
    if i.Command? then before + CommandEvent(i.command) else before
  }

  // Exactly these are posted, in order, each under the UUID of its handle; and the stream
  // commands post their events, in order.
  lemma {:induction false} EveryMessageIsPosted(inputs: seq<Input>)
    ensures MessagesIn(Run(inputs).trace) == MessagesOf(inputs)
    ensures CommandEventsIn(Run(inputs).trace) == EventsOfCommands(inputs)
  {
    if inputs != [] {
      var init, i := inputs[..|inputs| - 1], inputs[|inputs| - 1];
      EveryMessageIsPosted(init);
      var before := Run(init);
      assert Run(inputs).trace == before.trace + Step(before.state, i).1 by { LastEntries(inputs); }
      hide Run, Step, MessagesIn, CommandEventsIn, UuidOf;
      StepEntries(before.state, i);
      if i.Incoming? {
        UuidsFollowEvents(init, i.conn);
      }
      ListsConcat(before.trace, Step(before.state, i).1);
    }
  }

  lemma {:induction false} LastEntries(inputs: seq<Input>)
    requires inputs != []
    ensures var before := Run(inputs[..|inputs| - 1]);
      Run(inputs).trace == before.trace + Step(before.state, inputs[|inputs| - 1]).1
  {
    hide Step;
  }

  lemma {:induction false} StepEntries(st: State, i: Input)
    ensures var entries := Step(st, i).1;
      && MessagesIn(entries)
         == (if i.Incoming? && |i.payload| >= 2 && i.conn in st.handleToUuid
             then [Message(st.handleToUuid[i.conn], Word(i.payload[0], i.payload[1]), i.payload[2..])] else [])
      && CommandEventsIn(entries) == if i.Command? then CommandEvent(i.command) else []
  {
    hide Delivery, NewStream, PayloadStream;
    var entries := Step(st, i).1;
    if i.Incoming? && |i.payload| >= 2 && i.conn in st.handleToUuid {
      var u, s := st.handleToUuid[i.conn], PayloadStream(i.payload);
      PayloadWord(i.payload);
      ListsOfDelivery(KnownOf(st.known, u), u, s, i.payload[2..]);
    } else {
      ListsOfOne(entries);
    }
  }

  lemma {:induction false} PayloadWord(payload: seq<byte>)
    requires |payload| >= 2
    ensures PayloadStream(payload) == Word(payload[0], payload[1])
  {
    TwoBytes(payload[..2]);
  }
}
