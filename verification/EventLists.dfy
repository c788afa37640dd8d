// The messages in a trace, and the events that commands caused, as lists.
module EventLists {
  import opened Bytes
  import opened Sockets
  import opened Traces

  function MessagesIn(trace: seq<Entry>): seq<Event> {
    if trace == [] then [] else
    var before := MessagesIn(trace[..|trace| - 1]);
    var e := trace[|trace| - 1];
    if e.origin == FromNetwork && e.event.Message? then before + [e.event] else before
  }

  function CommandEventsIn(trace: seq<Entry>): seq<Event> {
    if trace == [] then [] else
    var before := CommandEventsIn(trace[..|trace| - 1]);
    var e := trace[|trace| - 1];
    if e.origin == FromCommand then before + [e.event] else before
  }

  lemma {:induction false} ListsSnoc(trace: seq<Entry>, e: Entry)
    ensures MessagesIn(trace + [e])
         == if e.origin == FromNetwork && e.event.Message? then MessagesIn(trace) + [e.event] else MessagesIn(trace)
    ensures CommandEventsIn(trace + [e])
         == if e.origin == FromCommand then CommandEventsIn(trace) + [e.event] else CommandEventsIn(trace)
  {
    assert (trace + [e])[..|trace|] == trace;
  }

  lemma {:induction false} ListsConcat(a: seq<Entry>, b: seq<Entry>)
    ensures MessagesIn(a + b) == MessagesIn(a) + MessagesIn(b)
    ensures CommandEventsIn(a + b) == CommandEventsIn(a) + CommandEventsIn(b)
  {
    hide MessagesIn, CommandEventsIn;
    ListsNone();
    if b == [] {
      assert a + b == a;
    } else {
      var init, last := b[..|b| - 1], b[|b| - 1];
      ListsConcat(a, init);
      assert a + b == (a + init) + [last] && b == init + [last];
      ListsSnoc(a + init, last);
      ListsSnoc(init, last);
    }
  }

  lemma ListsNone()
    ensures MessagesIn([]) == [] && CommandEventsIn([]) == []
  {
  }

  // A delivery is one message, and no command event.
  lemma {:induction false} ListsOfDelivery(streams: seq<StreamId>, u: Uuid, s: StreamId, data: seq<byte>)
    ensures MessagesIn(Delivery(streams, u, s, data)) == [Message(u, s, data)]
    ensures CommandEventsIn(Delivery(streams, u, s, data)) == []
  {
    var announce, message := Announce(streams, u, s), Network(Message(u, s, data));
    assert MessagesIn([]) == [] && CommandEventsIn([]) == [];
    ListsSnoc(announce, message);
    if announce != [] {
      ListsSnoc([], announce[0]);
      assert [] + [announce[0]] == announce;
    }
  }

  lemma {:induction false} ListsOfOne(entries: seq<Entry>)
    requires |entries| <= 1
    ensures entries == [] ==> MessagesIn(entries) == [] && CommandEventsIn(entries) == []
    ensures entries != [] && !entries[0].event.Message? ==> MessagesIn(entries) == []
    ensures entries != [] ==> CommandEventsIn(entries) == if entries[0].origin == FromCommand then [entries[0].event] else []
  {
  }

  // What a command posts by itself.
  function CommandEvent(c: Command): seq<Event> {
    match c
    case Send(_, _, _) => []
    case CreateStream(u, n, r) => [StreamCreated(u, NewStream(n, r))]
    case CloseStream(u, s) => [StreamClosed(u, s)]
  }
}
