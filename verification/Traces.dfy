// Event traces and the protocol that every backend's packet-driven events follow for one
// connection: Connected first, each stream announced once and before its first message,
// at most one Disconnected, and nothing after it.
module Traces {
  import opened Bytes
  import opened Sockets

  // CreateStream and CloseStream commands make the backend post events of their own; they
  // are kept apart from the events that network input causes.
  datatype Origin = FromNetwork | FromCommand

  datatype Entry = Entry(origin: Origin, event: Event)

  datatype Phase =
    | Fresh
    | Open(streams: seq<StreamId>)
    | Closed(streams: seq<StreamId>)
    | Violation

  predicate Concerns(e: Entry, u: Uuid) {
    e.origin == FromNetwork && !e.event.Error? && e.event.connection == u
  }

  function Advance(p: Phase, e: Entry, u: Uuid): Phase {
    if !Concerns(e, u) then p else
    match (p, e.event)
    case (Fresh, Connected(_)) => Open([])
    case (Open(ss), StreamCreated(_, s)) => if s in ss then Violation else Open(ss + [s])
    case (Open(ss), Message(_, s, _)) => if s in ss then p else Violation
    case (Open(ss), Disconnected(_)) => Closed(ss)
    case _ => Violation
  }

  function PhaseOf(trace: seq<Entry>, u: Uuid): Phase {
    if trace == [] then Fresh else
    Advance(PhaseOf(trace[..|trace| - 1], u), trace[|trace| - 1], u)
  }

  // The streams of u's messages, each at its first arrival.
  function FirstArrivals(trace: seq<Entry>, u: Uuid): seq<StreamId> {
    if trace == [] then [] else
      var before := FirstArrivals(trace[..|trace| - 1], u);
      var e := trace[|trace| - 1];
      if Concerns(e, u) && e.event.Message? && e.event.stream !in before
      then before + [e.event.stream] else before
  }

  lemma {:induction false} PhaseSnoc(trace: seq<Entry>, e: Entry, u: Uuid)
    ensures PhaseOf(trace + [e], u) == Advance(PhaseOf(trace, u), e, u)
    ensures FirstArrivals(trace + [e], u)
         == var before := FirstArrivals(trace, u);
            if Concerns(e, u) && e.event.Message? && e.event.stream !in before
            then before + [e.event.stream] else before
  {
    assert (trace + [e])[..|trace|] == trace;
  }

  // ------------------------------------------------------------------
  // What the receivers do with one message: announce its stream if it is new, then post it
  // ------------------------------------------------------------------

  function Network(ev: Event): Entry {
    Entry(FromNetwork, ev)
  }

  function KnownOf(known: map<Uuid, seq<StreamId>>, u: Uuid): seq<StreamId> {
    if u in known then known[u] else []
  }

  function Learn(streams: seq<StreamId>, s: StreamId): seq<StreamId> {
    if s in streams then streams else streams + [s]
  }

  function Announce(streams: seq<StreamId>, u: Uuid, s: StreamId): seq<Entry> {
    if s in streams then [] else [Network(StreamCreated(u, s))]
  }

  function Delivery(streams: seq<StreamId>, u: Uuid, s: StreamId, data: seq<byte>): seq<Entry> {
    Announce(streams, u, s) + [Network(Message(u, s, data))]
  }

  lemma {:induction false} DeliveryPhase(trace: seq<Entry>, u: Uuid, s: StreamId, data: seq<byte>, w: Uuid)
    requires PhaseOf(trace, u).Open?
    ensures var streams := PhaseOf(trace, u).streams;
      var after := trace + Delivery(streams, u, s, data);
      && PhaseOf(after, u) == Open(Learn(streams, s))
      && (FirstArrivals(trace, u) == streams ==> FirstArrivals(after, u) == Learn(streams, s))
      && (w != u ==> PhaseOf(after, w) == PhaseOf(trace, w) && FirstArrivals(after, w) == FirstArrivals(trace, w))
  {
    hide PhaseOf, FirstArrivals;
    var streams := PhaseOf(trace, u).streams;
    var announce, message := Announce(streams, u, s), Network(Message(u, s, data));
    var t := trace + announce;
    assert trace + Delivery(streams, u, s, data) == t + [message];
    if s in streams {
      assert t == trace;
    } else {
      PhaseSnoc(trace, announce[0], u);
      PhaseSnoc(trace, announce[0], w);
    }
    PhaseSnoc(t, message, u);
    PhaseSnoc(t, message, w);
  }

  // ------------------------------------------------------------------
  // What the phase means, in terms of positions in the trace
  // ------------------------------------------------------------------

  ghost predicate At(trace: seq<Entry>, k: int, ev: Event) {
    0 <= k < |trace| && trace[k] == Entry(FromNetwork, ev)
  }

  ghost predicate Occurs(trace: seq<Entry>, ev: Event) {
    exists k :: At(trace, k, ev)
  }

  lemma {:induction false} PrefixNoViolation(trace: seq<Entry>, u: Uuid, k: nat)
    requires k <= |trace| && PhaseOf(trace, u) != Violation
    ensures PhaseOf(trace[..k], u) != Violation
  {
    if k == |trace| {
      assert trace[..k] == trace;
    } else {
      PrefixNoViolation(trace[..|trace| - 1], u, k);
      assert trace[..|trace| - 1][..k] == trace[..k];
    }
  }

  lemma {:induction false} StepAt(trace: seq<Entry>, u: Uuid, k: nat)
    requires k < |trace|
    ensures PhaseOf(trace[..k + 1], u) == Advance(PhaseOf(trace[..k], u), trace[k], u)
  {
    assert trace[..k + 1] == trace[..k] + [trace[k]];
    PhaseSnoc(trace[..k], trace[k], u);
  }

  // The phase summarises which events have occurred.
  lemma {:induction false} PhaseFacts(trace: seq<Entry>, u: Uuid)
    requires PhaseOf(trace, u) != Violation
    ensures var p := PhaseOf(trace, u);
      && (p.Fresh? ==> forall k :: 0 <= k < |trace| ==> !Concerns(trace[k], u))
      && (!p.Fresh? ==> Occurs(trace, Connected(u)))
      && (!p.Fresh? ==> forall s :: s in p.streams <==> Occurs(trace, StreamCreated(u, s)))
      && (p.Closed? <==> Occurs(trace, Disconnected(u)))
  {
    if trace != [] {
      var init, e := trace[..|trace| - 1], trace[|trace| - 1];
      assert trace == init + [e];
      PhaseFacts(init, u);
      OccursSnoc(init, e, Connected(u));
      OccursSnoc(init, e, Disconnected(u));
      forall s ensures Occurs(trace, StreamCreated(u, s))
          <==> Occurs(init, StreamCreated(u, s)) || e == Entry(FromNetwork, StreamCreated(u, s)) {
        OccursSnoc(init, e, StreamCreated(u, s));
      }
      var p, q := PhaseOf(init, u), PhaseOf(trace, u);
      if p.Fresh? && !q.Fresh? {
        forall s ensures !Occurs(init, StreamCreated(u, s)) {
          NothingOccurred(init, StreamCreated(u, s));
        }
      }
    }
  }

  lemma {:induction false} NothingOccurred(trace: seq<Entry>, ev: Event)
    requires !ev.Error? && forall k :: 0 <= k < |trace| ==> !Concerns(trace[k], ev.connection)
    ensures !Occurs(trace, ev)
  {
  }

  lemma {:induction false} OccursSnoc(trace: seq<Entry>, e: Entry, ev: Event)
    ensures Occurs(trace + [e], ev) <==> Occurs(trace, ev) || e == Entry(FromNetwork, ev)
  {
    if k :| At(trace + [e], k, ev) {
      if k < |trace| {
        assert At(trace, k, ev);
      }
    }
    if k :| At(trace, k, ev) {
      assert At(trace + [e], k, ev);
    }
    if e == Entry(FromNetwork, ev) {
      assert At(trace + [e], |trace|, ev);
    }
  }

  // Every message of u comes after one announcement of its stream, and that after Connected.
  lemma {:induction false} MessagePreceded(trace: seq<Entry>, u: Uuid, k: nat)
    requires PhaseOf(trace, u) != Violation
    requires k < |trace| && trace[k].origin == FromNetwork
    requires trace[k].event.Message? && trace[k].event.connection == u
    ensures exists i, j :: (0 <= i < j < k && At(trace, i, Connected(u))
              && At(trace, j, StreamCreated(u, trace[k].event.stream)))
  {
    PrefixNoViolation(trace, u, k);
    PrefixNoViolation(trace, u, k + 1);
    StepAt(trace, u, k);
    PhaseFacts(trace[..k], u);
    var created := StreamCreated(u, trace[k].event.stream);
    var j :| At(trace[..k], j, created);
    PrefixNoViolation(trace, u, j);
    PrefixNoViolation(trace, u, j + 1);
    StepAt(trace, u, j);
    PhaseFacts(trace[..j], u);
    var i :| At(trace[..j], i, Connected(u));
    assert At(trace, i, Connected(u)) && At(trace, j, created);
  }

  // Connected and each announcement happen at most once, and nothing follows Disconnected.
  lemma {:induction false} EventsUnique(trace: seq<Entry>, u: Uuid, i: nat, j: nat)
    requires PhaseOf(trace, u) != Violation
    requires i < j < |trace| && Concerns(trace[i], u) && Concerns(trace[j], u)
    ensures !trace[j].event.Connected?
    ensures trace[j].event.StreamCreated? ==> trace[j].event != trace[i].event
    ensures !trace[i].event.Disconnected?
  {
    PrefixNoViolation(trace, u, j);
    PrefixNoViolation(trace, u, j + 1);
    StepAt(trace, u, j);
    PhaseFacts(trace[..j], u);
    assert trace[..j][i] == trace[i];
    if trace[i].event.Disconnected? {
      assert At(trace[..j], i, Disconnected(u));
    }
    if trace[j].event.StreamCreated? && trace[j].event == trace[i].event {
      assert At(trace[..j], i, trace[j].event);
    }
  }

  lemma {:induction false} StreamsDistinctInPhase(trace: seq<Entry>, u: Uuid)
    requires PhaseOf(trace, u).Open? || PhaseOf(trace, u).Closed?
    ensures NoRepeats(PhaseOf(trace, u).streams)
  {
    var init := trace[..|trace| - 1];
    if PhaseOf(init, u).Open? || PhaseOf(init, u).Closed? {
      StreamsDistinctInPhase(init, u);
    }
  }

  // Commands only ever cause announcements and closings of streams.
  ghost predicate CommandEntries(trace: seq<Entry>) {
    forall k :: 0 <= k < |trace| && trace[k].origin == FromCommand
      ==> trace[k].event.StreamCreated? || trace[k].event.StreamClosed?
  }

  ghost predicate NoRepeats<T>(s: seq<T>) {
    forall i, j :: 0 <= i < j < |s| ==> s[i] != s[j]
  }
}
