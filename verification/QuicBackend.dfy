// The QUIC backend: a main loop that owns the tables, and per-connection tasks that read
// datagrams and streams. Tasks post messages to the game directly but report new streams to
// the main loop through a channel, so the order of a Message and the StreamCreated of its
// stream is not fixed.
module QuicBackend {
  import opened Bytes
  import opened Options
  import opened Sockets
  import opened Traces
  import opened QuicStreams

  type Key = (Uuid, StreamId)

  // The send half of a bidirectional stream is an index into `wires`. `header` and `body` are
  // the bytes written to it so far; `sent` lists the messages whose writing was begun. After
  // a failed write, which may have got part of a frame out, nothing more can be written.
  // `connection` and `number` say whose stream it is.
  datatype Wire = Wire(
    connection: Uuid, number: StreamId,
    header: seq<byte>, body: seq<byte>, broken: bool, sent: seq<seq<byte>>)

  datatype Registration = Registration(connection: Uuid, stream: StreamId, handle: Option<nat>)

  // An event as the game sees it, and a mark for the proofs: whether it is a StreamCreated that
  // was posted because a send half was registered.
  datatype Posted = Posted(event: Event, withHandle: bool)

  datatype State = State(
    connections: set<Uuid>,          // connections the main loop knows
    reliable: map<Key, nat>,         // reliable_send_streams
    unreliable: seq<Key>,            // unreliable_send_streams
    accepted: seq<Uuid>,             // the connection registration channel
    queue: seq<Registration>,        // the stream registration channel
    readers: map<Uuid, seq<StreamId>>, // known_streams of each datagram reader
    wires: seq<Wire>,
    datagrams: seq<(Uuid, seq<byte>)>,
    trace: seq<Posted>)

  const INITIAL: State := State({}, map[], [], [], [], map[], [], [], [])

  datatype Input =
    | Connected(u: Uuid)
    | Accepted(u: Uuid)
    | ConnectionRegistered
    | StreamRegistered
    | Send(u: Uuid, s: StreamId, data: seq<byte>, ok: bool, partial: nat)
    | CreateStream(u: Uuid, number: StreamId, reliability: Reliability)
    | CloseStream(u: Uuid, s: StreamId)
    | DatagramRead(u: Uuid, bytes: seq<byte>)
    | StreamAccepted(u: Uuid, number: StreamId)
    | MessageRead(u: Uuid, number: StreamId, data: seq<byte>)

  // ------------------------------------------------------------------
  // One step, as a function
  // ------------------------------------------------------------------

  function Post(trace: seq<Posted>, ev: Event): seq<Posted> {
    trace + [Posted(ev, false)]
  }

  function RegisterStream(st: State): State
    requires st.queue != []
  {
    var r := st.queue[0];
    var key := (r.connection, r.stream);
    var st' := st.(queue := st.queue[1..]);
    var created := StreamCreated(r.connection, r.stream);
    if IsReliable(r.stream) && r.handle.Some? then
      st'.(reliable := st.reliable[key := r.handle.value], trace := st.trace + [Posted(created, true)])
    else if key in st.unreliable then st'
    else st'.(unreliable := st.unreliable + [key], trace := Post(st.trace, created))
  }

  function Remove(keys: seq<Key>, key: Key): seq<Key> {
    if keys == [] then [] else (if keys[0] == key then [] else [keys[0]]) + Remove(keys[1..], key)
  }

  function Close(st: State, u: Uuid, s: StreamId): State {
    st.(reliable := st.reliable - {(u, s)}, unreliable := Remove(st.unreliable, (u, s)),
        trace := Post(st.trace, StreamClosed(u, s)))
  }

  function Create(st: State, u: Uuid, number: StreamId, r: Reliability): State {
    if r.Reliable? then
      if u !in st.connections then st else
      st.(wires := st.wires + [Wire(u, number, PutBe(2, number), [], false, [])],
          queue := st.queue + [Registration(u, NewStream(number, r), Some(|st.wires|))])
    else st.(queue := st.queue + [Registration(u, NewStream(number, r), None)])
  }

  // write_all: all of the frame, or some part of it and an error.
  function Write(w: Wire, m: seq<byte>, ok: bool, partial: nat): Wire {
    if w.broken then w
    else if ok then w.(body := w.body + Frame(m), sent := w.sent + [m])
    else w.(body := w.body + Frame(m)[..if partial <= |Frame(m)| then partial else |Frame(m)|],
            broken := true, sent := w.sent + [m])
  }

  predicate WriteSucceeds(w: Wire, ok: bool) {
    ok && !w.broken
  }

  // (In every reachable state a registered send half is one of the wires.)
  function SendReliable(st: State, u: Uuid, s: StreamId, m: seq<byte>, ok: bool, partial: nat): State {
    if (u, s) !in st.reliable || st.reliable[(u, s)] >= |st.wires| then st else
    var h := st.reliable[(u, s)];
    st.(wires := st.wires[h := Write(st.wires[h], m, ok, partial)],
        trace := if WriteSucceeds(st.wires[h], ok) then st.trace else Post(st.trace, Error(u)))
  }

  function SendDatagram(st: State, u: Uuid, s: StreamId, m: seq<byte>, ok: bool): State {
    if ok then st.(datagrams := st.datagrams + [(u, PutBe(2, s) + m)])
    else st.(trace := Post(st.trace, Error(u)))
  }

  function ReadDatagram(st: State, u: Uuid, bytes: seq<byte>): State {
    if u !in st.readers || |bytes| < 2 then st else
    var s := StreamNumber(bytes);
    var known := st.readers[u];
    st.(readers := st.readers[u := Learn(known, s)],
        queue := if s in known then st.queue else st.queue + [Registration(u, s, None)],
        trace := Post(st.trace, Message(u, s, bytes[2..])))
  }

  function Step(st: State, i: Input): State {
    match i
    case Connected(u) =>
      st.(connections := st.connections + {u}, readers := st.readers[u := []],
          trace := Post(st.trace, Event.Connected(u)))
    case Accepted(u) =>
      st.(accepted := st.accepted + [u], readers := st.readers[u := []],
          trace := Post(st.trace, Event.Connected(u)))
    case ConnectionRegistered =>
      if st.accepted == [] then st else
      st.(connections := st.connections + {st.accepted[0]}, accepted := st.accepted[1..])
    case StreamRegistered => if st.queue == [] then st else RegisterStream(st)
    case Send(u, s, m, ok, partial) =>
      if u !in st.connections then st
      else if IsReliable(s) then SendReliable(st, u, s, m, ok, partial)
      else SendDatagram(st, u, s, m, ok)
    case CreateStream(u, n, r) => Create(st, u, n, r)
    case CloseStream(u, s) => Close(st, u, s)
    case DatagramRead(u, bytes) => ReadDatagram(st, u, bytes)
    case StreamAccepted(u, n) =>
      if u !in st.readers then st else
      st.(wires := st.wires + [Wire(u, n, [], [], false, [])],
          queue := st.queue + [Registration(u, NewStream(n, Reliable), Some(|st.wires|))])
    case MessageRead(u, n, m) => st.(trace := Post(st.trace, Message(u, NewStream(n, Reliable), m)))
  }

  // ------------------------------------------------------------------
  // The main loop's branches and the datagram reader
  // ------------------------------------------------------------------

  class QuicBackend {
    var connections: set<Uuid>
    var reliable: map<Key, nat>
    var unreliable: seq<Key>
    var accepted: seq<Uuid>
    var queue: seq<Registration>
    var readers: map<Uuid, seq<StreamId>>
    var wires: seq<Wire>
    var datagrams: seq<(Uuid, seq<byte>)>
    ghost var trace: seq<Posted>

    ghost function View(): State
      reads this
    {
      State(connections, reliable, unreliable, accepted, queue, readers, wires, datagrams, trace)
    }

    constructor ()
      ensures View() == INITIAL
    {
      connections, reliable, unreliable, accepted, queue := {}, map[], [], [], [];
      readers, wires, datagrams, trace := map[], [], [], [];
    }

    // A Connect command that the library answered; its two readers start.
    method OnConnected(u: Uuid)
      modifies this`connections, this`readers, this`trace
      ensures View() == Step(old(View()), Input.Connected(u))
    {
      connections := connections + {u};
      trace := trace + [Posted(Event.Connected(u), false)];
      readers := readers[u := []];
    }

    // The listener's task: the game hears of the connection before the main loop does.
    method OnAccepted(u: Uuid)
      modifies this`accepted, this`readers, this`trace
      ensures View() == Step(old(View()), Input.Accepted(u))
    {
      trace := trace + [Posted(Event.Connected(u), false)];
      accepted := accepted + [u];
      readers := readers[u := []];
    }

    method OnConnectionRegistered()
      requires accepted != []
      modifies this`connections, this`accepted
      ensures View() == Step(old(View()), ConnectionRegistered)
    {
      connections := connections + {accepted[0]};
      accepted := accepted[1..];
    }

    // The stream reader's task, once the opener's number has been read.
    method OnStreamAccepted(u: Uuid, number: StreamId)
      requires u in readers
      modifies this`wires, this`queue
      ensures View() == Step(old(View()), Input.StreamAccepted(u, number))
    {
      var half := |wires|;
      wires := wires + [Wire(u, number, [], [], false, [])];
      queue := queue + [Registration(u, NewStream(number, Reliable), Some(half))];
    }

    method OnStreamRegistered()
      requires queue != []
      modifies this`reliable, this`unreliable, this`queue, this`trace
      ensures View() == RegisterStream(old(View()))
    {
      var r := queue[0];
      queue := queue[1..];
      if IsReliable(r.stream) && r.handle.Some? {
        reliable := reliable[(r.connection, r.stream) := r.handle.value];
        trace := trace + [Posted(StreamCreated(r.connection, r.stream), true)];
      } else {
        if (r.connection, r.stream) in unreliable {
          return;
        }
        unreliable := unreliable + [(r.connection, r.stream)];
        trace := trace + [Posted(StreamCreated(r.connection, r.stream), false)];
      }
    }

    method OnCreateStream(u: Uuid, number: StreamId, r: Reliability)
      modifies this`wires, this`queue
      ensures View() == Create(old(View()), u, number, r)
    {
      if r == Reliable {
        if u in connections {
          var half := |wires|;
          wires := wires + [Wire(u, number, PutBe(2, number), [], false, [])];
          queue := queue + [Registration(u, NewStream(number, r), Some(half))];
        }
      } else {
        queue := queue + [Registration(u, NewStream(number, r), None)];
      }
    }

    method OnCloseStream(u: Uuid, s: StreamId)
      modifies this`reliable, this`unreliable, this`trace
      ensures View() == Close(old(View()), u, s)
    {
      reliable := reliable - {(u, s)};
      unreliable := Remove(unreliable, (u, s));
      trace := trace + [Posted(StreamClosed(u, s), false)];
    }

    // `ok` is whether the library accepts the data, `partial` how much of a frame a failed
    // write got out.
    method OnSend(u: Uuid, s: StreamId, data: seq<byte>, ok: bool, partial: nat)
      requires HandlesOk(View())
      modifies this`wires, this`datagrams, this`trace
      ensures View() == Step(old(View()), Input.Send(u, s, data, ok, partial))
    {
      hide NewStream;
      if u in connections {
        if IsReliable(s) {
          if (u, s) !in reliable {
            return;
          }
          var h := reliable[(u, s)];
          if !WriteSucceeds(wires[h], ok) {
            trace := trace + [Posted(Error(u), false)];
          }
          wires := wires[h := Write(wires[h], data, ok, partial)];
        } else {
          if ok {
            datagrams := datagrams + [(u, PutBe(2, s) + data)];
          } else {
            trace := trace + [Posted(Error(u), false)];
          }
        }
      }
    }

    method OnDatagram(u: Uuid, bytes: seq<byte>)
      requires u in readers
      modifies this`readers, this`queue, this`trace
      ensures View() == ReadDatagram(old(View()), u, bytes)
    {
      if |bytes| < 2 {
        return;
      }
      var s := StreamNumber(bytes);
      if s !in readers[u] {
        readers := readers[u := readers[u] + [s]];
        queue := queue + [Registration(u, s, None)];
      }
      trace := trace + [Posted(Message(u, s, bytes[2..]), false)];
      assert readers == old(readers)[u := Learn(old(readers)[u], s)];
    }
  }

  // ------------------------------------------------------------------
  // The list of streams without a send half, as the trace shows it
  // ------------------------------------------------------------------

  datatype Listing = Absent | Present | AnnouncedTwice

  predicate Announces(p: Posted, key: Key) {
    p.event == StreamCreated(key.0, key.1) && !p.withHandle
  }

  predicate Closes(p: Posted, key: Key) {
    p.event == StreamClosed(key.0, key.1)
  }

  function AdvanceListing(l: Listing, p: Posted, key: Key): Listing {
    if l.AnnouncedTwice? then l
    else if Announces(p, key) then (if l.Absent? then Present else AnnouncedTwice)
    else if Closes(p, key) then Absent
    else l
  }

  function ListingOf(trace: seq<Posted>, key: Key): Listing {
    if trace == [] then Absent else
    AdvanceListing(ListingOf(trace[..|trace| - 1], key), trace[|trace| - 1], key)
  }

  lemma {:induction false} ListingSnoc(trace: seq<Posted>, p: Posted, key: Key)
    ensures ListingOf(trace + [p], key) == AdvanceListing(ListingOf(trace, key), p, key)
  {
    assert (trace + [p])[..|trace|] == trace;
  }

  // Between two announcements of a key there is a StreamClosed for it.
  lemma {:induction false} ClosedBetweenAnnouncements(trace: seq<Posted>, key: Key, i: nat, j: nat)
    requires !ListingOf(trace, key).AnnouncedTwice?
    requires i < j < |trace| && Announces(trace[i], key) && Announces(trace[j], key)
    ensures exists k :: i < k < j && Closes(trace[k], key)
  {
    NotTwice(trace, key, j + 1);
    ListingAt(trace, key, j);
    if forall k :: i < k < j ==> !Closes(trace[k], key) {
      StaysPresent(trace, key, i, j);
      assert false;
    }
  }

  lemma {:induction false} ListingAt(trace: seq<Posted>, key: Key, k: nat)
    requires k < |trace|
    ensures ListingOf(trace[..k + 1], key) == AdvanceListing(ListingOf(trace[..k], key), trace[k], key)
  {
    assert trace[..k + 1] == trace[..k] + [trace[k]];
    ListingSnoc(trace[..k], trace[k], key);
  }

  lemma {:induction false} NotTwice(trace: seq<Posted>, key: Key, k: nat)
    requires k <= |trace| && !ListingOf(trace, key).AnnouncedTwice?
    ensures !ListingOf(trace[..k], key).AnnouncedTwice?
  {
    if k == |trace| {
      assert trace[..k] == trace;
    } else {
      NotTwice(trace[..|trace| - 1], key, k);
      assert trace[..|trace| - 1][..k] == trace[..k];
    }
  }

  lemma {:induction false} StaysPresent(trace: seq<Posted>, key: Key, i: nat, j: nat)
    requires i < j <= |trace| && Announces(trace[i], key)
    requires forall k :: i < k < j ==> !Closes(trace[k], key)
    ensures !ListingOf(trace[..j], key).Absent?
  {
    ListingAt(trace, key, j - 1);
    if i < j - 1 {
      StaysPresent(trace, key, i, j - 1);
    }
  }

  // ------------------------------------------------------------------
  // The invariant
  // ------------------------------------------------------------------

  ghost predicate ListOk(st: State) {
    NoRepeats(st.unreliable)
    && forall key: Key :: !ListingOf(st.trace, key).AnnouncedTwice?
                          && (key in st.unreliable <==> ListingOf(st.trace, key).Present?)
  }

  // Send halves are registered under ids of class Reliable only.
  ghost predicate HandlesOk(st: State) {
    && (forall key :: key in st.reliable ==> key.1 % 4 == 3 && st.reliable[key] < |st.wires|)
    && (forall k :: 0 <= k < |st.queue| && st.queue[k].handle.Some? ==>
          st.queue[k].stream % 4 == 3 && st.queue[k].handle.value < |st.wires|)
  }

  // Only a StreamCreated for an id of class Reliable is ever posted with a send half.
  ghost predicate MarksOk(st: State) {
    forall n :: 0 <= n < |st.trace| && st.trace[n].withHandle ==>
      st.trace[n].event.StreamCreated? && st.trace[n].event.stream % 4 == 3
  }

  // What went out on a wire is a prefix of the frames of the messages sent on it.
  ghost predicate WireOk(w: Wire) {
    w.body <= Frames(w.sent) && (!w.broken ==> w.body == Frames(w.sent))
  }

  ghost predicate WiresOk(st: State) {
    forall h :: 0 <= h < |st.wires| ==> WireOk(st.wires[h])
  }

  ghost predicate Inv(st: State) {
    ListOk(st) && HandlesOk(st) && MarksOk(st) && WiresOk(st)
  }

  lemma {:induction false} RemoveMembers(keys: seq<Key>, key: Key)
    ensures forall x :: x in Remove(keys, key) <==> x in keys && x != key
    ensures NoRepeats(keys) ==> NoRepeats(Remove(keys, key))
  {
    if keys != [] {
      RemoveMembers(keys[1..], key);
      assert forall x :: x in keys <==> x == keys[0] || x in keys[1..];
      assert NoRepeats(keys) ==> NoRepeats(keys[1..]) && keys[0] !in keys[1..];
    }
  }

  // Posting anything but an announcement without handle, or a closing, leaves listings alone.
  lemma {:induction false} ListOkPost(st: State, st': State, p: Posted)
    requires ListOk(st) && st'.unreliable == st.unreliable && st'.trace == st.trace + [p]
    requires !p.event.StreamClosed? && (p.event.StreamCreated? ==> p.withHandle)
    ensures ListOk(st')
  {
    hide ListingOf;
    forall key: Key ensures ListingOf(st'.trace, key) == ListingOf(st.trace, key) {
      ListingSnoc(st.trace, p, key);
    }
  }

  lemma {:induction false} RegisterKeepsList(st: State)
    requires ListOk(st) && st.queue != []
    ensures ListOk(RegisterStream(st))
  {
    hide ListingOf;
    var r := st.queue[0];
    var key := (r.connection, r.stream);
    var after := RegisterStream(st);
    if IsReliable(r.stream) && r.handle.Some? {
      ListOkPost(st, after, Posted(StreamCreated(r.connection, r.stream), true));
    } else if key !in st.unreliable {
      forall k: Key ensures !ListingOf(after.trace, k).AnnouncedTwice?
          && (k in after.unreliable <==> ListingOf(after.trace, k).Present?) {
        ListingSnoc(st.trace, Posted(StreamCreated(r.connection, r.stream), false), k);
      }
    }
  }

  lemma {:induction false} CloseKeepsList(st: State, u: Uuid, s: StreamId)
    requires ListOk(st)
    ensures ListOk(Close(st, u, s))
  {
    hide ListingOf;
    var after := Close(st, u, s);
    RemoveMembers(st.unreliable, (u, s));
    forall k: Key ensures !ListingOf(after.trace, k).AnnouncedTwice?
        && (k in after.unreliable <==> ListingOf(after.trace, k).Present?) {
      ListingSnoc(st.trace, Posted(StreamClosed(u, s), false), k);
    }
  }

  lemma {:induction false} StepKeepsList(st: State, i: Input)
    requires ListOk(st)
    ensures ListOk(Step(st, i))
  {
    hide ListOk, RegisterStream, Close, Write, StreamNumber, NewStream;
    var after := Step(st, i);
    if i.StreamRegistered? {
      if st.queue != [] {
        RegisterKeepsList(st);
      }
    } else if i.CloseStream? {
      CloseKeepsList(st, i.u, i.s);
    } else if after.trace == st.trace {
      SameList(st, after);
    } else {
      ListOkPost(st, after, after.trace[|st.trace|]);
    }
  }

  lemma {:induction false} SameList(st: State, st': State)
    requires ListOk(st) && st'.unreliable == st.unreliable && st'.trace == st.trace
    ensures ListOk(st')
  {
  }

  lemma {:induction false} StepKeepsHandles(st: State, i: Input)
    requires HandlesOk(st)
    ensures HandlesOk(Step(st, i))
  {
    hide HandlesOk, Step;
    if i.CreateStream? || i.StreamAccepted? {
      OpenKeepsHandles(st, i);
    } else if i.StreamRegistered? {
      RegisterKeepsHandles(st);
    } else {
      OthersKeepHandles(st, i);
    }
  }

  lemma {:induction false} RegisterKeepsHandles(st: State)
    requires HandlesOk(st)
    ensures HandlesOk(Step(st, StreamRegistered))
  {
    hide IsReliable;
  }

  lemma {:induction false} OpenKeepsHandles(st: State, i: Input)
    requires HandlesOk(st) && (i.CreateStream? || i.StreamAccepted?)
    ensures HandlesOk(Step(st, i))
  {
    hide NewStream;
    if i.CreateStream? {
      StreamIdentity(i.number, i.reliability);
    } else {
      StreamIdentity(i.number, Reliable);
    }
  }

  lemma {:induction false} OthersKeepHandles(st: State, i: Input)
    requires HandlesOk(st) && !i.CreateStream? && !i.StreamAccepted? && !i.StreamRegistered?
    ensures HandlesOk(Step(st, i))
  {
    hide Write, StreamNumber, Remove, NewStream, IsReliable;
  }

  lemma {:induction false} StepKeepsMarks(st: State, i: Input)
    requires HandlesOk(st) && MarksOk(st)
    ensures MarksOk(Step(st, i))
  {
    hide Write, StreamNumber, Remove, NewStream, IsReliable;
  }

  lemma {:induction false} FramesSnoc(ms: seq<seq<byte>>, m: seq<byte>)
    ensures Frames(ms + [m]) == Frames(ms) + Frame(m)
  {
    hide Frame;
    if ms == [] {
      assert ms + [m] == [m];
      assert Frames([m]) == Frame(m) + Frames([]);
    } else {
      assert (ms + [m])[1..] == ms[1..] + [m];
      FramesSnoc(ms[1..], m);
    }
  }

  lemma {:induction false} WriteKeeps(w: Wire, m: seq<byte>, ok: bool, partial: nat)
    requires WireOk(w)
    ensures WireOk(Write(w, m, ok, partial))
  {
    hide Frame, Frames;
    FramesSnoc(w.sent, m);
  }

  lemma {:induction false} StepKeepsWires(st: State, i: Input)
    requires WiresOk(st)
    ensures WiresOk(Step(st, i))
  {
    hide Write, StreamNumber, Remove, NewStream, WireOk;
    match i
    case Send(u, s, m, ok, partial) =>
      if (u, s) in st.reliable && st.reliable[(u, s)] < |st.wires| {
        WriteKeeps(st.wires[st.reliable[(u, s)]], m, ok, partial);
      }
    case CreateStream(u, n, r) => EmptyWire(u, n, PutBe(2, n));
    case StreamAccepted(u, n) => EmptyWire(u, n, []);
    case _ =>
  }

  lemma {:induction false} EmptyWire(u: Uuid, n: StreamId, header: seq<byte>)
    ensures WireOk(Wire(u, n, header, [], false, []))
  {
  }

  // ------------------------------------------------------------------
  // Every interleaving
  // ------------------------------------------------------------------

  function Run(inputs: seq<Input>): State {
    if inputs == [] then INITIAL else Step(Run(inputs[..|inputs| - 1]), inputs[|inputs| - 1])
  }

  lemma {:induction false} RunHolds(inputs: seq<Input>)
    ensures Inv(Run(inputs))
  {
    hide Step;
    if inputs != [] {
      var init, i := inputs[..|inputs| - 1], inputs[|inputs| - 1];
      RunHolds(init);
      hide ListOk, HandlesOk, MarksOk, WiresOk;
      StepKeepsList(Run(init), i);
      StepKeepsHandles(Run(init), i);
      StepKeepsMarks(Run(init), i);
      StepKeepsWires(Run(init), i);
    }
  }

  predicate Creates(p: Posted, key: Key) {
    p.event == StreamCreated(key.0, key.1)
  }

  // For every class but Reliable, the marks say nothing that the events do not.
  lemma {:induction false} AnnouncesIsCreates(st: State, key: Key, n: nat)
    requires MarksOk(st) && n < |st.trace| && key.1 % 4 != 3
    ensures Announces(st.trace[n], key) <==> Creates(st.trace[n], key)
  {
  }

  // The list has no duplicates. In terms of the events the game sees, for every class but
  // Reliable: a stream is on the list exactly when StreamCreated was posted for it and no
  // StreamClosed since, and it is posted again only after a StreamClosed. For all classes the
  // same holds of the StreamCreated events that come without a send half.
  lemma {:induction false} RegistrationsAnnouncedOnce(inputs: seq<Input>, key: Key)
    ensures var st := Run(inputs);
      && NoRepeats(st.unreliable)
      && (key.1 % 4 != 3 ==>
            && (key in st.unreliable <==>
                  exists i :: 0 <= i < |st.trace| && Creates(st.trace[i], key)
                              && forall k :: i < k < |st.trace| ==> !Closes(st.trace[k], key))
            && (forall i, j :: 0 <= i < j < |st.trace| && Creates(st.trace[i], key) && Creates(st.trace[j], key)
                  ==> exists k :: i < k < j && Closes(st.trace[k], key)))
      && (key in st.unreliable <==>
            exists i :: 0 <= i < |st.trace| && Announces(st.trace[i], key)
                        && forall k :: i < k < |st.trace| ==> !Closes(st.trace[k], key))
      && (forall i, j :: 0 <= i < j < |st.trace| && Announces(st.trace[i], key) && Announces(st.trace[j], key)
            ==> exists k :: i < k < j && Closes(st.trace[k], key))
  {
    RunHolds(inputs);
    hide ListingOf, HandlesOk, WiresOk, MarksOk, Announces, Creates;
    var st := Run(inputs);
    PresentMeans(st.trace, key);
    forall i, j | 0 <= i < j < |st.trace| && Announces(st.trace[i], key) && Announces(st.trace[j], key)
      ensures exists k :: i < k < j && Closes(st.trace[k], key)
    {
      ClosedBetweenAnnouncements(st.trace, key, i, j);
    }
    if key.1 % 4 != 3 {
      forall n | 0 <= n < |st.trace| ensures Announces(st.trace[n], key) <==> Creates(st.trace[n], key) {
        AnnouncesIsCreates(st, key, n);
      }
    }
  }

  lemma {:induction false} PresentMeans(trace: seq<Posted>, key: Key)
    requires !ListingOf(trace, key).AnnouncedTwice?
    ensures ListingOf(trace, key).Present? <==>
      exists i :: 0 <= i < |trace| && Announces(trace[i], key)
                  && forall k :: i < k < |trace| ==> !Closes(trace[k], key)
  {
    if i :| 0 <= i < |trace| && Announces(trace[i], key) && forall k :: i < k < |trace| ==> !Closes(trace[k], key) {
      StaysPresent(trace, key, i, |trace|);
      assert trace[..|trace|] == trace;
    }
    if ListingOf(trace, key).Present? {
      var i := LastAnnouncement(trace, key);
    }
  }

  lemma {:induction false} LastAnnouncement(trace: seq<Posted>, key: Key) returns (i: nat)
    requires ListingOf(trace, key).Present?
    ensures i < |trace| && Announces(trace[i], key) && forall k :: i < k < |trace| ==> !Closes(trace[k], key)
  {
    var init, last := trace[..|trace| - 1], |trace| - 1;
    if Announces(trace[last], key) {
      i := last;
    } else {
      i := LastAnnouncement(init, key);
    }
  }

  // The next registration is for key and brings a send half.
  predicate BringsHandle(st: State, i: Input, key: Key) {
    i.StreamRegistered? && st.queue != []
    && (st.queue[0].connection, st.queue[0].stream) == key && st.queue[0].handle.Some?
  }

  // The events posted after those of `before` include a StreamCreated for key.
  ghost predicate CreatedSince(before: seq<Posted>, after: seq<Posted>, key: Key) {
    exists n :: |before| <= n < |after| && Creates(after[n], key)
  }

  ghost predicate HandleBrought(inputs: seq<Input>, more: seq<Input>, key: Key) {
    exists k :: 0 <= k < |more| && BringsHandle(Run(inputs + more[..k]), more[k], key)
  }

  // Once a stream is listed it stays listed until a CloseStream for it. Until then it is
  // announced again exactly when a registration with a send half for the same id is taken from
  // the channel, which happens for class Reliable only: so an echo on an Unreliable or Ordered
  // stream that this side created, or that was heard of before, announces nothing.
  lemma {:induction false} EchoIsNotAnnounced(inputs: seq<Input>, more: seq<Input>, key: Key)
    requires key in Run(inputs).unreliable && Input.CloseStream(key.0, key.1) !in more
    ensures var (before, after) := (Run(inputs), Run(inputs + more));
      && key in after.unreliable
      && before.trace <= after.trace
      && (key.1 % 4 != 3 ==> forall n :: |before.trace| <= n < |after.trace| ==> !Creates(after.trace[n], key))
      && (forall n :: |before.trace| <= n < |after.trace| ==> !Announces(after.trace[n], key))
      && (CreatedSince(before.trace, after.trace, key) <==> HandleBrought(inputs, more, key))
  {
    hide Inv, Announces, Creates, CreatedSince, HandleBrought, Run;
    StaysListed(inputs, more, key);
    ReannouncedExactly(inputs, more, key);
    RunHolds(inputs + more);
    var (before, after) := (Run(inputs), Run(inputs + more));
    if key.1 % 4 != 3 {
      forall n | |before.trace| <= n < |after.trace| ensures !Creates(after.trace[n], key) {
        assert MarksOk(after) by { InvMarks(after); }
        AnnouncesIsCreates(after, key, n);
      }
    }
  }

  lemma {:induction false} InvMarks(st: State)
    requires Inv(st)
    ensures MarksOk(st)
  {
  }

  lemma {:induction false} StaysListed(inputs: seq<Input>, more: seq<Input>, key: Key)
    requires key in Run(inputs).unreliable && Input.CloseStream(key.0, key.1) !in more
    ensures var (before, after) := (Run(inputs), Run(inputs + more));
      && key in after.unreliable && before.trace <= after.trace
      && (forall n :: |before.trace| <= n < |after.trace| ==> !Announces(after.trace[n], key))
  {
    hide Step, Announces, Creates, BringsHandle, Inv;
    if more == [] {
      assert inputs + more == inputs;
    } else {
      var init, last := more[..|more| - 1], more[|more| - 1];
      assert (inputs + more)[..|inputs + more| - 1] == inputs + init;
      StaysListed(inputs, init, key);
      assert last in more;
      RunHolds(inputs + init);
      StepKeepsListed(Run(inputs + init), last, key);
    }
  }

  lemma {:induction false} ReannouncedExactly(inputs: seq<Input>, more: seq<Input>, key: Key)
    requires key in Run(inputs).unreliable && Input.CloseStream(key.0, key.1) !in more
    ensures var (before, after) := (Run(inputs), Run(inputs + more));
      CreatedSince(before.trace, after.trace, key) <==> HandleBrought(inputs, more, key)
  {
    hide Step, Announces, BringsHandle, Inv;
    if more == [] {
      assert inputs + more == inputs;
    } else {
      hide CreatedSince, HandleBrought;
      var init, last := more[..|more| - 1], more[|more| - 1];
      assert (inputs + more)[..|inputs + more| - 1] == inputs + init;
      ReannouncedExactly(inputs, init, key);
      StaysListed(inputs, init, key);
      assert last in more;
      var mid := Run(inputs + init);
      RunHolds(inputs + init);
      StepKeepsListed(mid, last, key);
      NewEvents(Run(inputs).trace, mid.trace, Run(inputs + more).trace, key);
      BringsSnoc(inputs, more, key);
    }
  }

  lemma {:induction false} NewEvents(a: seq<Posted>, b: seq<Posted>, c: seq<Posted>, key: Key)
    requires a <= b <= c
    ensures CreatedSince(a, c, key) <==> CreatedSince(a, b, key) || CreatedSince(b, c, key)
  {
    hide Creates;
    if n :| |a| <= n < |b| && Creates(b[n], key) {
      assert Creates(c[n], key);
    }
    if n :| |a| <= n < |c| && Creates(c[n], key) {
      if n < |b| {
        assert Creates(b[n], key);
      }
    }
  }

  lemma {:induction false} BringsSnoc(inputs: seq<Input>, more: seq<Input>, key: Key)
    requires more != []
    ensures var init := more[..|more| - 1];
      HandleBrought(inputs, more, key) <==>
      HandleBrought(inputs, init, key) || BringsHandle(Run(inputs + init), more[|more| - 1], key)
  {
    hide BringsHandle, Run;
    var init := more[..|more| - 1];
    if k :| 0 <= k < |init| && BringsHandle(Run(inputs + init[..k]), init[k], key) {
      assert init[..k] == more[..k];
      assert BringsHandle(Run(inputs + more[..k]), more[k], key);
    }
    if k :| 0 <= k < |more| && BringsHandle(Run(inputs + more[..k]), more[k], key) {
      if k < |init| {
        assert init[..k] == more[..k];
        assert BringsHandle(Run(inputs + init[..k]), init[k], key);
      }
    }
  }

  lemma {:induction false} StepKeepsListed(st: State, i: Input, key: Key)
    requires Inv(st) && key in st.unreliable && i != Input.CloseStream(key.0, key.1)
    ensures var after := Step(st, i);
      && key in after.unreliable && st.trace <= after.trace
      && (forall n :: |st.trace| <= n < |after.trace| ==> !Announces(after.trace[n], key))
      && (CreatedSince(st.trace, after.trace, key) <==> BringsHandle(st, i, key))
      && (BringsHandle(st, i, key) ==> key.1 % 4 == 3)
  {
    hide Inv, Step, BringsHandle, Announces, RegisterStream, Close;
    if i.StreamRegistered? {
      RegisterKeepsListed(st, key);
    } else if i.CloseStream? {
      CloseKeepsListed(st, i.u, i.s, key);
    } else {
      OthersKeepListed(st, i, key);
    }
  }

  lemma {:induction false} RegisterKeepsListed(st: State, key: Key)
    requires Inv(st) && key in st.unreliable
    ensures var after := Step(st, StreamRegistered);
      && key in after.unreliable && st.trace <= after.trace
      && (forall n :: |st.trace| <= n < |after.trace| ==> !Announces(after.trace[n], key))
      && (CreatedSince(st.trace, after.trace, key) <==> BringsHandle(st, StreamRegistered, key))
      && (BringsHandle(st, StreamRegistered, key) ==> key.1 % 4 == 3)
  {
    hide ListOk, MarksOk, WiresOk;
    var after := Step(st, StreamRegistered);
    if BringsHandle(st, StreamRegistered, key) {
      assert st.queue[0].handle.Some? && key.1 % 4 == 3;
      assert Creates(after.trace[|st.trace|], key);
    }
  }

  lemma {:induction false} CloseKeepsListed(st: State, u: Uuid, s: StreamId, key: Key)
    requires key in st.unreliable && (u, s) != key
    ensures var after := Step(st, Input.CloseStream(u, s));
      && key in after.unreliable && st.trace <= after.trace
      && (forall n :: |st.trace| <= n < |after.trace| ==> !Announces(after.trace[n], key) && !Creates(after.trace[n], key))
      && !BringsHandle(st, Input.CloseStream(u, s), key)
  {
    hide Remove;
    RemoveMembers(st.unreliable, (u, s));
  }

  lemma {:induction false} OthersKeepListed(st: State, i: Input, key: Key)
    requires key in st.unreliable && !i.StreamRegistered? && !i.CloseStream?
    ensures var after := Step(st, i);
      && key in after.unreliable && st.trace <= after.trace
      && (forall n :: |st.trace| <= n < |after.trace| ==> !Announces(after.trace[n], key) && !Creates(after.trace[n], key))
      && !BringsHandle(st, i, key)
  {
    hide Write, StreamNumber, NewStream, IsReliable;
  }

  lemma {:induction false} RunSnoc(inputs: seq<Input>, i: Input)
    ensures Run(inputs + [i]) == Step(Run(inputs), i)
  {
    assert (inputs + [i])[..|inputs|] == inputs;
  }

  // For class Reliable the promise fails. A datagram under an id of that class lists the id
  // without a send half; when the peer then opens the stream, the game sees StreamCreated for
  // the same id a second time, with no StreamClosed in between.
  lemma {:induction false} ReliableAnnouncedTwice(u: Uuid)
    ensures var before := [Input.Connected(u), DatagramRead(u, [0, 7]), StreamRegistered];
      var more := [StreamAccepted(u, 1), StreamRegistered];
      && (u, 7) in Run(before).unreliable && Input.CloseStream(u, 7) !in more
      && |Run(before).trace| == 3 && Creates(Run(before).trace[2], (u, 7))
      && |Run(before + more).trace| == 4 && Creates(Run(before + more).trace[3], (u, 7))
  {
    var listing := [Input.Connected(u), DatagramRead(u, [0, 7]), StreamRegistered];
    var opening := [StreamAccepted(u, 1), StreamRegistered];
    RunPair([Input.Connected(u)], DatagramRead(u, [0, 7]), StreamRegistered);
    RunPair(listing, StreamAccepted(u, 1), StreamRegistered);
    assert [Input.Connected(u)] + [DatagramRead(u, [0, 7]), StreamRegistered] == listing;
    assert [StreamAccepted(u, 1), StreamRegistered] == opening;
    hide Run;
    ListedByDatagram(u);
    AnnouncedByOpening(Run(listing), u);
  }

  lemma {:induction false} RunPair(inputs: seq<Input>, i: Input, j: Input)
    ensures Run(inputs + [i, j]) == Step(Step(Run(inputs), i), j)
  {
    hide Step;
    assert inputs + [i, j] == (inputs + [i]) + [j];
    RunSnoc(inputs, i);
    RunSnoc(inputs + [i], j);
  }

  lemma {:induction false} ListedByDatagram(u: Uuid)
    ensures var st := Step(Step(Run([Input.Connected(u)]), DatagramRead(u, [0, 7])), StreamRegistered);
      && (u, 7) in st.unreliable && u in st.readers && st.queue == []
      && |st.trace| == 3 && Creates(st.trace[2], (u, 7))
  {
    assert [0, 7][..2] == [0, 7] && GetBe([0]) == 0 && GetBe([0, 7]) == 7;
    assert Run([]) == INITIAL && [Input.Connected(u)][..0] == [];
    hide GetBe, PutBe;
  }

  lemma {:induction false} AnnouncedByOpening(st: State, u: Uuid)
    requires u in st.readers && st.queue == []
    ensures Step(Step(st, StreamAccepted(u, 1)), StreamRegistered).trace
         == st.trace + [Posted(StreamCreated(u, 7), true)]
  {
    assert NewStream(1, Reliable) == 7;
    hide NewStream;
  }

  // ------------------------------------------------------------------
  // Which sends reach the library
  // ------------------------------------------------------------------

  // A Send is handed to the library exactly when its connection is known and its id is either
  // of class Unreliable or has a registered send half; otherwise it changes nothing at all.
  // Handed over and accepted, it adds exactly one frame to its wire or one datagram.
  lemma {:induction false} SendTakesEffect(inputs: seq<Input>, u: Uuid, s: StreamId, data: seq<byte>, ok: bool, partial: nat)
    ensures var st := Run(inputs);
      var after := Step(st, Input.Send(u, s, data, ok, partial));
      && (after != st <==> u in st.connections && (!IsReliable(s) || (u, s) in st.reliable))
      && (ok && u in st.connections && !IsReliable(s) ==>
            after == st.(datagrams := st.datagrams + [(u, PutBe(2, s) + data)]))
      && (ok && u in st.connections && IsReliable(s) && (u, s) in st.reliable ==>
            var h := st.reliable[(u, s)];
            h < |st.wires| && (!st.wires[h].broken ==>
              var w := st.wires[h];
              after == st.(wires := st.wires[h := w.(body := w.body + Frame(data), sent := w.sent + [data])])))
  {
    RunHolds(inputs);
    hide ListOk, MarksOk, WiresOk, HandlesOk, IsReliable, PutBe, Run, SendReliable, SendDatagram;
    var st := Run(inputs);
    DatagramChanges(st, u, s, data, ok);
    if (u, s) in st.reliable {
      WireChanges(st, u, s, data, ok, partial);
    } else {
      NoHandle(st, u, s, data, ok, partial);
    }
  }

  lemma {:induction false} NoHandle(st: State, u: Uuid, s: StreamId, data: seq<byte>, ok: bool, partial: nat)
    requires (u, s) !in st.reliable
    ensures SendReliable(st, u, s, data, ok, partial) == st
  {
  }

  lemma {:induction false} DatagramChanges(st: State, u: Uuid, s: StreamId, data: seq<byte>, ok: bool)
    ensures var after := SendDatagram(st, u, s, data, ok);
      after != st && (ok ==> after == st.(datagrams := st.datagrams + [(u, PutBe(2, s) + data)]))
  {
    hide PutBe;
    var after := SendDatagram(st, u, s, data, ok);
    assert |after.datagrams| > |st.datagrams| || |after.trace| > |st.trace|;
  }

  lemma {:induction false} WireChanges(st: State, u: Uuid, s: StreamId, data: seq<byte>, ok: bool, partial: nat)
    requires HandlesOk(st) && (u, s) in st.reliable
    ensures SendReliable(st, u, s, data, ok, partial) != st
    ensures var h := st.reliable[(u, s)];
      h < |st.wires| && (ok && !st.wires[h].broken ==>
        var w := st.wires[h];
        SendReliable(st, u, s, data, ok, partial)
        == st.(wires := st.wires[h := w.(body := w.body + Frame(data), sent := w.sent + [data])]))
  {
    hide Frame;
    var h := st.reliable[(u, s)];
    var after := SendReliable(st, u, s, data, ok, partial);
    if WriteSucceeds(st.wires[h], ok) {
      assert |after.wires[h].sent| == |st.wires[h].sent| + 1;
    } else {
      assert |after.trace| == |st.trace| + 1;
    }
  }

  // A stream created as Ordered never gets a send half, so nothing sent on it ever leaves.
  lemma {:induction false} OrderedIsNeverSent(inputs: seq<Input>, u: Uuid, number: StreamId, data: seq<byte>, ok: bool, partial: nat)
    ensures var st := Run(inputs);
      Step(st, Input.Send(u, NewStream(number, Ordered), data, ok, partial)) == st
  {
    hide ListOk, WiresOk, MarksOk, Step;
    RunHolds(inputs);
    StreamIdentity(number, Ordered);
    SendTakesEffect(inputs, u, NewStream(number, Ordered), data, ok, partial);
  }

  // A datagram that was sent on an unreliable stream is posted with that stream and its data.
  lemma {:induction false} DatagramDelivers(st: State, u: Uuid, number: StreamId, data: seq<byte>,
                                            receiver: State, v: Uuid)
    requires u in st.connections && v in receiver.readers
    ensures var s := NewStream(number, Unreliable);
      var after := Step(st, Input.Send(u, s, data, true, 0));
      && |after.datagrams| == |st.datagrams| + 1
      && var posted := Step(receiver, DatagramRead(v, after.datagrams[|st.datagrams|].1)).trace;
         posted == receiver.trace + [Posted(Message(v, s, data), false)]
  {
    hide PutBe, GetBe, NewStream, IsReliable;
    var s := NewStream(number, Unreliable);
    StreamIdentity(number, Unreliable);
    Widths();
    GetPut(2, s);
    assert (PutBe(2, s) + data)[..2] == PutBe(2, s) && (PutBe(2, s) + data)[2..] == data;
  }

  // Whatever part of a stream this side opened has arrived, in whatever chunks, the other
  // side's reader registers the stream under the opener's id and posts a prefix of the
  // messages sent, if each was shorter than 2^32 bytes.
  lemma {:induction false} StreamDeliversPrefix(inputs: seq<Input>, h: nat, number: StreamId, chunks: seq<seq<byte>>)
    requires h < |Run(inputs).wires|
    requires var w := Run(inputs).wires[h];
      && w.header == PutBe(2, number)
      && Flatten(chunks) <= w.header + w.body
      && forall m :: m in w.sent ==> |m| < U32
    requires |Flatten(chunks)| >= 2
    ensures StreamNumber(Flatten(chunks)) == number
    ensures Decode(Flatten(chunks)[2..]) <= Run(inputs).wires[h].sent
  {
    hide ListOk, HandlesOk, Decode, Frames, GetBe, PutBe, Step, Flatten;
    RunHolds(inputs);
    var w := Run(inputs).wires[h];
    var bytes := Flatten(chunks);
    assert WireOk(w);
    Widths();
    GetPut(2, number);
    assert (w.header + w.body)[..2] == w.header && bytes[..2] == w.header;
    assert bytes[2..] <= w.body by { assert bytes[2..] == (w.header + w.body)[2..][..|bytes| - 2]; }
    FramesReadBack(w.sent);
    TruncationYieldsPrefix(Frames(w.sent), |bytes| - 2);
    assert bytes[2..] == Frames(w.sent)[..|bytes| - 2];
  }
}
