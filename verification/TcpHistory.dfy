// What an end of a TCP connection holds, told from the steps that were taken.
module TcpHistory {
  import opened Bytes
  import opened Options
  import opened Sockets
  import opened Traces
  import opened EventLists
  import opened TcpBackend
  import opened TcpSystem

  // The steps of a run that were enabled.
  function Taken(labels: seq<Label>): seq<Label> {
    if labels == [] then [] else
    var init, l := labels[..|labels| - 1], labels[|labels| - 1];
    if Enabled(Run(init), l) then Taken(init) + [l] else Taken(init)
  }

  predicate Opens(l: Label, u: Uuid) {
    l == Connect(u) || (l.Accept? && l.v == u)
  }

  ghost predicate Opened(ts: seq<Label>, u: Uuid) {
    exists k :: 0 <= k < |ts| && Opens(ts[k], u)
  }

  // The ends reported to their main loops, in order, and how many of them were taken over.
  function Reports(ts: seq<Label>): seq<Uuid> {
    if ts == [] then [] else
    var before, l := Reports(ts[..|ts| - 1]), ts[|ts| - 1];
    if l.Report? then before + [l.v] else before
  }

  function Registers(ts: seq<Label>): nat {
    if ts == [] then 0 else Registers(ts[..|ts| - 1]) + if ts[|ts| - 1].Register? then 1 else 0
  }

  // An end that was connected is registered at once; one that was accepted when its report is
  // taken over, and reports are taken over in order.
  ghost predicate Registered(ts: seq<Label>, u: Uuid) {
    Connect(u) in ts || exists k :: 0 <= k < |Reports(ts)| && k < Registers(ts) && Reports(ts)[k] == u
  }

  // What the main loop put in u's channel: what was sent while u was registered and its task
  // had not ended.
  ghost function Queued(ts: seq<Label>, u: Uuid): seq<(StreamId, seq<byte>)> {
    if ts == [] then [] else
    var init, l := ts[..|ts| - 1], ts[|ts| - 1];
    if l.Send? && l.u == u && Registered(init, u) && Finish(u) !in init then Queued(init, u) + [(l.s, l.data)]
    else Queued(init, u)
  }

  // How many packets of u's channel were taken out.
  function Writes(ts: seq<Label>, u: Uuid): nat {
    if ts == [] then 0 else
    Writes(ts[..|ts| - 1], u) + if ts[|ts| - 1].Write? && ts[|ts| - 1].u == u then 1 else 0
  }

  // How many frames u took from its socket.
  function Reads(ts: seq<Label>, u: Uuid): nat {
    if ts == [] then 0 else
    Reads(ts[..|ts| - 1], u) + if ts[|ts| - 1] == Read(u) then 1 else 0
  }

  // The length-delimited codec takes frames of up to 8 MiB, the stream id included.
  ghost predicate NextFits(ts: seq<Label>, u: Uuid) {
    Writes(ts, u) < |Queued(ts, u)| && 2 + |Queued(ts, u)[Writes(ts, u)].1| <= 8_388_608
  }

  // Whether a write of a packet within the limit has failed.
  ghost predicate Failed(ts: seq<Label>, u: Uuid) {
    if ts == [] then false else
    var init, l := ts[..|ts| - 1], ts[|ts| - 1];
    Failed(init, u) || (l.Write? && l.u == u && !l.ok && NextFits(init, u))
  }

  // The frames written: the packets within the limit that were taken out before that, each the
  // stream id with its high byte first, then the data.
  ghost function Frames(ts: seq<Label>, u: Uuid): seq<seq<byte>> {
    if ts == [] then [] else
    var init, l := ts[..|ts| - 1], ts[|ts| - 1];
    if l.Write? && l.u == u && l.ok && NextFits(init, u) && !Failed(init, u) then
      var (s, data) := Queued(init, u)[Writes(init, u)];
      Frames(init, u) + [[s / 256, s % 256] + data]
    else Frames(init, u)
  }

  // ------------------------------------------------------------------
  // The state agrees
  // ------------------------------------------------------------------

  ghost predicate ReportsAgree(st: State, ts: seq<Label>) {
    Registers(ts) <= |Reports(ts)| && st.registrations == Reports(ts)[Registers(ts)..]
  }

  ghost predicate EndAgrees(e: End, ts: seq<Label>, u: Uuid) {
    && (e.running <==> Finish(u) !in ts)
    && (e.registered <==> Registered(ts, u))
    && e.passed == Queued(ts, u)
    && |e.queue| == |Queued(ts, u)| - Writes(ts, u)
    && e.read == Reads(ts, u)
    && (e.cut <==> Failed(ts, u))
    && e.wire == Frames(ts, u)
  }

  // Nothing has been done with a UUID that was not drawn.
  ghost predicate Untouched(ts: seq<Label>, u: Uuid) {
    && Finish(u) !in ts && !Registered(ts, u) && Queued(ts, u) == [] && u !in Reports(ts)
    && Writes(ts, u) == 0 && Reads(ts, u) == 0 && !Failed(ts, u) && Frames(ts, u) == []
  }

  ghost predicate Agrees(st: State, ts: seq<Label>, u: Uuid) {
    && (u in st.ends <==> Opened(ts, u))
    && if u in st.ends then EndAgrees(st.ends[u], ts, u) else Untouched(ts, u)
  }

  lemma {:induction false} TakenSnoc(ts: seq<Label>, l: Label, u: Uuid)
    ensures Opened(ts + [l], u) <==> Opened(ts, u) || Opens(l, u)
    ensures Reports(ts + [l]) == if l.Report? then Reports(ts) + [l.v] else Reports(ts)
    ensures Registers(ts + [l]) == Registers(ts) + if l.Register? then 1 else 0
    ensures Writes(ts + [l], u) == Writes(ts, u) + if l.Write? && l.u == u then 1 else 0
    ensures Reads(ts + [l], u) == Reads(ts, u) + if l == Read(u) then 1 else 0
    ensures Finish(u) in ts + [l] <==> Finish(u) in ts || l == Finish(u)
    ensures Connect(u) in ts + [l] <==> Connect(u) in ts || l == Connect(u)
  {
    var all := ts + [l];
    assert all[..|ts|] == ts && all[|ts|] == l;
    if Opened(ts, u) {
      var k :| 0 <= k < |ts| && Opens(ts[k], u);
      assert Opens(all[k], u);
    }
  }

  lemma {:induction false} QueuedSnoc(ts: seq<Label>, l: Label, u: Uuid)
    ensures Queued(ts + [l], u)
         == if l.Send? && l.u == u && Registered(ts, u) && Finish(u) !in ts then Queued(ts, u) + [(l.s, l.data)]
            else Queued(ts, u)
    ensures Failed(ts + [l], u) <==> Failed(ts, u) || (l.Write? && l.u == u && !l.ok && NextFits(ts, u))
    ensures Frames(ts + [l], u)
         == if l.Write? && l.u == u && l.ok && NextFits(ts, u) && !Failed(ts, u) then
              var (s, data) := Queued(ts, u)[Writes(ts, u)];
              Frames(ts, u) + [[s / 256, s % 256] + data]
            else Frames(ts, u)
  {
    hide Registered, NextFits, Writes;
    assert (ts + [l])[..|ts|] == ts;
  }

  lemma {:induction false} RegisteredSnoc(ts: seq<Label>, l: Label, u: Uuid)
    ensures Registered(ts + [l], u)
       <==> Registered(ts, u) || l == Connect(u)
            || (l.Register? && Registers(ts) < |Reports(ts)| && Reports(ts)[Registers(ts)] == u)
            || (l.Report? && |Reports(ts)| < Registers(ts) && l.v == u)
  {
    hide Reports, Registers;
    TakenSnoc(ts, l, u);
    if Registered(ts, u) && Connect(u) !in ts {
      var k :| 0 <= k < |Reports(ts)| && k < Registers(ts) && Reports(ts)[k] == u;
      assert Reports(ts + [l])[k] == u;
    }
    if l.Register? && Registers(ts) < |Reports(ts)| && Reports(ts)[Registers(ts)] == u {
      assert Reports(ts + [l])[Registers(ts)] == u;
    }
    if l.Report? && |Reports(ts)| < Registers(ts) && l.v == u {
      assert Reports(ts + [l])[|Reports(ts)|] == u;
    }
  }

  lemma {:induction false} StepKeepsReports(st: State, ts: seq<Label>, l: Label)
    requires ReportsAgree(st, ts) && Enabled(st, l)
    ensures ReportsAgree(Next(st, l), ts + [l])
  {
    hide Reports, Registers, SendStep, WriteStep, ReadStep, NewStream;
    TakenSnoc(ts, l, if l.Report? then l.v else NOBODY);
  }

  const NOBODY: Uuid := PutBe(16, 0)

  lemma {:induction false} StepAgrees(st: State, ts: seq<Label>, l: Label, u: Uuid)
    requires ReportsAgree(st, ts) && Agrees(st, ts, u) && Enabled(st, l)
    requires u in st.ends ==> EndOk(st.ends[u])
    ensures Agrees(Next(st, l), ts + [l], u)
  {
    hide Reports, Registers, Registered, Queued, Failed, Frames, Writes, Reads, Opened, EndOk, Packet, NextFits, OnFrame, NewStream, WriteStep;
    TakenSnoc(ts, l, u);
    QueuedSnoc(ts, l, u);
    RegisteredSnoc(ts, l, u);
    if l.Write? && l.u == u {
      WriteAgrees(st.ends[u], ts, l);
    }
  }

  lemma {:induction false} WriteAgrees(e: End, ts: seq<Label>, l: Label)
    requires l.Write? && EndAgrees(e, ts, l.u) && EndOk(e) && e.queue != []
    ensures EndAgrees(WriteStep(e, l.ok), ts + [l], l.u)
  {
    hide Reports, Registers, Registered, Queued, Failed, Frames, Writes, Reads, EndOk, NextFits;
    TakenSnoc(ts, l, l.u);
    QueuedSnoc(ts, l, l.u);
    RegisteredSnoc(ts, l, l.u);
    NextPacket(e, ts, l.u);
  }

  // The packet at the head of the channel.
  lemma {:induction false} NextPacket(e: End, ts: seq<Label>, u: Uuid)
    requires EndAgrees(e, ts, u) && EndOk(e) && e.queue != []
    ensures Writes(ts, u) < |Queued(ts, u)|
    ensures var (s, data) := Queued(ts, u)[Writes(ts, u)];
      e.queue[0] == [s / 256, s % 256] + data
    ensures NextFits(ts, u) <==> |e.queue[0]| <= MAX_FRAME
  {
    hide Queued, Registered, Failed, Frames, Writes, Reads, Packets, PutBe, Fitting;
    var n := |e.passed| - |e.queue|;
    assert e.queue[0] == Packets(e.passed)[n];
    PacketsIndex(e.passed, n);
    HighByteFirst(e.passed[n].0);
  }

  lemma {:induction false} NothingYet(u: Uuid)
    ensures Agrees(INITIAL, [], u) && ReportsAgree(INITIAL, [])
  {
  }

  lemma {:induction false} RunAgrees(labels: seq<Label>, u: Uuid)
    ensures Agrees(Run(labels), Taken(labels), u) && ReportsAgree(Run(labels), Taken(labels))
  {
    if labels == [] {
      NothingYet(u);
    } else {
      var init, l := labels[..|labels| - 1], labels[|labels| - 1];
      RunAgrees(init, u);
      RunHolds(init);
      if Enabled(Run(init), l) {
        hide Enabled, Next, Agrees, ReportsAgree, PhasesOk, LinksOk, EndOk;
        StepAgrees(Run(init), Taken(init), l, u);
        StepKeepsReports(Run(init), Taken(init), l);
      }
    }
  }

  // After any run, every end that was opened holds what its history says: it is running until
  // it has finished and registered as above; its channel holds the packets queued and not yet
  // taken out, in order, and its wire the frames written.
  lemma {:induction false} EndOfRun(labels: seq<Label>, u: Uuid)
    ensures var st, ts := Run(labels), Taken(labels);
      && (u in st.ends <==> Opened(ts, u))
      && (u in st.ends ==>
            var e := st.ends[u];
            && (e.running <==> Finish(u) !in ts)
            && (e.registered <==> Registered(ts, u))
            && Writes(ts, u) + |e.queue| == |Queued(ts, u)|
            && (forall k :: 0 <= k < |e.queue| ==>
                  var (s, data) := Queued(ts, u)[Writes(ts, u) + k]; e.queue[k] == [s / 256, s % 256] + data)
            && e.wire == Frames(ts, u)
            && e.read == Reads(ts, u))
  {
    hide Run, Opened, Registered, Queued, Failed, Frames, Writes, Reads, Packets, PutBe, Fitting, PhasesOk, LinksOk;
    RunAgrees(labels, u);
    RunHolds(labels);
    var st, ts := Run(labels), Taken(labels);
    if u in st.ends {
      var e := st.ends[u];
      assert EndOk(e);
      forall k | 0 <= k < |e.queue|
        ensures var (s, data) := Queued(ts, u)[Writes(ts, u) + k]; e.queue[k] == [s / 256, s % 256] + data
      {
        PacketsIndex(e.passed, Writes(ts, u) + k);
        HighByteFirst(e.passed[Writes(ts, u) + k].0);
      }
    }
  }

  // ------------------------------------------------------------------
  // What is posted
  // ------------------------------------------------------------------

  function EventsOfCommands(ts: seq<Label>): seq<Event> {
    if ts == [] then [] else
    var before, l := EventsOfCommands(ts[..|ts| - 1]), ts[|ts| - 1];
    match l
    case CreateStream(u, n, r) => before + [StreamCreated(u, NewStream(n, r))]
    case CloseStream(u, s) => before + [StreamClosed(u, s)]
    case _ => before
  }

  lemma {:induction false} StepEvents(st: State, l: Label)
    requires Enabled(st, l)
    ensures CommandEventsIn(Next(st, l).trace)
         == CommandEventsIn(st.trace) + EventsOfCommands([l])
  {
    hide CommandEventsIn, NewStream, PacketStream, Packet, WriteStep, SendStep;
    assert [l][..0] == [] && EventsOfCommands([]) == [];
    if l.Read? {
      ReadPostsNoEvent(st, l.u);
    } else if Next(st, l).trace != st.trace {
      ListsSnoc(st.trace, Next(st, l).trace[|st.trace|]);
    }
  }

  lemma {:induction false} ReadPostsNoEvent(st: State, u: Uuid)
    requires Enabled(st, Read(u))
    ensures CommandEventsIn(Next(st, Read(u)).trace) == CommandEventsIn(st.trace)
  {
    hide CommandEventsIn, PacketStream, Delivery;
    var e := st.ends[u];
    var frame := st.ends[e.peer.value].wire[e.read];
    var entries := OnFrame(e.known, u, frame).1;
    ListsConcat(st.trace, entries);
    if |frame| < 2 {
      ListsNone();
    } else {
      ListsOfDelivery(e.known, u, PacketStream(frame), frame[2..]);
    }
  }

  lemma {:induction false} EventsSnoc(ts: seq<Label>, l: Label)
    ensures EventsOfCommands(ts + [l]) == EventsOfCommands(ts) + EventsOfCommands([l])
  {
    hide NewStream;
    assert (ts + [l])[..|ts|] == ts && [l][..0] == [] && EventsOfCommands([]) == [];
  }

  lemma {:induction false} CommandEventsPosted(labels: seq<Label>)
    ensures CommandEventsIn(Run(labels).trace) == EventsOfCommands(Taken(labels))
  {
    if labels != [] {
      var init, l := labels[..|labels| - 1], labels[|labels| - 1];
      CommandEventsPosted(init);
      if Enabled(Run(init), l) {
        hide Enabled, Next, CommandEventsIn, EventsOfCommands;
        StepEvents(Run(init), l);
        EventsSnoc(Taken(init), l);
      }
    }
  }

  // The packets of these sends that are within the limit.
  function Within(sends: seq<(StreamId, seq<byte>)>): seq<(StreamId, seq<byte>)> {
    if sends == [] then [] else
    var before := Within(sends[..|sends| - 1]);
    var (s, data) := sends[|sends| - 1];
    if 2 + |data| <= 8_388_608 then before + [(s, data)] else before
  }

  lemma {:induction false} WithinIsFitting(sends: seq<(StreamId, seq<byte>)>)
    ensures Within(sends) == Fitting(sends)
  {
    hide Packet;
    if sends != [] {
      WithinIsFitting(sends[..|sends| - 1]);
    }
  }

  // The messages of u are the first packets within the limit that its partner queued, as many
  // as u took from its socket, each with its stream and data; the partner is the end that
  // accepted u's connection or the one whose connection u accepted. The stream commands post
  // their events, in order.
  lemma {:induction false} EveryFrameIsPosted(labels: seq<Label>, u: Uuid)
    requires u in Run(labels).ends
    ensures var st, ts := Run(labels), Taken(labels);
      && CommandEventsIn(st.trace) == EventsOfCommands(ts)
      && match st.ends[u].peer
         case None => Reads(ts, u) == 0 && Received(st.trace, u) == []
         case Some(v) =>
           && (Accept(v, u) in ts || Accept(u, v) in ts)
           && Reads(ts, u) <= |Within(Queued(ts, v))|
           && Received(st.trace, u) == Within(Queued(ts, v))[..Reads(ts, u)]
  {
    hide Run, Taken, Opened, Registered, Queued, Failed, Frames, Writes, Reads, Packets, Fitting, Within, PhasesOk, EndsOk, ReportsAgree;
    hide CommandEventsIn, EventsOfCommands, Received;
    CommandEventsPosted(labels);
    RunHolds(labels);
    RunAgrees(labels, u);
    var st := Run(labels);
    assert LinkOk(st, u);
    if st.ends[u].peer.Some? {
      var v := st.ends[u].peer.value;
      RunAgrees(labels, v);
      WithinIsFitting(Queued(Taken(labels), v));
      PeersAccepted(labels, u);
    }
  }

  lemma {:induction false} PeersAccepted(labels: seq<Label>, u: Uuid)
    requires u in Run(labels).ends && Run(labels).ends[u].peer.Some?
    ensures var v := Run(labels).ends[u].peer.value; Accept(v, u) in Taken(labels) || Accept(u, v) in Taken(labels)
  {
    if labels != [] {
      var init, l := labels[..|labels| - 1], labels[|labels| - 1];
      if u in Run(init).ends && Run(init).ends[u].peer.Some? {
        PeersAccepted(init, u);
      }
      if Enabled(Run(init), l) {
        hide Enabled, Run, Taken;
        StepPeer(Run(init), l, u);
      }
    }
  }

  lemma {:induction false} StepPeer(st: State, l: Label, u: Uuid)
    requires Enabled(st, l) && u in Next(st, l).ends && Next(st, l).ends[u].peer.Some?
    ensures var v := Next(st, l).ends[u].peer.value;
      || l == Accept(v, u) || l == Accept(u, v)
      || (u in st.ends && st.ends[u].peer == Some(v))
  {
    hide OnFrame, Packet, NewStream;
  }
}
