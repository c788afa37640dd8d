// The server's client list over the runs of each backend whose events follow the connection
// protocol.
module ServerClients {
  import opened Sockets
  import opened Traces
  import opened EchoServer
  import Udp = UdpBackend
  import Gns = GnsBackend
  import Tcp = TcpSystem
  import UdpHistory

  lemma {:induction false} CommandEntriesConcat(a: seq<Entry>, b: seq<Entry>)
    requires CommandEntries(a) && CommandEntries(b)
    ensures CommandEntries(a + b)
  {
  }

  // ------------------------------------------------------------------
  // UDP
  // ------------------------------------------------------------------

  lemma {:induction false} UdpCommandEntries(inputs: seq<Udp.Input>)
    ensures CommandEntries(Udp.Run(inputs).trace)
  {
    if inputs != [] {
      var init, i := inputs[..|inputs| - 1], inputs[|inputs| - 1];
      UdpCommandEntries(init);
      hide Udp.Run, Udp.HeaderUuid, Udp.HeaderStream;
      var entries := Udp.Step(Udp.Run(init).state, i).1.entries;
      assert CommandEntries(entries);
      CommandEntriesConcat(Udp.Run(init).trace, entries);
      UdpHistory.LastEntries(inputs);
    }
  }

  // A server that has polled everything lists exactly the backend's connections, each once.
  lemma {:induction false} UdpClients(inputs: seq<Udp.Input>)
    requires Udp.FreshUuids(inputs)
    ensures var Log(st, trace) := Udp.Run(inputs);
      NoRepeats(ClientsOf(trace)) && forall u: Uuid :: u in ClientsOf(trace) <==> u in st.connections
  {
    hide Udp.Run, PhaseOf, FirstArrivals, ClientsOf, CommandEntries;
    var Log(st, trace) := Udp.Run(inputs);
    Udp.StateIsSummaryOfTrace(inputs);
    UdpCommandEntries(inputs);
    forall u: Uuid ensures PhaseOf(trace, u) != Violation && (PhaseOf(trace, u).Open? <==> u in st.connections) {
      assert Udp.SummaryOf(st, trace, u);
    }
    ClientsAreOpenConnections(trace);
  }

  // ------------------------------------------------------------------
  // GNS
  // ------------------------------------------------------------------

  lemma {:induction false} GnsCommandEntries(inputs: seq<Gns.Input>)
    ensures CommandEntries(Gns.Run(inputs).trace)
  {
    if inputs != [] {
      var init, i := inputs[..|inputs| - 1], inputs[|inputs| - 1];
      GnsCommandEntries(init);
      hide Gns.Run, Gns.PayloadStream;
      var entries := Gns.Step(Gns.Run(init).state, i).1;
      assert CommandEntries(entries);
      CommandEntriesConcat(Gns.Run(init).trace, entries);
      RunOfGns(inputs);
    }
  }

  lemma {:induction false} RunOfGns(inputs: seq<Gns.Input>)
    requires inputs != []
    ensures var before := Gns.Run(inputs[..|inputs| - 1]);
      Gns.Run(inputs).trace == before.trace + Gns.Step(before.state, inputs[|inputs| - 1]).1
  {
    hide Gns.Step;
  }

  lemma {:induction false} GnsClients(inputs: seq<Gns.Input>)
    requires Gns.AllowedRun(inputs)
    ensures var Log(st, trace) := Gns.Run(inputs);
      NoRepeats(ClientsOf(trace)) && forall u: Uuid :: u in ClientsOf(trace) <==> u in st.uuidToHandle
  {
    hide Gns.Run, PhaseOf, ClientsOf, CommandEntries, Gns.AllowedRun;
    var Log(st, trace) := Gns.Run(inputs);
    Gns.TablesAgree(inputs);
    GnsCommandEntries(inputs);
    forall u: Uuid ensures PhaseOf(trace, u) != Violation && (PhaseOf(trace, u).Open? <==> u in st.uuidToHandle) {
      assert Gns.AgreesOn(st, trace, u);
    }
    ClientsAreOpenConnections(trace);
  }

  // ------------------------------------------------------------------
  // TCP
  // ------------------------------------------------------------------

  // The events of one process, which owns some of the ends.
  function Of(trace: seq<Entry>, own: set<Uuid>): seq<Entry> {
    if trace == [] then [] else
    var before := Of(trace[..|trace| - 1], own);
    var e := trace[|trace| - 1];
    if !e.event.Error? && e.event.connection in own then before + [e] else before
  }

  lemma {:induction false} PhaseOfOwn(trace: seq<Entry>, own: set<Uuid>, u: Uuid)
    ensures PhaseOf(Of(trace, own), u) == if u in own then PhaseOf(trace, u) else Fresh
  {
    if trace != [] {
      var init, e := trace[..|trace| - 1], trace[|trace| - 1];
      PhaseOfOwn(init, own, u);
      hide PhaseOf;
      assert trace == init + [e];
      PhaseSnoc(init, e, u);
      PhaseSnoc(Of(init, own), e, u);
    }
  }

  lemma {:induction false} CommandEntriesOfOwn(trace: seq<Entry>, own: set<Uuid>)
    requires CommandEntries(trace)
    ensures CommandEntries(Of(trace, own))
  {
    if trace != [] {
      CommandEntriesOfOwn(trace[..|trace| - 1], own);
    }
  }

  lemma {:induction false} TcpCommandEntries(labels: seq<Tcp.Label>)
    ensures CommandEntries(Tcp.Run(labels).trace)
  {
    if labels != [] {
      var before, l := Tcp.Run(labels[..|labels| - 1]), labels[|labels| - 1];
      TcpCommandEntries(labels[..|labels| - 1]);
      if Tcp.Enabled(before, l) {
        hide Tcp.Run, Tcp.Enabled;
        StepCommandEntries(before, l);
      }
    }
  }

  lemma {:induction false} StepCommandEntries(st: Tcp.State, l: Tcp.Label)
    requires CommandEntries(st.trace) && Tcp.Enabled(st, l)
    ensures CommandEntries(Tcp.Next(st, l).trace)
  {
    hide NewStream;
  }

  // Whichever ends a process owns: its server lists exactly those that are up, each once.
  lemma {:induction false} TcpClients(labels: seq<Tcp.Label>, own: set<Uuid>)
    ensures var st := Tcp.Run(labels);
      var clients := ClientsOf(Of(st.trace, own));
      NoRepeats(clients) && forall u: Uuid :: u in clients <==> u in own && u in st.ends && st.ends[u].running
  {
    hide Tcp.Run, PhaseOf, ClientsOf, CommandEntries, Of, Tcp.EndsOk, Tcp.LinksOk;
    var st := Tcp.Run(labels);
    Tcp.RunHolds(labels);
    TcpCommandEntries(labels);
    CommandEntriesOfOwn(st.trace, own);
    forall u: Uuid
      ensures var p := PhaseOf(Of(st.trace, own), u);
        p != Violation && (p.Open? <==> u in own && u in st.ends && st.ends[u].running)
    {
      PhaseOfOwn(st.trace, own, u);
      assert Tcp.PhaseOk(st, u);
    }
    ClientsAreOpenConnections(Of(st.trace, own));
  }
}
