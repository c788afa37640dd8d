# Game sockets: a model of the transports, the benchmark and its statistics

This project models a small networking library for games and the benchmark built on it, and
proves properties of the model. The library gives a game one interface over four transports
(UDP, TCP, QUIC and GameNetworkingSockets): the game sends commands to a backend and polls
events from it. The benchmark is a client that sends numbered, checksummed packets at 60 Hz
and 20 Hz, a server that echoes them, and a tool that turns the recorded round trips into
statistics per stream, per run and across runs.

`dafny verify dfyconfig.toml` checks the whole project (Dafny 4.11).

## Structure

| Modules | What they hold |
|---|---|
| Bytes, Options, Records | big-endian fields, optional values, one line of a results file |
| Crc32, Crc32Meaning, BenchmarkPacket | the CRC-32 of section 8 of RFC 1952, bit by bit, as polynomial division and in its usual word form; the packet codec |
| Sockets, Traces, EventLists | commands, events, stream ids, GamePeer; event traces, the connection protocol they follow, and what is posted in them |
| UdpBackend, GnsBackend, TcpBackend, QuicBackend | each backend as a class proved against a step function, and its runs |
| QuicStreams | the length-prefixed stream codec of the QUIC backend |
| UdpHistory, GnsHistory, QuicTables, TcpHistory | the tables, output and events of each backend, told from its inputs alone |
| TcpSystem | main loops, listeners and peer tasks of all TCP processes, in any interleaving |
| QuicHistory, QuicSystem | QUIC processes that open connections and streams to each other, in any interleaving |
| EchoServer, ServerClients, BenchmarkClient, ClientRuns, ClientHistory | the server and its client list, the client loop, all runs of that loop, and what they do told from events and clocks |
| UdpSystem, TcpBenchmark, EndToEnd | clients, network and server as one transition system, over UDP and over TCP, and what the report says of such runs |
| Sorting, Moments, Averages, Subsequences | sorting, sums and deviations, lists with elements left out |
| SingleRun, RunFigures, Grouping, FileReports, ReportOrder | the figures of one results file, their meaning, grouping by stream, order independence |
| Summaries, Aggregation, AggregateOrder, Analysis, RunFiles | summaries across runs, reports, the loops that compute them, and which file belongs to which protocol |

Code that updates state is a class or a method with loops, each proved to compute a
specification function of the old state or the input; the theorems are lemmas about those
functions. A backend's step takes the outcome of system calls, the drawn UUID and the clock
readings as inputs, so a statement about every input list is one about every outcome and
every interleaving.

## Assumptions

- UUIDs: `Connect` draws one that is not in use (UDP); none is drawn twice (GNS, and within
  the systems of processes over UDP, TCP and QUIC). `UdpBackend.FreshnessIsNeeded` shows that
  the UDP backend needs exactly this.
- GNS announces a new connection only for a handle that is not registered.
  `GnsBackend.AcceptNeedsFreeHandle` shows that this is what the accept branch needs.
- UDP: a datagram is delivered any number of times, at any later time, cut to the 2048-byte
  receive buffer; a sender's address is its own. TCP and QUIC streams deliver a first part of
  what was written, in order and in any chunks.
- f64 is exact real arithmetic; `sqrt` is any function with `sqrt(v) >= 0` and
  `sqrt(v) * sqrt(v) == v` for `v >= 0`. Where a lemma does not need this it does not ask it.
- `Instant::now()` never goes back (only for the pacing results).

## Where the code differs from its comments

- `is_reliable` is documented as checking the last bit of an id but tests both class bits, so
  an Ordered stream counts as reliable (`Sockets.StreamIdentity`). On QUIC it is then
  registered without a send half and nothing sent on it ever leaves
  (`QuicBackend.OrderedIsNeverSent`); `QuicBackend.SendTakesEffect` says exactly which sends do.
- The QUIC backend keeps a list so that a stream is announced once. For an id of class
  Reliable that has been heard of in a datagram it is announced again when the stream itself is
  opened (`QuicBackend.ReliableAnnouncedTwice`); `QuicBackend.EchoIsNotAnnounced` gives the exact
  condition, which no id of another class meets.
- Recording starts one whole second after the warm-up, because whole seconds are compared with
  `>` (`ClientRuns.RecordsAfterWarmup`).
- `summarize` is documented to use z = 1.96 from 30 runs on; the table does so from 31 on
  (`Summaries.NormalFrom31`).

## Model

| member | source | states |
|---|---|---|
| Crc32.Hasher.Update | src/bin/utils/benchmark_packet.rs:52-55 | the bytes join those fed so far, and the register stays the one the whole of them leads to |
| Crc32.Hasher.Finalize | src/bin/utils/benchmark_packet.rs:56 | the result is the CRC-32 value of everything fed, which the next four rows tie to the generator, bit order, preset and complement |
| Crc32Meaning.CrcIsRemainder | src/bin/utils/benchmark_packet.rs:51-58 | for every message, bit i of its checksum is the complement of coefficient 31 - i of a remainder: that of the message bits, least significant first in each byte, followed by 32 zeros, the first 32 complemented, divided over GF(2) by the polynomial with exponents 32, 26, 23, 22, 16, 12, 11, 10, 8, 7, 5, 4, 2, 1, 0 |
| Crc32Meaning.DivisionIdentity | src/bin/utils/benchmark_packet.rs:51-58 | that division is one: every dividend is quotient times generator plus remainder |
| Crc32Meaning.SameByte | src/bin/utils/benchmark_packet.rs:51-58 | the register moves with every byte as the 32-bit word of the usual right-shifting form with constant 0xEDB88320 |
| Crc32Meaning.CheckValue | src/bin/utils/benchmark_packet.rs:51-58 | the check value: the nine ASCII digits 1 to 9 have checksum 0xCBF43926 |
| Crc32.FeedConcat | src/bin/utils/benchmark_packet.rs:53-55 | feeding two byte strings one after the other is feeding their concatenation |
| Crc32.BurstDetected | src/bin/utils/benchmark_packet.rs:84-87 | two different messages of one length that agree outside four consecutive bytes have different checksums |
| Crc32.FiveByteChangeUndetected | src/bin/utils/benchmark_packet.rs:84-87 | four is the limit: in any message, at any position, a change within five bytes leaves the checksum as it was |
| BenchmarkPacket.ToBytes | src/bin/utils/benchmark_packet.rs:44-62 | the buffer built with three checksum updates is id, timestamp, CRC of id, timestamp and payload, then payload |
| BenchmarkPacket.FromBytes | src/bin/utils/benchmark_packet.rs:66-90 | the cursor-based parser returns the packet exactly when the data is long enough and the checksum matches |
| BenchmarkPacket.HeaderBytes | src/bin/utils/benchmark_packet.rs:44-62 | byte for byte: id in bytes 0 to 7, timestamp in 8 to 15, the checksum of these and the payload in 16 to 19, each most significant byte first, then the payload |
| Bytes.PutSpells | src/bin/utils/benchmark_packet.rs:48-58 | byte k of an n-byte field is the value divided by 256^(n-1-k), modulo 256 |
| BenchmarkPacket.ThreeUpdates | src/bin/utils/benchmark_packet.rs:52-56 | three updates equal one checksum over the concatenation |
| BenchmarkPacket.ParseSerialize | src/bin/utils/benchmark_packet.rs:44-90 | every packet with 64-bit fields survives serialising and parsing |
| BenchmarkPacket.SerializeParse | src/bin/utils/benchmark_packet.rs:44-90 | re-serialising whatever was accepted gives the same bytes |
| BenchmarkPacket.AcceptsExactlySerialized | src/bin/utils/benchmark_packet.rs:66-90 | the accepted byte strings are exactly the serialised packets |
| BenchmarkPacket.TruncationKeepsHeader | src/bin/utils/benchmark_packet.rs:71-76 | a cut packet that is still accepted has the id and timestamp of the whole one |
| BenchmarkPacket.CorruptionRejected | src/bin/utils/benchmark_packet.rs:78-87 | changing an accepted packet within four consecutive checksummed bytes, keeping length and checksum field, makes it rejected |
| BenchmarkPacket.ChecksumChangeRejected | src/bin/utils/benchmark_packet.rs:78-87 | so does any change of the checksum field alone |
| BenchmarkPacket.FiveByteCorruptionAccepted | src/bin/utils/benchmark_packet.rs:78-87 | in every accepted packet and every window of five checksummed bytes some change is accepted |
| Sockets.StreamIdentity | src/lib.rs:36-60 | the class survives encoding for every number, the number exactly when it is below 2^14; is_reliable and is_ordered hold for every class but Unreliable |
| Sockets.ClassBits | src/lib.rs:45-60 | what the two low bits of an id say: 3 is Reliable, 2 Ordered, else Unreliable; is_reliable tests both bits, is_ordered the upper one |
| Sockets.StreamsDistinct | src/lib.rs:37-49 | two encodings coincide exactly when the classes agree and the numbers agree modulo 2^14 |
| Sockets.GamePeer.CreateStream | src/lib.rs:154-161 | the k-th creation of a peer carries number k, as a u16 |
| Sockets.GamePeer.CloseStream | src/lib.rs:163-165 | one command is queued, the numbering is unchanged |
| Sockets.GamePeer.Send | src/lib.rs:167-169 | one command is queued, the numbering is unchanged |
| Sockets.PeerStreamsDistinct | src/lib.rs:154-161 | two creations of one peer share an encoded id exactly when they ask for the same class a multiple of 2^14 creations apart |
| Traces.DeliveryPhase | src/protocols/udp_protocol.rs:128-143 | announcing a new stream and posting its message keeps to the connection protocol, for this connection and all others |
| Traces.PhaseFacts | src/protocols/tcp_protocol.rs:117-149 | what the protocol phase of a connection says about which events have occurred |
| Traces.MessagePreceded | src/protocols/tcp_protocol.rs:124-144 | in a trace that keeps to the protocol every message comes after Connected and then the announcement of its stream |
| Traces.EventsUnique | src/protocols/tcp_protocol.rs:124-149 | in such a trace Connected and each announcement occur at most once and nothing follows Disconnected |
| UdpBackend.FrameReceived | src/protocols/udp_protocol.rs:90-113 | a framed message read back from the receive buffer gives its UUID and stream, and the data or what the buffer kept of it |
| UdpBackend.UdpBackend.Bind | src/protocols/udp_protocol.rs:67-73 | only a missing socket is created; nothing else changes |
| UdpBackend.UdpBackend.Connect | src/protocols/udp_protocol.rs:74-86 | a parsed address is stored under the new UUID and announced, even if no socket could be bound |
| UdpBackend.UdpBackend.ProcessCommand | src/protocols/udp_protocol.rs:87-103 | Send emits one framed datagram to a known connection; stream commands post events and leave the packet-side tables alone |
| UdpBackend.UdpBackend.AcceptOrReaddress | src/protocols/udp_protocol.rs:115-126 | an unknown UUID is accepted and announced, a known one takes the datagram's address silently |
| UdpBackend.UdpBackend.AnnounceOnce | src/protocols/udp_protocol.rs:128-135 | a stream is learnt and announced only the first time |
| UdpBackend.UdpBackend.ProcessPacket | src/protocols/udp_protocol.rs:109-144 | the new tables and the posted events of one datagram; a short one changes nothing |
| UdpBackend.StateIsSummaryOfTrace | src/protocols/udp_protocol.rs:65-144 | for every interleaving of commands and datagrams the tables are exactly the summary of the trace: connected UUIDs, and their message streams in first-arrival order |
| UdpBackend.TraceOfRun | src/protocols/udp_protocol.rs:65-144 | for every interleaving: connections are the announced UUIDs, each announced once; known streams are the announced ones, each once; messages come after both announcements; no Disconnected |
| UdpBackend.FreshnessIsNeeded | src/protocols/udp_protocol.rs:82-84 | a Connect keeps the summary if and only if its UUID is not in use |
| UdpHistory.AddressesFollowDatagrams | src/protocols/udp_protocol.rs:65-126 | for every input list and UUID: it is in the table exactly if a datagram with its header came or a Connect drew it, and its address is the source of the last such datagram or the target of the Connect, whichever is later; there is a socket exactly if some Bind or Connect made one |
| UdpHistory.SendEmits | src/protocols/udp_protocol.rs:87-97 | after every run a Send hands over exactly one datagram to that address, the UUID, the stream id with its high byte first and the data; nothing without a socket or an address |
| UdpHistory.EveryDatagramIsPosted | src/protocols/udp_protocol.rs:98-144 | in every run the messages posted are those the datagrams of at least 18 bytes carry, each once and in order, and the stream commands post their events in order |
| GnsBackend.GnsBackend.HandleEvent | src/protocols/gns_protocol.rs:218-282 | the new tables and events for every pair of states; the handle is closed exactly on the two closing states |
| GnsBackend.GnsBackend.HandleMessage | src/protocols/gns_protocol.rs:285-312 | a message on a registered handle is announced if new and posted; others are dropped |
| GnsBackend.GnsBackend.ProcessCommand | src/protocols/gns_protocol.rs:133-173 | Send dispatches one message with stream header, flag and lane of its class; stream commands leave the tables alone |
| GnsBackend.TablesAgree | src/protocols/gns_protocol.rs:218-312 | in every allowed run the two maps are inverses, known_streams has only live UUIDs, and both agree with the trace |
| GnsBackend.TraceOfRun | src/protocols/gns_protocol.rs:218-312 | for every UUID: live exactly if connected and not disconnected; streams announced once and before their messages; nothing after Disconnected |
| GnsBackend.AcceptNeedsFreeHandle | src/protocols/gns_protocol.rs:228-237 | accepting keeps the maps inverse if and only if the handle was not registered |
| GnsBackend.DispatchDelivers | src/protocols/gns_protocol.rs:133-163 | a dispatched message is posted by the receiver with the stream and data it was sent with; lane 0 and the reliable flag go to every class but Unreliable |
| GnsHistory.UuidsFollowEvents | src/protocols/gns_protocol.rs:218-282 | for every input list and handle: it is registered exactly under the UUID drawn when it was last let in, or else when its connection was first completed since it was last over |
| GnsHistory.RegisteredSince | src/protocols/gns_protocol.rs:218-282 | by positions: a handle has a UUID exactly if it was let in or completed and not over since |
| GnsHistory.SendDispatches | src/protocols/gns_protocol.rs:133-163 | in every allowed run a Send gives the library one message for the handle that carries the UUID, with its header, data, flag and lane spelt out, and nothing for any other UUID |
| GnsHistory.EveryMessageIsPosted | src/protocols/gns_protocol.rs:133-312 | in every run the messages posted are those that arrived with a stream id on handles registered at that time, in order under their UUIDs, and the stream commands post their events in order |
| QuicStreams.RecvStream.ReadExact | src/protocols/quic_protocol.rs:294-299 | succeeds exactly when enough bytes arrive, however they are split into chunks, and consumes just those |
| QuicStreams.StreamReadingLoop | src/protocols/quic_protocol.rs:292-307 | posts exactly the messages that the arriving bytes decode to, and ends |
| QuicStreams.AcceptStream | src/protocols/quic_protocol.rs:278-287 | the first two bytes name the stream that is registered and carried by every message; a shorter stream registers nothing |
| QuicStreams.FramesReadBack | src/protocols/quic_protocol.rs:180-183 | the frames of a list of messages read back as that list if and only if every message is shorter than 2^32 bytes |
| QuicStreams.FrameBytes | src/protocols/quic_protocol.rs:180-183 | a frame is the low 32 bits of the length, most significant byte first, and the message |
| QuicStreams.NothingSkipped | src/protocols/quic_protocol.rs:292-307 | whatever bytes arrive are the frames of the messages read and a rest too short to be a whole frame |
| QuicStreams.TruncationYieldsPrefix | src/protocols/quic_protocol.rs:293-299 | a stream cut anywhere yields a prefix of its messages |
| QuicStreams.ArrivedMessagesArePrefix | src/protocols/quic_protocol.rs:180-183 | from any arrived part of the frames, in any chunks, the loop posts a prefix of the messages sent, never a partial one |
| QuicStreams.StreamIdAgreed | src/protocols/quic_protocol.rs:211-224 | opener, acceptor and every message carry the same encoded stream id |
| QuicBackend.QuicBackend.OnConnected | src/protocols/quic_protocol.rs:163-169 | a connection made by a command is registered at once and announced |
| QuicBackend.QuicBackend.OnAccepted | src/protocols/quic_protocol.rs:143-154 | an accepted connection is announced before it is registered |
| QuicBackend.QuicBackend.OnConnectionRegistered | src/protocols/quic_protocol.rs:114-116 | the oldest report of the channel enters the table |
| QuicBackend.QuicBackend.OnStreamAccepted | src/protocols/quic_protocol.rs:278-284 | an accepted stream is reported with its send half under class Reliable |
| QuicBackend.QuicBackend.OnStreamRegistered | src/protocols/quic_protocol.rs:118-130 | a send half is stored and announced; a stream without one is listed and announced only if it is not on the list |
| QuicBackend.QuicBackend.OnCreateStream | src/protocols/quic_protocol.rs:211-225 | a Reliable stream is opened, numbered and reported if the connection is known; the others are reported without send half |
| QuicBackend.QuicBackend.OnCloseStream | src/protocols/quic_protocol.rs:226-231 | both tables forget the stream and StreamClosed is posted |
| QuicBackend.QuicBackend.OnSend | src/protocols/quic_protocol.rs:171-209 | one frame on the stream's send half or one datagram; an Error event if the library refuses; nothing without a send half |
| QuicBackend.QuicBackend.OnDatagram | src/protocols/quic_protocol.rs:258-273 | a new stream is reported to the main loop, the message is posted directly |
| QuicBackend.RunHolds | src/protocols/quic_protocol.rs:112-235 | in every interleaving of readers, commands and registrations: the list matches the trace, send halves have ids of class Reliable, and each wire carries a prefix of the frames sent |
| QuicBackend.RegistrationsAnnouncedOnce | src/protocols/quic_protocol.rs:118-130 | the list has no duplicates; for every class but Reliable a stream is on it exactly if StreamCreated was posted for it and no StreamClosed since, and between two StreamCreated lies a StreamClosed; for class Reliable the same holds of the StreamCreated events posted without a send half |
| QuicBackend.EchoIsNotAnnounced | src/protocols/quic_protocol.rs:123-129 | short of a CloseStream a listed stream stays listed, and StreamCreated is posted for it again if and only if a registration with a send half for its id is taken from the channel; for every class but Reliable that never happens, so echoes announce nothing |
| QuicBackend.StepKeepsListed | src/protocols/quic_protocol.rs:118-130 | the same for one step: it announces a listed stream exactly when it takes a registration with a send half for that id, which is then of class Reliable |
| QuicBackend.ReliableAnnouncedTwice | src/protocols/quic_protocol.rs:118-130 | the input on which a listed id of class Reliable is announced a second time with no close in between |
| QuicBackend.SendTakesEffect | src/protocols/quic_protocol.rs:171-209 | in every reachable state a Send changes anything if and only if its connection is known and its id is Unreliable or has a registered send half; accepted, it adds exactly one datagram or one frame to that wire |
| QuicBackend.OrderedIsNeverSent | src/protocols/quic_protocol.rs:173-178 | in every reachable state a Send on an Ordered stream changes nothing |
| QuicBackend.DatagramDelivers | src/protocols/quic_protocol.rs:194-197 | a datagram sent on an unreliable stream is posted by the reader with that stream and its data |
| QuicBackend.StreamDeliversPrefix | src/protocols/quic_protocol.rs:214-219 | whatever part of an opened stream has arrived, the other side reads the opener's number and a prefix of the messages sent |
| QuicTables.IdOfIsNewStream | src/lib.rs:37-49 | the id of stream number n is 4 * (n mod 2^14) plus 0, 2 or 3 for Unreliable, Ordered, Reliable |
| QuicTables.TablesOfRun | src/protocols/quic_protocol.rs:112-235 | for every input list: which connections are known, what waits in both channels, which send half each stream has or whether it is listed without one, the header and messages of every wire, whether it failed, and all datagrams, each told from the inputs alone |
| QuicTables.EventsOfRun | src/protocols/quic_protocol.rs:112-307 | for every input list the events posted are exactly, in order, those that each input calls for |
| QuicHistory.RunOwners | src/protocols/quic_protocol.rs:118-121 | every registered send half is the wire of the stream whose id it is registered under |
| QuicHistory.RunWiresSent | src/protocols/quic_protocol.rs:173-192 | every wire carries, in order, messages that the game sent on its stream |
| QuicSystem.RunKeeps | src/protocols/quic_protocol.rs:112-307 | every run of processes keeps connections symmetric, the two wires of each stream under one number, and every read explained by what the peer wrote |
| QuicSystem.StreamsDeliverInOrder | src/protocols/quic_protocol.rs:211-307 | for messages below 2^32 bytes, on every stream and in both directions the messages posted are a prefix of those written and, in order, some of those the other game sent on that stream, which both sides know under one id |
| QuicSystem.Provenance | src/protocols/quic_protocol.rs:255-306 | whatever a game receives, by stream or datagram, the game on the other side of that connection sent on the same stream |
| TcpBackend.PacketParts | src/protocols/tcp_protocol.rs:78-80 | stream header and payload come back out of a packet |
| TcpBackend.PeerHandler.Read | src/protocols/tcp_protocol.rs:124-145 | the handler serves the end that the read step of the system gives, and posts that step's events |
| TcpBackend.PeerHandler.Finish | src/protocols/tcp_protocol.rs:146-149 | the end is no longer running and Disconnected is posted |
| TcpBackend.PeerHandler.Write | src/protocols/tcp_protocol.rs:154-157 | the handler serves the end that the write step of the system gives: packets leave the channel in order, one above the codec's limit is given up |
| TcpBackend.TcpBackend.Register | src/protocols/tcp_protocol.rs:24-26 | the main loop holds the end as the register step gives it |
| TcpBackend.TcpBackend.Send | src/protocols/tcp_protocol.rs:75-85 | the main loop holds the end as the send step gives it: one packet is queued for a registered, live peer, an unknown or ended one drops it |
| TcpSystem.RunHolds | src/protocols/tcp_protocol.rs:21-161 | in every interleaving each end's trace, channel, wire and deliveries agree |
| TcpSystem.TraceOfRun | src/protocols/tcp_protocol.rs:36-51 | each end: Connected once, streams announced once and before their messages, Disconnected exactly when its peer handler has ended and then nothing |
| TcpSystem.DeliveredIsPrefixOfQueued | src/protocols/tcp_protocol.rs:117-159 | the delivered (stream, payload) list is a prefix, in order, of what the other end queued within the codec's limit |
| TcpSystem.FittingAll | src/protocols/tcp_protocol.rs:154-157 | nothing is left out when every packet is within the limit |
| TcpHistory.EndOfRun | src/protocols/tcp_protocol.rs:19-161 | in every interleaving, told from the steps taken: an end exists if opened, runs until it has finished, is registered if connected or once its report is taken over in order; its channel holds the packets queued and not taken out; its wire carries exactly the taken packets within 8 MiB before the first failed write |
| TcpHistory.EveryFrameIsPosted | src/protocols/tcp_protocol.rs:87-161 | in every interleaving the messages of an end are the first packets within the limit that its partner queued, as many as it has read; the partner is the end it accepted or was accepted by; stream commands post their events in order |
| EchoServer.EchoServer.HandleEvent | src/bin/server.rs:122-141 | the client list and the reply after one event |
| EchoServer.EchoIsIdentical | src/bin/server.rs:131-139 | a reply carries byte for byte what arrived, on the same connection and stream |
| EchoServer.AnsweredExactlyPackets | src/bin/server.rs:131-139 | a message is answered if and only if it is a serialised packet |
| EchoServer.ClientsAreOpenConnections | src/bin/server.rs:28-34 | on every trace that keeps to the connection protocol the list holds the open connections, each once |
| ServerClients.UdpClients | src/bin/server.rs:122-130 | in every run of the UDP backend the list holds exactly the keys of `connections`, each once |
| ServerClients.GnsClients | src/bin/server.rs:122-130 | in every allowed run of the GNS backend it holds exactly the live UUIDs, each once |
| ServerClients.TcpClients | src/bin/server.rs:122-130 | in every run over TCP it holds exactly those of the server's ends that are up, each once |
| BenchmarkClient.BenchmarkClient.HandleEvent | src/bin/client.rs:112-172 | the client's state after one event, including which packets are recorded after warm-up |
| BenchmarkClient.BenchmarkClient.AskForStreams | src/bin/client.rs:113-123 | a Connected makes the client's GamePeer create one Unreliable and one Reliable stream, numbered in order, and starts the clock if it is not running |
| BenchmarkClient.BenchmarkClient.PollEvents | src/bin/client.rs:111-173 | the polling loop handles events in order and leaves at the first Disconnected |
| BenchmarkClient.BenchmarkClient.Transmit | src/bin/client.rs:214-221 | the packet carries the stream's counter, which then grows by one |
| BenchmarkClient.BenchmarkClient.PaceRound | src/bin/client.rs:176-206 | at most one packet per timer, each timer moved by exactly its interval; a missing stream skips the rest and the stop check |
| BenchmarkClient.BenchmarkClient.Round | src/bin/client.rs:110-208 | one iteration of the loop: all polled events, then one pacing round |
| ClientRuns.RunKeeps | src/bin/client.rs:110-208 | every run keeps timers on schedule, ids consecutive, streams in their class, and every Send a packet with an id below its counter, whatever the clock does |
| ClientRuns.TimersBehindClock | src/bin/client.rs:185-199 | with a clock that never goes back the timers are never ahead of it |
| ClientRuns.PacingWithoutDrift | src/bin/client.rs:185-199 | each timer equals its start plus packets sent times interval and is never after now, so counts never exceed elapsed time over interval |
| ClientRuns.IdsWithoutGaps | src/bin/client.rs:214-220 | the ids sent on each stream are 0, 1, 2, ... up to its counter |
| ClientRuns.CountersSumToSends | src/bin/client.rs:187-199 | the counters of the unreliable streams sum to the 60 Hz sends, those of the reliable ones to the 20 Hz sends |
| ClientRuns.RecordsAfterWarmup | src/bin/client.rs:140-150 | an event adds a record if and only if it is a message holding a serialised packet and at least warmup + 1 seconds have passed since the start |
| ClientRuns.StartedOnce | src/bin/client.rs:119-122 | no later iteration changes the start of the benchmark |
| ClientHistory.RunMeaning | src/bin/client.rs:84-221 | after any number of rounds the connection and streams in use, the start, the records, the log of packets with rate, stream and id, and all commands are given by the polled events and the clocks read alone |
| ClientHistory.PaceExactly | src/bin/client.rs:175-206 | one pacing round: while connected and with its stream there, a 60 Hz packet exactly if 16.666 ms times one more than those sent have passed since the start, a 20 Hz packet likewise with 50 ms; what they carry; and when the loop is to stop |
| ClientHistory.LeftExactly | src/bin/client.rs:178-206 | in every run a round ends the loop exactly if by then a Disconnected was polled or the time was found to be over, and no timer that fired missed its stream |
| UdpSystem.RunHolds | src/protocols/udp_protocol.rs:87-143 | every state of every run of clients, lossy network and echo server satisfies the provenance invariant |
| UdpSystem.EndToEndProvenance | src/protocols/udp_protocol.rs:87-143 | every message a client receives carries its own UUID and a stream and bytes it earlier passed to Send, whole if the datagram fits 2048 bytes and a prefix otherwise |
| UdpSystem.AnswersStayWithTheirClient | src/bin/server.rs:131-139 | what the server sends under a client's UUID goes to that client's address only |
| UdpSystem.RecordsMeasureSends | src/bin/client.rs:131-150 | every record stems from a packet the client sent on that stream: its id, the time since its stamp, and its payload size, whole if the datagram fits 2048 bytes |
| UdpSystem.RecordedIdsWereSent | src/bin/client.rs:130-150 | every recorded id is below the stream's sequence counter |
| TcpBenchmark.RunHolds | src/protocols/tcp_protocol.rs:21-161 | every state of every run of clients and echo server over TCP satisfies the chain of in-order inclusions from sends to records |
| TcpBenchmark.RecordsFollowSends | src/bin/client.rs:130-150 | over TCP the recorded (stream, id) pairs are, in order, some of those sent |
| EndToEnd.SentFigureHonest | src/bin/stats.rs:304-309 | for the records of any client in any UDP run the reported "sent" never exceeds the packets really sent, per stream and globally |
| EndToEnd.TcpReportExact | src/bin/stats.rs:304-311 | for the records of any client in any TCP run, no counter having passed 2^64: recorded ids rise on every stream, `lost` is exactly the missing ids, globally sent is exactly received plus lost, and at most what was really sent |
| Sorting.SortSorts | src/bin/stats.rs:399-400 | the sorted list is ordered and a rearrangement |
| Sorting.SortCanonical | src/bin/stats.rs:399-400 | rearranged inputs sort to the same list |
| SingleRun.PercentileMeaning | src/bin/stats.rs:541-545 | a percentile is an observed value with at least index + 1 values not above it and n - index not below it |
| SingleRun.IndexTruncates | src/bin/stats.rs:541-545 | the index k of any percentage satisfies k <= pct * (n - 1) < k + 1 |
| SingleRun.PercentileFigures | src/bin/stats.rs:417-421 | the four percentiles of n records are the sorted times at q * (n - 1) / 100 in integer arithmetic for q = 50, 90, 95, 99 |
| SingleRun.PercentileMonotone | src/bin/stats.rs:417-420 | a higher percentage never gives a lower percentile; all lie between the extremes |
| SingleRun.MomentsOfSorted | src/bin/stats.rs:404-410 | average and variance of the sorted times are those of the times as recorded |
| SingleRun.VarianceAbout | src/bin/stats.rs:407-410 | deviations about any centre exceed those about the average by n times the squared distance |
| SingleRun.JitterBound | src/bin/stats.rs:402-411 | min <= avg <= max, jitter^2 <= (max - avg)(avg - min), and jitter <= (max - min) / 2 |
| SingleRun.OrderIndependent | src/bin/stats.rs:373-422 | rearranging the records changes none of the fifteen figures |
| Averages.MeanNearMedian | src/bin/stats.rs:404-411 | n times the squared distance of mean and any median is at most the sum of squared deviations |
| Averages.PairwiseSpread | src/bin/stats.rs:407-410 | the squared differences over all pairs sum to twice n times the deviations from the mean |
| RunFigures.LatencyLadder | src/bin/stats.rs:402-421 | min <= p50 <= p90 <= p95 <= p99 <= max, all six observed, the outer two bounding every time |
| RunFigures.AverageNearMedian | src/bin/stats.rs:405-417 | the average is within one jitter of the 50th percentile |
| RunFigures.JitterIsPairwise | src/bin/stats.rs:407-411 | jitter^2 is half the mean squared difference of two recorded times |
| RunFigures.ThroughputMeaning | src/bin/stats.rs:386-396 | rates times duration give back packets and bits and agree with each other; all vanish exactly when every packet carries one arrival time |
| RunFigures.LossRateRange | src/bin/stats.rs:304-307 | a reported stream has a loss rate in [0, 100), zero exactly when it has at least as many records as packets sent |
| FileReports.ListsOfFields | src/bin/stats.rs:386-400 | the lists the figures are computed from hold, record by record, the field of that name |
| FileReports.RunTotals | src/bin/stats.rs:373-411 | the counts are passed through; loss rate times sent is a hundred times lost; the duration in microseconds is the last arrival minus the first; average times count is the sum of the times |
| FileReports.EmptyRun | src/bin/stats.rs:373-422 | without records every figure but the counts and the loss rate is zero |
| Grouping.StreamIdsProperties | src/bin/stats.rs:601-603 | the listed streams are increasing, without repeats, and exactly those with records |
| FileReports.GroupMeaning | src/bin/stats.rs:596-599 | the group of a stream holds the records with its id, each as often as the file, in file order |
| FileReports.ReportMeaning | src/bin/stats.rs:591-643 | every recorded stream has one entry: index and type from its id, sent one above the highest recorded packet id, received its number of records, lost the difference if positive, the rest from its records; global sent and lost add these up and received counts all records |
| Grouping.PartitionAll | src/bin/stats.rs:288-291 | any quantity summed over the groups is its sum over all records |
| Grouping.ReceivedIsCount | src/bin/stats.rs:609-618 | the received packets of the streams add up to the number of records |
| Grouping.StreamLoss | src/bin/stats.rs:612-615 | sent - received is missing ids minus duplicates; lost never exceeds the missing ids, and equals them exactly if there are no duplicates or nothing is missing |
| Grouping.GlobalLoss | src/bin/stats.rs:617-619 | sent <= received + lost, with equality exactly when no stream has more records than packets sent |
| Grouping.TotalVariance | src/bin/stats.rs:399-411 | the global average is the received-weighted mean of the stream averages, and received times jitter^2 is the sum over streams of received_s (jitter_s^2 + (avg_s - avg)^2) |
| ReportOrder.OnStreamPermuted | src/bin/stats.rs:596-599 | rearranged records give rearranged groups |
| ReportOrder.ReportOrderIndependent | src/bin/stats.rs:591-643 | rearranging the records changes nothing in the report |
| Summaries.SummaryOrdered | src/bin/stats.rs:459-501 | extremes are observed and bound all values, median and mean; the interval is centred on the mean; mean and median differ by at most stddev |
| Summaries.MeanAndInterval | src/bin/stats.rs:468-499 | n times the mean is the sum of the values, and n times the squared distance of either interval end from the mean is t^2 stddev^2 |
| Summaries.MedianOfOrdered | src/bin/stats.rs:478-490 | with the values in order the median is the middle one or half the sum of the two in the middle, minimum and maximum are the ends, and no values give zeros |
| Summaries.MedianSplits | src/bin/stats.rs:481-485 | at least half of the values lie on each side of the median |
| Summaries.MedianMirrored | src/bin/stats.rs:481-485 | negating every value negates the median, so of two middle values it takes the point halfway |
| Summaries.SpreadMeaning | src/bin/stats.rs:471-496 | stddev^2 is half the mean squared difference of two different runs, and n times the squared half width is t^2 stddev^2 |
| Summaries.AgreeingRuns | src/bin/stats.rs:459-501 | runs that all give v are summarised by v in every place with zero deviation |
| Summaries.SpreadVanishes | src/bin/stats.rs:471-496 | with two runs or more, deviation and interval width vanish exactly when all runs agree |
| Summaries.SummaryOrderIndependent | src/bin/stats.rs:459-501 | the order of the runs changes only the list of raw values |
| Summaries.CriticalDecreases | src/bin/stats.rs:505-526 | from two runs on the critical value never rises with the number of runs and never falls below 1.96 |
| Summaries.TableValues | src/bin/stats.rs:505-526 | the critical value for every number of runs, in thousandths |
| Summaries.NormalFrom31 | src/bin/stats.rs:505-526 | the normal value 1.96 is used if and only if there are at least 31 runs; at 30, and there only, the documented rule fails |
| Aggregation.ReportCovers | src/bin/stats.rs:333-366 | a stream is reported exactly when some run saw it, in id order; its figures cover the runs that saw it, the global ones every non-empty run; num_runs counts empty files too |
| Aggregation.NonEmptyMeaning | src/bin/stats.rs:283-286 | the runs used are the non-empty files, each as often as it was given, in the order given |
| Aggregation.AggregatesReports | src/bin/stats.rs:333-358 | field by field for all fifteen: the values behind each summary are those fields of the single-file reports of the non-empty runs, globally one per run, per stream one for each run that lists it, and the summary is that of its values; index and type come from the id |
| Aggregation.SingleRunCollapse | src/bin/stats.rs:277-367 | with one non-empty file each of the fifteen fields is constant at that field of the single-file report, globally and per stream, with the same stream list and labels |
| AggregateOrder.RecordOrderIrrelevant | src/bin/stats.rs:277-367 | rearranging the records inside the files changes nothing in the aggregated report |
| AggregateOrder.FileOrderIrrelevant | src/bin/stats.rs:277-367 | rearranging the files changes only the order of the raw values behind each figure |
| Analysis.GroupByStream | src/bin/stats.rs:596-599 | the map holds for each stream its records in order, and no empty group |
| Analysis.SortedIds | src/bin/stats.rs:602-603 | the keys of the map, in increasing order, each once |
| Analysis.AnalyzeSingleFile | src/bin/stats.rs:591-643 | the loop over the sorted streams computes the report; no records is an error |
| Analysis.AnalyzeRun | src/bin/stats.rs:287-330 | one file's global and per-stream figures, and the stream table extended by the streams not in it |
| Analysis.AggregateStreams | src/bin/stats.rs:336-358 | the second loop computes the aggregated stream reports; the skipped case never arises |
| Analysis.AggregateRuns | src/bin/stats.rs:277-367 | fails exactly when a file cannot be loaded, and otherwise computes the aggregated report |
| RunFiles.MarksDisjoint | src/bin/stats.rs:237-239 | two occurrences of "_run" never overlap |
| RunFiles.MatchesOnlyItsProtocol | src/bin/stats.rs:258-266 | among names without the mark, a stem matches exactly the part before its first mark |
| RunFiles.FoundOnce | src/bin/stats.rs:245-271 | each matching file is listed exactly as often as the directory has it, and no other |
| RunFiles.FilesPartitioned | src/bin/stats.rs:228-271 | protocols are listed in order without repeats, every file is found for exactly one of them, and none is without files |

## Left out

- Sockets, runtimes, TLS and certificates, transport configuration and the GNS library calls: they appear only as inputs of the steps.
- The internals of tokio-util's length-delimited codec, which is taken to deliver frames whole and in order up to 8 MiB.
- Shutdown, thread joins, closed command and event channels, the Error event of a failed TCP connect, and panics on `unwrap`.
- GNS Bind and Connect, which only set the socket; a failed Bind ends that backend.
- A QUIC stream that ends before its number, which also keeps that connection from taking any further streams.
- QUIC order of Message and StreamCreated: the readers post directly and register through a channel, so no order is claimed.
- The failure of writing a new QUIC stream's number, which the code ignores.
- EndToEnd.TcpReportExact: assumes that no sequence counter has passed 2^64, after which packet ids come again.
- QuicSystem.StreamsDeliverInOrder: assumes messages below 2^32 bytes, for which alone the frames read back (`QuicStreams.FramesReadBack`).
- Liveness: nothing says that a packet is answered or that the client loop ends.
- UUID generation, wall clocks and the random payload are inputs; the payload size is taken to be within the entropy pool.
- f64 rounding and NaN, and any statistical coverage of the confidence interval.
- Overflow of u64: sums of round-trip times and `max_id + 1` are unbounded here; a sequence number is reduced modulo 2^64 where it enters a packet.
- CSV and JSON reading and writing, directory walking and the recorder's thread: a file is the list of its records.
- The scenario and protocol names in a report, which are copied, and `single_run_to_legacy`, which only regroups figures.
- RunFiles.FilesPartitioned: does not model that the files of one protocol are sorted by name, only which files they are.
- Sockets.GamePeer.CreateStream: models the wrapping counter of a release build; a debug build stops at 2^16 creations.
- src/bin/plot.rs, shell scripts, benchmark data, command-line parsing, logging and feature gates.
