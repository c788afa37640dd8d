// One line of a results file.
module Records {
  import opened Sockets

  datatype Record = Record(packetId: nat, streamId: StreamId, rttUs: nat, payloadSize: nat, recvTimestamp: nat)
}
