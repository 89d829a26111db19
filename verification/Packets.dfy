/** Packet headers and commands (include/rudp/packet.h). */
module Packets {

  const CMD_NOOP := 0
  const CMD_CLOSE := 1
  const CMD_CONN_REQ := 2
  const CMD_CONN_RSP := 3
  const CMD_PING := 4
  const CMD_PONG := 5
  const CMD_APP := 0x10

  /** What follows the header. A PING carries the sender's clock. */
  datatype Payload = Blank | Word(w: int) | Timestamp(t: int) | Bytes(b: seq<bv8>)

  /** A packet: the command, the three option bits (RELIABLE, ACK, RETRANSMITTED),
      the three sequence fields and the payload. */
  datatype Packet = Packet(
    cmd: int,
    rel: bool, ack: bool, ret: bool,
    ackSeq: int, relSeq: int, unrelSeq: int,
    data: Payload)

  /** A header as received: its sequence fields are 16 bits wide. */
  predicate OnWire(k: Packet) {
    0 <= k.ackSeq < 0x1_0000 && 0 <= k.relSeq < 0x1_0000 && 0 <= k.unrelSeq < 0x1_0000
  }

  /** The packet without what a transmission writes into it: its identity. */
  function Strip(k: Packet): Packet {
    k.(ack := false, ret := false, ackSeq := 0)
  }

  /** A chain as an allocation hands it out, before the sender fills it. */
  function Fresh(cmd: int, data: Payload): Packet {
    Packet(cmd, false, false, false, 0, 0, 0, data)
  }
}
