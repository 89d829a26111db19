/** The peer state machine of src/peer.c as functions on values. Every function
    takes the arithmetic to run in: class Peer refines the `Wrapped` reading, the
    protocol invariants are proved about the `Unbounded` one, and module Refinement
    shows when the two agree. */
module PeerSpec {
  import opened SeqNum
  import opened Packets

  const ACTION_TIMEOUT := 5000
  const DROP_TIMEOUT := 10000
  const MAX_RTO := 3000

  datatype Option<T> = None | Some(value: T)

  datatype RunState = New | Run | Connecting | Dead

  datatype PacketClass = Sequenced | Unsequenced | Retransmitted

  /** Calls into the handler. */
  datatype Upcall = HandlePacket(k: Packet) | Dropped

  /** What a handler sends from inside handle_packet, or an application outside it. */
  datatype AppSend = AppSend(reliable: bool, cmd: int, data: Payload)

  /** struct rudp_peer, and four histories: packets given a sequence number (enq),
      packets put on the wire (sent), packets accepted, that is classified SEQUENCED or
      the connection request that set the baseline (acc), and calls to the handler (up).
      `wake` is the pending service timer. */
  datatype PeerState = PeerState(
    deadline: int, lastOut: int, srtt: int, rttvar: int, rto: int,
    inRel: int, inUnrel: int, outRel: int, outUnrel: int, acked: int,
    mustAck: bool, wake: Option<int>, state: RunState,
    sendq: seq<Packet>,
    enq: seq<Packet>, sent: seq<Packet>, acc: seq<Packet>, up: seq<Upcall>)

  // ----- Reset, RTT and RTO -----

  function Reset(m: Arith, rand: int, now: int): PeerState {
    PeerState(now + DROP_TIMEOUT, now, 100, 50, MAX_RTO,
              0xFFFF, 0, rand, 0, Norm(m, rand - 1),
              false, None, New, [], [], [], [], [])
  }

  /** C division by a positive constant: truncation toward zero. */
  function TruncDiv(a: int, b: int): int
    requires b > 0
  {
    if a >= 0 then a / b else -(-a / b)
  }

  function Abs(x: int): nat {
    if x < 0 then -x else x
  }

  function Cap(rto: int): int {
    if rto > MAX_RTO then MAX_RTO else rto
  }

  function SrttStep(srtt: int, sample: int): int {
    TruncDiv(7 * srtt + sample, 8)
  }

  function UpdateRtt(p: PeerState, sample: int): PeerState {
    var srtt := SrttStep(p.srtt, sample);
    p.(rttvar := TruncDiv(3 * p.rttvar + Abs(p.srtt - sample), 4), srtt := srtt, rto := Cap(srtt))
  }

  function Backoff(rto: int): int {
    Cap(rto * 2)
  }

  // ----- Timer -----

  function WakeDelay(p: PeerState, now: int): int {
    var d := if p.sendq == [] then ACTION_TIMEOUT
             else if p.sendq[0].ret then now - p.lastOut + p.rto
             else 0;
    var d := if p.deadline - now < d then p.deadline - now else d;
    if d <= 0 then 1 else d
  }

  function Schedule(p: PeerState, now: int): (r: PeerState)
    ensures r == p.(wake := r.wake)
  {
    p.(wake := Some(now + WakeDelay(p, now)))
  }

  /** rudp_peer_init */
  function Init(m: Arith, rand: int, now: int): PeerState {
    Schedule(Reset(m, rand, now), now)
  }

  // ----- Sending -----

  function Unreliable(m: Arith, p: PeerState, pc: Packet): Packet {
    pc.(rel := false, ack := false, ret := false,
        relSeq := p.outRel, unrelSeq := Norm(m, p.outUnrel + 1))
  }

  function Reliable(m: Arith, p: PeerState, pc: Packet): Packet {
    pc.(rel := true, ack := false, ret := false,
        relSeq := Norm(m, p.outRel + 1), unrelSeq := 0)
  }

  function SendUnreliable(m: Arith, p: PeerState, pc: Packet, now: int): PeerState {
    var k := Unreliable(m, p, pc);
    Schedule(p.(outUnrel := k.unrelSeq, sendq := p.sendq + [k], enq := p.enq + [Strip(k)]), now)
  }

  function SendReliable(m: Arith, p: PeerState, pc: Packet, now: int): PeerState {
    var k := Reliable(m, p, pc);
    Schedule(p.(outRel := k.relSeq, outUnrel := 0, sendq := p.sendq + [k], enq := p.enq + [Strip(k)]), now)
  }

  function Send(m: Arith, p: PeerState, a: AppSend, now: int): PeerState {
    if a.reliable then SendReliable(m, p, Fresh(a.cmd, a.data), now)
    else SendUnreliable(m, p, Fresh(a.cmd, a.data), now)
  }

  function SendAll(m: Arith, p: PeerState, msgs: seq<AppSend>, now: int): PeerState
    decreases |msgs|
  {
    if msgs == [] then p else SendAll(m, Send(m, p, msgs[0], now), msgs[1..], now)
  }

  /** Sending numbers and queues packets and sets the timer, nothing else; reliable numbers
      move for reliable packets only. */
  lemma {:induction false} SendAllFrame(m: Arith, p: PeerState, msgs: seq<AppSend>, now: int)
    ensures var r := SendAll(m, p, msgs, now);
            && r == p.(outRel := r.outRel, outUnrel := r.outUnrel, sendq := r.sendq, enq := r.enq, wake := r.wake)
            && ((forall i :: 0 <= i < |msgs| ==> !msgs[i].reliable) ==> r.outRel == p.outRel)
    decreases |msgs|
  {
    if msgs != [] {
      SendAllFrame(m, Send(m, p, msgs[0], now), msgs[1..], now);
    }
  }

  function SendConnect(m: Arith, p: PeerState, now: int): PeerState {
    SendReliable(m, p.(state := Connecting), Fresh(CMD_CONN_REQ, Blank), now)
  }

  function SendCloseNoqueue(m: Arith, p: PeerState, now: int): PeerState {
    var k := Unreliable(m, p, Fresh(CMD_CLOSE, Blank));
    p.(outUnrel := k.unrelSeq, enq := p.enq + [Strip(k)], sent := p.sent + [k], lastOut := now)
  }

  function Ping(m: Arith, p: PeerState, now: int): PeerState {
    SendReliable(m, p, Fresh(CMD_PING, Timestamp(now)), now)
  }

  // ----- Acknowledgements -----

  /** The loop of peer_handle_ack: unqueue from the head while the packet has been
      transmitted and its number is not after ack. */
  function DropAcked(m: Arith, q: seq<Packet>, ack: int): seq<Packet>
    decreases |q|
  {
    if q == [] || !q[0].rel || !q[0].ret || Delta(m, q[0].relSeq, ack) > 0 then q
    else DropAcked(m, q[1..], ack)
  }

  predicate PastAck(m: Arith, p: PeerState, ack: int) {
    Delta(m, ack, p.acked) < 0
  }

  predicate BrokenAck(m: Arith, p: PeerState, ack: int) {
    !PastAck(m, p, ack) && Delta(m, ack, p.outRel) > 0
  }

  function HandleAck(m: Arith, p: PeerState, ack: int): PeerState {
    if PastAck(m, p, ack) || BrokenAck(m, p, ack) then p
    else p.(acked := ack, sendq := DropAcked(m, p.sendq, ack))
  }

  function PostAck(m: Arith, p: PeerState, now: int): PeerState {
    var p := p.(mustAck := true);
    if p.sendq != [] then p
    else Schedule(SendUnreliable(m, p, Fresh(CMD_NOOP, Blank), now), now)
  }

  // ----- Receiving -----

  function Classify(m: Arith, p: PeerState, k: Packet): PacketClass {
    if k.rel then
      if p.inRel == k.relSeq then Retransmitted
      else if Norm(m, p.inRel + 1) != k.relSeq then Unsequenced
      else Sequenced
    else
      if p.inRel != k.relSeq || Delta(m, k.unrelSeq, p.inUnrel) <= 0 then Unsequenced
      else Sequenced
  }

  /** To a peer just reset, whose in_seq_reliable is 0xFFFF, the packet looks neither
      received nor next. */
  predicate LooksNew(k: Packet) {
    if k.rel then k.relSeq != 0xFFFF && k.relSeq != 0
    else k.relSeq != 0xFFFF || k.unrelSeq == 0 || 0x8000 <= k.unrelSeq
  }

  /** The numbers move only for a sequenced packet. */
  function Accept(p: PeerState, k: Packet, now: int): PeerState {
    p.(inRel := k.relSeq, inUnrel := if k.rel then 0 else k.unrelSeq,
       deadline := now + DROP_TIMEOUT, acc := p.acc + [k])
  }

  function HandleConnReq(m: Arith, p: PeerState, k: Packet, now: int): PeerState {
    Schedule(SendUnreliable(m, p, Fresh(CMD_CONN_RSP, Word(1)), now), now)
      .(inRel := k.relSeq, state := Run, acc := p.acc + [k])
  }

  function HandleConnRsp(m: Arith, p: PeerState, k: Packet): PeerState {
    HandleAck(m, p.(inRel := k.relSeq), k.ackSeq).(state := Run)
  }

  function HandleUnsequenced(m: Arith, p: PeerState, k: Packet, now: int): PeerState {
    if p.state == New && k.cmd == CMD_CONN_REQ then HandleConnReq(m, p, k, now)
    else if p.state == Connecting && k.cmd == CMD_CONN_RSP then HandleConnRsp(m, p, k)
    else p
  }

  function HandlePing(m: Arith, p: PeerState, k: Packet, now: int): PeerState {
    if k.ret then p else SendUnreliable(m, p, Fresh(CMD_PONG, k.data), now)
  }

  function HandlePong(p: PeerState, k: Packet, now: int): PeerState {
    if k.data.Timestamp? then UpdateRtt(p, now - k.data.t) else p
  }

  /** The commands other than CLOSE; `replies` is what the application sends from
      inside handle_packet. */
  function HandleSequenced(m: Arith, p: PeerState, k: Packet, now: int, replies: seq<AppSend>): PeerState {
    if p.state != Run then p
    else if k.cmd == CMD_PING then HandlePing(m, p, k, now)
    else if k.cmd == CMD_PONG then HandlePong(p, k, now)
    else if k.cmd >= CMD_APP then SendAll(m, p.(up := p.up + [HandlePacket(k)]), replies, now)
    else p
  }

  /** The common tail: acknowledge a reliable packet, set the timer. */
  function Finish(m: Arith, p: PeerState, k: Packet, now: int): PeerState {
    Schedule(if k.rel then PostAck(m, p, now) else p, now)
  }

  /** Everything after the acknowledgement field has been processed. */
  function Receive(m: Arith, p: PeerState, k: Packet, now: int, replies: seq<AppSend>): PeerState {
    match Classify(m, p, k)
    case Unsequenced => Finish(m, HandleUnsequenced(m, p, k, now), k, now)
    case Retransmitted => Finish(m, p.(deadline := now + DROP_TIMEOUT), k, now)
    case Sequenced =>
      var p := Accept(p, k, now);
      if k.cmd == CMD_CLOSE then p.(state := Dead, up := p.up + [Dropped])
      else Finish(m, HandleSequenced(m, p, k, now, replies), k, now)
  }

  predicate Rejected(m: Arith, p: PeerState, k: Packet) {
    k.ack && BrokenAck(m, p, k.ackSeq)
  }

  /** The packet is an accepted CLOSE. */
  predicate Closes(m: Arith, p: PeerState, k: Packet) {
    !Rejected(m, p, k) && k.cmd == CMD_CLOSE
    && Classify(m, if k.ack then HandleAck(m, p, k.ackSeq) else p, k) == Sequenced
  }

  function Incoming(m: Arith, p: PeerState, k: Packet, now: int, replies: seq<AppSend>): PeerState {
    if Rejected(m, p, k) then p
    else Receive(m, if k.ack then HandleAck(m, p, k.ackSeq) else p, k, now, replies)
  }

  // ----- Service -----

  /** The header as it goes on the wire: an owed acknowledgement is written into it. */
  function Stamp(mustAck: bool, inRel: int, k: Packet): Packet {
    if mustAck then k.(ack := true, ackSeq := inRel) else k
  }

  /** The loop of peer_send_queue; `done` is what it has left behind in the queue. */
  function SendLoop(p: PeerState, now: int, done: seq<Packet>, todo: seq<Packet>): PeerState
    decreases |todo|
  {
    if todo == [] then p.(sendq := done)
    else
      var h := Stamp(p.mustAck, p.inRel, todo[0]);
      var p := p.(sent := p.sent + [h], lastOut := now);
      if h.rel && h.ret then p.(rto := Backoff(p.rto), sendq := done + [h] + todo[1..])
      else if h.rel then SendLoop(p, now, done + [h.(ret := true)], todo[1..])
      else SendLoop(p, now, done, todo[1..])
  }

  function SendQueue(p: PeerState, now: int): PeerState {
    SendLoop(p, now, [], p.sendq)
  }

  predicate TimedOut(p: PeerState, now: int) {
    p.deadline < now
  }

  predicate PingDue(p: PeerState, now: int) {
    p.sendq == [] && now - p.lastOut > ACTION_TIMEOUT
  }

  /** Check on a silent link. */
  function Probe(m: Arith, p: PeerState, now: int): PeerState {
    if PingDue(p, now) then Ping(m, p, now) else p
  }

  function Service(m: Arith, p: PeerState, now: int): PeerState {
    var p := p.(wake := None);
    if TimedOut(p, now) then p.(up := p.up + [Dropped])
    else Schedule(SendQueue(Probe(m, p, now), now), now)
  }
}
