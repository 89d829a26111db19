/** The 16-bit machine against the unbounded one: wrapping every number of the
    unbounded machine's state gives the state the 16-bit machine reaches, as long as
    the packets it receives are recent enough. */
module Refinement {
  import opened SeqNum
  import opened Packets
  import opened PeerSpec
  import opened Queues
  import opened Invariants
  import opened Session

  function ProjK(k: Packet): Packet {
    k.(ackSeq := Wrap16(k.ackSeq), relSeq := Wrap16(k.relSeq), unrelSeq := Wrap16(k.unrelSeq))
  }

  function ProjS(q: seq<Packet>): (r: seq<Packet>)
    ensures |r| == |q| && forall i :: 0 <= i < |q| ==> r[i] == ProjK(q[i])
  {
    seq(|q|, i requires 0 <= i < |q| => ProjK(q[i]))
  }

  function ProjC(c: Upcall): Upcall {
    match c
    case HandlePacket(k) => HandlePacket(ProjK(k))
    case Dropped => Dropped
  }

  function ProjU(up: seq<Upcall>): (r: seq<Upcall>)
    ensures |r| == |up| && forall i :: 0 <= i < |up| ==> r[i] == ProjC(up[i])
  {
    seq(|up|, i requires 0 <= i < |up| => ProjC(up[i]))
  }

  function Proj(p: PeerState): PeerState {
    p.(inRel := Wrap16(p.inRel), inUnrel := Wrap16(p.inUnrel),
       outRel := Wrap16(p.outRel), outUnrel := Wrap16(p.outUnrel), acked := Wrap16(p.acked),
       sendq := ProjS(p.sendq), enq := ProjS(p.enq), sent := ProjS(p.sent), acc := ProjS(p.acc),
       up := ProjU(p.up))
  }

  function ProjSystem(s: System): System {
    System(Proj(s.x), Proj(s.y))
  }

  predicate InHalf(d: int) {
    -0x8000 <= d < 0x8000
  }

  /** The acknowledgement number is within half the number space of everything the
      code compares it with. */
  predicate RecentAck(p: PeerState, ack: int) {
    && InHalf(ack - p.acked)
    && (ack >= p.acked ==>
          InHalf(ack - p.outRel) && forall i :: 0 <= i < |p.sendq| ==> InHalf(p.sendq[i].relSeq - ack))
  }

  /** So are the packet's own numbers. */
  predicate Recent(p: PeerState, k: Packet) {
    && -0x1_0000 < k.relSeq - p.inRel < 0x1_0000
    && (k.rel ==> k.relSeq - p.inRel != -0xFFFF)
    && (!k.rel && k.relSeq == p.inRel ==> InHalf(k.unrelSeq - p.inUnrel))
    && (k.ack ==> RecentAck(p, k.ackSeq))
    && (p.state == Connecting && k.cmd == CMD_CONN_RSP ==> k.ack)
  }

  // ----- Sending -----

  lemma SendCommutes(p: PeerState, pc: Packet, now: int)
    requires ProjK(pc) == pc
    ensures Proj(SendUnreliable(Unbounded, p, pc, now)) == SendUnreliable(Wrapped, Proj(p), pc, now)
    ensures Proj(SendReliable(Unbounded, p, pc, now)) == SendReliable(Wrapped, Proj(p), pc, now)
  {
    WrapStep(p.outUnrel, 1);
    WrapStep(p.outRel, 1);
    var k := Unreliable(Unbounded, p, pc);
    assert ProjS(p.sendq + [k]) == ProjS(p.sendq) + [ProjK(k)];
    assert ProjS(p.enq + [Strip(k)]) == ProjS(p.enq) + [Strip(ProjK(k))];
    var k' := Reliable(Unbounded, p, pc);
    assert ProjS(p.sendq + [k']) == ProjS(p.sendq) + [ProjK(k')];
    assert ProjS(p.enq + [Strip(k')]) == ProjS(p.enq) + [Strip(ProjK(k'))];
  }

  lemma {:induction false} SendAllCommutes(p: PeerState, msgs: seq<AppSend>, now: int)
    ensures Proj(SendAll(Unbounded, p, msgs, now)) == SendAll(Wrapped, Proj(p), msgs, now)
    decreases |msgs|
  {
    if msgs != [] {
      SendCommutes(p, Fresh(msgs[0].cmd, msgs[0].data), now);
      SendAllCommutes(PeerSpec.Send(Unbounded, p, msgs[0], now), msgs[1..], now);
    }
  }

  lemma CloseCommutes(p: PeerState, now: int)
    ensures Proj(SendCloseNoqueue(Unbounded, p, now)) == SendCloseNoqueue(Wrapped, Proj(p), now)
  {
    WrapStep(p.outUnrel, 1);
    var k := Unreliable(Unbounded, p, Fresh(CMD_CLOSE, Blank));
    assert ProjS(p.sent + [k]) == ProjS(p.sent) + [ProjK(k)];
    assert ProjS(p.enq + [Strip(k)]) == ProjS(p.enq) + [Strip(ProjK(k))];
  }

  // ----- Acknowledgements -----

  lemma {:induction false} DropAckedCommutes(q: seq<Packet>, ack: int)
    requires forall i :: 0 <= i < |q| ==> InHalf(q[i].relSeq - ack)
    ensures ProjS(DropAcked(Unbounded, q, ack)) == DropAcked(Wrapped, ProjS(q), Wrap16(ack))
    decreases |q|
  {
    if q != [] {
      SignedExact(q[0].relSeq, ack);
      assert ProjS(q)[1..] == ProjS(q[1..]);
      DropAckedCommutes(q[1..], ack);
    }
  }

  lemma HandleAckCommutes(p: PeerState, ack: int)
    requires RecentAck(p, ack)
    ensures PastAck(Wrapped, Proj(p), Wrap16(ack)) <==> PastAck(Unbounded, p, ack)
    ensures BrokenAck(Wrapped, Proj(p), Wrap16(ack)) <==> BrokenAck(Unbounded, p, ack)
    ensures Proj(HandleAck(Unbounded, p, ack)) == HandleAck(Wrapped, Proj(p), Wrap16(ack))
  {
    SignedExact(ack, p.acked);
    if ack >= p.acked {
      SignedExact(ack, p.outRel);
      DropAckedCommutes(p.sendq, ack);
    }
  }

  lemma {:induction false} DropAckedSuffix(m: Arith, q: seq<Packet>, ack: int) returns (n: nat)
    ensures n <= |q| && DropAcked(m, q, ack) == q[n..]
    ensures forall i :: 0 <= i < n ==> q[i].rel && q[i].ret && Delta(m, q[i].relSeq, ack) <= 0
    decreases |q|
  {
    n := 0;
    if q != [] && q[0].rel && q[0].ret && Delta(m, q[0].relSeq, ack) <= 0 {
      var n' := DropAckedSuffix(m, q[1..], ack);
      n := n' + 1;
      assert q[1..][n'..] == q[n..];
      assert forall i :: 0 < i < n ==> q[i] == q[1..][i - 1];
    }
  }

  /** Handling an acknowledgement leaves the same packets recent. */
  lemma HandleAckStillRecent(p: PeerState, ack: int)
    requires RecentAck(p, ack)
    ensures RecentAck(HandleAck(Unbounded, p, ack), ack)
  {
    var n := DropAckedSuffix(Unbounded, p.sendq, ack);
    var q' := p.sendq[n..];
    assert forall i :: 0 <= i < |q'| ==> q'[i] == p.sendq[n + i];
  }

  // ----- Receiving -----

  /** Every decision by 16-bit comparison is the decision on the true numbers. */
  lemma ClassifyCommutes(p: PeerState, k: Packet)
    requires Recent(p, k)
    ensures Classify(Wrapped, Proj(p), ProjK(k)) == Classify(Unbounded, p, k)
  {
    WrapEqual(k.relSeq, p.inRel);
    WrapStep(p.inRel, 1);
    WrapEqual(k.relSeq, p.inRel + 1);
    if !k.rel && k.relSeq == p.inRel {
      SignedExact(k.unrelSeq, p.inUnrel);
    }
  }

  lemma AcceptCommutes(p: PeerState, k: Packet, now: int)
    ensures Proj(Accept(p, k, now)) == Accept(Proj(p), ProjK(k), now)
  {
    assert ProjS(p.acc + [k]) == ProjS(p.acc) + [ProjK(k)];
  }

  lemma FinishCommutes(p: PeerState, k: Packet, now: int)
    ensures Proj(Finish(Unbounded, p, k, now)) == Finish(Wrapped, Proj(p), ProjK(k), now)
  {
    SendCommutes(p.(mustAck := true), Fresh(CMD_NOOP, Blank), now);
  }

  lemma HandleSequencedCommutes(p: PeerState, k: Packet, now: int, replies: seq<AppSend>)
    ensures Proj(HandleSequenced(Unbounded, p, k, now, replies))
         == HandleSequenced(Wrapped, Proj(p), ProjK(k), now, replies)
  {
    SendCommutes(p, Fresh(CMD_PONG, k.data), now);
    var p' := p.(up := p.up + [HandlePacket(k)]);
    assert ProjU(p'.up) == ProjU(p.up) + [HandlePacket(ProjK(k))];
    SendAllCommutes(p', replies, now);
  }

  lemma HandleUnsequencedCommutes(p: PeerState, k: Packet, now: int)
    requires p.state == Connecting && k.cmd == CMD_CONN_RSP ==> RecentAck(p, k.ackSeq)
    ensures Proj(HandleUnsequenced(Unbounded, p, k, now)) == HandleUnsequenced(Wrapped, Proj(p), ProjK(k), now)
  {
    if p.state == New && k.cmd == CMD_CONN_REQ {
      SendCommutes(p, Fresh(CMD_CONN_RSP, Word(1)), now);
      assert ProjS(p.acc + [k]) == ProjS(p.acc) + [ProjK(k)];
    } else if p.state == Connecting && k.cmd == CMD_CONN_RSP {
      HandleAckCommutes(p.(inRel := k.relSeq), k.ackSeq);
    }
  }

  lemma ReceiveCommutes(p: PeerState, k: Packet, now: int, replies: seq<AppSend>)
    requires Recent(p, k)
    ensures Proj(Receive(Unbounded, p, k, now, replies)) == Receive(Wrapped, Proj(p), ProjK(k), now, replies)
  {
    ClassifyCommutes(p, k);
    match Classify(Unbounded, p, k)
    case Unsequenced =>
      HandleUnsequencedCommutes(p, k, now);
      FinishCommutes(HandleUnsequenced(Unbounded, p, k, now), k, now);
    case Retransmitted =>
      FinishCommutes(p.(deadline := now + DROP_TIMEOUT), k, now);
    case Sequenced =>
      AcceptCommutes(p, k, now);
      var p' := Accept(p, k, now);
      if k.cmd == CMD_CLOSE {
        assert ProjU(p'.up + [Dropped]) == ProjU(p'.up) + [Dropped];
      } else {
        HandleSequencedCommutes(p', k, now, replies);
        FinishCommutes(HandleSequenced(Unbounded, p', k, now, replies), k, now);
      }
  }

  lemma IncomingCommutes(p: PeerState, k: Packet, now: int, replies: seq<AppSend>)
    requires Recent(p, k)
    ensures Rejected(Wrapped, Proj(p), ProjK(k)) <==> Rejected(Unbounded, p, k)
    ensures Proj(Incoming(Unbounded, p, k, now, replies)) == Incoming(Wrapped, Proj(p), ProjK(k), now, replies)
  {
    var p' := p;
    if k.ack {
      HandleAckCommutes(p, k.ackSeq);
      p' := HandleAck(Unbounded, p, k.ackSeq);
      HandleAckStillRecent(p, k.ackSeq);
    }
    if !Rejected(Unbounded, p, k) {
      ReceiveCommutes(p', k, now, replies);
    }
  }

  // ----- Service -----

  lemma {:induction false} SendLoopCommutes(p: PeerState, now: int, done: seq<Packet>, todo: seq<Packet>)
    ensures Proj(SendLoop(p, now, done, todo)) == SendLoop(Proj(p), now, ProjS(done), ProjS(todo))
    decreases |todo|
  {
    if todo != [] {
      var h := Stamp(p.mustAck, p.inRel, todo[0]);
      WrapStep(p.inRel, 0);
      assert ProjK(h) == Stamp(p.mustAck, Wrap16(p.inRel), ProjK(todo[0]));
      assert ProjS(p.sent + [h]) == ProjS(p.sent) + [ProjK(h)];
      assert ProjS(todo)[1..] == ProjS(todo[1..]);
      var p' := p.(sent := p.sent + [h], lastOut := now);
      if h.rel && h.ret {
        assert ProjS(done + [h] + todo[1..]) == ProjS(done) + [ProjK(h)] + ProjS(todo[1..]);
      } else if h.rel {
        assert ProjS(done + [h.(ret := true)]) == ProjS(done) + [ProjK(h).(ret := true)];
        SendLoopCommutes(p', now, done + [h.(ret := true)], todo[1..]);
      } else {
        SendLoopCommutes(p', now, done, todo[1..]);
      }
    }
  }

  lemma SendQueueCommutes(p: PeerState, now: int)
    ensures Proj(SendQueue(p, now)) == SendQueue(Proj(p), now)
  {
    SendLoopCommutes(p, now, [], p.sendq);
    assert ProjS([]) == [];
  }

  lemma ScheduleCommutes(p: PeerState, now: int)
    ensures Proj(Schedule(p, now)) == Schedule(Proj(p), now)
  {
  }

  lemma ProbeCommutes(p: PeerState, now: int)
    ensures Proj(Probe(Unbounded, p, now)) == Probe(Wrapped, Proj(p), now)
  {
    SendCommutes(p, Fresh(CMD_PING, Timestamp(now)), now);
  }

  lemma ServiceCommutes(p: PeerState, now: int)
    ensures Proj(Service(Unbounded, p, now)) == Service(Wrapped, Proj(p), now)
  {
    var p0 := p.(wake := None);
    if TimedOut(p0, now) {
      assert ProjU(p.up + [Dropped]) == ProjU(p.up) + [Dropped];
    } else {
      ProbeCommutes(p0, now);
      var p1 := Probe(Unbounded, p0, now);
      SendQueueCommutes(p1, now);
      ScheduleCommutes(SendQueue(p1, now), now);
    }
  }

  // ----- A step of the pair -----

  predicate RecentStep(x: PeerState, y: PeerState, act: Action) {
    act.Deliver? && act.i < |y.sent| ==> Recent(x, y.sent[act.i])
  }

  lemma ActCommutes(x: PeerState, y: PeerState, act: Action)
    requires RecentStep(x, y, act)
    ensures Proj(Act(Unbounded, x, y, act)) == Act(Wrapped, Proj(x), Proj(y), act)
  {
    match act
    case Send(msg, now) => SendCommutes(x, Fresh(msg.cmd, msg.data), now);
    case Serve(now) => ServiceCommutes(x, now);
    case Close(now) => CloseCommutes(x, now);
    case Deliver(i, now, replies) =>
      if i < |y.sent| {
        IncomingCommutes(x, y.sent[i], now, replies);
      }
  }

  // ----- Window and packet age -----

  /** Fewer than 2^15 reliable numbers between the last acknowledged and the last issued. */
  predicate Window(p: PeerState) {
    p.outRel - p.acked < 0x8000
  }

  /** k, sent by y, reaches x before y issues 2^15 more reliable packets and before y
      accepts more than 2^15 after the one it acknowledges in k; unreliable packets
      that follow the same reliable one are less than 2^15 apart. */
  predicate YoungPacket(x: PeerState, y: PeerState, k: Packet) {
    && y.outRel - k.relSeq < 0x8000
    && (k.ack ==> y.inRel - k.ackSeq <= 0x8000)
    && (!k.rel && k.relSeq == x.inRel ==> InHalf(k.unrelSeq - x.inUnrel))
  }

  lemma YoungIsRecent(x: PeerState, y: PeerState, bX: int, bY: int, k: Packet)
    requires Linked(x, y, bX, bY) && x.state in {Run, Dead}
    requires k in y.sent && Window(x) && Window(y) && YoungPacket(x, y, k)
    ensures Recent(x, k)
  {
    ChainBounds(y.enq, bY, 0, y.outRel, y.outUnrel);
    ChainBounds(x.sendq, Lo(x, bX), 0, x.outRel, x.outUnrel);
    assert k.relSeq <= y.outRel by {
      var i :| 0 <= i < |y.enq| && y.enq[i] == Strip(k);
    }
    if k.ack {
      assert k.ackSeq <= y.inRel;
      forall i | 0 <= i < |x.sendq|
        ensures Lo(x, bX) <= x.sendq[i].relSeq <= x.outRel
      {
        assert Before(Lo(x, bX), 0, x.sendq[i].relSeq, x.sendq[i].unrelSeq);
      }
    }
  }
}
