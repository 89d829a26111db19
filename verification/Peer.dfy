/** struct rudp_peer of src/peer.c: the functions of the source as methods that update
    the peer in place, each proved to do what PeerSpec says of it in 16-bit arithmetic,
    and to neither leak nor lose a packet chain. */
module Peer {
  import opened SeqNum
  import opened Packets
  import opened PeerSpec
  import opened Pool
  import opened Sequences
  import opened Transmission

  type u16 = x: int | 0 <= x < 0x1_0000

  /** A delay cut to what is left until the deadline, and at least 1. */
  function Within(delay: int, left: int): int {
    var d := if delay < left then delay else left;
    if d < 1 then 1 else d
  }

  class Peer {
    const rudp: Rudp
    var deadline: int
    var lastOut: int
    var srtt: int
    var rttvar: int
    var rto: int
    var inRel: u16
    var inUnrel: u16
    var outRel: u16
    var outUnrel: u16
    var acked: u16
    var mustAck: bool
    var wake: Option<int>
    var state: RunState
    var sendq: seq<PacketChain>
    ghost var queue: seq<Packet>
    ghost var enq: seq<Packet>
    ghost var sent: seq<Packet>
    ghost var acc: seq<Packet>
    ghost var up: seq<Upcall>

    ghost function Abs(): PeerState
      reads this
    {
      PeerState(deadline, lastOut, srtt, rttvar, rto, inRel, inUnrel, outRel, outUnrel, acked,
                mustAck, wake, state, queue, enq, sent, acc, up)
    }

    /** The send queue holds these packets. */
    ghost predicate Holds()
      reads this`sendq, this`queue, SetOf(sendq)
    {
      |queue| == |sendq| && forall i :: 0 <= i < |sendq| ==> sendq[i].packet == queue[i]
    }

    /** The chains of the send queue are in use, each once. */
    ghost predicate Valid()
      reads this`sendq, this`queue, rudp, SetOf(sendq)
    {
      rudp.Valid() && Distinct(sendq) && SetOf(sendq) <= rudp.InUse() && Holds()
    }

    /** The chains in use elsewhere: other peers' queues, callers' hands. */
    ghost function Others(): set<PacketChain>
      reads this`sendq, rudp
    {
      rudp.InUse() - SetOf(sendq)
    }

    /** The chains the peer may write: those of its queue and of the pool. */
    ghost function Mine(): set<PacketChain>
      reads this`sendq, rudp
    {
      rudp.live - Others()
    }

    ghost function Repr(): set<object>
      reads this`sendq, rudp
    {
      {this, rudp} + Mine()
    }

    // ----- Initialisation -----

    /** rudp_peer_init; rand is what rudp_random gives. */
    constructor (rudp: Rudp, rand: u16, now: int)
      requires rudp.Valid()
      ensures Valid() && this.rudp == rudp && sendq == [] && Others() == rudp.InUse()
      ensures Abs() == Init(Wrapped, rand, now)
      ensures srtt == 100 && rttvar == 50 && rto == 3000 && deadline == now + 10000 && wake == Some(now + 5000)
      ensures state == New && inRel == 0xFFFF && outRel == rand && acked == Wrap16(rand - 1)
    {
      this.rudp := rudp;
      deadline := now + DROP_TIMEOUT;
      inRel := 0xFFFF;
      inUnrel := 0;
      outRel := rand;
      outUnrel := 0;
      acked := Wrap16(rand - 1);
      state := New;
      lastOut := now;
      srtt := 100;
      rttvar := 50;
      rto := MAX_RTO;
      mustAck := false;
      wake := None;
      sendq, queue := [], [];
      enq, sent, acc, up := [], [], [], [];
      new;
      ServiceSchedule(now);
    }

    // ----- Timers -----

    method UpdateRtt(sample: int)
      requires Valid()
      modifies this`srtt, this`rttvar, this`rto
      ensures Valid()
      ensures Abs() == PeerSpec.UpdateRtt(old(Abs()), sample)
    {
      rttvar := TruncDiv(3 * rttvar + PeerSpec.Abs(srtt - sample), 4);
      srtt := TruncDiv(7 * srtt + sample, 8);
      rto := srtt;
      if rto > MAX_RTO {
        rto := MAX_RTO;
      }
    }

    method RtoBackoff()
      requires Valid()
      modifies this`rto
      ensures Valid()
      ensures Abs() == old(Abs()).(rto := Backoff(old(rto)))
    {
      rto := rto * 2;
      if rto > MAX_RTO {
        rto := MAX_RTO;
      }
    }

    method ServiceSchedule(now: int)
      requires Valid()
      modifies this`wake
      ensures Valid()
      ensures Abs() == Schedule(old(Abs()), now)
      ensures sendq == [] ==> wake == Some(now + Within(5000, deadline - now))
      ensures sendq != [] && queue[0].ret ==> wake == Some(now + Within(now - lastOut + rto, deadline - now))
      ensures sendq != [] && !queue[0].ret ==> wake == Some(now + 1)
    {
      var delta := ACTION_TIMEOUT;
      if sendq != [] {
        if sendq[0].packet.ret {
          delta := now - lastOut + rto;
        } else {
          delta := 0;
        }
      }
      var toDelta := deadline - now;
      if toDelta < delta {
        delta := toDelta;
      }
      if delta <= 0 {
        delta := 1;
      }
      wake := Some(now + delta);
    }

    // ----- Sending -----

    /** rudp_list_append on the send queue, of a chain with its header filled. */
    method AppendChain(pc: PacketChain, k: Packet)
      requires Valid() && pc in Others()
      modifies this`sendq, this`queue, this`enq, pc`packet
      ensures Valid() && sendq == old(sendq) + [pc] && Others() == old(Others()) - {pc}
      ensures queue == old(queue) + [k] && enq == old(enq) + [Strip(k)]
    {
      pc.packet := k;
      sendq := sendq + [pc];
      queue := queue + [k];
      enq := enq + [Strip(k)];
      assert SetOf(sendq) == SetOf(old(sendq)) + {pc};
    }

    /** rudp_peer_send_unreliable: the peer takes the chain from its holder. */
    method SendUnreliable(pc: PacketChain, now: int)
      requires Valid() && pc in Others()
      modifies this, pc`packet
      ensures Valid() && sendq == old(sendq) + [pc] && Others() == old(Others()) - {pc}
      ensures Abs() == PeerSpec.SendUnreliable(Wrapped, old(Abs()), old(pc.packet), now)
    {
      ghost var p, k := Abs(), Unreliable(Wrapped, Abs(), pc.packet);
      outUnrel := Wrap16(outUnrel + 1);
      AppendChain(pc, pc.packet.(rel := false, ack := false, ret := false, relSeq := outRel, unrelSeq := outUnrel));
      assert Others() == old(Others()) - {pc};
      assert Abs() == p.(outUnrel := k.unrelSeq, sendq := p.sendq + [k], enq := p.enq + [Strip(k)]);
      ServiceSchedule(now);
    }

    /** rudp_peer_send_reliable */
    method SendReliable(pc: PacketChain, now: int)
      requires Valid() && pc in Others()
      modifies this, pc`packet
      ensures Valid() && sendq == old(sendq) + [pc] && Others() == old(Others()) - {pc}
      ensures Abs() == PeerSpec.SendReliable(Wrapped, old(Abs()), old(pc.packet), now)
    {
      ghost var p, k := Abs(), Reliable(Wrapped, Abs(), pc.packet);
      outRel := Wrap16(outRel + 1);
      outUnrel := 0;
      AppendChain(pc, pc.packet.(rel := true, ack := false, ret := false, relSeq := outRel, unrelSeq := 0));
      assert Others() == old(Others()) - {pc};
      assert Abs() == p.(outRel := k.relSeq, outUnrel := 0, sendq := p.sendq + [k], enq := p.enq + [Strip(k)]);
      ServiceSchedule(now);
    }

    /** Write the packet of a chain that is not in the queue. */
    method Fill(pc: PacketChain, k: Packet)
      requires Valid() && pc in Others()
      modifies pc`packet
      ensures Valid() && pc.packet == k
    {
      assert pc !in SetOf(sendq);
      pc.packet := k;
    }

    /** A chain from the pool is a chain of nobody's. */
    method Obtain(size: nat) returns (pc: PacketChain)
      requires Valid()
      modifies rudp, Mine()
      ensures Valid() && pc !in old(Others()) && Others() == old(Others()) + {pc}
      ensures fresh(rudp.live - old(rudp.live)) && pc in rudp.live
    {
      ghost var mine := SetOf(sendq);
      pc := rudp.Alloc(size);
      assert pc !in mine;
    }

    /** A chain from the pool, filled. */
    method Take(cmd: int, data: Payload, size: nat) returns (pc: PacketChain)
      requires Valid()
      modifies rudp, Mine()
      ensures Valid() && pc !in old(Others()) && Others() == old(Others()) + {pc}
      ensures pc.packet == Fresh(cmd, data) && Abs() == old(Abs())
      ensures fresh(rudp.live - old(rudp.live)) && pc in rudp.live
    {
      pc := Obtain(size);
      Fill(pc, Fresh(cmd, data));
    }

    /** Take a chain, fill it and queue it: the pattern of every sender of a packet. */
    method Push(reliable: bool, cmd: int, data: Payload, size: nat, now: int)
      requires Valid()
      modifies Repr()
      ensures Valid() && Others() == old(Others()) && fresh(rudp.live - old(rudp.live))
      ensures Abs() == if reliable then PeerSpec.SendReliable(Wrapped, old(Abs()), Fresh(cmd, data), now)
                       else PeerSpec.SendUnreliable(Wrapped, old(Abs()), Fresh(cmd, data), now)
    {
      var pc := Take(cmd, data, size);
      if reliable {
        SendReliable(pc, now);
      } else {
        SendUnreliable(pc, now);
      }
    }

    // ----- Acknowledgements -----

    /** rudp_list_remove and rudp_packet_chain_free on element i of the send queue. */
    method Unqueue(i: nat)
      requires Valid() && i < |sendq|
      modifies this`sendq, this`queue, rudp
      ensures Valid() && Others() == old(Others())
      ensures sendq == old(sendq[..i] + sendq[i + 1..]) && queue == old(queue[..i] + queue[i + 1..])
      ensures rudp.live <= old(rudp.live)
    {
      var pc := sendq[i];
      assert sendq == sendq[..i] + [pc] + sendq[i + 1..];
      sendq := sendq[..i] + sendq[i + 1..];
      queue := queue[..i] + queue[i + 1..];
      assert SetOf(sendq) == SetOf(old(sendq)) - {pc};
      rudp.Free(pc);
    }

    /** The loop of peer_handle_ack. */
    method UnqueueAcked(ack: u16)
      requires Valid()
      modifies this`sendq, this`queue, rudp
      ensures Valid() && Others() == old(Others()) && rudp.live <= old(rudp.live)
      ensures queue == DropAcked(Wrapped, old(queue), ack)
    {
      while sendq != []
        invariant Valid() && Others() == old(Others()) && rudp.live <= old(rudp.live)
        invariant DropAcked(Wrapped, queue, ack) == DropAcked(Wrapped, old(queue), ack)
        decreases |sendq|
      {
        var header := sendq[0].packet;
        var delta := Signed16(header.relSeq - ack);
        if !header.rel || !header.ret {
          break;
        }
        if delta > 0 {
          break;
        }
        assert queue[..0] + queue[1..] == queue[1..];
        Unqueue(0);
      }
    }

    /** peer_handle_ack; the result says that the acknowledgement is broken. */
    method HandleAck(ack: u16) returns (broken: bool)
      requires Valid()
      modifies this, rudp
      ensures Valid() && Others() == old(Others()) && rudp.live <= old(rudp.live)
      ensures broken == BrokenAck(Wrapped, old(Abs()), ack)
      ensures Abs() == PeerSpec.HandleAck(Wrapped, old(Abs()), ack)
    {
      var ackDelta := Signed16(ack - acked);
      var advDelta := Signed16(ack - outRel);
      if ackDelta < 0 {
        return false;
      }
      if advDelta > 0 {
        return true;
      }
      acked := ack;
      UnqueueAcked(ack);
      return false;
    }

    /** peer_post_ack */
    method PostAck(now: int)
      requires Valid()
      modifies Repr()
      ensures Valid() && Others() == old(Others()) && fresh(rudp.live - old(rudp.live))
      ensures Abs() == PeerSpec.PostAck(Wrapped, old(Abs()), now)
      ensures mustAck && (old(sendq) != [] ==> sendq == old(sendq) && queue == old(queue))
      ensures old(sendq) == [] ==>
                queue == [Packet(0, false, false, false, 0, old(outRel), Wrap16(old(outUnrel) + 1), Blank)]
    {
      mustAck := true;
      if sendq != [] {
        return;
      }
      Push(false, CMD_NOOP, Blank, 12, now);
      ServiceSchedule(now);
    }

    // ----- Receiving -----

    /** peer_analyse_reliable */
    method AnalyseReliable(reliableSeq: u16) returns (c: PacketClass)
      modifies this`inRel, this`inUnrel
      ensures c == if old(inRel) == reliableSeq then Retransmitted
                   else if Wrap16(old(inRel) + 1) != reliableSeq then Unsequenced else Sequenced
      ensures if c == Sequenced then inRel == reliableSeq && inUnrel == 0
              else inRel == old(inRel) && inUnrel == old(inUnrel)
    {
      if inRel == reliableSeq {
        return Retransmitted;
      }
      if Wrap16(inRel + 1) != reliableSeq {
        return Unsequenced;
      }
      inRel := reliableSeq;
      inUnrel := 0;
      return Sequenced;
    }

    /** peer_analyse_unreliable */
    method AnalyseUnreliable(reliableSeq: u16, unreliableSeq: u16) returns (c: PacketClass)
      modifies this`inUnrel
      ensures c == if old(inRel) != reliableSeq || Signed16(unreliableSeq - old(inUnrel)) <= 0
                   then Unsequenced else Sequenced
      ensures inUnrel == if c == Sequenced then unreliableSeq else old(inUnrel)
    {
      if inRel != reliableSeq {
        return Unsequenced;
      }
      var unreliableDelta := Signed16(unreliableSeq - inUnrel);
      if unreliableDelta <= 0 {
        return Unsequenced;
      }
      inUnrel := unreliableSeq;
      return Sequenced;
    }

    /** Both analyses are the classification of PeerSpec, and move the numbers as it says. */
    method Analyse(k: Packet) returns (c: PacketClass)
      requires OnWire(k)
      modifies this`inRel, this`inUnrel
      ensures c == Classify(Wrapped, old(Abs()), k)
      ensures Abs() == if c == Sequenced
                       then old(Abs()).(inRel := k.relSeq, inUnrel := if k.rel then 0 else k.unrelSeq)
                       else old(Abs())
    {
      if k.rel {
        c := AnalyseReliable(k.relSeq);
      } else {
        c := AnalyseUnreliable(k.relSeq, k.unrelSeq);
      }
    }

    /** peer_handle_ping */
    method HandlePing(k: Packet, size: nat, now: int)
      requires Valid()
      modifies Repr()
      ensures Valid() && Others() == old(Others()) && fresh(rudp.live - old(rudp.live))
      ensures Abs() == PeerSpec.HandlePing(Wrapped, old(Abs()), k, now)
    {
      if k.ret {
        return;
      }
      Push(false, CMD_PONG, k.data, size, now);
    }

    /** peer_handle_pong */
    method HandlePong(k: Packet, now: int)
      requires Valid()
      modifies this`srtt, this`rttvar, this`rto
      ensures Valid() && Abs() == PeerSpec.HandlePong(old(Abs()), k, now)
    {
      if k.data.Timestamp? {
        var delta := now - k.data.t;
        UpdateRtt(delta);
      }
    }

    /** What a handler sends from inside handle_packet. */
    method SendReplies(replies: seq<AppSend>, size: nat, now: int)
      requires Valid()
      modifies Repr()
      ensures Valid() && Others() == old(Others()) && fresh(rudp.live - old(rudp.live))
      ensures Abs() == SendAll(Wrapped, old(Abs()), replies, now)
    {
      for i := 0 to |replies|
        invariant Valid() && Others() == old(Others()) && fresh(rudp.live - old(rudp.live))
        invariant SendAll(Wrapped, Abs(), replies[i..], now) == SendAll(Wrapped, old(Abs()), replies, now)
      {
        assert replies[i..][0] == replies[i] && replies[i..][1..] == replies[i + 1..];
        Push(replies[i].reliable, replies[i].cmd, replies[i].data, size, now);
      }
      assert replies[|replies|..] == [];
    }

    /** What a connection request settles in its receiver. */
    method TakeBaseline(k: Packet)
      requires OnWire(k)
      modifies this`inRel, this`state, this`acc
      ensures Abs() == old(Abs()).(inRel := k.relSeq, state := Run, acc := old(acc) + [k])
    {
      inRel := k.relSeq;
      state := Run;
      acc := acc + [k];
    }

    /** peer_handle_connreq, and what its caller does with the baseline */
    method HandleConnReq(k: Packet, now: int)
      requires Valid() && OnWire(k)
      modifies Repr()
      ensures Valid() && Others() == old(Others()) && fresh(rudp.live - old(rudp.live))
      ensures Abs() == PeerSpec.HandleConnReq(Wrapped, old(Abs()), k, now)
    {
      Push(false, CMD_CONN_RSP, Word(1), 12, now);
      ServiceSchedule(now);
      TakeBaseline(k);
    }

    method HandleConnRsp(k: Packet)
      requires Valid() && OnWire(k)
      modifies this, rudp
      ensures Valid() && Others() == old(Others()) && rudp.live <= old(rudp.live)
      ensures Abs() == PeerSpec.HandleConnRsp(Wrapped, old(Abs()), k)
    {
      inRel := k.relSeq;
      var _ := HandleAck(k.ackSeq);
      state := Run;
    }

    /** The handshake in the UNSEQUENCED branch of rudp_peer_incoming_packet. */
    method HandleUnsequenced(k: Packet, now: int)
      requires Valid() && OnWire(k)
      modifies Repr()
      ensures Valid() && Others() == old(Others()) && fresh(rudp.live - old(rudp.live))
      ensures Abs() == PeerSpec.HandleUnsequenced(Wrapped, old(Abs()), k, now)
    {
      if state == New && k.cmd == CMD_CONN_REQ {
        HandleConnReq(k, now);
      } else if state == Connecting && k.cmd == CMD_CONN_RSP {
        HandleConnRsp(k);
      }
    }

    /** The commands of the SEQUENCED branch other than CLOSE. */
    method HandleSequenced(k: Packet, size: nat, now: int, replies: seq<AppSend>)
      requires Valid()
      modifies Repr()
      ensures Valid() && Others() == old(Others()) && fresh(rudp.live - old(rudp.live))
      ensures Abs() == PeerSpec.HandleSequenced(Wrapped, old(Abs()), k, now, replies)
    {
      if state != Run {
        return;
      }
      if k.cmd == CMD_PING {
        HandlePing(k, size, now);
      } else if k.cmd == CMD_PONG {
        HandlePong(k, now);
      } else if k.cmd >= CMD_APP {
        up := up + [HandlePacket(k)];
        SendReplies(replies, size, now);
      }
    }

    method Finish(k: Packet, now: int)
      requires Valid()
      modifies Repr()
      ensures Valid() && Others() == old(Others()) && fresh(rudp.live - old(rudp.live))
      ensures Abs() == PeerSpec.Finish(Wrapped, old(Abs()), k, now)
    {
      if k.rel {
        PostAck(now);
      }
      ServiceSchedule(now);
    }

    /** The UNSEQUENCED branch, to the end. */
    method OnUnsequenced(k: Packet, now: int)
      requires Valid() && OnWire(k)
      modifies Repr()
      ensures Valid() && Others() == old(Others()) && fresh(rudp.live - old(rudp.live))
      ensures Abs() == PeerSpec.Finish(Wrapped, PeerSpec.HandleUnsequenced(Wrapped, old(Abs()), k, now), k, now)
    {
      HandleUnsequenced(k, now);
      Finish(k, now);
    }

    /** The RETRANSMITTED branch, to the end. */
    method OnRetransmitted(k: Packet, now: int)
      requires Valid()
      modifies Repr()
      ensures Valid() && Others() == old(Others()) && fresh(rudp.live - old(rudp.live))
      ensures Abs() == PeerSpec.Finish(Wrapped, old(Abs()).(deadline := now + DROP_TIMEOUT), k, now)
    {
      deadline := now + DROP_TIMEOUT;
      Finish(k, now);
    }

    /** A packet is sequenced: the deadline moves. */
    method NoteSequenced(k: Packet, now: int)
      modifies this`deadline, this`acc
      ensures Abs() == old(Abs()).(deadline := now + DROP_TIMEOUT, acc := old(acc) + [k])
    {
      deadline := now + DROP_TIMEOUT;
      acc := acc + [k];
    }

    /** The far side closed. */
    method Die()
      modifies this`state, this`up
      ensures Abs() == old(Abs()).(state := Dead, up := old(up) + [Dropped])
    {
      state := Dead;
      up := up + [Dropped];
    }

    /** The SEQUENCED branch, once the numbers have moved. */
    method OnSequenced(k: Packet, size: nat, now: int, replies: seq<AppSend>)
      requires Valid()
      modifies Repr()
      ensures Valid() && Others() == old(Others()) && fresh(rudp.live - old(rudp.live))
      ensures Abs() == var p := old(Abs()).(deadline := now + DROP_TIMEOUT, acc := old(acc) + [k]);
                       if k.cmd == CMD_CLOSE then p.(state := Dead, up := p.up + [Dropped])
                       else PeerSpec.Finish(Wrapped, PeerSpec.HandleSequenced(Wrapped, p, k, now, replies), k, now)
    {
      NoteSequenced(k, now);
      if k.cmd == CMD_CLOSE {
        Die();
        return;
      }
      HandleSequenced(k, size, now, replies);
      Finish(k, now);
    }

    /** rudp_peer_incoming_packet after the acknowledgement field. */
    method Receive(k: Packet, size: nat, now: int, replies: seq<AppSend>) returns (dropped: bool)
      requires Valid() && OnWire(k)
      modifies Repr()
      ensures Valid() && Others() == old(Others()) && fresh(rudp.live - old(rudp.live))
      ensures dropped == (Classify(Wrapped, old(Abs()), k) == Sequenced && k.cmd == CMD_CLOSE)
      ensures Abs() == PeerSpec.Receive(Wrapped, old(Abs()), k, now, replies)
    {
      var c := Analyse(k);
      dropped := c == Sequenced && k.cmd == CMD_CLOSE;
      match c {
        case Unsequenced => OnUnsequenced(k, now);
        case Retransmitted => OnRetransmitted(k, now);
        case Sequenced => OnSequenced(k, size, now, replies);
      }
    }

    /** rudp_peer_incoming_packet; size is the length of the packet received. The results
        say that it was ignored for its broken acknowledgement (EINVAL), and that the
        handler was told that the peer dropped. */
    method IncomingPacket(k: Packet, size: nat, now: int, replies: seq<AppSend>) returns (err: bool, dropped: bool)
      requires Valid() && OnWire(k)
      modifies Repr()
      ensures Valid() && Others() == old(Others()) && fresh(rudp.live - old(rudp.live))
      ensures err == Rejected(Wrapped, old(Abs()), k) && dropped == Closes(Wrapped, old(Abs()), k)
      ensures Abs() == Incoming(Wrapped, old(Abs()), k, now, replies)
    {
      if k.ack {
        var broken := HandleAck(k.ackSeq);
        if broken {
          return true, false;
        }
      }
      dropped := Receive(k, size, now, replies);
      return false, dropped;
    }

    // ----- Service -----

    /** peer_send_raw: what goes on the wire is the history `sent`. */
    method SendRaw(k: Packet, now: int)
      modifies this`sent, this`lastOut
      ensures Abs() == old(Abs()).(sent := old(sent) + [k], lastOut := now)
    {
      sent := sent + [k];
      lastOut := now;
    }

    /** Write a header in the queue. */
    method SetHeader(pc: PacketChain, k: Packet, ghost i: nat)
      requires Valid() && i < |sendq| && pc == sendq[i]
      modifies this`queue, pc`packet
      ensures Valid() && queue == old(queue)[i := k]
    {
      pc.packet := k;
      queue := queue[i := k];
    }

    /** Stamp the header of element i and put it on the wire. */
    method Transmit(pc: PacketChain, now: int, ghost i: nat) returns (header: Packet)
      requires Valid() && i < |sendq| && pc == sendq[i]
      modifies this`queue, this`sent, this`lastOut, pc`packet
      ensures Valid() && header == pc.packet == Stamp(mustAck, inRel, old(queue[i]))
      ensures queue == old(queue)[i := header]
      ensures sent == old(sent) + [header] && lastOut == now
    {
      if mustAck {
        SetHeader(pc, pc.packet.(ack := true, ackSeq := inRel), i);
      }
      header := pc.packet;
      SendRaw(header, now);
    }

    /** One turn of the loop of peer_send_queue, on element i: the packet as it goes on
        the wire, and what the loop does of it. */
    method SendAt(i: nat, now: int) returns (h: Packet)
      requires Valid() && i < |sendq|
      modifies this`sendq, this`queue, this`sent, this`lastOut, this`rto, rudp, Mine()
      ensures Valid() && Others() == old(Others()) && rudp.live <= old(rudp.live)
      ensures h == Stamp(mustAck, inRel, old(queue[i]))
      ensures sent == old(sent) + [h] && lastOut == now
      ensures rto == if h.rel && h.ret then Backoff(old(rto)) else old(rto)
      ensures queue == old(queue[..i]) + (if !h.rel then [] else [h.(ret := true)]) + old(queue[i + 1..])
    {
      var pc := sendq[i];
      assert pc in SetOf(sendq);
      h := Transmit(pc, now, i);
      if h.rel && h.ret {
        RtoBackoff();
      } else if h.rel {
        SetHeader(pc, h.(ret := true), i);
      } else {
        Unqueue(i);
      }
    }

    /** The loop of peer_send_queue. */
    method SendLoop(now: int)
      requires Valid()
      modifies this`sendq, this`queue, this`sent, this`lastOut, this`rto, rudp, Mine()
      ensures Valid() && Others() == old(Others()) && rudp.live <= old(rudp.live)
      ensures var r := PeerSpec.SendQueue(old(Abs()), now);
              queue == r.sendq && sent == r.sent && lastOut == r.lastOut && rto == r.rto
    {
      ghost var p := Abs();
      var i := 0;
      while i < |sendq|
        invariant Valid() && Others() == old(Others()) && rudp.live <= old(rudp.live)
        invariant i <= |sendq| && rto == p.rto
        invariant PeerSpec.SendLoop(p.(sent := sent, lastOut := lastOut), now, queue[..i], queue[i..]) == PeerSpec.SendQueue(p, now)
        decreases |sendq| - i
      {
        ghost var done, todo := queue[..i], queue[i..];
        var header := SendAt(i, now);
        if header.rel && header.ret {
          assert queue == done + [header] + todo[1..];
          return;
        }
        if header.rel {
          assert queue[..i + 1] == done + [header.(ret := true)] && queue[i + 1..] == todo[1..];
          i := i + 1;
        } else {
          assert queue[..i] == done && queue[i..] == todo[1..];
        }
      }
      assert queue[..i] == queue && queue[i..] == [];
    }

    /** peer_send_queue */
    method SendQueue(now: int)
      requires Valid()
      modifies this`sendq, this`queue, this`sent, this`lastOut, this`rto, rudp, Mine()
      ensures Valid() && Others() == old(Others()) && rudp.live <= old(rudp.live)
      ensures Abs() == PeerSpec.SendQueue(old(Abs()), now)
    {
      SendLoopStamped(Abs(), now, [], queue);
      SendLoop(now);
    }

    /** The part of peer_service that checks on a silent link, with peer_ping. */
    method Probe(now: int)
      requires Valid()
      modifies Repr()
      ensures Valid() && Others() == old(Others()) && fresh(rudp.live - old(rudp.live))
      ensures Abs() == PeerSpec.Probe(Wrapped, old(Abs()), now)
    {
      if sendq == [] {
        var outDelta := now - lastOut;
        if outDelta > ACTION_TIMEOUT {
          Push(true, CMD_PING, Timestamp(now), 16, now);
        }
      }
    }

    /** peer_service; the result says that the handler was told that the peer dropped. */
    method Service(now: int) returns (dropped: bool)
      requires Valid()
      modifies Repr()
      ensures Valid() && Others() == old(Others()) && fresh(rudp.live - old(rudp.live))
      ensures dropped == TimedOut(old(Abs()), now)
      ensures Abs() == PeerSpec.Service(Wrapped, old(Abs()), now)
    {
      wake := None;
      if deadline < now {
        up := up + [Dropped];
        return true;
      }
      Probe(now);
      SendQueue(now);
      ServiceSchedule(now);
      return false;
    }

    /** rudp_peer_send_connect */
    method SendConnect(now: int)
      requires Valid()
      modifies Repr()
      ensures Valid() && Others() == old(Others()) && fresh(rudp.live - old(rudp.live))
      ensures Abs() == PeerSpec.SendConnect(Wrapped, old(Abs()), now)
    {
      state := Connecting;
      Push(true, CMD_CONN_REQ, Blank, 12, now);
    }

    /** rudp_peer_send_close_noqueue */
    method SendCloseNoqueue(now: int)
      requires Valid()
      modifies this`outUnrel, this`enq, this`sent, this`lastOut
      ensures Valid() && Others() == old(Others())
      ensures Abs() == PeerSpec.SendCloseNoqueue(Wrapped, old(Abs()), now)
      ensures sent == old(sent) + [Packet(1, false, false, false, 0, outRel, Wrap16(old(outUnrel) + 1), Blank)]
      ensures sendq == old(sendq) && queue == old(queue)
    {
      outUnrel := Wrap16(outUnrel + 1);
      var header := Fresh(CMD_CLOSE, Blank).(relSeq := outRel, unrelSeq := outUnrel);
      enq := enq + [Strip(header)];
      SendRaw(header, now);
    }

    /** The loop of rudp_peer_reset. */
    method ClearQueue()
      requires Valid()
      modifies this`sendq, this`queue, rudp
      ensures Valid() && rudp.live <= old(rudp.live)
      ensures sendq == [] && Others() == old(Others()) == rudp.InUse()
    {
      while sendq != []
        invariant Valid() && Others() == old(Others()) && rudp.live <= old(rudp.live)
        decreases |sendq|
      {
        Unqueue(0);
      }
    }

    /** The sequence fields of rudp_peer_reset. */
    method ResetNumbers(rand: u16)
      modifies this`inRel, this`inUnrel, this`outRel, this`outUnrel, this`acked, this`state, this`mustAck
      ensures inRel == 0xFFFF && inUnrel == outUnrel == 0 && outRel == rand && acked == Wrap16(rand - 1)
      ensures state == New && !mustAck
    {
      inRel := 0xFFFF;
      inUnrel := 0;
      outRel := rand;
      outUnrel := 0;
      acked := Wrap16(outRel - 1);
      state := New;
      mustAck := false;
    }

    /** The timers of rudp_peer_reset. */
    method ResetTimers(now: int)
      modifies this`wake, this`deadline, this`lastOut, this`srtt, this`rttvar, this`rto
      ensures wake == None && deadline == now + DROP_TIMEOUT && lastOut == now
      ensures srtt == 100 && rttvar == 50 && rto == MAX_RTO
    {
      wake := None;
      deadline := now + DROP_TIMEOUT;
      lastOut := now;
      srtt := 100;
      rttvar := srtt / 2;
      rto := MAX_RTO;
    }

    ghost method ResetHistory()
      modifies this`enq, this`sent, this`acc, this`up
      ensures enq == sent == acc == [] && up == []
    {
      enq, sent, acc, up := [], [], [], [];
    }

    method ResetFields(rand: u16, now: int)
      modifies this`wake, this`deadline, this`inRel, this`inUnrel, this`outRel, this`outUnrel, this`acked,
               this`state, this`lastOut, this`srtt, this`rttvar, this`rto, this`mustAck,
               this`enq, this`sent, this`acc, this`up
      ensures Abs() == PeerSpec.Reset(Wrapped, rand, now).(sendq := queue)
    {
      ResetNumbers(rand);
      ResetTimers(now);
      ResetHistory();
    }

    /** rudp_peer_reset: the queue goes back to the pool, chain by chain. */
    method Reset(rand: u16, now: int)
      requires Valid()
      modifies this, rudp
      ensures Valid() && rudp.live <= old(rudp.live)
      ensures sendq == [] && Others() == old(Others()) == rudp.InUse()
      ensures Abs() == PeerSpec.Reset(Wrapped, rand, now)
    {
      ClearQueue();
      ResetFields(rand, now);
    }
  }
}
