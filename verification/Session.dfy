/** Two peers joined by a network. The network is what each peer ever sent: a step
    may deliver any packet of it to the other peer, at any time and any number of
    times, so loss, duplication and reordering are all behaviours. */
module Session {
  import opened SeqNum
  import opened Packets
  import opened PeerSpec
  import opened Queues
  import opened Invariants
  import opened Transmission

  datatype System = System(x: PeerState, y: PeerState)

  datatype Action =
    | Send(msg: AppSend, now: int)
    | Serve(now: int)
    | Close(now: int)
    | Deliver(i: nat, now: int, replies: seq<AppSend>)

  datatype Step = Step(onX: bool, act: Action)

  function Act(m: Arith, p: PeerState, other: PeerState, act: Action): PeerState {
    match act
    case Send(msg, now) => PeerSpec.Send(m, p, msg, now)
    case Serve(now) => Service(m, p, now)
    case Close(now) => SendCloseNoqueue(m, p, now)
    case Deliver(i, now, replies) =>
      if i < |other.sent| then Incoming(m, p, other.sent[i], now, replies) else p
  }

  function Exec(m: Arith, s: System, st: Step): System {
    if st.onX then s.(x := Act(m, s.x, s.y, st.act)) else s.(y := Act(m, s.y, s.x, st.act))
  }

  function RunAll(m: Arith, s: System, steps: seq<Step>): System
    decreases |steps|
  {
    if steps == [] then s else RunAll(m, Exec(m, s, steps[0]), steps[1..])
  }

  /** The documented range of application commands. */
  predicate AppCommand(a: AppSend) {
    CMD_APP <= a.cmd <= 0xFF
  }

  predicate AppStep(act: Action) {
    match act
    case Send(msg, _) => AppCommand(msg)
    case Deliver(_, _, replies) => forall i :: 0 <= i < |replies| ==> AppCommand(replies[i])
    case _ => true
  }

  // ----- Sequence invariant of the pair -----

  predicate Linked(x: PeerState, y: PeerState, bX: int, bY: int) {
    Side(x, bX) && Side(y, bY) && Half(x, y, bX) && Half(y, x, bY)
  }

  lemma EnqueueLinked(x: PeerState, y: PeerState, bX: int, bY: int, k: Packet)
    requires Linked(x, y, bX, bY) && NextPacket(x, k)
    ensures Linked(Enqueue(x, k), y, bX, bY)
  {
    EnqueueSide(x, bX, k);
    EnqueueAccepted(x.enq, Strip(k), y.acc, y.inRel, y.inUnrel, bX);
  }

  lemma SendUnreliableLinked(x: PeerState, y: PeerState, bX: int, bY: int, pc: Packet, now: int)
    requires Linked(x, y, bX, bY)
    ensures Linked(SendUnreliable(Unbounded, x, pc, now), y, bX, bY)
  {
    EnqueueLinked(x, y, bX, bY, Unreliable(Unbounded, x, pc));
  }

  lemma SendReliableLinked(x: PeerState, y: PeerState, bX: int, bY: int, pc: Packet, now: int)
    requires Linked(x, y, bX, bY)
    ensures Linked(SendReliable(Unbounded, x, pc, now), y, bX, bY)
  {
    EnqueueLinked(x, y, bX, bY, Reliable(Unbounded, x, pc));
  }

  lemma SendLinked(x: PeerState, y: PeerState, bX: int, bY: int, msg: AppSend, now: int)
    requires Linked(x, y, bX, bY)
    ensures Linked(PeerSpec.Send(Unbounded, x, msg, now), y, bX, bY)
  {
    if msg.reliable {
      SendReliableLinked(x, y, bX, bY, Fresh(msg.cmd, msg.data), now);
    } else {
      SendUnreliableLinked(x, y, bX, bY, Fresh(msg.cmd, msg.data), now);
    }
  }

  lemma {:induction false} SendAllLinked(x: PeerState, y: PeerState, bX: int, bY: int, msgs: seq<AppSend>, now: int)
    requires Linked(x, y, bX, bY)
    ensures Linked(SendAll(Unbounded, x, msgs, now), y, bX, bY)
    decreases |msgs|
  {
    if msgs != [] {
      SendLinked(x, y, bX, bY, msgs[0], now);
      SendAllLinked(PeerSpec.Send(Unbounded, x, msgs[0], now), y, bX, bY, msgs[1..], now);
    }
  }

  lemma CloseLinked(x: PeerState, y: PeerState, bX: int, bY: int, now: int)
    requires Linked(x, y, bX, bY)
    ensures Linked(SendCloseNoqueue(Unbounded, x, now), y, bX, bY)
  {
    var k := Unreliable(Unbounded, x, Fresh(CMD_CLOSE, Blank));
    EmitSide(x, bX, k);
    EnqueueAccepted(x.enq, Strip(k), y.acc, y.inRel, y.inUnrel, bX);
  }

  lemma HandleAckLinked(x: PeerState, y: PeerState, bX: int, bY: int, ack: int)
    requires Linked(x, y, bX, bY) && ack <= y.inRel
    ensures !BrokenAck(Unbounded, x, ack)
    ensures Linked(HandleAck(Unbounded, x, ack), y, bX, bY)
  {
    HandleAckSide(x, bX, ack);
  }

  lemma FinishLinked(x: PeerState, y: PeerState, bX: int, bY: int, k: Packet, now: int)
    requires Linked(x, y, bX, bY)
    ensures Linked(Finish(Unbounded, x, k, now), y, bX, bY)
  {
    var x' := x.(mustAck := true);
    assert Linked(x', y, bX, bY);
    SendUnreliableLinked(x', y, bX, bY, Fresh(CMD_NOOP, Blank), now);
  }

  lemma AcceptLinked(x: PeerState, y: PeerState, bX: int, bY: int, k: Packet, now: int)
    requires Linked(x, y, bX, bY) && k in y.sent
    requires Classify(Unbounded, x, k) == Sequenced
    ensures Linked(Accept(x, k, now), y, bX, bY)
  {
    AcceptHalf(y, x, bY, k, now);
  }

  lemma HandleSequencedLinked(x: PeerState, y: PeerState, bX: int, bY: int, k: Packet, now: int, replies: seq<AppSend>)
    requires Linked(x, y, bX, bY)
    ensures Linked(HandleSequenced(Unbounded, x, k, now, replies), y, bX, bY)
  {
    if k.cmd == CMD_PING {
      SendUnreliableLinked(x, y, bX, bY, Fresh(CMD_PONG, k.data), now);
    } else if k.cmd >= CMD_APP {
      SendAllLinked(x.(up := x.up + [HandlePacket(k)]), y, bX, bY, replies, now);
    }
  }

  lemma SequencedLinked(x: PeerState, y: PeerState, bX: int, bY: int, k: Packet, now: int, replies: seq<AppSend>)
    requires Linked(x, y, bX, bY)
    ensures Linked(x.(state := Dead, up := x.up + [Dropped]), y, bX, bY)
    ensures Linked(Finish(Unbounded, HandleSequenced(Unbounded, x, k, now, replies), k, now), y, bX, bY)
  {
    HandleSequencedLinked(x, y, bX, bY, k, now, replies);
    FinishLinked(HandleSequenced(Unbounded, x, k, now, replies), y, bX, bY, k, now);
  }

  lemma ReceiveLinked(x: PeerState, y: PeerState, bX: int, bY: int, k: Packet, now: int, replies: seq<AppSend>)
    requires Linked(x, y, bX, bY) && k in y.sent && x.state in {Run, Dead}
    ensures Linked(Receive(Unbounded, x, k, now, replies), y, bX, bY)
  {
    match Classify(Unbounded, x, k)
    case Unsequenced => FinishLinked(x, y, bX, bY, k, now);
    case Retransmitted => FinishLinked(x.(deadline := now + DROP_TIMEOUT), y, bX, bY, k, now);
    case Sequenced =>
      AcceptLinked(x, y, bX, bY, k, now);
      SequencedLinked(Accept(x, k, now), y, bX, bY, k, now, replies);
  }

  /** No acknowledgement of an honest peer is rejected, and handling its packet keeps
      the invariant. */
  lemma IncomingLinked(x: PeerState, y: PeerState, bX: int, bY: int, k: Packet, now: int, replies: seq<AppSend>)
    requires Linked(x, y, bX, bY) && k in y.sent && x.state in {Run, Dead}
    ensures !Rejected(Unbounded, x, k)
    ensures Linked(Incoming(Unbounded, x, k, now, replies), y, bX, bY)
  {
    var x' := x;
    if k.ack {
      assert k.ackSeq <= y.inRel;
      HandleAckLinked(x, y, bX, bY, k.ackSeq);
      x' := HandleAck(Unbounded, x, k.ackSeq);
    }
    ReceiveLinked(x', y, bX, bY, k, now, replies);
  }

  /** Sending the queue changes neither the receiver's numbers nor what was enqueued. */
  lemma SendQueueKeeps(p: PeerState, now: int)
    requires MarkPrefix(p.sendq)
    ensures var p' := SendQueue(p, now);
            p' == p.(sent := p'.sent, lastOut := p'.lastOut, rto := p'.rto, sendq := p'.sendq)
  {
    SendQueueEffect(p, now);
  }

  lemma SendQueueLinked(x: PeerState, y: PeerState, bX: int, bY: int, now: int)
    requires Linked(x, y, bX, bY)
    ensures Linked(SendQueue(x, now), y, bX, bY)
  {
    SendQueueSide(x, bX, now);
    SendQueueKeeps(x, now);
    var x' := SendQueue(x, now);
    assert Half(x', y, bX);
    assert Half(y, x', bY);
  }

  lemma ServiceLinked(x: PeerState, y: PeerState, bX: int, bY: int, now: int)
    requires Linked(x, y, bX, bY)
    ensures Linked(Service(Unbounded, x, now), y, bX, bY)
  {
    var x0 := x.(wake := None);
    assert Linked(x0, y, bX, bY);
    if !TimedOut(x0, now) {
      SendReliableLinked(x0, y, bX, bY, Fresh(CMD_PING, Timestamp(now)), now);
      var x1 := Probe(Unbounded, x0, now);
      assert Linked(x1, y, bX, bY);
      SendQueueLinked(x1, y, bX, bY, now);
      ScheduleLinked(SendQueue(x1, now), y, bX, bY, now);
    }
  }

  lemma ScheduleLinked(x: PeerState, y: PeerState, bX: int, bY: int, now: int)
    requires Linked(x, y, bX, bY)
    ensures Linked(Schedule(x, now), y, bX, bY)
  {
  }

  lemma ActLinked(x: PeerState, y: PeerState, bX: int, bY: int, act: Action)
    requires Linked(x, y, bX, bY) && x.state in {Run, Dead}
    ensures Linked(Act(Unbounded, x, y, act), y, bX, bY)
  {
    match act
    case Send(msg, now) => SendLinked(x, y, bX, bY, msg, now);
    case Serve(now) => ServiceLinked(x, y, bX, bY, now);
    case Close(now) => CloseLinked(x, y, bX, bY, now);
    case Deliver(i, now, replies) =>
      if i < |y.sent| {
        IncomingLinked(x, y, bX, bY, y.sent[i], now, replies);
      }
  }

  // ----- What each accepted packet causes -----

  function Pongs(enq: seq<Packet>): seq<Payload>
    decreases |enq|
  {
    if enq == [] then []
    else var k := enq[|enq| - 1];
      Pongs(enq[..|enq| - 1]) + if k.cmd == CMD_PONG then [k.data] else []
  }

  predicate Closed(acc: seq<Packet>)
    decreases |acc|
  {
    acc != [] && (acc[|acc| - 1].cmd == CMD_CLOSE || Closed(acc[..|acc| - 1]))
  }

  /** The payloads of the PINGs accepted in their first transmission, before a CLOSE. */
  function Answered(acc: seq<Packet>): seq<Payload>
    decreases |acc|
  {
    if acc == [] then []
    else var k := acc[|acc| - 1]; var t := acc[..|acc| - 1];
      Answered(t) + if k.cmd == CMD_PING && !k.ret && !Closed(t) then [k.data] else []
  }

  /** The application packets accepted before a CLOSE. */
  function Delivered(acc: seq<Packet>): seq<Packet>
    decreases |acc|
  {
    if acc == [] then []
    else var k := acc[|acc| - 1]; var t := acc[..|acc| - 1];
      Delivered(t) + if k.cmd >= CMD_APP && !Closed(t) then [k] else []
  }

  /** The packets given to handle_packet. */
  function Handled(up: seq<Upcall>): seq<Packet>
    decreases |up|
  {
    if up == [] then []
    else var c := up[|up| - 1];
      Handled(up[..|up| - 1]) + if c.HandlePacket? then [c.k] else []
  }

  /** Every PONG answers exactly one PING and carries its payload; the handler gets
      exactly the accepted application packets; only a CLOSE ends the session. */
  predicate Faithful(p: PeerState) {
    && p.state in {Run, Dead}
    && (p.state == Dead <==> Closed(p.acc))
    && Pongs(p.enq) == Answered(p.acc)
    && Handled(p.up) == Delivered(p.acc)
  }

  lemma SendFaithful(p: PeerState, pc: Packet, now: int, m: Arith)
    requires Faithful(p) && pc.cmd != CMD_PONG
    ensures Faithful(SendUnreliable(m, p, pc, now)) && Faithful(SendReliable(m, p, pc, now))
  {
    var e := Strip(Unreliable(m, p, pc));
    assert (p.enq + [e])[..|p.enq|] == p.enq;
    var e' := Strip(Reliable(m, p, pc));
    assert (p.enq + [e'])[..|p.enq|] == p.enq;
  }

  lemma {:induction false} SendAllFaithful(p: PeerState, msgs: seq<AppSend>, now: int, m: Arith)
    requires Faithful(p) && (forall i :: 0 <= i < |msgs| ==> AppCommand(msgs[i]))
    ensures Faithful(SendAll(m, p, msgs, now))
    decreases |msgs|
  {
    if msgs != [] {
      SendFaithful(p, Fresh(msgs[0].cmd, msgs[0].data), now, m);
      SendAllFaithful(PeerSpec.Send(m, p, msgs[0], now), msgs[1..], now, m);
    }
  }

  lemma FinishFaithful(p: PeerState, k: Packet, now: int, m: Arith)
    requires Faithful(p)
    ensures Faithful(Finish(m, p, k, now))
  {
    var p' := p.(mustAck := true);
    assert Faithful(p');
    SendFaithful(p', Fresh(CMD_NOOP, Blank), now, m);
  }

  lemma AcceptedCounts(acc: seq<Packet>, k: Packet)
    ensures Closed(acc + [k]) <==> k.cmd == CMD_CLOSE || Closed(acc)
    ensures Answered(acc + [k]) == Answered(acc) + if k.cmd == CMD_PING && !k.ret && !Closed(acc) then [k.data] else []
    ensures Delivered(acc + [k]) == Delivered(acc) + if k.cmd >= CMD_APP && !Closed(acc) then [k] else []
  {
    assert (acc + [k])[..|acc|] == acc;
  }

  lemma PingFaithful(p: PeerState, p': PeerState, k: Packet, now: int, m: Arith)
    requires Faithful(p) && p.state == p'.state == Run && k.cmd == CMD_PING
    requires p'.acc == p.acc + [k] && p'.enq == p.enq && p'.up == p.up
    ensures Faithful(HandlePing(m, p', k, now))
  {
    AcceptedCounts(p.acc, k);
    var e := Strip(Unreliable(m, p', Fresh(CMD_PONG, k.data)));
    assert (p.enq + [e])[..|p.enq|] == p.enq;
  }

  lemma CloseFaithful(p: PeerState, k: Packet, now: int)
    requires Faithful(p) && k.cmd == CMD_CLOSE
    ensures var p' := Accept(p, k, now); Faithful(p'.(state := Dead, up := p'.up + [Dropped]))
  {
    AcceptedCounts(p.acc, k);
    assert (p.up + [Dropped])[..|p.up|] == p.up;
  }

  lemma CommandFaithful(p: PeerState, k: Packet, now: int, replies: seq<AppSend>, m: Arith)
    requires Faithful(p) && k.cmd != CMD_CLOSE && (forall i :: 0 <= i < |replies| ==> AppCommand(replies[i]))
    ensures Faithful(HandleSequenced(m, Accept(p, k, now), k, now, replies))
  {
    var p' := Accept(p, k, now);
    AcceptedCounts(p.acc, k);
    if p.state == Run && k.cmd == CMD_PING {
      PingFaithful(p, p', k, now, m);
    } else if p.state == Run && k.cmd >= CMD_APP {
      assert (p.up + [HandlePacket(k)])[..|p.up|] == p.up;
      SendAllFaithful(p'.(up := p.up + [HandlePacket(k)]), replies, now, m);
    }
  }

  lemma SequencedFaithful(p: PeerState, k: Packet, now: int, replies: seq<AppSend>, m: Arith)
    requires Faithful(p) && (forall i :: 0 <= i < |replies| ==> AppCommand(replies[i]))
    ensures var p' := Accept(p, k, now);
            Faithful(if k.cmd == CMD_CLOSE then p'.(state := Dead, up := p'.up + [Dropped])
                     else HandleSequenced(m, p', k, now, replies))
  {
    if k.cmd == CMD_CLOSE {
      CloseFaithful(p, k, now);
    } else {
      CommandFaithful(p, k, now, replies, m);
    }
  }

  lemma ReceiveFaithful(p: PeerState, k: Packet, now: int, replies: seq<AppSend>, m: Arith)
    requires Faithful(p) && (forall i :: 0 <= i < |replies| ==> AppCommand(replies[i]))
    ensures Faithful(Receive(m, p, k, now, replies))
  {
    match Classify(m, p, k)
    case Unsequenced =>
      assert HandleUnsequenced(m, p, k, now) == p;
      FinishFaithful(p, k, now, m);
    case Retransmitted => FinishFaithful(p.(deadline := now + DROP_TIMEOUT), k, now, m);
    case Sequenced =>
      SequencedFaithful(p, k, now, replies, m);
      if k.cmd != CMD_CLOSE {
        FinishFaithful(HandleSequenced(m, Accept(p, k, now), k, now, replies), k, now, m);
      }
  }

  lemma IncomingFaithful(p: PeerState, k: Packet, now: int, replies: seq<AppSend>, m: Arith)
    requires Faithful(p) && (forall i :: 0 <= i < |replies| ==> AppCommand(replies[i]))
    ensures Faithful(Incoming(m, p, k, now, replies))
  {
    var p' := if k.ack then HandleAck(m, p, k.ackSeq) else p;
    assert Faithful(p');
    ReceiveFaithful(p', k, now, replies, m);
  }

  lemma ProbeFaithful(p: PeerState, now: int, m: Arith)
    requires Faithful(p) && MarkPrefix(p.sendq)
    ensures Faithful(Probe(m, p, now)) && MarkPrefix(Probe(m, p, now).sendq)
  {
    SendFaithful(p, Fresh(CMD_PING, Timestamp(now)), now, m);
    MarkPrefixAppend(p.sendq, Reliable(m, p, Fresh(CMD_PING, Timestamp(now))));
  }

  lemma SendQueueFaithful(p: PeerState, now: int)
    requires Faithful(p) && MarkPrefix(p.sendq)
    ensures Faithful(Schedule(SendQueue(p, now), now))
  {
    SendQueueKeeps(p, now);
  }

  lemma ServiceFaithful(p: PeerState, now: int, m: Arith)
    requires Faithful(p) && MarkPrefix(p.sendq)
    ensures Faithful(Service(m, p, now))
  {
    var p0 := p.(wake := None);
    assert Faithful(p0);
    if TimedOut(p0, now) {
      assert (p.up + [Dropped])[..|p.up|] == p.up;
    } else {
      ProbeFaithful(p0, now, m);
      SendQueueFaithful(Probe(m, p0, now), now);
    }
  }

  lemma ActFaithful(x: PeerState, y: PeerState, act: Action, m: Arith)
    requires Faithful(x) && AppStep(act) && MarkPrefix(x.sendq)
    ensures Faithful(Act(m, x, y, act))
  {
    match act
    case Send(msg, now) => SendFaithful(x, Fresh(msg.cmd, msg.data), now, m);
    case Serve(now) => ServiceFaithful(x, now, m);
    case Close(now) =>
      var e := Strip(Unreliable(m, x, Fresh(CMD_CLOSE, Blank)));
      assert (x.enq + [e])[..|x.enq|] == x.enq;
    case Deliver(i, now, replies) =>
      if i < |y.sent| {
        IncomingFaithful(x, y.sent[i], now, replies, m);
      }
  }

  // ----- Every run of an established session -----

  predicate Established(s: System, bX: int, bY: int) {
    Linked(s.x, s.y, bX, bY) && Faithful(s.x) && Faithful(s.y)
  }

  lemma StepKeeps(s: System, bX: int, bY: int, st: Step)
    requires Established(s, bX, bY) && AppStep(st.act)
    ensures Established(Exec(Unbounded, s, st), bX, bY)
  {
    if st.onX {
      ActLinked(s.x, s.y, bX, bY, st.act);
      ActFaithful(s.x, s.y, st.act, Unbounded);
    } else {
      ActLinked(s.y, s.x, bY, bX, st.act);
      ActFaithful(s.y, s.x, st.act, Unbounded);
    }
  }

  /** No step leads back into the handshake. */
  lemma EstablishedStays(s: System, bX: int, bY: int, st: Step)
    requires Established(s, bX, bY) && AppStep(st.act)
    ensures Exec(Unbounded, s, st).x.state != Connecting
  {
    StepKeeps(s, bX, bY, st);
  }
}
