/** From reset to an established session: the client sends a connection request, the
    server takes its number as baseline and answers, the client takes the answer's
    number. Until the client has it, reliable data is held. */
module Handshake {
  import opened SeqNum
  import opened Packets
  import opened PeerSpec
  import opened Queues
  import opened Invariants
  import opened Transmission
  import opened Session

  // ----- The two ends before the handshake -----

  /** A client after rudp_client_connect and the server's peer for it, with their
      random numbers. */
  function Opening(m: Arith, r: int, s: int, nowX: int, nowY: int): System {
    System(SendConnect(m, Init(m, r, nowX), nowX), Init(m, s, nowY))
  }

  /** The random numbers for which a handshake can complete. */
  predicate Usable(r: int, s: int) {
    && 0 <= r < 0x1_0000 && 0 <= s < 0x1_0000
    && Wrap16(r + 1) != 0 && Wrap16(r + 1) != 0xFFFF
    && s != 0xFFFF
  }

  /** While a peer waits for the handshake: no reliable send, no PING, no CLOSE. */
  predicate Held(p: PeerState, act: Action) {
    match act
    case Send(msg, _) => p.state != New && !msg.reliable
    case Serve(now) => TimedOut(p, now) || !PingDue(p, now)
    case Close(_) => false
    case Deliver(_, _, replies) => forall i :: 0 <= i < |replies| ==> !replies[i].reliable
  }

  // ----- Invariant of the handshake -----

  predicate RequestOrApp(enq: seq<Packet>, r: int) {
    forall i :: 0 <= i < |enq| ==>
      if enq[i].rel then enq[i].cmd == CMD_CONN_REQ && enq[i].relSeq == r + 1 else enq[i].cmd >= CMD_APP
  }

  predicate Connector(x: PeerState, r: int) {
    && x.state == Connecting && x.inRel == 0xFFFF && x.inUnrel == 0
    && x.outRel == r + 1 && x.acked in {r - 1, r + 1}
    && !x.mustAck && NoAcks(x.sent) && RequestOrApp(x.enq, r)
    && x.acc == [] && Pongs(x.enq) == [] && Handled(x.up) == []
  }

  predicate Listener(y: PeerState, s: int) {
    && y.state == New && y.inRel == 0xFFFF && y.inUnrel == 0
    && y.outRel == s && y.outUnrel == 0 && y.acked == s - 1 && !y.mustAck
    && y.sendq == [] && y.enq == [] && y.sent == [] && y.acc == []
    && Handled(y.up) == []
  }

  predicate Answerer(y: PeerState, r: int, s: int) {
    && y.state == Run && y.inRel == r + 1
    && y.outRel == s && y.acked == s - 1
    && y.mustAck && AllAcks(y.sent, r + 1)
  }

  /** The client as it will be once it has the server's number. */
  function Ahead(x: PeerState, s: int): PeerState {
    x.(inRel := s)
  }

  predicate Opened(sys: System, r: int, s: int) {
    && Connector(sys.x, r)
    && if sys.y.state == New then Listener(sys.y, s) && Side(Ahead(sys.x, s), r)
       else Answerer(sys.y, r, s) && Linked(Ahead(sys.x, s), sys.y, r, s) && Faithful(sys.y)
  }

  lemma FreshSide(p: PeerState, base: int)
    requires p.enq == [] && p.sendq == [] && p.sent == [] && !p.mustAck
    requires p.outRel == base && p.outUnrel == 0 && p.acked <= base
    ensures Side(p, base)
  {
  }

  lemma ConnectSide(p: PeerState, base: int, now: int)
    requires Side(p, base)
    ensures Side(SendReliable(Unbounded, p, Fresh(CMD_CONN_REQ, Blank), now), base)
  {
    EnqueueSide(p, base, Reliable(Unbounded, p, Fresh(CMD_CONN_REQ, Blank)));
  }

  lemma OpeningConnector(r: int, nowX: int)
    ensures Connector(SendConnect(Unbounded, Init(Unbounded, r, nowX), nowX), r)
  {
    var k := Reliable(Unbounded, Init(Unbounded, r, nowX), Fresh(CMD_CONN_REQ, Blank));
    assert [] + [Strip(k)] == [Strip(k)];
    assert [Strip(k)][..0] == [];
    assert Pongs([Strip(k)]) == [];
  }

  lemma OpeningSide(r: int, s: int, nowX: int)
    ensures Side(Ahead(SendConnect(Unbounded, Init(Unbounded, r, nowX), nowX), s), r)
  {
    var x := Init(Unbounded, r, nowX).(state := Connecting);
    FreshSide(Ahead(x, s), r);
    ConnectSide(Ahead(x, s), r, nowX);
  }

  lemma OpeningOpened(r: int, s: int, nowX: int, nowY: int)
    requires Usable(r, s)
    ensures Opened(Opening(Unbounded, r, s, nowX, nowY), r, s)
  {
    OpeningConnector(r, nowX);
    OpeningSide(r, s, nowX);
  }

  // ----- Steps of the client -----

  /** With no acknowledgement owed, what a peer sends does not depend on its baseline. */
  lemma {:induction false} SendLoopAhead(p: PeerState, now: int, done: seq<Packet>, todo: seq<Packet>, s: int)
    requires !p.mustAck
    ensures SendLoop(Ahead(p, s), now, done, todo) == Ahead(SendLoop(p, now, done, todo), s)
    decreases |todo|
  {
    if todo != [] {
      var h := todo[0];
      var p' := p.(sent := p.sent + [h], lastOut := now);
      if !(h.rel && h.ret) {
        SendLoopAhead(p', now, if h.rel then done + [h.(ret := true)] else done, todo[1..], s);
      }
    }
  }

  lemma ServiceAhead(x: PeerState, s: int, now: int)
    requires !x.mustAck && Held(x, Serve(now))
    ensures Service(Unbounded, Ahead(x, s), now) == Ahead(Service(Unbounded, x, now), s)
  {
    SendLoopAhead(x.(wake := None), now, [], x.sendq, s);
  }

  /** A service that does not ping. */
  lemma ServiceHeld(p: PeerState, now: int)
    requires Held(p, Serve(now))
    ensures Service(Unbounded, p, now) ==
            var p0 := p.(wake := None);
            if TimedOut(p, now) then p0.(up := p.up + [Dropped])
            else Schedule(SendQueue(p0, now), now)
  {
  }

  lemma ConnectorFrame(x: PeerState, x': PeerState, r: int)
    requires Connector(x, r) && NoAcks(x'.sent) && Handled(x'.up) == []
    requires x' == x.(sent := x'.sent, lastOut := x'.lastOut, rto := x'.rto, sendq := x'.sendq,
                      wake := x'.wake, up := x'.up)
    ensures Connector(x', r)
  {
  }

  /** What a service without a ping leaves alone. */
  lemma HeldFrame(x: PeerState, now: int)
    requires NoAcks(x.sent) && NoAcks(x.sendq) && !x.mustAck && Held(x, Serve(now))
    ensures var x' := Service(Unbounded, x, now);
            && x' == x.(sent := x'.sent, lastOut := x'.lastOut, rto := x'.rto, sendq := x'.sendq,
                        wake := x'.wake, up := x'.up)
            && NoAcks(x'.sent) && Handled(x'.up) == Handled(x.up)
  {
    ServiceHeld(x, now);
    assert (x.up + [Dropped])[..|x.up|] == x.up;
    SendQueueStamped(x.(wake := None), now);
  }

  lemma ConnectorStays(x: PeerState, r: int, now: int)
    requires Connector(x, r) && NoAcks(x.sendq) && Held(x, Serve(now))
    ensures Connector(Service(Unbounded, x, now), r)
  {
    HeldFrame(x, now);
    ConnectorFrame(x, Service(Unbounded, x, now), r);
  }

  lemma ServiceSide(p: PeerState, base: int, now: int)
    requires Side(p, base) && Held(p, Serve(now))
    ensures Side(Service(Unbounded, p, now), base)
  {
    var p0 := p.(wake := None);
    assert Side(p0, base);
    SendQueueSide(p0, base, now);
    SendQueueKeeps(p0, now);
  }

  lemma ConnectorServes(sys: System, r: int, s: int, now: int)
    requires Opened(sys, r, s) && Held(sys.x, Serve(now))
    ensures Opened(sys.(x := Service(Unbounded, sys.x, now)), r, s)
  {
    ConnectorStays(sys.x, r, now);
    ServiceAhead(sys.x, s, now);
    if sys.y.state == New {
      ServiceSide(Ahead(sys.x, s), r, now);
    } else {
      ServiceLinked(Ahead(sys.x, s), sys.y, r, s, now);
    }
  }

  lemma ConnectorIssues(x: PeerState, r: int, msg: AppSend, now: int)
    requires Connector(x, r) && !msg.reliable && AppCommand(msg)
    ensures Connector(PeerSpec.Send(Unbounded, x, msg, now), r)
  {
    var e := Strip(Unreliable(Unbounded, x, Fresh(msg.cmd, msg.data)));
    assert (x.enq + [e])[..|x.enq|] == x.enq;
  }

  lemma SendAhead(x: PeerState, s: int, msg: AppSend, now: int)
    requires !msg.reliable
    ensures Ahead(PeerSpec.Send(Unbounded, x, msg, now), s)
         == SendUnreliable(Unbounded, Ahead(x, s), Fresh(msg.cmd, msg.data), now)
  {
  }

  lemma ConnectorSends(sys: System, r: int, s: int, msg: AppSend, now: int)
    requires Opened(sys, r, s) && !msg.reliable && AppCommand(msg)
    ensures Opened(sys.(x := PeerSpec.Send(Unbounded, sys.x, msg, now)), r, s)
  {
    ConnectorIssues(sys.x, r, msg, now);
    SendAhead(sys.x, s, msg, now);
    if sys.y.state == New {
      SendSide(Ahead(sys.x, s), r, Fresh(msg.cmd, msg.data), now);
    } else {
      SendUnreliableLinked(Ahead(sys.x, s), sys.y, r, s, Fresh(msg.cmd, msg.data), now);
    }
  }

  lemma SendSide(p: PeerState, base: int, pc: Packet, now: int)
    requires Side(p, base)
    ensures Side(SendUnreliable(Unbounded, p, pc, now), base)
  {
    EnqueueSide(p, base, Unreliable(Unbounded, p, pc));
  }

  /** Every packet of the answering server is unreliable and carries its number s. */
  lemma AnswererNumbers(y: PeerState, r: int, s: int, k: Packet)
    requires Answerer(y, r, s) && Side(y, s) && k in y.sent
    ensures !k.rel && k.relSeq == s && k.ack && k.ackSeq == r + 1
  {
    var i :| 0 <= i < |y.sent| && y.sent[i] == k;
    ChainBounds(y.enq, s, 0, y.outRel, y.outUnrel);
    assert Strip(k) in y.enq;
    var j :| 0 <= j < |y.enq| && y.enq[j] == Strip(k);
  }

  lemma ConnectorAcked(sys: System, r: int, s: int, ack: int)
    requires Opened(sys, r, s) && sys.y.state == Run && ack == r + 1
    ensures Opened(sys.(x := HandleAck(Unbounded, sys.x, ack)), r, s)
    ensures !BrokenAck(Unbounded, sys.x, ack)
  {
    HandleAckLinked(Ahead(sys.x, s), sys.y, r, s, ack);
    assert Ahead(HandleAck(Unbounded, sys.x, ack), s) == HandleAck(Unbounded, Ahead(sys.x, s), ack);
  }

  /** What an unreliable packet that carries a good acknowledgement does to a waiting
      client. */
  lemma ConnectorIncoming(x: PeerState, k: Packet, now: int, replies: seq<AppSend>)
    requires x.state == Connecting && k.ack && !k.rel && k.relSeq != x.inRel
    requires !BrokenAck(Unbounded, x, k.ackSeq)
    ensures var x1 := HandleAck(Unbounded, x, k.ackSeq);
            Incoming(Unbounded, x, k, now, replies) ==
            Schedule(if k.cmd == CMD_CONN_RSP
                     then HandleAck(Unbounded, Ahead(x1, k.relSeq), k.ackSeq).(state := Run)
                     else x1, now)
  {
  }

  lemma ConnectorRuns(x: PeerState, y: PeerState, r: int, s: int)
    requires Connector(x, r) && Linked(Ahead(x, s), y, r, s)
    ensures Linked(Ahead(x, s).(state := Run), y, r, s)
    ensures Faithful(Ahead(x, s).(state := Run))
  {
  }

  lemma ScheduledConnector(sys: System, r: int, s: int, now: int)
    requires Opened(sys, r, s)
    ensures Opened(sys.(x := Schedule(sys.x, now)), r, s)
  {
    var x, x' := Ahead(sys.x, s), Schedule(sys.x, now);
    ConnectorFrame(sys.x, x', r);
    assert Ahead(x', s) == Schedule(x, now);
    if sys.y.state == New {
      assert Side(Schedule(x, now), r);
    } else {
      ScheduleLinked(x, sys.y, r, s, now);
    }
  }

  lemma ScheduledAnswerer(sys: System, r: int, s: int, now: int)
    requires Opened(sys, r, s)
    ensures Opened(sys.(y := Schedule(sys.y, now)), r, s)
  {
    if sys.y.state != New {
      AnswererFrame(sys.y, Schedule(sys.y, now), r, s);
      ScheduleLinked(sys.y, Ahead(sys.x, s), s, r, now);
    }
  }

  /** A waiting client given the server's number is established. */
  lemma ConnectorAnswered(sys: System, r: int, s: int, ack: int, now: int)
    requires Opened(sys, r, s) && sys.y.state == Run && ack == r + 1
    ensures var x' := Schedule(HandleAck(Unbounded, Ahead(sys.x, s), ack).(state := Run), now);
            Established(sys.(x := x'), r, s) && x'.state == Run && x'.inRel == s
  {
    ConnectorAcked(sys, r, s, ack);
    var x2 := HandleAck(Unbounded, sys.x, ack);
    assert HandleAck(Unbounded, Ahead(sys.x, s), ack) == Ahead(x2, s);
    ConnectorRuns(x2, sys.y, r, s);
    ScheduleLinked(Ahead(x2, s).(state := Run), sys.y, r, s, now);
  }

  /** The client's baseline is the number of the CONN_RSP, and with it the session is
      established; anything else it receives before leaves it waiting. */
  lemma ConnectorReceives(sys: System, r: int, s: int, k: Packet, now: int, replies: seq<AppSend>)
    requires Usable(r, s) && Opened(sys, r, s) && k in sys.y.sent
    ensures var x' := Incoming(Unbounded, sys.x, k, now, replies);
            if k.cmd == CMD_CONN_RSP
            then Established(sys.(x := x'), r, s) && x'.state == Run && x'.inRel == s
            else Opened(sys.(x := x'), r, s)
  {
    AnswererNumbers(sys.y, r, s, k);
    ConnectorAcked(sys, r, s, k.ackSeq);
    ConnectorIncoming(sys.x, k, now, replies);
    var x1 := HandleAck(Unbounded, sys.x, k.ackSeq);
    if k.cmd == CMD_CONN_RSP {
      ConnectorAnswered(sys.(x := x1), r, s, k.ackSeq, now);
    } else {
      ScheduledConnector(sys.(x := x1), r, s, now);
    }
  }

  // ----- Steps of the server -----

  lemma ListenerServes(sys: System, r: int, s: int, now: int)
    requires Opened(sys, r, s) && sys.y.state == New
    requires Held(sys.y, Serve(now))
    ensures Opened(sys.(y := Service(Unbounded, sys.y, now)), r, s)
  {
    ServiceHeld(sys.y, now);
    assert (sys.y.up + [Dropped])[..|sys.y.up|] == sys.y.up;
  }

  lemma AnswererFrame(y: PeerState, y': PeerState, r: int, s: int)
    requires Answerer(y, r, s) && AllAcks(y'.sent, r + 1)
    requires y' == y.(sent := y'.sent, lastOut := y'.lastOut, rto := y'.rto, sendq := y'.sendq,
                      wake := y'.wake, up := y'.up)
    ensures Answerer(y', r, s)
  {
  }

  lemma AnswererStays(y: PeerState, r: int, s: int, now: int)
    requires Answerer(y, r, s) && Held(y, Serve(now))
    ensures Answerer(Service(Unbounded, y, now), r, s)
  {
    ServiceHeld(y, now);
    SendQueueStamped(y.(wake := None), now);
    AnswererFrame(y, Service(Unbounded, y, now), r, s);
  }

  lemma AnswererServes(sys: System, r: int, s: int, now: int)
    requires Opened(sys, r, s) && sys.y.state == Run && Held(sys.y, Serve(now))
    ensures Opened(sys.(y := Service(Unbounded, sys.y, now)), r, s)
  {
    AnswererStays(sys.y, r, s, now);
    ServiceLinked(sys.y, Ahead(sys.x, s), s, r, now);
    ServiceFaithful(sys.y, now, Unbounded);
  }

  lemma AnswererSends(sys: System, r: int, s: int, msg: AppSend, now: int)
    requires Opened(sys, r, s) && sys.y.state == Run && !msg.reliable && AppCommand(msg)
    ensures Opened(sys.(y := PeerSpec.Send(Unbounded, sys.y, msg, now)), r, s)
  {
    SendLinked(sys.y, Ahead(sys.x, s), s, r, msg, now);
    SendFaithful(sys.y, Fresh(msg.cmd, msg.data), now, Unbounded);
  }

  lemma RequestNumbers(x: PeerState, r: int, k: Packet)
    requires Connector(x, r) && Known(x.sent, x.enq) && Chain(x.enq, r, 0, x.outRel, x.outUnrel) && k in x.sent
    ensures !k.ack && k.relSeq in {r, r + 1}
    ensures if k.rel then k.cmd == CMD_CONN_REQ && k.relSeq == r + 1 && k.unrelSeq == 0
            else k.cmd >= CMD_APP
  {
    var i :| 0 <= i < |x.sent| && x.sent[i] == k;
    ChainBounds(x.enq, r, 0, x.outRel, x.outUnrel);
    assert Strip(k) in x.enq;
    var j :| 0 <= j < |x.enq| && x.enq[j] == Strip(k);
  }

  /** The server as the connection request leaves it. */
  function Answering(y: PeerState, k: Packet): PeerState {
    var rsp := Unreliable(Unbounded, y, Fresh(CMD_CONN_RSP, Word(1)));
    Enqueue(y, rsp).(inRel := k.relSeq, state := Run, mustAck := true, acc := y.acc + [k])
  }

  lemma ListenerSide(y: PeerState, s: int, k: Packet)
    requires Listener(y, s) && 0 <= s && k.relSeq >= 0
    ensures Side(Answering(y, k), s) && Tx(Answering(y, k)) == s
    ensures Accepted(Answering(y, k).enq, [], s, 0, s)
  {
    assert Side(y, s);
    EnqueueSide(y, s, Unreliable(Unbounded, y, Fresh(CMD_CONN_RSP, Word(1))));
  }

  lemma FirstAccepted(enq: seq<Packet>, r: int, out: int, outU: int, k: Packet)
    requires Chain(enq, r, 0, out, outU) && Strip(k) in enq && k.rel && k.relSeq == r + 1
    ensures Accepted(enq, [k], r + 1, 0, r)
  {
    assert Accepted(enq, [], r, 0, r);
    AcceptedExtend(enq, [], r, 0, r, out, outU, k);
    assert [] + [k] == [k];
  }

  lemma ListenerAnswers(x: PeerState, y: PeerState, r: int, s: int, k: Packet)
    requires Usable(r, s) && Connector(x, r) && Listener(y, s) && Side(Ahead(x, s), r)
    requires k in x.sent && k.rel
    ensures Linked(Ahead(x, s), Answering(y, k), r, s)
  {
    RequestNumbers(x, r, k);
    ListenerSide(y, s, k);
    RequestHalf(x, y, r, s, k);
    assert Half(Answering(y, k), Ahead(x, s), s);
  }

  lemma RequestHalf(x: PeerState, y: PeerState, r: int, s: int, k: Packet)
    requires Connector(x, r) && Side(Ahead(x, s), r) && k in x.sent
    requires k.rel && k.relSeq == r + 1 && k.unrelSeq == 0
    requires Listener(y, s)
    ensures Half(Ahead(x, s), Answering(y, k), r)
  {
    assert Strip(k) in x.enq;
    ChainBounds(x.enq, r, 0, x.outRel, x.outUnrel);
    FirstAccepted(x.enq, r, x.outRel, x.outUnrel, k);
  }

  lemma ListenerFaithful(y: PeerState, s: int, k: Packet)
    requires Listener(y, s) && k.cmd == CMD_CONN_REQ
    ensures Faithful(Answering(y, k))
  {
    var y' := Answering(y, k);
    assert y'.acc == [k] && y'.acc[..0] == [];
    assert y'.enq[..0] == [];
  }

  lemma ListenerIncoming(y: PeerState, k: Packet, now: int, replies: seq<AppSend>)
    requires y.state == New && y.inRel == 0xFFFF && !k.ack && 0 <= k.relSeq < 0xFFFF
    requires y.sendq == [] && (k.rel <==> k.cmd == CMD_CONN_REQ) && (k.rel ==> k.relSeq > 0)
    ensures Incoming(Unbounded, y, k, now, replies) == Schedule(if k.rel then Answering(y, k) else y, now)
  {
  }

  /** The server's baseline is the number of the CONN_REQ. */
  lemma ListenerReceives(sys: System, r: int, s: int, k: Packet, now: int, replies: seq<AppSend>)
    requires Usable(r, s) && Opened(sys, r, s) && sys.y.state == New && k in sys.x.sent
    ensures var y' := Incoming(Unbounded, sys.y, k, now, replies);
            && Opened(sys.(y := y'), r, s)
            && (k.cmd == CMD_CONN_REQ <==> y'.state == Run)
  {
    RequestNumbers(sys.x, r, k);
    ListenerIncoming(sys.y, k, now, replies);
    if k.rel {
      ListenerAnswers(sys.x, sys.y, r, s, k);
      ListenerFaithful(sys.y, s, k);
      ScheduledAnswerer(sys.(y := Answering(sys.y, k)), r, s, now);
    } else {
      ScheduledAnswerer(sys, r, s, now);
    }
  }

  /** A running peer that gets no acknowledgement, CLOSE or next reliable packet, and
      replies unreliably, keeps its reliable numbers. */
  lemma RunningKeeps(y: PeerState, k: Packet, now: int, replies: seq<AppSend>)
    requires y.state == Run && y.mustAck && !k.ack && k.cmd != CMD_CLOSE
    requires k.rel ==> k.relSeq == y.inRel
    requires forall i :: 0 <= i < |replies| ==> !replies[i].reliable
    ensures var y' := Incoming(Unbounded, y, k, now, replies);
            && y'.state == Run && y'.inRel == y.inRel && y'.outRel == y.outRel
            && y'.acked == y.acked && y'.mustAck && y'.sent == y.sent
  {
    var p := Accept(y, k, now);
    SendAllFrame(Unbounded, p.(up := p.up + [HandlePacket(k)]), replies, now);
  }

  lemma AnswererReceives(sys: System, r: int, s: int, k: Packet, now: int, replies: seq<AppSend>)
    requires Usable(r, s) && Opened(sys, r, s) && sys.y.state == Run && k in sys.x.sent
    requires forall i :: 0 <= i < |replies| ==> !replies[i].reliable && AppCommand(replies[i])
    ensures Opened(sys.(y := Incoming(Unbounded, sys.y, k, now, replies)), r, s)
  {
    RequestNumbers(sys.x, r, k);
    IncomingLinked(sys.y, Ahead(sys.x, s), s, r, k, now, replies);
    IncomingFaithful(sys.y, k, now, replies, Unbounded);
    RunningKeeps(sys.y, k, now, replies);
  }
}
