/** What a peer must put in its queue or on the wire by itself: acknowledgements, PINGs
    and their answers, the closing packet. Packets are written out with the command
    numbers of include/rudp/packet.h. */
module Duties {
  import opened SeqNum
  import opened Packets
  import opened PeerSpec
  import opened Queues
  import opened Invariants
  import opened Transmission
  import opened Session
  import opened Refinement
  import opened Handshake
  import opened Delivery
  import opened Guarantees
  import opened Timing
  import opened Applications

  // ----- Acknowledgements -----

  /** An unreliable packet with the next unreliable number, not yet transmitted. */
  function NextUnreliable(m: Arith, p: PeerState, cmd: int, data: Payload): Packet {
    Packet(cmd, false, false, false, 0, p.outRel, Norm(m, p.outUnrel + 1), data)
  }

  /** The queue as the acknowledgement a packet carries leaves it. */
  function QueueAcked(m: Arith, p: PeerState, k: Packet): seq<Packet> {
    if k.ack then HandleAck(m, p, k.ackSeq).sendq else p.sendq
  }

  /** The packet is neither a PING nor an application packet with replies. */
  predicate Unanswered(k: Packet, replies: seq<AppSend>) {
    k.cmd != 4 && (k.cmd >= 0x10 ==> replies == [])
  }

  /** A reliable packet nothing else answers, in sequence or not, is acknowledged by the
      packets queued, or else by exactly one unreliable NOOP; an unreliable packet by
      nothing. */
  lemma AcknowledgedBy(m: Arith, p: PeerState, k: Packet, now: int, replies: seq<AppSend>)
    requires p.state in {Run, Dead} && Unanswered(k, replies)
    requires !Rejected(m, p, k) && !PeerSpec.Closes(m, p, k)
    ensures var q := QueueAcked(m, p, k);
            var p' := Incoming(m, p, k, now, replies);
            && p'.sendq == (if k.rel && q == [] then [NextUnreliable(m, p, 0, Blank)] else q)
            && p'.mustAck == (p.mustAck || k.rel)
  {
    var p1 := if k.ack then HandleAck(m, p, k.ackSeq) else p;
    ReceiveUnanswered(m, p1, k, now, replies);
    AcknowledgedThrough(m, p, k, Receive(m, p1, k, now, replies));
  }

  lemma AcknowledgedThrough(m: Arith, p: PeerState, k: Packet, p': PeerState)
    requires Acknowledged(m, if k.ack then HandleAck(m, p, k.ackSeq) else p, k, p')
    ensures p'.sendq == if k.rel && QueueAcked(m, p, k) == [] then [NextUnreliable(m, p, 0, Blank)] else QueueAcked(m, p, k)
    ensures p'.mustAck == (p.mustAck || k.rel)
  {
  }

  lemma ReceiveUnanswered(m: Arith, p: PeerState, k: Packet, now: int, replies: seq<AppSend>)
    requires p.state in {Run, Dead} && Unanswered(k, replies)
    requires k.cmd == CMD_CLOSE ==> Classify(m, p, k) != Sequenced
    ensures Acknowledged(m, p, k, Receive(m, p, k, now, replies))
  {
    match Classify(m, p, k)
    case Unsequenced => FinishAcknowledges(m, p, HandleUnsequenced(m, p, k, now), k, now);
    case Retransmitted => FinishAcknowledges(m, p, p.(deadline := now + DROP_TIMEOUT), k, now);
    case Sequenced =>
      SequencedUnanswered(m, Accept(p, k, now), k, now, replies);
      FinishAcknowledges(m, p, HandleSequenced(m, Accept(p, k, now), k, now, replies), k, now);
  }

  predicate Acknowledged(m: Arith, p: PeerState, k: Packet, p': PeerState) {
    && p'.sendq == (if k.rel && p.sendq == [] then [NextUnreliable(m, p, 0, Blank)] else p.sendq)
    && p'.mustAck == (p.mustAck || k.rel)
  }

  /** Nothing was queued or numbered. */
  predicate SameQueue(p: PeerState, p': PeerState) {
    p'.sendq == p.sendq && p'.mustAck == p.mustAck && p'.outRel == p.outRel && p'.outUnrel == p.outUnrel
  }

  lemma SequencedUnanswered(m: Arith, p: PeerState, k: Packet, now: int, replies: seq<AppSend>)
    requires Unanswered(k, replies)
    ensures SameQueue(p, HandleSequenced(m, p, k, now, replies))
  {
  }

  lemma FinishAcknowledges(m: Arith, p: PeerState, p1: PeerState, k: Packet, now: int)
    requires SameQueue(p, p1)
    ensures Acknowledged(m, p, k, Finish(m, p1, k, now))
  {
  }

  // ----- PING and PONG -----

  /** A PING accepted in its first transmission by a running peer is answered by one
      unreliable PONG with its payload, which is all it queues. */
  lemma PingAnswered(m: Arith, p: PeerState, k: Packet, now: int, replies: seq<AppSend>)
    requires p.state == Run && k.cmd == 4 && !k.ret && !Rejected(m, p, k) && Classify(m, p, k) == Sequenced
    ensures var p' := Incoming(m, p, k, now, replies);
            && p'.sendq == QueueAcked(m, p, k) + [NextUnreliable(m, p, 5, k.data)]
            && p'.mustAck == (p.mustAck || k.rel)
            && p'.enq == p.enq + [NextUnreliable(m, p, 5, k.data)]
  {
    var p1 := if k.ack then HandleAck(m, p, k.ackSeq) else p;
    assert Classify(m, p1, k) == Sequenced;
    var p2 := HandleSequenced(m, Accept(p1, k, now), k, now, replies);
    assert p2.sendq == p1.sendq + [NextUnreliable(m, p, 5, k.data)];
  }

  /** With an empty queue a service in time pings, and transmits the PING, if and only if
      nothing went out for more than 5000 ms; otherwise it transmits nothing. */
  lemma IdlePings(m: Arith, p: PeerState, now: int)
    requires p.sendq == [] && now <= p.deadline
    ensures var ping := Packet(4, true, p.mustAck, false, if p.mustAck then p.inRel else 0,
                               Norm(m, p.outRel + 1), 0, Timestamp(now));
            var p' := Service(m, p, now);
            if now - p.lastOut > 5000
            then p'.sent == p.sent + [ping] && p'.sendq == [ping.(ret := true)] && p'.outRel == ping.relSeq
            else p'.sent == p.sent && p'.sendq == []
  {
    var p1 := Probe(m, p.(wake := None), now);
    SendQueueEffect(p1, now);
    if p1.sendq != [] {
      assert p1.sendq[1..] == [];
    }
  }

  /** In any life of a peer from reset: served in time with nothing queued, it pings if and
      only if it put nothing on the wire for more than 5000 ms (since reset, if it never
      did). */
  lemma PingExact(m: Arith, rand: int, start: int, es: seq<PeerEvent>, now: int)
    requires var p := Life(m, Init(m, rand, start), es); p.sendq == [] && now <= p.deadline
    ensures var p := Life(m, Init(m, rand, start), es);
            var p' := Service(m, p, now);
            if now - LastSent(m, Init(m, rand, start), es, start) > 5000
            then |p'.sent| == |p.sent| + 1 && p'.sent[|p.sent|].cmd == 4 && p'.sent[|p.sent|].data == Timestamp(now)
            else p'.sent == p.sent
  {
    ClockIsLastSent(m, Init(m, rand, start), es, start);
    IdlePings(m, Life(m, Init(m, rand, start), es), now);
  }

  /** A PONG accepted by a running peer measures the time since the clock reading it
      carries. */
  lemma PongMeasures(m: Arith, p: PeerState, k: Packet, now: int, replies: seq<AppSend>)
    requires p.state == Run && k.cmd == 5 && k.data.Timestamp? && k.data.t <= now
    requires !Rejected(m, p, k) && Classify(m, p, k) == Sequenced
    requires 0 <= p.srtt && 0 <= p.rttvar
    ensures Sampled(p, Incoming(m, p, k, now, replies), now - k.data.t)
  {
    var p1 := if k.ack then HandleAck(m, p, k.ackSeq) else p;
    assert Classify(m, p1, k) == Sequenced;
    PongTaken(m, Accept(p1, k, now), k, now, replies);
  }

  lemma PongTaken(m: Arith, p: PeerState, k: Packet, now: int, replies: seq<AppSend>)
    requires p.state == Run && k.cmd == 5 && k.data.Timestamp? && k.data.t <= now
    requires 0 <= p.srtt && 0 <= p.rttvar
    ensures Sampled(p, Finish(m, HandleSequenced(m, p, k, now, replies), k, now), now - k.data.t)
  {
    SampleWeights(p, now - k.data.t);
    FinishEstimates(m, UpdateRtt(p, now - k.data.t), k, now);
  }

  lemma FinishEstimates(m: Arith, p: PeerState, k: Packet, now: int)
    ensures SameTimers(p, Finish(m, p, k, now))
  {
  }

  // ----- A round trip -----

  /** PING, its delivery, the service that answers, the delivery of the answer. */
  predicate RoundTrip(sys: System, client: bool, trip: seq<Step>, t0: int, t1: int, t2: int, t3: int) {
    && |trip| == 4
    && trip[0] == Step(client, Serve(t0)) && trip[1] == Step(!client, Deliver(|Of(sys, client).sent|, t1, []))
    && trip[2] == Step(!client, Serve(t2)) && trip[3] == Step(client, Deliver(|Of(sys, !client).sent|, t3, []))
  }

  /** Between idle peers all that was numbered has been accepted. */
  lemma CaughtUp(x: PeerState, y: PeerState, base: int)
    requires Side(x, base) && Half(x, y, base) && x.sendq == []
    ensures y.inRel == x.outRel && y.inUnrel <= x.outUnrel
  {
  }

  lemma PingArrives(x: PeerState, y: PeerState, bX: int, bY: int, k: Packet, now: int)
    requires Linked(x, y, bX, bY) && y.state == Run && y.sendq == [] && k in x.sent
    requires k.cmd == 4 && k.rel && !k.ret && k.relSeq == y.inRel + 1
    ensures var y' := Incoming(Unbounded, y, k, now, []);
            && y'.sendq == [NextUnreliable(Unbounded, y, 5, k.data)] && y'.mustAck && y'.sent == y.sent
            && y'.inRel == k.relSeq && y'.deadline == now + 10000
  {
    IncomingLinked(y, x, bY, bX, k, now, []);
    PingAnswered(Unbounded, y, k, now, []);
    IncomingSent(Unbounded, y, k, now, []);
    assert QueueAcked(Unbounded, y, k) == [];
    var y1 := if k.ack then HandleAck(Unbounded, y, k.ackSeq) else y;
    ReceiveBaseline(Unbounded, y1, k, now, []);
    ReceiveDeadline(Unbounded, y1, k, now, []);
  }

  lemma PongGoesOut(y: PeerState, now: int)
    requires |y.sendq| == 1 && !y.sendq[0].rel && !y.sendq[0].ret && y.mustAck && now <= y.deadline
    ensures var y' := Service(Unbounded, y, now);
            y'.sent == y.sent + [y.sendq[0].(ack := true, ackSeq := y.inRel)]
  {
    SendQueueEffect(y.(wake := None), now);
    assert y.sendq[1..] == [];
  }

  /** Two linked, running, idle peers. */
  predicate Idle(x: PeerState, y: PeerState, bX: int, bY: int) {
    Linked(x, y, bX, bY) && x.state == y.state == Run && x.sendq == y.sendq == []
  }

  lemma PongArrives(x: PeerState, y: PeerState, bX: int, bY: int, k: Packet, now: int)
    requires Linked(x, y, bX, bY) && x.state == Run && k in y.sent
    requires k.cmd == 5 && !k.rel && k.relSeq == x.inRel && k.unrelSeq > x.inUnrel
    requires k.data.Timestamp? && k.data.t <= now && 0 <= x.srtt && 0 <= x.rttvar
    ensures Sampled(x, Incoming(Unbounded, x, k, now, []), now - k.data.t)
  {
    IncomingLinked(x, y, bX, bY, k, now, []);
    PongMeasures(Unbounded, x, k, now, []);
  }

  /** The PING is on the wire, its sender otherwise unchanged. */
  lemma PingGoesOut(x: PeerState, y: PeerState, bX: int, bY: int, now: int)
    requires Idle(x, y, bX, bY) && now <= x.deadline && now - x.lastOut > 5000
    ensures var x' := Service(Unbounded, x, now);
            && Linked(x', y, bX, bY) && |x'.sent| == |x.sent| + 1
            && (var k := x'.sent[|x.sent|]; k.cmd == 4 && k.rel && !k.ret && k.relSeq == y.inRel + 1 && k.data == Timestamp(now))
            && x'.state == Run && x'.inRel == x.inRel && x'.inUnrel == x.inUnrel
            && x'.srtt == x.srtt && x'.rttvar == x.rttvar
  {
    CaughtUp(x, y, bX);
    IdlePings(Unbounded, x, now);
    ServiceLinked(x, y, bX, bY, now);
    SendQueueStamped(Probe(Unbounded, x.(wake := None), now), now);
  }

  /** The answer is on the wire. */
  lemma PingComesBack(x: PeerState, y: PeerState, bX: int, bY: int, k: Packet, t1: int, t2: int)
    requires Linked(x, y, bX, bY) && y.state == Run && y.sendq == [] && k in x.sent
    requires k.cmd == 4 && k.rel && !k.ret && k.relSeq == y.inRel + 1 && t2 <= t1 + 10000
    ensures var y' := Service(Unbounded, Incoming(Unbounded, y, k, t1, []), t2);
            && Linked(x, y', bX, bY) && |y'.sent| == |y.sent| + 1
            && (var pong := y'.sent[|y.sent|];
                && pong.cmd == 5 && !pong.rel && pong.data == k.data
                && pong.relSeq == y.outRel && pong.unrelSeq == y.outUnrel + 1)
  {
    PingArrives(x, y, bX, bY, k, t1);
    IncomingLinked(y, x, bY, bX, k, t1, []);
    var y1 := Incoming(Unbounded, y, k, t1, []);
    PongGoesOut(y1, t2);
    ServiceLinked(y1, x, bY, bX, t2);
  }

  lemma PairRoundTrip(x: PeerState, y: PeerState, bX: int, bY: int, t0: int, t1: int, t2: int, t3: int)
    requires Idle(x, y, bX, bY) && t0 <= x.deadline && t0 - x.lastOut > 5000
    requires t2 <= t1 + 10000 && t0 <= t3 && 0 <= x.srtt && 0 <= x.rttvar
    ensures var x1 := Service(Unbounded, x, t0);
            && |x1.sent| > |x.sent|
            && (var y2 := Service(Unbounded, Incoming(Unbounded, y, x1.sent[|x.sent|], t1, []), t2);
                && |y2.sent| > |y.sent|
                && Sampled(x, Incoming(Unbounded, x1, y2.sent[|y.sent|], t3, []), t3 - t0))
  {
    PingGoesOut(x, y, bX, bY, t0);
    CaughtUp(y, x, bY);
    var x1 := Service(Unbounded, x, t0);
    var k := x1.sent[|x.sent|];
    PingComesBack(x1, y, bX, bY, k, t1, t2);
    var y2 := Service(Unbounded, Incoming(Unbounded, y, k, t1, []), t2);
    PongArrives(x1, y2, bX, bY, y2.sent[|y.sent|], t3);
  }

  lemma RunFour(m: Arith, sys: System, steps: seq<Step>)
    requires |steps| == 4
    ensures RunAll(m, sys, steps) == Exec(m, Exec(m, Exec(m, Exec(m, sys, steps[0]), steps[1]), steps[2]), steps[3])
  {
    assert steps[1..][1..] == steps[2..] && steps[2..][1..] == steps[3..] && steps[3..][1..] == [];
    var s1 := Exec(m, sys, steps[0]);
    var s2 := Exec(m, s1, steps[1]);
    var s3 := Exec(m, s2, steps[2]);
    assert RunAll(m, s3, steps[3..]) == Exec(m, s3, steps[3]);
    assert RunAll(m, s1, steps[1..]) == RunAll(m, s2, steps[2..]) == RunAll(m, s3, steps[3..]);
  }

  predicate Silent5s(p: PeerState, now: int) {
    now <= p.deadline && now - p.lastOut > 5000 && 0 <= p.srtt && 0 <= p.rttvar
  }

  lemma TripStates(u: System, client: bool, trip: seq<Step>, t0: int, t1: int, t2: int, t3: int)
    requires RoundTrip(u, client, trip, t0, t1, t2, t3)
    ensures var x, y := Of(u, client), Of(u, !client);
            var x1 := Service(Unbounded, x, t0);
            var y2 := Service(Unbounded, Act(Unbounded, y, x1, Deliver(|x.sent|, t1, [])), t2);
            Of(RunAll(Unbounded, u, trip), client) == Act(Unbounded, x1, y2, Deliver(|y.sent|, t3, []))
  {
    RunFour(Unbounded, u, trip);
  }

  lemma SystemRoundTrip(u: System, u': System, r: int, s: int,
                        client: bool, trip: seq<Step>, t0: int, t1: int, t2: int, t3: int)
    requires Idle(u.x, u.y, r, s) && QuietTrip(u, client, trip, t0, t1, t2, t3)
    requires u' == RunAll(Unbounded, u, trip)
    ensures Sampled(Of(u, client), Of(u', client), t3 - t0)
  {
    TripStates(u, client, trip, t0, t1, t2, t3);
    if client {
      PairRoundTrip(u.x, u.y, r, s, t0, t1, t2, t3);
    } else {
      PairRoundTrip(u.y, u.x, s, r, t0, t1, t2, t3);
    }
  }

  /** Both peers run with nothing queued; one, silent for more than 5000 ms, is served at
      t0, and its PING heard and answered in time. */
  predicate QuietTrip(w: System, client: bool, trip: seq<Step>, t0: int, t1: int, t2: int, t3: int) {
    && RoundTrip(w, client, trip, t0, t1, t2, t3)
    && w.x.state == w.y.state == Run && w.x.sendq == w.y.sendq == []
    && Silent5s(Of(w, client), t0) && t2 <= t1 + 10000 && t0 <= t3
  }

  /** Such a round trip after any run from reset brings the time from the service to the
      arrival of the answer into the estimates; on 16-bit numbers, for the client and the
      server alike. */
  lemma RoundTripMeasured(r: int, s: int, nowX: int, nowY: int, steps: seq<Step>,
                          client: bool, trip: seq<Step>, t0: int, t1: int, t2: int, t3: int)
    requires Usable(r, s) && AllAdmissible(Opening(Unbounded, r, s, nowX, nowY), steps)
    requires AllAdmissible(RunAll(Unbounded, Opening(Unbounded, r, s, nowX, nowY), steps), trip)
    requires QuietTrip(RunAll(Wrapped, Opening(Wrapped, r, s, nowX, nowY), steps), client, trip, t0, t1, t2, t3)
    ensures var w := RunAll(Wrapped, Opening(Wrapped, r, s, nowX, nowY), steps);
            Sampled(Of(w, client), Of(RunAll(Wrapped, w, trip), client), t3 - t0)
  {
    var u := RunFromReset(r, s, nowX, nowY, steps);
    var u' := TripRefines(u, r, s, trip);
    SessionRoundTrip(u, u', r, s, client, trip, t0, t1, t2, t3);
    SampledProjects(u, u', client, t3 - t0);
  }

  lemma SessionRoundTrip(u: System, u': System, r: int, s: int,
                         client: bool, trip: seq<Step>, t0: int, t1: int, t2: int, t3: int)
    requires InSession(u, r, s) && QuietTrip(ProjSystem(u), client, trip, t0, t1, t2, t3)
    requires u' == RunAll(Unbounded, u, trip)
    ensures Sampled(Of(u, client), Of(u', client), t3 - t0)
  {
    SessionIdle(u, r, s, client, trip, t0, t1, t2, t3);
    SystemRoundTrip(u, u', r, s, client, trip, t0, t1, t2, t3);
  }

  lemma TripRefines(u: System, r: int, s: int, trip: seq<Step>) returns (u': System)
    requires Usable(r, s) && InSession(u, r, s) && AllAdmissible(u, trip)
    ensures u' == RunAll(Unbounded, u, trip) && RunAll(Wrapped, ProjSystem(u), trip) == ProjSystem(u')
  {
    RunRefines(u, r, s, trip);
    u' := RunAll(Unbounded, u, trip);
  }

  lemma SessionIdle(u: System, r: int, s: int, client: bool, trip: seq<Step>, t0: int, t1: int, t2: int, t3: int)
    requires InSession(u, r, s) && QuietTrip(ProjSystem(u), client, trip, t0, t1, t2, t3)
    ensures Idle(u.x, u.y, r, s) && QuietTrip(u, client, trip, t0, t1, t2, t3)
  {
    OfProjects(u, client);
    OfProjects(u, !client);
  }

  lemma SampledProjects(u: System, u': System, client: bool, sample: int)
    requires Sampled(Of(u, client), Of(u', client), sample)
    ensures Sampled(Of(ProjSystem(u), client), Of(ProjSystem(u'), client), sample)
  {
    OfProjects(u, client);
    OfProjects(u', client);
  }

  lemma OfProjects(u: System, client: bool)
    ensures Of(ProjSystem(u), client) == Proj(Of(u, client))
  {
  }

  // ----- Closing -----

  /** A CLOSE goes out at once, unreliable, past the queue, under the next unreliable
      number. */
  lemma CloseSent(m: Arith, p: PeerState, now: int)
    ensures var p' := SendCloseNoqueue(m, p, now);
            p'.sent == p.sent + [NextUnreliable(m, p, 1, Blank)] && p'.sendq == p.sendq
  {
  }

  /** A CLOSE just sent, as the receiver takes it. */
  lemma CloseArrives(x: PeerState, y: PeerState, bX: int, bY: int, t: int, now: int, replies: seq<AppSend>)
    requires Linked(x, y, bX, bY) && y.state in {Run, Dead}
    ensures var x' := SendCloseNoqueue(Unbounded, x, t);
            var y' := Act(Unbounded, y, x', Deliver(|x.sent|, now, replies));
            if |Rels(y.acc)| == |Rels(x.enq)| then y'.state == Dead && y'.up == y.up + [Dropped]
            else y'.state == y.state && y'.up == y.up
  {
    CloseSent(Unbounded, x, t);
    ChainRels(x.enq, bX, 0, x.outRel, x.outUnrel);
    var k := NextUnreliable(Unbounded, x, 1, Blank);
    assert Classify(Unbounded, y, k) == if |Rels(y.acc)| == |Rels(x.enq)| then Sequenced else Unsequenced;
  }

  /** What closing owes the far application: after any run from reset, a CLOSE sent and
      delivered at once drops the receiver, with one call, if and only if the receiver has
      accepted every reliable packet of the sender; if not, no call is made. On 16-bit
      numbers, in either direction. */
  lemma CloseIsHeard(r: int, s: int, nowX: int, nowY: int, steps: seq<Step>, client: bool, t: int, now: int, replies: seq<AppSend>)
    requires Usable(r, s) && AllAdmissible(Opening(Unbounded, r, s, nowX, nowY), steps)
    requires var u := RunAll(Unbounded, Opening(Unbounded, r, s, nowX, nowY), steps);
             && u.x.state != Connecting
             && Admissible(Exec(Unbounded, u, Step(client, Close(t))), Step(!client, Deliver(|Of(u, client).sent|, now, replies)))
    ensures var w := RunAll(Wrapped, Opening(Wrapped, r, s, nowX, nowY), steps);
            var p, q := Of(w, client), Of(w, !client);
            var w1 := Exec(Wrapped, w, Step(client, Close(t)));
            var q' := Of(Exec(Wrapped, w1, Step(!client, Deliver(|p.sent|, now, replies))), !client);
            if |Rels(q.acc)| == |Rels(p.enq)| then q'.state == Dead && q'.up == q.up + [Dropped]
            else q'.state == q.state && q'.up == q.up
  {
    var u := RunFromReset(r, s, nowX, nowY, steps);
    var st1, st2 := Step(client, Close(t)), Step(!client, Deliver(|Of(u, client).sent|, now, replies));
    var u1 := Exec(Unbounded, u, st1);
    SessionStep(u, r, s, st1);
    SessionStep(u1, r, s, st2);
    if client {
      CloseArrives(u.x, u.y, r, s, t, now, replies);
      CloseProjects(u.x, u.y, Exec(Unbounded, u1, st2).y);
    } else {
      CloseArrives(u.y, u.x, s, r, t, now, replies);
      CloseProjects(u.y, u.x, Exec(Unbounded, u1, st2).x);
    }
  }

  lemma CloseProjects(p: PeerState, q: PeerState, q': PeerState)
    ensures |Rels(Proj(q).acc)| == |Rels(q.acc)| && |Rels(Proj(p).enq)| == |Rels(p.enq)|
    ensures q'.up == q.up + [Dropped] ==> Proj(q').up == Proj(q).up + [Dropped]
    ensures q'.up == q.up ==> Proj(q').up == Proj(q).up
  {
    RelsProject(q.acc);
    RelsProject(p.enq);
  }

  // ----- The first packet and its answer -----

  /** What a new client first puts on the wire: its connection request, alone. */
  lemma FirstRequest(r: int, start: int, t: int)
    requires t <= start + 10000
    ensures Service(Wrapped, SendConnect(Wrapped, Init(Wrapped, r, start), start), t).sent
            == [Packet(2, true, false, false, 0, Wrap16(r + 1), 0, Blank)]
  {
    var x := SendConnect(Wrapped, Init(Wrapped, r, start), start);
    SendQueueEffect(x.(wake := None), t);
    assert x.sendq[1..] == [];
  }

  /** Such a request, numbered neither 0 nor 0xFFFF, sets a new server peer running, with
      one answer queued and due. */
  lemma RequestAnswered(n: int, s: int, now: int, replies: seq<AppSend>)
    requires 0 < n < 0xFFFF && 0 <= s < 0x1_0000
    ensures var k := Packet(2, true, false, false, 0, n, 0, Blank);
            var p := Incoming(Wrapped, Init(Wrapped, s, now), k, now, replies);
            && p.state == Run && p.inRel == n && p.mustAck && p.up == []
            && p.sendq == [Packet(3, false, false, false, 0, s, 1, Word(1))] && p.wake == Some(now + 1)
  {
  }
}
