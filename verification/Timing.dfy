/** Timers: the round-trip estimator, the retransmission time-out and the drop of a
    silent peer, for any packets a peer may receive. */
module Timing {
  import opened SeqNum
  import opened Packets
  import opened PeerSpec
  import opened Queues
  import opened Transmission

  // ----- Round-trip estimator -----

  /** Division rounds toward zero, as in C. */
  lemma RoundsTowardZero(a: int, b: int)
    requires b > 0
    ensures a >= 0 ==> b * TruncDiv(a, b) <= a < b * TruncDiv(a, b) + b
    ensures a < 0 ==> b * TruncDiv(a, b) - b < a <= b * TruncDiv(a, b)
  {
  }

  /** A round-trip sample enters srtt with weight 1/8 and its deviation rttvar with weight
      1/4, both rounded down; the time-out follows srtt up to 3000. */
  predicate Sampled(p: PeerState, p': PeerState, sample: int) {
    var deviation := if sample < p.srtt then p.srtt - sample else sample - p.srtt;
    && 8 * p'.srtt <= 7 * p.srtt + sample < 8 * p'.srtt + 8
    && 4 * p'.rttvar <= 3 * p.rttvar + deviation < 4 * p'.rttvar + 4
    && p'.rto == (if p'.srtt > 3000 then 3000 else p'.srtt)
  }

  lemma SampleWeights(p: PeerState, sample: int)
    requires 0 <= p.srtt && 0 <= p.rttvar && 0 <= sample
    ensures var p' := UpdateRtt(p, sample);
            Sampled(p, p', sample) && p' == p.(srtt := p'.srtt, rttvar := p'.rttvar, rto := p'.rto)
  {
  }

  function SrttAfter(x: int, sample: int, n: nat): int
    decreases n
  {
    if n == 0 then x else SrttAfter(SrttStep(x, sample), sample, n - 1)
  }

  /** Truncation makes the estimate settle anywhere in the seven values below the
      sample, and nowhere else. */
  lemma SrttFixedPoint(x: int, sample: int)
    requires 0 <= x && 0 <= sample
    ensures SrttStep(x, sample) == x <==> sample - 7 <= x <= sample
  {
  }

  /** Under a constant sample the estimate falls strictly to the sample from above, and
      rises strictly to seven below it from farther below. */
  lemma SrttStepApproaches(x: int, sample: int)
    requires 0 <= x && 0 <= sample
    ensures x > sample ==> sample <= SrttStep(x, sample) < x
    ensures x < sample - 7 ==> x < SrttStep(x, sample) <= sample - 7
  {
  }

  /** Where a constant sample leads, and that it gets there within |x - sample| steps. */
  lemma {:induction false} SrttConverges(x: int, sample: int, n: nat)
    requires 0 <= x && 0 <= sample && n >= Abs(x - sample)
    ensures SrttAfter(x, sample, n) ==
            if x >= sample then sample else if x < sample - 7 then sample - 7 else x
    decreases n
  {
    SrttFixedPoint(x, sample);
    SrttStepApproaches(x, sample);
    if n > 0 {
      if sample - 7 <= x <= sample {
        SrttRests(x, sample, n);
      } else {
        SrttConverges(SrttStep(x, sample), sample, n - 1);
      }
    }
  }

  lemma {:induction false} SrttRests(x: int, sample: int, n: nat)
    requires SrttStep(x, sample) == x
    ensures SrttAfter(x, sample, n) == x
    decreases n
  {
    if n > 0 {
      SrttRests(x, sample, n - 1);
    }
  }

  // ----- Back-off -----

  function Pow2(n: nat): nat {
    if n == 0 then 1 else 2 * Pow2(n - 1)
  }

  function Backoffs(rto: int, n: nat): int
    decreases n
  {
    if n == 0 then rto else Backoffs(Backoff(rto), n - 1)
  }

  /** n back-offs multiply by 2^n up to the cap. */
  lemma {:induction false} BackoffsExact(rto: int, n: nat)
    requires 0 <= rto <= 3000
    ensures Backoffs(rto, n) == if rto * Pow2(n) > 3000 then 3000 else rto * Pow2(n)
    decreases n
  {
    if n > 0 {
      BackoffsExact(Backoff(rto), n - 1);
      PowPositive(n - 1);
      var w := Pow2(n - 1);
      assert rto * Pow2(n) == (2 * rto) * w;
      if 2 * rto > MAX_RTO {
        assert MAX_RTO * w >= MAX_RTO && (2 * rto) * w >= 2 * rto by {
          ScaleUp(MAX_RTO, w);
          ScaleUp(2 * rto, w);
        }
      }
    }
  }

  lemma ScaleUp(a: int, w: nat)
    requires a >= 0 && w >= 1
    ensures a * w >= a
  {
  }

  lemma {:induction false} PowPositive(n: nat)
    ensures Pow2(n) >= 1
  {
    if n > 0 {
      PowPositive(n - 1);
    }
  }

  /** Twelve back-offs reach the cap from any positive rto; zero never leaves zero. */
  lemma BackoffLimit(rto: int, n: nat)
    requires 0 <= rto <= 3000
    ensures rto >= 1 && n >= 12 ==> Backoffs(rto, n) == 3000
    ensures rto == 0 ==> Backoffs(rto, n) == 0
  {
    BackoffsExact(rto, n);
    if rto >= 1 && n >= 12 {
      PowGrows(n);
      ScaleRto(rto, Pow2(n));
    }
  }

  lemma ScaleRto(rto: int, w: int)
    requires rto >= 1 && w >= 4096
    ensures rto * w >= 4096
  {
  }

  lemma {:induction false} PowGrows(n: nat)
    requires n >= 12
    ensures Pow2(n) >= 4096
  {
    if n > 12 {
      PowGrows(n - 1);
    } else {
      assert Pow2(4) == 16;
      assert Pow2(8) == 16 * Pow2(4);
      assert Pow2(12) == 16 * Pow2(8);
    }
  }

  // ----- When the timer is set to fire -----

  /** A delay as the timer takes it: not past the deadline, and at least 1. */
  function Clamp(delay: int, left: int): int {
    var d := if left < delay then left else delay;
    if d <= 0 then 1 else d
  }

  /** A service that leaves reliable packets unacknowledged comes back after rto, or at
      the deadline if that is sooner. */
  lemma NextRetransmission(m: Arith, p: PeerState, now: int)
    requires MarkPrefix(p.sendq) && now <= p.deadline
    ensures var p' := Service(m, p, now);
            p'.sendq != [] ==>
              && p'.sendq[0].rel && p'.sendq[0].ret && p'.lastOut == now
              && p'.wake == Some(now + Clamp(p'.rto, p.deadline - now))
  {
    MarkPrefixAppend(p.sendq, Reliable(m, p, Fresh(CMD_PING, Timestamp(now))));
    QueueLeft(Probe(m, p.(wake := None), now), now);
  }

  lemma QueueLeft(p: PeerState, now: int)
    requires MarkPrefix(p.sendq)
    ensures var p' := SendQueue(p, now);
            && p'.deadline == p.deadline
            && (p'.sendq != [] ==> p'.sendq[0].rel && p'.sendq[0].ret && p'.lastOut == now)
  {
    SendQueueEffect(p, now);
    var p' := SendQueue(p, now);
    if p'.sendq != [] && !p.sendq[0].ret {
      MarkSentFrom(p.mustAck, p.inRel, p.sendq);
      assert p'.sendq[0] in MarkSent(p.mustAck, p.inRel, p.sendq);
    }
  }

  /** Any later call that sets the timer again puts the retransmission off by twice the
      time elapsed: it is due at last_out_time + rto only if no time has passed. */
  lemma LaterCallPostpones(p: PeerState, now: int)
    requires p.sendq != [] && p.sendq[0].ret && p.lastOut <= now
    requires 0 < now - p.lastOut + p.rto <= p.deadline - now
    ensures Schedule(p, now).wake == Some(p.lastOut + p.rto + 2 * (now - p.lastOut))
    ensures Schedule(p, now).wake == Some(p.lastOut + p.rto) <==> now == p.lastOut
  {
  }

  // ----- A peer on its own -----

  /** Anything that can happen to a peer: any packet at all may come in. */
  datatype PeerEvent =
    | Receives(k: Packet, replies: seq<AppSend>, now: int)
    | Serves(now: int)
    | Sends(msg: AppSend, now: int)
    | Closes(now: int)

  function After(m: Arith, p: PeerState, e: PeerEvent): PeerState {
    match e
    case Receives(k, replies, now) => Incoming(m, p, k, now, replies)
    case Serves(now) => Service(m, p, now)
    case Sends(msg, now) => Send(m, p, msg, now)
    case Closes(now) => SendCloseNoqueue(m, p, now)
  }

  function Life(m: Arith, p: PeerState, es: seq<PeerEvent>): PeerState
    decreases |es|
  {
    if es == [] then p else Life(m, After(m, p, es[0]), es[1..])
  }

  // ----- The service timer after each event -----

  function NowOf(e: PeerEvent): int {
    e.now
  }

  /** The event reaches the end of the function it calls: it is neither a rejected packet
      nor one that drops the peer, and no unqueued CLOSE. */
  predicate Completes(m: Arith, p: PeerState, e: PeerEvent) {
    match e
    case Receives(k, _, _) => !Rejected(m, p, k) && !PeerSpec.Closes(m, p, k)
    case Serves(now) => now <= p.deadline
    case Sends(_, _) => true
    case Closes(_) => false
  }

  /** The timer as an event at `now` leaves it. A head never transmitted is due at once,
      which the timer takes as 1 ms; a transmitted head after the time-out, counted from
      the time elapsed; an empty queue is looked after within 5000 ms. */
  predicate TimerSet(p: PeerState, now: int) {
    && (p.sendq == [] ==> p.wake == Some(now + Clamp(5000, p.deadline - now)))
    && (p.sendq != [] && !p.sendq[0].ret ==> p.wake == Some(now + 1))
    && (p.sendq != [] && p.sendq[0].ret ==> p.wake == Some(now + Clamp(now - p.lastOut + p.rto, p.deadline - now)))
  }

  lemma TimerAfter(m: Arith, p: PeerState, e: PeerEvent)
    requires Completes(m, p, e)
    ensures TimerSet(After(m, p, e), NowOf(e))
  {
    match e
    case Receives(k, replies, now) =>
      ReceiveTimer(m, if k.ack then HandleAck(m, p, k.ackSeq) else p, k, now, replies);
    case Serves(now) => ScheduleTimer(SendQueue(Probe(m, p.(wake := None), now), now), now);
    case Sends(msg, now) => SendTimer(m, p, Fresh(msg.cmd, msg.data), now);
    case Closes(_) =>
  }

  lemma ScheduleTimer(p: PeerState, now: int)
    ensures TimerSet(Schedule(p, now), now)
  {
  }

  lemma SendTimer(m: Arith, p: PeerState, pc: Packet, now: int)
    ensures TimerSet(SendUnreliable(m, p, pc, now), now) && TimerSet(SendReliable(m, p, pc, now), now)
  {
  }

  lemma ReceiveTimer(m: Arith, p: PeerState, k: Packet, now: int, replies: seq<AppSend>)
    requires k.cmd == CMD_CLOSE ==> Classify(m, p, k) != Sequenced
    ensures TimerSet(Receive(m, p, k, now, replies), now)
  {
    match Classify(m, p, k)
    case Unsequenced => FinishTimer(m, HandleUnsequenced(m, p, k, now), k, now);
    case Retransmitted => FinishTimer(m, p.(deadline := now + DROP_TIMEOUT), k, now);
    case Sequenced => FinishTimer(m, HandleSequenced(m, Accept(p, k, now), k, now, replies), k, now);
  }

  lemma FinishTimer(m: Arith, p: PeerState, k: Packet, now: int)
    ensures TimerSet(Finish(m, p, k, now), now)
  {
  }

  /** What waits behind no transmitted packet is on the wire at the next service in time,
      all of it and in order. */
  lemma UnmarkedGoesOut(m: Arith, p: PeerState, now: int)
    requires MarkPrefix(p.sendq) && p.sendq != [] && !p.sendq[0].ret && now <= p.deadline
    ensures var p' := Service(m, p, now);
            && |p'.sent| == |p.sent| + |p.sendq| && p.sent <= p'.sent
            && forall i :: 0 <= i < |p.sendq| ==>
                 p'.sent[|p.sent| + i] == if p.mustAck then p.sendq[i].(ack := true, ackSeq := p.inRel) else p.sendq[i]
  {
    SendQueueEffect(p.(wake := None), now);
    StampAllAt(p.mustAck, p.inRel, p.sendq);
  }

  /** So a packet queued behind no transmitted one waits 1 ms: after any event that leaves
      such a queue the timer fires then, and that service, if the deadline allows it,
      transmits the whole queue. */
  lemma DueAtOnce(m: Arith, p: PeerState, e: PeerEvent)
    requires Completes(m, p, e)
    requires var q := After(m, p, e); MarkPrefix(q.sendq) && q.sendq != [] && !q.sendq[0].ret && NowOf(e) < q.deadline
    ensures var q := After(m, p, e);
            var q' := Service(m, q, NowOf(e) + 1);
            && q.wake == Some(NowOf(e) + 1)
            && |q'.sent| == |q.sent| + |q.sendq| && q.sent <= q'.sent
            && forall i :: 0 <= i < |q.sendq| ==>
                 q'.sent[|q.sent| + i] == if q.mustAck then q.sendq[i].(ack := true, ackSeq := q.inRel) else q.sendq[i]
  {
    TimerAfter(m, p, e);
    UnmarkedGoesOut(m, After(m, p, e), NowOf(e) + 1);
  }

  // ----- The timers over a life -----

  predicate TimersWithin(p: PeerState, bound: int) {
    0 <= p.srtt <= bound && 0 <= p.rttvar <= bound && 0 <= p.rto <= 3000
  }

  predicate SameTimers(p: PeerState, p': PeerState) {
    p'.srtt == p.srtt && p'.rttvar == p.rttvar && p'.rto == p.rto
  }

  /** If the event is a PONG accepted by a running peer, its round-trip sample is between
      0 and n. */
  predicate SampleWithin(m: Arith, p: PeerState, e: PeerEvent, n: int) {
    e.Receives? && e.k.cmd == CMD_PONG && e.k.data.Timestamp? && p.state == Run
      && !Rejected(m, p, e.k) && Classify(m, p, e.k) == Sequenced
    ==> 0 <= e.now - e.k.data.t <= n
  }

  predicate SamplesWithin(m: Arith, p: PeerState, es: seq<PeerEvent>, n: int)
    decreases |es|
  {
    es == [] || (SampleWithin(m, p, es[0], n) && SamplesWithin(m, After(m, p, es[0]), es[1..], n))
  }

  lemma {:induction false} SendLoopTimers(p: PeerState, now: int, done: seq<Packet>, todo: seq<Packet>)
    ensures var p' := SendLoop(p, now, done, todo);
            p'.srtt == p.srtt && p'.rttvar == p.rttvar && p'.rto in {p.rto, Backoff(p.rto)}
    decreases |todo|
  {
    if todo != [] {
      var h := Stamp(p.mustAck, p.inRel, todo[0]);
      if !(h.rel && h.ret) {
        SendLoopTimers(p.(sent := p.sent + [h], lastOut := now), now,
                       if h.rel then done + [h.(ret := true)] else done, todo[1..]);
      }
    }
  }

  lemma SequencedTimers(m: Arith, p: PeerState, k: Packet, now: int, replies: seq<AppSend>, bound: int)
    requires TimersWithin(p, bound)
    requires p.state == Run && k.cmd == CMD_PONG && k.data.Timestamp? ==> 0 <= now - k.data.t <= bound
    ensures TimersWithin(HandleSequenced(m, p, k, now, replies), bound)
  {
    SendAllFrame(m, p.(up := p.up + [HandlePacket(k)]), replies, now);
  }

  lemma ReceiveTimers(m: Arith, p: PeerState, k: Packet, now: int, replies: seq<AppSend>, bound: int)
    requires TimersWithin(p, bound)
    requires Classify(m, p, k) == Sequenced && p.state == Run && k.cmd == CMD_PONG && k.data.Timestamp?
             ==> 0 <= now - k.data.t <= bound
    ensures TimersWithin(Receive(m, p, k, now, replies), bound)
  {
    match Classify(m, p, k)
    case Unsequenced => assert SameTimers(p, HandleUnsequenced(m, p, k, now));
    case Retransmitted =>
    case Sequenced => SequencedTimers(m, Accept(p, k, now), k, now, replies, bound);
  }

  lemma EventTimers(m: Arith, p: PeerState, e: PeerEvent, bound: int)
    requires TimersWithin(p, bound) && SampleWithin(m, p, e, bound)
    ensures TimersWithin(After(m, p, e), bound)
  {
    match e
    case Receives(k, replies, now) =>
      if !Rejected(m, p, k) {
        var p1 := if k.ack then HandleAck(m, p, k.ackSeq) else p;
        assert Classify(m, p1, k) == Classify(m, p, k);
        ReceiveTimers(m, p1, k, now, replies, bound);
      }
    case Serves(now) =>
      var p1 := Probe(m, p.(wake := None), now);
      SendLoopTimers(p1, now, [], p1.sendq);
    case _ =>
  }

  lemma {:induction false} LifeTimers(m: Arith, p: PeerState, es: seq<PeerEvent>, n: int, bound: int)
    requires TimersWithin(p, bound) && SamplesWithin(m, p, es, n) && n <= bound
    ensures TimersWithin(Life(m, p, es), bound)
    decreases |es|
  {
    if es != [] {
      EventTimers(m, p, es[0], bound);
      LifeTimers(m, After(m, p, es[0]), es[1..], n, bound);
    }
  }

  /** In any life of a peer in which the PONGs it accepts while running give samples
      between 0 and n, the estimates stay within max(100, n) and rto within MAX_RTO. */
  lemma TimersBounded(m: Arith, rand: int, start: int, es: seq<PeerEvent>, n: int)
    requires SamplesWithin(m, Init(m, rand, start), es, n)
    ensures TimersWithin(Life(m, Init(m, rand, start), es), if n > 100 then n else 100)
  {
    LifeTimers(m, Init(m, rand, start), es, n, if n > 100 then n else 100);
  }

  // ----- The clock of the last transmission -----

  lemma {:induction false} SendLoopClock(p: PeerState, now: int, done: seq<Packet>, todo: seq<Packet>)
    ensures var p' := SendLoop(p, now, done, todo);
            && |p'.sent| >= |p.sent| && (|p'.sent| > |p.sent| <==> todo != [])
            && p'.lastOut == if todo == [] then p.lastOut else now
    decreases |todo|
  {
    if todo != [] {
      var h := Stamp(p.mustAck, p.inRel, todo[0]);
      if !(h.rel && h.ret) {
        SendLoopClock(p.(sent := p.sent + [h], lastOut := now), now,
                      if h.rel then done + [h.(ret := true)] else done, todo[1..]);
      }
    }
  }

  predicate SameClock(p: PeerState, p': PeerState) {
    p'.sent == p.sent && p'.lastOut == p.lastOut
  }

  lemma SequencedClock(m: Arith, p: PeerState, k: Packet, now: int, replies: seq<AppSend>)
    ensures SameClock(p, HandleSequenced(m, p, k, now, replies))
  {
    SendAllFrame(m, p.(up := p.up + [HandlePacket(k)]), replies, now);
  }

  lemma ReceiveClock(m: Arith, p: PeerState, k: Packet, now: int, replies: seq<AppSend>)
    ensures SameClock(p, Receive(m, p, k, now, replies))
  {
    match Classify(m, p, k)
    case Unsequenced => assert SameClock(p, HandleUnsequenced(m, p, k, now));
    case Retransmitted =>
    case Sequenced => SequencedClock(m, Accept(p, k, now), k, now, replies);
  }

  lemma ClockFollows(m: Arith, p: PeerState, e: PeerEvent)
    ensures var p' := After(m, p, e); p'.lastOut == if |p'.sent| > |p.sent| then NowOf(e) else p.lastOut
  {
    match e
    case Receives(k, replies, now) => ReceiveClock(m, if k.ack then HandleAck(m, p, k.ackSeq) else p, k, now, replies);
    case Serves(now) =>
      var p1 := Probe(m, p.(wake := None), now);
      SendLoopClock(p1, now, [], p1.sendq);
    case _ =>
  }

  /** When the peer last put anything on the wire, h if it never did. */
  function LastSent(m: Arith, p: PeerState, es: seq<PeerEvent>, h: int): int
    decreases |es|
  {
    if es == [] then h
    else
      var p' := After(m, p, es[0]);
      LastSent(m, p', es[1..], if |p'.sent| > |p.sent| then NowOf(es[0]) else h)
  }

  lemma {:induction false} ClockIsLastSent(m: Arith, p: PeerState, es: seq<PeerEvent>, h: int)
    requires p.lastOut == h
    ensures Life(m, p, es).lastOut == LastSent(m, p, es, h)
    decreases |es|
  {
    if es != [] {
      var p' := After(m, p, es[0]);
      ClockFollows(m, p, es[0]);
      ClockIsLastSent(m, p', es[1..], if |p'.sent| > |p.sent| then NowOf(es[0]) else h);
    }
  }

  // ----- The drop of a silent peer -----

  /** The event is a packet classified SEQUENCED or RETRANSMITTED. */
  predicate Hears(m: Arith, p: PeerState, e: PeerEvent) {
    e.Receives? && !Rejected(m, p, e.k) && Classify(m, p, e.k) != Unsequenced
  }

  /** When such a packet last came, h if none did. */
  function LastHeard(m: Arith, p: PeerState, es: seq<PeerEvent>, h: int): int
    decreases |es|
  {
    if es == [] then h
    else LastHeard(m, After(m, p, es[0]), es[1..], if Hears(m, p, es[0]) then es[0].now else h)
  }

  lemma FinishDeadline(m: Arith, p: PeerState, k: Packet, now: int)
    ensures Finish(m, p, k, now).deadline == p.deadline
  {
  }

  lemma UnsequencedDeadline(m: Arith, p: PeerState, k: Packet, now: int)
    ensures HandleUnsequenced(m, p, k, now).deadline == p.deadline
  {
  }

  lemma SequencedDeadline(m: Arith, p: PeerState, k: Packet, now: int, replies: seq<AppSend>)
    ensures HandleSequenced(m, p, k, now, replies).deadline == p.deadline
  {
    SendAllFrame(m, p.(up := p.up + [HandlePacket(k)]), replies, now);
  }

  lemma ReceiveDeadline(m: Arith, p: PeerState, k: Packet, now: int, replies: seq<AppSend>)
    ensures Receive(m, p, k, now, replies).deadline ==
            if Classify(m, p, k) == Unsequenced then p.deadline else now + DROP_TIMEOUT
  {
    match Classify(m, p, k)
    case Unsequenced =>
      UnsequencedDeadline(m, p, k, now);
      FinishDeadline(m, HandleUnsequenced(m, p, k, now), k, now);
    case Retransmitted => FinishDeadline(m, p.(deadline := now + DROP_TIMEOUT), k, now);
    case Sequenced =>
      var p1 := Accept(p, k, now);
      SequencedDeadline(m, p1, k, now, replies);
      FinishDeadline(m, HandleSequenced(m, p1, k, now, replies), k, now);
  }

  lemma ServiceKeeps(m: Arith, p: PeerState, now: int)
    ensures var p' := Service(m, p, now);
            && p'.deadline == p.deadline
            && p'.up == (if TimedOut(p, now) then p.up + [Dropped] else p.up)
            && (!TimedOut(p, now) ==> p'.wake.Some? && now < p'.wake.value
                                      && (p'.wake.value <= p.deadline || p'.wake.value == now + 1))
  {
    SendQueueStamped(Probe(m, p.(wake := None), now), now);
  }

  lemma DeadlineFollows(m: Arith, p: PeerState, e: PeerEvent)
    ensures After(m, p, e).deadline == if Hears(m, p, e) then e.now + DROP_TIMEOUT else p.deadline
  {
    match e
    case Receives(k, replies, now) =>
      ReceiveDeadline(m, if k.ack then HandleAck(m, p, k.ackSeq) else p, k, now, replies);
    case Serves(now) => ServiceKeeps(m, p, now);
    case _ =>
  }

  lemma {:induction false} DeadlineIsLastHeard(m: Arith, p: PeerState, es: seq<PeerEvent>, h: int)
    requires p.deadline == h + DROP_TIMEOUT
    ensures Life(m, p, es).deadline == LastHeard(m, p, es, h) + 10000
    decreases |es|
  {
    if es != [] {
      DeadlineFollows(m, p, es[0]);
      DeadlineIsLastHeard(m, After(m, p, es[0]), es[1..], if Hears(m, p, es[0]) then es[0].now else h);
    }
  }

  /** A service drops the peer exactly when nothing sequenced or retransmitted was heard
      in the last 10000 ms (since reset, if nothing was heard at all). */
  lemma TimeoutExact(m: Arith, rand: int, start: int, es: seq<PeerEvent>, now: int)
    ensures var p := Life(m, Init(m, rand, start), es);
            Service(m, p, now).up ==
            if now - LastHeard(m, Init(m, rand, start), es, start) > 10000 then p.up + [Dropped] else p.up
  {
    DeadlineIsLastHeard(m, Init(m, rand, start), es, start);
    ServiceKeeps(m, Life(m, Init(m, rand, start), es), now);
  }

  /** When the timer alone, firing on time, drops the peer. */
  function DropTime(m: Arith, p: PeerState, now: int): int
    decreases p.deadline + 1 - now
  {
    if TimedOut(p, now) then now
    else
      ServiceKeeps(m, p, now);
      var p' := Service(m, p, now);
      DropTime(m, p', p'.wake.value)
  }

  /** A run of on-time timer firings that starts at or before the deadline ends with the
      drop, one millisecond after the deadline. */
  lemma {:induction false} DropsOnTime(m: Arith, p: PeerState, now: int)
    requires now <= p.deadline
    ensures DropTime(m, p, now) == p.deadline + 1
    decreases p.deadline + 1 - now
  {
    ServiceKeeps(m, p, now);
    var p' := Service(m, p, now);
    if p'.wake.value <= p.deadline {
      DropsOnTime(m, p', p'.wake.value);
    }
  }

  /** A peer nobody answers is dropped 10001 ms after its reset. */
  lemma SilentPeerDropped(m: Arith, rand: int, start: int)
    ensures var p := Init(m, rand, start);
            p.wake.Some? && DropTime(m, p, p.wake.value) == start + 10001
  {
    var p := Init(m, rand, start);
    DropsOnTime(m, p, p.wake.value);
  }
}
