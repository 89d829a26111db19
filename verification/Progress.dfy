/** Progress: one exchange without loss acknowledges at least one more reliable packet,
    so a queue drains in at most as many exchanges as it holds reliable packets. */
module Progress {
  import opened SeqNum
  import opened Packets
  import opened PeerSpec
  import opened Queues
  import opened Invariants
  import opened Transmission
  import opened Session
  import opened Refinement
  import opened Timing

  // ----- An exchange -----

  /** When a packet arrives, by its receiver's clock, and what the application sends from
      inside handle_packet. */
  datatype Arrival = Arrival(now: int, replies: seq<AppSend>)

  /** The clock readings of an exchange, one for every step: x is served, what it sends
      arrives at y, y is served, what it sends arrives at x. */
  datatype Round = Round(serveX: int, out: seq<Arrival>, serveY: int, back: seq<Arrival>)

  function Arrive(onX: bool, i: nat, a: Arrival): Step {
    Step(onX, Deliver(i, a.now, a.replies))
  }

  /** In-order delivery of the other peer's packets from number lo on. */
  function Deliveries(onX: bool, lo: nat, arrivals: seq<Arrival>): seq<Step>
    decreases |arrivals|
  {
    if arrivals == [] then []
    else [Arrive(onX, lo, arrivals[0])] + Deliveries(onX, lo + 1, arrivals[1..])
  }

  function DeliverAll(sys: System, onX: bool, lo: nat, arrivals: seq<Arrival>): System
    decreases |arrivals|
  {
    if arrivals == [] then sys
    else DeliverAll(Exec(Unbounded, sys, Arrive(onX, lo, arrivals[0])), onX, lo + 1, arrivals[1..])
  }

  lemma {:induction false} DeliveriesRun(sys: System, onX: bool, lo: nat, arrivals: seq<Arrival>)
    ensures RunAll(Unbounded, sys, Deliveries(onX, lo, arrivals)) == DeliverAll(sys, onX, lo, arrivals)
    decreases |arrivals|
  {
    if arrivals != [] {
      assert Deliveries(onX, lo, arrivals)[1..] == Deliveries(onX, lo + 1, arrivals[1..]);
      DeliveriesRun(Exec(Unbounded, sys, Arrive(onX, lo, arrivals[0])), onX, lo + 1, arrivals[1..]);
    }
  }

  /** What every delivery of a batch keeps, the batch keeps. */
  lemma {:induction false} BatchInduction(inv: (System, nat) -> bool, ok: Arrival -> bool,
                                          sys: System, onX: bool, lo: nat, arrivals: seq<Arrival>)
    requires inv(sys, lo) && forall k :: 0 <= k < |arrivals| ==> ok(arrivals[k])
    requires forall s: System, i: nat, a: Arrival :: lo <= i < lo + |arrivals| && inv(s, i) && ok(a) ==>
               inv(Exec(Unbounded, s, Arrive(onX, i, a)), i + 1)
    ensures inv(DeliverAll(sys, onX, lo, arrivals), lo + |arrivals|)
    decreases |arrivals|
  {
    if arrivals != [] {
      BatchInduction(inv, ok, Exec(Unbounded, sys, Arrive(onX, lo, arrivals[0])), onX, lo + 1, arrivals[1..]);
    }
  }

  function AfterServe(sys: System, onX: bool, now: int): System {
    Exec(Unbounded, sys, Step(onX, Serve(now)))
  }

  /** x after its service, with everything it sent delivered. */
  function Out(sys: System, rd: Round): System {
    DeliverAll(AfterServe(sys, true, rd.serveX), false, |sys.x.sent|, rd.out)
  }

  function ExchangeSteps(sys: System, rd: Round): seq<Step> {
    ([Step(true, Serve(rd.serveX))] + Deliveries(false, |sys.x.sent|, rd.out)) +
    ([Step(false, Serve(rd.serveY))] + Deliveries(true, |Out(sys, rd).y.sent|, rd.back))
  }

  // ----- One packet -----

  predicate NoClose(q: seq<Packet>) {
    forall i :: 0 <= i < |q| ==> q[i].cmd != CMD_CLOSE
  }

  /** The head of the queue is not one that acknowledgement a removes. */
  predicate Settled(q: seq<Packet>, a: int) {
    q == [] || !q[0].rel || !q[0].ret || q[0].relSeq > a
  }

  lemma {:induction false} DropAckedSettles(q: seq<Packet>, a: int)
    ensures Settled(DropAcked(Unbounded, q, a), a)
    ensures Settled(q, a) ==> DropAcked(Unbounded, q, a) == q
    decreases |q|
  {
    if !Settled(q, a) {
      DropAckedSettles(q[1..], a);
    }
  }

  lemma HandleAckSettles(p: PeerState, base: int, a: int)
    requires Side(p, base) && !BrokenAck(Unbounded, p, a)
    ensures Settled(HandleAck(Unbounded, p, a).sendq, a)
    ensures Settled(p.sendq, a) ==> HandleAck(Unbounded, p, a).sendq == p.sendq
  {
    DropAckedSettles(p.sendq, a);
  }

  /** Receiving never takes back what was counted, and sends nothing by itself. */
  predicate Grows(p: PeerState, p': PeerState) {
    && p'.sent == p.sent && p'.inRel >= p.inRel && p'.acked >= p.acked
    && (p.mustAck ==> p'.mustAck) && p'.state in {Run, Dead}
  }

  /** Only packets never transmitted are added at the end. */
  predicate Appends(q: seq<Packet>, q': seq<Packet>) {
    q <= q' && (q == [] && q' != [] ==> !q'[0].ret)
  }

  /** The application sends application commands; quietly, if none is reliable. */
  predicate FromApp(replies: seq<AppSend>) {
    forall i :: 0 <= i < |replies| ==> AppCommand(replies[i])
  }

  predicate Quiet(replies: seq<AppSend>) {
    forall i :: 0 <= i < |replies| ==> !replies[i].reliable
  }

  lemma {:induction false} SendAllAppends(p: PeerState, msgs: seq<AppSend>, now: int)
    ensures Appends(p.sendq, SendAll(Unbounded, p, msgs, now).sendq)
    decreases |msgs|
  {
    if msgs != [] {
      SendAllAppends(PeerSpec.Send(Unbounded, p, msgs[0], now), msgs[1..], now);
    }
  }

  lemma FinishAppends(p: PeerState, k: Packet, now: int)
    ensures var p' := Finish(Unbounded, p, k, now);
            && p' == p.(mustAck := p'.mustAck, outUnrel := p'.outUnrel, sendq := p'.sendq,
                        enq := p'.enq, wake := p'.wake)
            && Appends(p.sendq, p'.sendq)
            && (p.mustAck || k.rel ==> p'.mustAck) && (k.rel ==> p'.sendq != [])
  {
  }

  lemma SequencedAppends(p: PeerState, k: Packet, now: int, replies: seq<AppSend>)
    ensures var p' := HandleSequenced(Unbounded, p, k, now, replies);
            && p' == p.(outRel := p'.outRel, outUnrel := p'.outUnrel, sendq := p'.sendq, enq := p'.enq, wake := p'.wake,
                        up := p'.up, srtt := p'.srtt, rttvar := p'.rttvar, rto := p'.rto)
            && Appends(p.sendq, p'.sendq) && (Quiet(replies) ==> p'.outRel == p.outRel)
  {
    var p1 := p.(up := p.up + [HandlePacket(k)]);
    SendAllFrame(Unbounded, p1, replies, now);
    SendAllAppends(p1, replies, now);
  }

  lemma ReceiveGrows(p: PeerState, k: Packet, now: int, replies: seq<AppSend>)
    requires p.state in {Run, Dead}
    ensures var p' := Receive(Unbounded, p, k, now, replies);
            && Grows(p, p') && Appends(p.sendq, p'.sendq) && (Quiet(replies) ==> p'.outRel == p.outRel)
            && (k.rel && k.cmd != CMD_CLOSE ==> p'.mustAck && p'.sendq != [])
            && (k.rel && k.relSeq <= p.inRel + 1 ==> p'.inRel >= k.relSeq)
  {
    match Classify(Unbounded, p, k)
    case Unsequenced => FinishAppends(p, k, now);
    case Retransmitted => FinishAppends(p.(deadline := now + DROP_TIMEOUT), k, now);
    case Sequenced =>
      var p' := Accept(p, k, now);
      SequencedAppends(p', k, now, replies);
      FinishAppends(HandleSequenced(Unbounded, p', k, now, replies), k, now);
  }

  lemma IncomingGrows(p: PeerState, base: int, k: Packet, now: int, replies: seq<AppSend>)
    requires Side(p, base) && p.state in {Run, Dead} && !Rejected(Unbounded, p, k)
    ensures var p' := Incoming(Unbounded, p, k, now, replies);
            && Grows(p, p') && (Quiet(replies) ==> p'.outRel == p.outRel)
            && (k.rel && k.cmd != CMD_CLOSE ==> p'.mustAck && p'.sendq != [])
            && (k.rel && k.relSeq <= p.inRel + 1 ==> p'.inRel >= k.relSeq)
            && (k.ack ==> Settled(p'.sendq, k.ackSeq))
            && (k.ack ==> p'.acked >= k.ackSeq)
            && (p.sendq != [] && (k.ack ==> Settled(p.sendq, k.ackSeq)) ==> p'.sendq != [])
  {
    if k.ack {
      HandleAckSettles(p, base, k.ackSeq);
    }
    ReceiveGrows(if k.ack then HandleAck(Unbounded, p, k.ackSeq) else p, k, now, replies);
  }

  // ----- No CLOSE is ever queued -----

  lemma {:induction false} SendAllNoClose(m: Arith, p: PeerState, msgs: seq<AppSend>, now: int)
    requires NoClose(p.sendq) && forall i :: 0 <= i < |msgs| ==> AppCommand(msgs[i])
    ensures NoClose(SendAll(m, p, msgs, now).sendq)
    decreases |msgs|
  {
    if msgs != [] {
      SendAllNoClose(m, PeerSpec.Send(m, p, msgs[0], now), msgs[1..], now);
    }
  }

  lemma HandleAckNoClose(m: Arith, p: PeerState, ack: int)
    requires NoClose(p.sendq)
    ensures NoClose(HandleAck(m, p, ack).sendq)
  {
    var n := DropAckedSuffix(m, p.sendq, ack);
    var q := p.sendq[n..];
    assert forall i :: 0 <= i < |q| ==> q[i] == p.sendq[n + i];
  }

  lemma SequencedNoClose(m: Arith, p: PeerState, k: Packet, now: int, replies: seq<AppSend>)
    requires NoClose(p.sendq) && forall i :: 0 <= i < |replies| ==> AppCommand(replies[i])
    ensures NoClose(HandleSequenced(m, p, k, now, replies).sendq)
  {
    SendAllNoClose(m, p.(up := p.up + [HandlePacket(k)]), replies, now);
  }

  lemma UnsequencedNoClose(m: Arith, p: PeerState, k: Packet, now: int)
    requires NoClose(p.sendq)
    ensures NoClose(HandleUnsequenced(m, p, k, now).sendq)
  {
    HandleAckNoClose(m, p.(inRel := k.relSeq), k.ackSeq);
  }

  lemma FinishNoClose(m: Arith, p: PeerState, k: Packet, now: int)
    requires NoClose(p.sendq)
    ensures NoClose(Finish(m, p, k, now).sendq)
  {
  }

  lemma ReceiveNoClose(m: Arith, p: PeerState, k: Packet, now: int, replies: seq<AppSend>)
    requires NoClose(p.sendq) && forall i :: 0 <= i < |replies| ==> AppCommand(replies[i])
    ensures NoClose(Receive(m, p, k, now, replies).sendq)
  {
    match Classify(m, p, k)
    case Unsequenced =>
      UnsequencedNoClose(m, p, k, now);
      FinishNoClose(m, HandleUnsequenced(m, p, k, now), k, now);
    case Retransmitted => FinishNoClose(m, p.(deadline := now + DROP_TIMEOUT), k, now);
    case Sequenced =>
      SequencedNoClose(m, Accept(p, k, now), k, now, replies);
      FinishNoClose(m, HandleSequenced(m, Accept(p, k, now), k, now, replies), k, now);
  }

  lemma IncomingNoClose(m: Arith, p: PeerState, k: Packet, now: int, replies: seq<AppSend>)
    requires NoClose(p.sendq) && forall i :: 0 <= i < |replies| ==> AppCommand(replies[i])
    ensures NoClose(Incoming(m, p, k, now, replies).sendq)
  {
    HandleAckNoClose(m, p, k.ackSeq);
    ReceiveNoClose(m, if k.ack then HandleAck(m, p, k.ackSeq) else p, k, now, replies);
  }

  lemma {:induction false} SendLoopNoClose(p: PeerState, now: int, done: seq<Packet>, todo: seq<Packet>)
    requires NoClose(done) && NoClose(todo)
    ensures NoClose(SendLoop(p, now, done, todo).sendq)
    decreases |todo|
  {
    if todo != [] {
      var h := Stamp(p.mustAck, p.inRel, todo[0]);
      if !(h.rel && h.ret) {
        SendLoopNoClose(p.(sent := p.sent + [h], lastOut := now), now,
                        if h.rel then done + [h.(ret := true)] else done, todo[1..]);
      }
    }
  }

  lemma ActNoClose(m: Arith, p: PeerState, other: PeerState, act: Action)
    requires AppStep(act) && NoClose(p.sendq)
    ensures NoClose(Act(m, p, other, act).sendq)
  {
    match act
    case Serve(now) =>
      var p1 := Probe(m, p.(wake := None), now);
      SendLoopNoClose(p1, now, [], p1.sendq);
    case Deliver(i, now, replies) =>
      if i < |other.sent| {
        IncomingNoClose(m, p, other.sent[i], now, replies);
      }
    case _ =>
  }

  // ----- Delivery of a batch -----

  /** All of the packets lo, ..., hi - 1 carry the same acknowledgement, none is a CLOSE. */
  predicate Uniform(sent: seq<Packet>, lo: nat, hi: nat, ack: bool, a: int) {
    hi <= |sent| && forall i :: lo <= i < hi ==>
      sent[i].cmd != CMD_CLOSE && sent[i].ack == ack && (ack ==> sent[i].ackSeq == a)
  }

  predicate Carries(sent: seq<Packet>, lo: nat, hi: nat, r: int) {
    hi <= |sent| && exists i :: lo <= i < hi && sent[i].rel && sent[i].relSeq == r
  }

  /** y has counted reliable packet r and will acknowledge it when next served. */
  predicate Owes(y: PeerState, r: int, ack: bool, a: int) {
    y.inRel >= r && y.mustAck && y.sendq != [] && (ack ==> Settled(y.sendq, a))
  }

  /** Receiving the packet numbered r makes y owe its acknowledgement, and nothing y
      receives takes that back. */
  lemma IncomingOwes(y: PeerState, base: int, k: Packet, now: int, replies: seq<AppSend>, r: int)
    requires Side(y, base) && y.state in {Run, Dead} && !Rejected(Unbounded, y, k) && k.cmd != CMD_CLOSE
    ensures var y' := Incoming(Unbounded, y, k, now, replies);
            && Grows(y, y')
            && (k.rel && k.relSeq == r && r <= y.inRel + 1 ==> Owes(y', r, k.ack, k.ackSeq))
            && (Owes(y, r, k.ack, k.ackSeq) ==> Owes(y', r, k.ack, k.ackSeq))
  {
    IncomingGrows(y, base, k, now, replies);
  }

  /** y receives packet i of x. */
  lemma PacketOut(sys: System, bX: int, bY: int, i: nat, a: Arrival, r: int)
    requires Established(sys, bX, bY) && i < |sys.x.sent| && sys.x.sent[i].cmd != CMD_CLOSE && FromApp(a.replies)
    ensures var sys' := Exec(Unbounded, sys, Arrive(false, i, a));
            var k, y, y' := sys.x.sent[i], sys.y, sys'.y;
            && Established(sys', bX, bY) && sys'.x == sys.x && Grows(y, y')
            && (k.rel && k.relSeq == r && r <= y.inRel + 1 ==> Owes(y', r, k.ack, k.ackSeq))
            && (Owes(y, r, k.ack, k.ackSeq) ==> Owes(y', r, k.ack, k.ackSeq))
  {
    StepKeeps(sys, bX, bY, Arrive(false, i, a));
    IncomingLinked(sys.y, sys.x, bY, bX, sys.x.sent[i], a.now, a.replies);
    IncomingOwes(sys.y, bY, sys.x.sent[i], a.now, a.replies, r);
  }

  lemma IncomingQuiet(x: PeerState, base: int, k: Packet, now: int, replies: seq<AppSend>)
    requires Side(x, base) && x.state in {Run, Dead} && !Rejected(Unbounded, x, k) && NoClose(x.sendq)
    requires FromApp(replies) && Quiet(replies)
    ensures var x' := Incoming(Unbounded, x, k, now, replies);
            && Grows(x, x') && x'.outRel == x.outRel && NoClose(x'.sendq) && (k.ack ==> x'.acked >= k.ackSeq)
  {
    IncomingGrows(x, base, k, now, replies);
    IncomingNoClose(Unbounded, x, k, now, replies);
  }

  /** x receives packet i of y. */
  lemma PacketBack(sys: System, bX: int, bY: int, i: nat, a: Arrival)
    requires Established(sys, bX, bY) && i < |sys.y.sent| && NoClose(sys.x.sendq)
    requires FromApp(a.replies) && Quiet(a.replies)
    ensures var sys' := Exec(Unbounded, sys, Arrive(true, i, a));
            var k := sys.y.sent[i];
            && Established(sys', bX, bY) && sys'.y == sys.y && Grows(sys.x, sys'.x)
            && sys'.x.outRel == sys.x.outRel
            && NoClose(sys'.x.sendq) && (k.ack ==> sys'.x.acked >= k.ackSeq)
  {
    StepKeeps(sys, bX, bY, Arrive(true, i, a));
    assert Exec(Unbounded, sys, Arrive(true, i, a))
        == sys.(x := Incoming(Unbounded, sys.x, sys.y.sent[i], a.now, a.replies));
    IncomingLinked(sys.x, sys.y, bX, bY, sys.y.sent[i], a.now, a.replies);
    IncomingQuiet(sys.x, bX, sys.y.sent[i], a.now, a.replies);
  }

  /** Before packet i of the batch: the packet numbered r is still to come, or y owes
      its acknowledgement. */
  predicate OutInv(s: System, i: nat, x: PeerState, y0: PeerState, bX: int, bY: int, hi: nat,
                   r: int, ack: bool, a: int) {
    && Established(s, bX, bY) && s.x == x && Grows(y0, s.y) && s.y.inRel >= r - 1
    && Uniform(x.sent, i, hi, ack, a)
    && (Carries(x.sent, i, hi, r) || Owes(s.y, r, ack, a))
  }

  lemma CarriesNext(sent: seq<Packet>, i: nat, hi: nat, r: int)
    requires Carries(sent, i, hi, r)
    ensures i < hi && ((sent[i].rel && sent[i].relSeq == r) || Carries(sent, i + 1, hi, r))
  {
    var j :| i <= j < hi && sent[j].rel && sent[j].relSeq == r;
    assert j == i || i + 1 <= j;
  }

  /** What the arrival of packet i does to the receiver's part of the invariant. */
  lemma OwesNext(x: PeerState, y0: PeerState, y: PeerState, y': PeerState, i: nat, hi: nat, r: int, ack: bool, a: int)
    requires i < hi <= |x.sent| && Grows(y0, y) && Grows(y, y') && y.inRel >= r - 1 && Uniform(x.sent, i, hi, ack, a)
    requires Carries(x.sent, i, hi, r) || Owes(y, r, ack, a)
    requires var k := x.sent[i];
             && (k.rel && k.relSeq == r && r <= y.inRel + 1 ==> Owes(y', r, k.ack, k.ackSeq))
             && (Owes(y, r, k.ack, k.ackSeq) ==> Owes(y', r, k.ack, k.ackSeq))
    ensures Grows(y0, y') && y'.inRel >= r - 1 && Uniform(x.sent, i + 1, hi, ack, a)
    ensures Carries(x.sent, i + 1, hi, r) || Owes(y', r, ack, a)
  {
    if !Owes(y, r, ack, a) {
      CarriesNext(x.sent, i, hi, r);
    }
  }

  lemma OutStep(s: System, i: nat, at: Arrival, x: PeerState, y0: PeerState, bX: int, bY: int, hi: nat,
                r: int, ack: bool, a: int)
    requires i < hi && OutInv(s, i, x, y0, bX, bY, hi, r, ack, a) && FromApp(at.replies)
    ensures OutInv(Exec(Unbounded, s, Arrive(false, i, at)), i + 1, x, y0, bX, bY, hi, r, ack, a)
  {
    PacketOut(s, bX, bY, i, at, r);
    OwesNext(x, y0, s.y, Exec(Unbounded, s, Arrive(false, i, at)).y, i, hi, r, ack, a);
  }

  lemma OutDone(s: System, x: PeerState, y0: PeerState, bX: int, bY: int, hi: nat, r: int, ack: bool, a: int)
    requires OutInv(s, hi, x, y0, bX, bY, hi, r, ack, a)
    ensures Established(s, bX, bY) && s.x == x && Owes(s.y, r, ack, a) && Grows(y0, s.y)
  {
  }

  predicate AppArrivals(arrivals: seq<Arrival>) {
    forall k :: 0 <= k < |arrivals| ==> FromApp(arrivals[k].replies)
  }

  predicate QuietArrivals(arrivals: seq<Arrival>) {
    forall k :: 0 <= k < |arrivals| ==> Quiet(arrivals[k].replies)
  }

  /** Delivering a batch that carries the next reliable packet makes y owe its
      acknowledgement, and nothing later in the batch takes that back. */
  lemma BatchOut(sys: System, bX: int, bY: int, lo: nat, arrivals: seq<Arrival>, r: int, ack: bool, a: int)
    requires AppArrivals(arrivals)
    requires OutInv(sys, lo, sys.x, sys.y, bX, bY, lo + |arrivals|, r, ack, a)
    ensures var sys' := DeliverAll(sys, false, lo, arrivals);
            Established(sys', bX, bY) && sys'.x == sys.x && Owes(sys'.y, r, ack, a) && Grows(sys.y, sys'.y)
  {
    var hi := lo + |arrivals|;
    var inv := (s: System, i: nat) => OutInv(s, i, sys.x, sys.y, bX, bY, hi, r, ack, a);
    var ok := (at: Arrival) => FromApp(at.replies);
    forall s: System, i: nat, at: Arrival | lo <= i < hi && inv(s, i) && ok(at)
      ensures inv(Exec(Unbounded, s, Arrive(false, i, at)), i + 1)
    {
      OutStep(s, i, at, sys.x, sys.y, bX, bY, hi, r, ack, a);
    }
    BatchInduction(inv, ok, sys, false, lo, arrivals);
    OutDone(DeliverAll(sys, false, lo, arrivals), sys.x, sys.y, bX, bY, hi, r, ack, a);
  }

  /** Before packet i of the way back. */
  predicate BackInv(s: System, i: nat, x0: PeerState, y: PeerState, bX: int, bY: int, lo: nat, n: int) {
    && Established(s, bX, bY) && s.y == y && Grows(x0, s.x) && s.x.outRel == x0.outRel && NoClose(s.x.sendq)
    && (lo < i ==> s.x.acked >= n)
  }

  lemma BackStep(s: System, i: nat, at: Arrival, x0: PeerState, y: PeerState, bX: int, bY: int, lo: nat, n: int)
    requires BackInv(s, i, x0, y, bX, bY, lo, n) && i < |y.sent| && y.sent[i].ack && y.sent[i].ackSeq == n
    requires FromApp(at.replies) && Quiet(at.replies)
    ensures BackInv(Exec(Unbounded, s, Arrive(true, i, at)), i + 1, x0, y, bX, bY, lo, n)
  {
    PacketBack(s, bX, bY, i, at);
  }

  /** Delivering packets that all acknowledge n leaves x with n acknowledged. */
  lemma BatchBack(sys: System, bX: int, bY: int, lo: nat, arrivals: seq<Arrival>, n: int)
    requires Established(sys, bX, bY) && lo + |arrivals| <= |sys.y.sent| && NoClose(sys.x.sendq)
    requires AppArrivals(arrivals) && QuietArrivals(arrivals)
    requires forall i :: lo <= i < lo + |arrivals| ==> sys.y.sent[i].ack && sys.y.sent[i].ackSeq == n
    ensures BackInv(DeliverAll(sys, true, lo, arrivals), lo + |arrivals|, sys.x, sys.y, bX, bY, lo, n)
  {
    var inv := (s: System, i: nat) => BackInv(s, i, sys.x, sys.y, bX, bY, lo, n);
    var ok := (at: Arrival) => FromApp(at.replies) && Quiet(at.replies);
    forall s: System, i: nat, at: Arrival | lo <= i < lo + |arrivals| && inv(s, i) && ok(at)
      ensures inv(Exec(Unbounded, s, Arrive(true, i, at)), i + 1)
    {
      BackStep(s, i, at, sys.x, sys.y, bX, bY, lo, n);
    }
    BatchInduction(inv, ok, sys, true, lo, arrivals);
  }

  // ----- One service -----

  lemma {:induction false} ChainFirst(q: seq<Packet>, r: int, u: int, out: int, outU: int) returns (j: nat)
    requires Chain(q, r, u, out, outU) && r < out
    ensures j < |q| && q[j].rel && q[j].relSeq == r + 1
    decreases |q|
  {
    if q[0].rel {
      j := 0;
    } else {
      var j' := ChainFirst(q[1..], r, q[0].unrelSeq, out, outU);
      j := j' + 1;
    }
  }

  /** One run of a queue that holds a reliable packet sends the lowest one. */
  lemma QueueCarries(p: PeerState, base: int, now: int)
    requires Side(p, base) && Lo(p, base) < p.outRel
    ensures var p' := SendQueue(p, now);
            |p.sent| <= |p'.sent| && Carries(p'.sent, |p.sent|, |p'.sent|, Lo(p, base) + 1)
  {
    SendQueueEffect(p, now);
    var p' := SendQueue(p, now);
    if p.sendq[0].ret {
      assert p'.sent[|p.sent|] == Stamp(p.mustAck, p.inRel, p.sendq[0]);
    } else {
      var j := ChainFirst(p.sendq, Lo(p, base), 0, p.outRel, p.outUnrel);
      StampAllAt(p.mustAck, p.inRel, p.sendq);
      assert p'.sent[|p.sent| + j] == Stamp(p.mustAck, p.inRel, p.sendq[j]);
    }
  }

  lemma QueueNoClose(p: PeerState, now: int)
    requires MarkPrefix(p.sendq) && NoClose(p.sendq)
    ensures var p' := SendQueue(p, now);
            NoClose(p'.sendq) && |p.sent| <= |p'.sent| && NoClose(p'.sent[|p.sent|..])
  {
    SendQueueEffect(p, now);
    var p' := SendQueue(p, now);
    var q := p.sendq;
    if q != [] && q[0].ret {
      assert p'.sent[|p.sent|..] == [Stamp(p.mustAck, p.inRel, q[0])];
    } else {
      StampAllAt(p.mustAck, p.inRel, q);
      assert p'.sent[|p.sent|..] == StampAll(p.mustAck, p.inRel, q) || q == [];
      MarkSentFrom(p.mustAck, p.inRel, q);
      forall i | 0 <= i < |p'.sendq|
        ensures p'.sendq[i].cmd != CMD_CLOSE
      {
        assert p'.sendq[i] in p'.sendq;
      }
    }
  }

  lemma QueueUniform(p: PeerState, base: int, now: int)
    requires Side(p, base) && NoClose(p.sendq)
    ensures var p' := SendQueue(p, now);
            |p.sent| <= |p'.sent| && Uniform(p'.sent, |p.sent|, |p'.sent|, p.mustAck, p.inRel)
  {
    SendQueueStamped(p, now);
    QueueNoClose(p, now);
    var p' := SendQueue(p, now);
    var t := p'.sent[|p.sent|..];
    assert forall i :: |p.sent| <= i < |p'.sent| ==> p'.sent[i] == t[i - |p.sent|];
  }

  /** A service in time of a peer with something to send. */
  lemma ServiceSends(p: PeerState, now: int)
    requires p.sendq != [] && now <= p.deadline
    ensures Service(Unbounded, p, now) == Schedule(SendQueue(p.(wake := None), now), now)
  {
  }

  /** What a run of a queue that holds a reliable packet and no CLOSE puts on the wire. */
  lemma QueueOut(p: PeerState, base: int, now: int)
    requires Side(p, base) && Rels(p.sendq) != [] && NoClose(p.sendq)
    ensures var p' := SendQueue(p, now);
            && |p.sent| <= |p'.sent| && NoClose(p'.sendq)
            && Carries(p'.sent, |p.sent|, |p'.sent|, Lo(p, base) + 1)
            && Uniform(p'.sent, |p.sent|, |p'.sent|, p.mustAck, p.inRel)
            && p'.outRel == p.outRel && p'.acked == p.acked && p'.deadline == p.deadline
  {
    ChainRels(p.sendq, Lo(p, base), 0, p.outRel, p.outUnrel);
    QueueCarries(p, base, now);
    QueueUniform(p, base, now);
    QueueNoClose(p, now);
    SendQueueKeeps(p, now);
  }

  lemma ServiceOut(p: PeerState, base: int, now: int)
    requires Side(p, base) && Rels(p.sendq) != [] && NoClose(p.sendq) && now <= p.deadline
    ensures var p' := Service(Unbounded, p, now);
            && |p.sent| <= |p'.sent| && NoClose(p'.sendq)
            && Carries(p'.sent, |p.sent|, |p'.sent|, Lo(p, base) + 1)
            && Uniform(p'.sent, |p.sent|, |p'.sent|, p.mustAck, p.inRel)
            && p'.outRel == p.outRel && p'.acked == p.acked && p'.deadline == p.deadline
  {
    ServiceSends(p, now);
    QueueOut(p.(wake := None), base, now);
  }

  lemma ServeOut(sys: System, bX: int, bY: int, now: int)
    requires Established(sys, bX, bY) && Rels(sys.x.sendq) != [] && NoClose(sys.x.sendq) && now <= sys.x.deadline
    ensures var s1 := AfterServe(sys, true, now);
            var lo, hi := |sys.x.sent|, |s1.x.sent|;
            && lo <= hi && s1.y == sys.y && NoClose(s1.x.sendq)
            && OutInv(s1, lo, s1.x, s1.y, bX, bY, hi, Lo(sys.x, bX) + 1, sys.x.mustAck, sys.x.inRel)
            && s1.x.outRel == sys.x.outRel && s1.x.acked == sys.x.acked && s1.x.deadline == sys.x.deadline
  {
    StepKeeps(sys, bX, bY, Step(true, Serve(now)));
    ServiceOut(sys.x, bX, now);
    assert Lo(sys.x, bX) <= sys.y.inRel && Grows(sys.y, sys.y);
  }

  lemma ServeBack(sys: System, bX: int, bY: int, now: int)
    requires Established(sys, bX, bY) && sys.y.mustAck && sys.y.sendq != [] && now <= sys.y.deadline
    ensures var s3 := AfterServe(sys, false, now);
            && Established(s3, bX, bY) && s3.x == sys.x && |sys.y.sent| < |s3.y.sent|
            && (forall i :: |sys.y.sent| <= i < |s3.y.sent| ==> s3.y.sent[i].ack && s3.y.sent[i].ackSeq == sys.y.inRel)
            && s3.y.deadline == sys.y.deadline
  {
    StepKeeps(sys, bX, bY, Step(false, Serve(now)));
    ServiceSends(sys.y, now);
    AckEmitted(sys.y.(wake := None), now);
  }

  // ----- Progress -----

  /** Each peer is served before its deadline, as it stands then; every packet sent
      arrives; the applications may reply, that of x with nothing reliable. */
  predicate Fits(sys: System, rd: Round) {
    var s1, s2 := AfterServe(sys, true, rd.serveX), Out(sys, rd);
    var s3 := AfterServe(s2, false, rd.serveY);
    && rd.serveX <= sys.x.deadline && rd.serveY <= s2.y.deadline
    && |sys.x.sent| + |rd.out| == |s1.x.sent| && |s2.y.sent| + |rd.back| == |s3.y.sent|
    && AppArrivals(rd.out) && AppArrivals(rd.back) && QuietArrivals(rd.back)
  }

  /** The first half: y owes the acknowledgement of x's lowest queued packet. */
  lemma ExchangeOut(sys: System, bX: int, bY: int, rd: Round)
    requires Established(sys, bX, bY) && Rels(sys.x.sendq) != [] && NoClose(sys.x.sendq) && Fits(sys, rd)
    ensures var s2 := Out(sys, rd);
            && Established(s2, bX, bY) && NoClose(s2.x.sendq) && s2.x.outRel == sys.x.outRel
            && s2.y.inRel > Lo(sys.x, bX) && s2.y.mustAck && s2.y.sendq != []
  {
    ServeOut(sys, bX, bY, rd.serveX);
    BatchOut(AfterServe(sys, true, rd.serveX), bX, bY, |sys.x.sent|, rd.out,
             Lo(sys.x, bX) + 1, sys.x.mustAck, sys.x.inRel);
  }

  /** The second half: x learns of it. */
  lemma ExchangeBack(sys: System, bX: int, bY: int, now: int, back: seq<Arrival>)
    requires Established(sys, bX, bY) && NoClose(sys.x.sendq)
    requires sys.y.mustAck && sys.y.sendq != [] && now <= sys.y.deadline
    requires |sys.y.sent| + |back| == |AfterServe(sys, false, now).y.sent|
    requires AppArrivals(back) && QuietArrivals(back)
    ensures var s4 := DeliverAll(AfterServe(sys, false, now), true, |sys.y.sent|, back);
            && Established(s4, bX, bY) && NoClose(s4.x.sendq)
            && s4.x.outRel == sys.x.outRel && s4.x.acked >= sys.y.inRel
  {
    ServeBack(sys, bX, bY, now);
    BatchBack(AfterServe(sys, false, now), bX, bY, |sys.y.sent|, back, sys.y.inRel);
  }

  lemma QueueCount(p: PeerState, base: int)
    requires Side(p, base)
    ensures |Rels(p.sendq)| == p.outRel - Lo(p, base)
  {
    ChainRels(p.sendq, Lo(p, base), 0, p.outRel, p.outUnrel);
  }

  /** One loss-free exchange strictly lowers the number of reliable packets queued,
      whatever the clocks read in between. */
  lemma ExchangeProgress(sys: System, bX: int, bY: int, rd: Round)
    requires Established(sys, bX, bY) && Rels(sys.x.sendq) != [] && NoClose(sys.x.sendq) && Fits(sys, rd)
    ensures var sys' := RunAll(Unbounded, sys, ExchangeSteps(sys, rd));
            && Established(sys', bX, bY) && NoClose(sys'.x.sendq)
            && |Rels(sys'.x.sendq)| < |Rels(sys.x.sendq)|
  {
    ExchangeRun(sys, rd);
    ExchangeOut(sys, bX, bY, rd);
    ExchangeBack(Out(sys, rd), bX, bY, rd.serveY, rd.back);
    QueueCount(sys.x, bX);
    QueueCount(RunAll(Unbounded, sys, ExchangeSteps(sys, rd)).x, bX);
  }

  lemma {:induction false} DeadlineAhead(sys: System, lo: nat, arrivals: seq<Arrival>, c: int)
    requires c <= sys.y.deadline && forall k :: 0 <= k < |arrivals| ==> c <= arrivals[k].now + DROP_TIMEOUT
    ensures c <= DeliverAll(sys, false, lo, arrivals).y.deadline
    decreases |arrivals|
  {
    if arrivals != [] {
      var a := arrivals[0];
      if lo < |sys.x.sent| {
        DeadlineFollows(Unbounded, sys.y, Receives(sys.x.sent[lo], a.replies, a.now));
      }
      DeadlineAhead(Exec(Unbounded, sys, Arrive(false, lo, a)), lo + 1, arrivals[1..], c);
    }
  }

  /** The second service is in time if it comes before y's old deadline and within
      10000 ms of every arrival at y: readings a caller can check beforehand. */
  lemma ServedInTime(sys: System, rd: Round)
    requires rd.serveY <= sys.y.deadline
    requires forall k :: 0 <= k < |rd.out| ==> rd.serveY <= rd.out[k].now + DROP_TIMEOUT
    ensures rd.serveY <= Out(sys, rd).y.deadline
  {
    DeadlineAhead(AfterServe(sys, true, rd.serveX), |sys.x.sent|, rd.out, rd.serveY);
  }

  function Exchange(sys: System, rd: Round): System {
    RunAll(Unbounded, sys, ExchangeSteps(sys, rd))
  }

  function Exchanges(sys: System, rds: seq<Round>): System
    decreases |rds|
  {
    if rds == [] then sys else Exchanges(Exchange(sys, rds[0]), rds[1..])
  }

  /** Each exchange is loss-free and in time, by the deadlines as they stand then, until
      the queue is drained. */
  predicate OnTime(sys: System, rds: seq<Round>)
    decreases |rds|
  {
    rds != [] && Rels(sys.x.sendq) != [] ==> Fits(sys, rds[0]) && OnTime(Exchange(sys, rds[0]), rds[1..])
  }

  /** An exchange in time lowers the count wherever `ok` holds, and keeps `ok`. */
  ghost predicate Lowers(ok: System -> bool) {
    forall u: System, rd: Round :: ok(u) && Rels(u.x.sendq) != [] && Fits(u, rd) ==>
      ok(Exchange(u, rd)) && |Rels(Exchange(u, rd).x.sendq)| < |Rels(u.x.sendq)|
  }

  lemma {:induction false} DrainsWhile(ok: System -> bool, sys: System, rds: seq<Round>) returns (n: nat)
    requires Lowers(ok) && ok(sys) && |Rels(sys.x.sendq)| <= |rds| && OnTime(sys, rds)
    ensures n <= |Rels(sys.x.sendq)| && n <= |rds| && Rels(Exchanges(sys, rds[..n]).x.sendq) == []
    decreases |rds|
  {
    if Rels(sys.x.sendq) == [] {
      n := 0;
    } else {
      var n' := DrainsWhile(ok, Exchange(sys, rds[0]), rds[1..]);
      n := n' + 1;
      assert rds[..n][1..] == rds[1..][..n'];
    }
  }

  /** A queue of n reliable packets is drained by at most n loss-free exchanges, each in
      time. */
  lemma Drains(sys: System, bX: int, bY: int, rds: seq<Round>) returns (n: nat)
    requires Established(sys, bX, bY) && NoClose(sys.x.sendq)
    requires |Rels(sys.x.sendq)| <= |rds| && OnTime(sys, rds)
    ensures n <= |Rels(sys.x.sendq)| && n <= |rds| && Rels(Exchanges(sys, rds[..n]).x.sendq) == []
  {
    var ok := (u: System) => Established(u, bX, bY) && NoClose(u.x.sendq);
    forall u: System, rd: Round | ok(u) && Rels(u.x.sendq) != [] && Fits(u, rd)
      ensures ok(Exchange(u, rd)) && |Rels(Exchange(u, rd).x.sendq)| < |Rels(u.x.sendq)|
    {
      ExchangeProgress(u, bX, bY, rd);
    }
    n := DrainsWhile(ok, sys, rds);
  }

  lemma {:induction false} RunAppend(m: Arith, sys: System, a: seq<Step>, b: seq<Step>)
    ensures RunAll(m, sys, a + b) == RunAll(m, RunAll(m, sys, a), b)
    decreases |a|
  {
    if a == [] {
      assert a + b == b;
    } else {
      assert (a + b)[1..] == a[1..] + b;
      RunAppend(m, Exec(m, sys, a[0]), a[1..], b);
    }
  }

  lemma RunServe(sys: System, onX: bool, now: int, rest: seq<Step>)
    ensures RunAll(Unbounded, sys, [Step(onX, Serve(now))] + rest)
         == RunAll(Unbounded, AfterServe(sys, onX, now), rest)
  {
    assert ([Step(onX, Serve(now))] + rest)[1..] == rest;
  }

  lemma ExchangeRun(sys: System, rd: Round)
    ensures var s2 := Out(sys, rd);
            RunAll(Unbounded, sys, ExchangeSteps(sys, rd))
            == DeliverAll(AfterServe(s2, false, rd.serveY), true, |s2.y.sent|, rd.back)
  {
    var s2 := Out(sys, rd);
    DeliveriesRun(AfterServe(sys, true, rd.serveX), false, |sys.x.sent|, rd.out);
    DeliveriesRun(AfterServe(s2, false, rd.serveY), true, |s2.y.sent|, rd.back);
    RunServe(sys, true, rd.serveX, Deliveries(false, |sys.x.sent|, rd.out));
    RunServe(s2, false, rd.serveY, Deliveries(true, |s2.y.sent|, rd.back));
    RunAppend(Unbounded, sys, [Step(true, Serve(rd.serveX))] + Deliveries(false, |sys.x.sent|, rd.out),
              [Step(false, Serve(rd.serveY))] + Deliveries(true, |s2.y.sent|, rd.back));
  }
}
