/** What follows for applications and for the wire, in every run from reset. */
module Guarantees {
  import opened SeqNum
  import opened Packets
  import opened PeerSpec
  import opened Queues
  import opened Invariants
  import opened Transmission
  import opened Session
  import opened Refinement
  import opened Handshake
  import opened Delivery
  import opened Exactness

  /** The run of the 16-bit machine and its unbounded shadow. */
  lemma RunFromReset(r: int, s: int, nowX: int, nowY: int, steps: seq<Step>) returns (u: System)
    requires Usable(r, s) && AllAdmissible(Opening(Unbounded, r, s, nowX, nowY), steps)
    ensures u == RunAll(Unbounded, Opening(Unbounded, r, s, nowX, nowY), steps)
    ensures InSession(u, r, s)
    ensures RunAll(Wrapped, Opening(Wrapped, r, s, nowX, nowY), steps) == ProjSystem(u)
  {
    var sys := Opening(Unbounded, r, s, nowX, nowY);
    OpeningOpened(r, s, nowX, nowY);
    OpeningProjects(r, s, nowX, nowY);
    RunRefines(sys, r, s, steps);
    u := RunAll(Unbounded, sys, steps);
  }

  // ----- Baselines -----

  /** The server counts from the number of the CONN_REQ and the client from the number
      of the CONN_RSP, one per reliable packet accepted. */
  predicate BaselinesOk(w: System, r: int, s: int) {
    && (w.y.state != New ==> Rels(w.y.acc) != [] && w.y.inRel == Wrap16(r + |Rels(w.y.acc)|))
    && (w.x.state != Connecting ==> w.y.state != New && w.x.inRel == Wrap16(s + |Rels(w.x.acc)|))
  }

  lemma SessionCounts(u: System, r: int, s: int)
    requires InSession(u, r, s)
    ensures u.y.state != New ==> u.y.inRel == r + |Rels(u.y.acc)| && u.y.inRel > r
    ensures u.x.state != Connecting ==> u.y.state != New && u.x.inRel == s + |Rels(u.x.acc)|
  {
  }

  lemma CountsProject(u: System, r: int, s: int)
    requires u.y.state != New ==> u.y.inRel == r + |Rels(u.y.acc)| && u.y.inRel > r
    requires u.x.state != Connecting ==> u.y.state != New && u.x.inRel == s + |Rels(u.x.acc)|
    ensures BaselinesOk(ProjSystem(u), r, s)
  {
    RelsProject(u.x.acc);
    RelsProject(u.y.acc);
  }

  /** Handshake agreement in every run from reset. */
  lemma BaselinesAgree(r: int, s: int, nowX: int, nowY: int, steps: seq<Step>)
    requires Usable(r, s) && AllAdmissible(Opening(Unbounded, r, s, nowX, nowY), steps)
    ensures BaselinesOk(RunAll(Wrapped, Opening(Wrapped, r, s, nowX, nowY), steps), r, s)
  {
    var u := RunFromReset(r, s, nowX, nowY, steps);
    SessionCounts(u, r, s);
    CountsProject(u, r, s);
  }

  // ----- The handshake completes -----

  /** Request, answer, each transmitted once and delivered, at any times by the clocks of
      the two hosts. */
  predicate HandshakeSteps(steps: seq<Step>, t1: int, t2: int, t3: int, t4: int) {
    && |steps| == 4
    && steps[0] == Step(true, Serve(t1)) && steps[1] == Step(false, Deliver(0, t2, []))
    && steps[2] == Step(false, Serve(t3)) && steps[3] == Step(true, Deliver(0, t4, []))
  }

  lemma RequestGoesOut(r: int, nowX: int, t: int)
    requires t <= nowX + DROP_TIMEOUT
    ensures var x := SendConnect(Unbounded, Init(Unbounded, r, nowX), nowX);
            var x' := Service(Unbounded, x, t);
            |x'.sent| == 1 && x'.sent[0].cmd == CMD_CONN_REQ && x'.sent[0].relSeq == r + 1
            && x'.state == Connecting && x'.outRel == r + 1 && x'.acked == r - 1
  {
    var x := SendConnect(Unbounded, Init(Unbounded, r, nowX), nowX);
    SendQueueEffect(x.(wake := None), t);
    assert x.sendq[1..] == [];
  }

  lemma AnswerGoesOut(y: PeerState, s: int, k: Packet, t2: int, t: int)
    requires Listener(y, s) && k.cmd == CMD_CONN_REQ && t <= y.deadline
    ensures var y' := Service(Unbounded, Schedule(Answering(y, k), t2), t);
            |y'.sent| == 1 && y'.sent[0].cmd == CMD_CONN_RSP && !y'.sent[0].rel
            && y'.sent[0].relSeq == s && y'.sent[0].unrelSeq == 1
            && y'.sent[0].ack && y'.sent[0].ackSeq == k.relSeq
            && y'.state == Run && y'.outRel == s && y'.inRel == k.relSeq && y'.acked == s - 1
  {
    var y1 := Answering(y, k);
    SendQueueEffect(y1.(wake := None), t);
    assert y1.sendq[1..] == [];
  }

  lemma RequestSent(s0: System, r: int, s: int, nowX: int, t: int)
    requires Usable(r, s) && Opened(s0, r, s) && t <= nowX + DROP_TIMEOUT
    requires s0.x == SendConnect(Unbounded, Init(Unbounded, r, nowX), nowX) && s0.y.state == New
    ensures var s1 := Exec(Unbounded, s0, Step(true, Serve(t)));
            && Admissible(s0, Step(true, Serve(t))) && Opened(s1, r, s) && s1.y == s0.y
            && |s1.x.sent| == 1 && s1.x.sent[0].cmd == CMD_CONN_REQ && s1.x.sent[0].relSeq == r + 1
            && s1.x.outRel == r + 1 && s1.x.acked == r - 1
  {
    RequestGoesOut(r, nowX, t);
    ConnectorServes(s0, r, s, t);
  }

  lemma RequestArrives(s1: System, r: int, s: int, t: int)
    requires Usable(r, s) && Opened(s1, r, s) && Listener(s1.y, s)
    requires |s1.x.sent| == 1 && s1.x.sent[0].cmd == CMD_CONN_REQ && s1.x.sent[0].relSeq == r + 1
    requires s1.x.outRel == r + 1 && s1.x.acked == r - 1
    ensures var s2 := Exec(Unbounded, s1, Step(false, Deliver(0, t, [])));
            && Admissible(s1, Step(false, Deliver(0, t, []))) && Opened(s2, r, s) && s2.x == s1.x
            && s2.y == Schedule(Answering(s1.y, s1.x.sent[0]), t)
  {
    var req := s1.x.sent[0];
    RequestNumbers(s1.x, r, req);
    ListenerIncoming(s1.y, req, t, []);
    ListenerReceives(s1, r, s, req, t, []);
  }

  lemma AnswerSent(s2: System, r: int, s: int, y: PeerState, k: Packet, t2: int, t: int)
    requires Usable(r, s) && Opened(s2, r, s) && Listener(y, s) && t <= y.deadline
    requires k.cmd == CMD_CONN_REQ && k.relSeq == r + 1 && s2.y == Schedule(Answering(y, k), t2)
    ensures var s3 := Exec(Unbounded, s2, Step(false, Serve(t)));
            && Admissible(s2, Step(false, Serve(t))) && Opened(s3, r, s) && s3.x == s2.x
            && |s3.y.sent| == 1 && s3.y.sent[0].cmd == CMD_CONN_RSP && !s3.y.sent[0].rel
            && s3.y.sent[0].relSeq == s && s3.y.sent[0].unrelSeq == 1
            && s3.y.sent[0].ack && s3.y.sent[0].ackSeq == r + 1
            && s3.y.state == Run && s3.y.outRel == s && s3.y.inRel == r + 1 && s3.y.acked == s - 1
  {
    AnswerGoesOut(y, s, k, t2, t);
    AnswererServes(s2, r, s, t);
  }

  lemma AnswerArrives(s3: System, r: int, s: int, t: int)
    requires Usable(r, s) && Opened(s3, r, s) && s3.x.outRel == r + 1 && s3.x.acked == r - 1
    requires |s3.y.sent| == 1 && s3.y.sent[0].cmd == CMD_CONN_RSP && s3.y.sent[0].relSeq == s && !s3.y.sent[0].rel
    requires s3.y.sent[0].unrelSeq == 1 && s3.y.sent[0].ack && s3.y.sent[0].ackSeq == r + 1
    requires s3.y.state == Run && s3.y.outRel == s && s3.y.inRel == r + 1 && s3.y.acked == s - 1
    ensures var s4 := Exec(Unbounded, s3, Step(true, Deliver(0, t, [])));
            && Admissible(s3, Step(true, Deliver(0, t, []))) && s4.y == s3.y
            && s4.x.state == Run && s4.x.inRel == s
  {
    ConnectorReceives(s3, r, s, s3.y.sent[0], t, []);
  }

  lemma FirstHalf(s0: System, r: int, s: int, nowX: int, t1: int, t2: int) returns (s1: System, s2: System)
    requires Usable(r, s) && t1 <= nowX + DROP_TIMEOUT && Opened(s0, r, s) && s0.y.state == New
    requires s0.x == SendConnect(Unbounded, Init(Unbounded, r, nowX), nowX)
    ensures s1 == Exec(Unbounded, s0, Step(true, Serve(t1))) && Admissible(s0, Step(true, Serve(t1)))
    ensures s2 == Exec(Unbounded, s1, Step(false, Deliver(0, t2, []))) && Admissible(s1, Step(false, Deliver(0, t2, [])))
    ensures Opened(s2, r, s) && s2.x.outRel == r + 1 && s2.x.acked == r - 1 && Listener(s0.y, s)
    ensures |s2.x.sent| == 1 && s2.x.sent[0].cmd == CMD_CONN_REQ && s2.x.sent[0].relSeq == r + 1
    ensures s2.y == Schedule(Answering(s0.y, s2.x.sent[0]), t2)
  {
    RequestSent(s0, r, s, nowX, t1);
    s1 := Exec(Unbounded, s0, Step(true, Serve(t1)));
    RequestArrives(s1, r, s, t2);
    s2 := Exec(Unbounded, s1, Step(false, Deliver(0, t2, [])));
  }

  lemma SecondHalf(s2: System, r: int, s: int, y: PeerState, k: Packet, t2: int, t3: int, t4: int)
    returns (s3: System, s4: System)
    requires Usable(r, s) && Opened(s2, r, s) && s2.x.outRel == r + 1 && s2.x.acked == r - 1
    requires Listener(y, s) && t3 <= y.deadline
    requires k.cmd == CMD_CONN_REQ && k.relSeq == r + 1 && s2.y == Schedule(Answering(y, k), t2)
    ensures s3 == Exec(Unbounded, s2, Step(false, Serve(t3))) && Admissible(s2, Step(false, Serve(t3)))
    ensures s4 == Exec(Unbounded, s3, Step(true, Deliver(0, t4, []))) && Admissible(s3, Step(true, Deliver(0, t4, [])))
    ensures BothRun(s4, r + 1, s)
  {
    AnswerSent(s2, r, s, y, k, t2, t3);
    s3 := Exec(Unbounded, s2, Step(false, Serve(t3)));
    AnswerArrives(s3, r, s, t4);
    s4 := Exec(Unbounded, s3, Step(true, Deliver(0, t4, [])));
  }

  lemma OpeningRuns(r: int, s: int, nowX: int, nowY: int, t1: int, t2: int, t3: int, t4: int, steps: seq<Step>)
    returns (s4: System)
    requires Usable(r, s) && t1 <= nowX + DROP_TIMEOUT && t3 <= nowY + DROP_TIMEOUT
    requires HandshakeSteps(steps, t1, t2, t3, t4)
    ensures AllAdmissible(Opening(Unbounded, r, s, nowX, nowY), steps)
    ensures s4 == RunAll(Unbounded, Opening(Unbounded, r, s, nowX, nowY), steps)
    ensures BothRun(s4, r + 1, s)
  {
    var s0 := Opening(Unbounded, r, s, nowX, nowY);
    OpeningOpened(r, s, nowX, nowY);
    var s1, s2 := FirstHalf(s0, r, s, nowX, t1, t2);
    var s3, s4' := SecondHalf(s2, r, s, s0.y, s2.x.sent[0], t2, t3, t4);
    s4 := s4';
    ChainOfFour(s0, s1, s2, s3, s4, steps);
  }

  /** Without loss a handshake completes in these four steps, for all usable numbers and
      all latencies, if each peer is served before its first deadline. */
  lemma HandshakeCompletes(r: int, s: int, nowX: int, nowY: int, t1: int, t2: int, t3: int, t4: int, steps: seq<Step>)
    requires Usable(r, s) && t1 <= nowX + DROP_TIMEOUT && t3 <= nowY + DROP_TIMEOUT
    requires HandshakeSteps(steps, t1, t2, t3, t4)
    ensures AllAdmissible(Opening(Unbounded, r, s, nowX, nowY), steps)
    ensures BothRun(RunAll(Wrapped, Opening(Wrapped, r, s, nowX, nowY), steps), Wrap16(r + 1), s)
  {
    var s4 := OpeningRuns(r, s, nowX, nowY, t1, t2, t3, t4, steps);
    var u := RunFromReset(r, s, nowX, nowY, steps);
    BothRunProjects(u, r, s);
  }

  predicate BothRun(w: System, inY: int, inX: int) {
    w.x.state == w.y.state == Run && w.y.inRel == inY && w.x.inRel == inX
  }

  lemma BothRunProjects(u: System, r: int, s: int)
    requires Usable(r, s) && BothRun(u, r + 1, s)
    ensures BothRun(ProjSystem(u), Wrap16(r + 1), s)
  {
  }

  lemma ChainOfFour(s0: System, s1: System, s2: System, s3: System, s4: System, steps: seq<Step>)
    requires |steps| == 4
    requires s1 == Exec(Unbounded, s0, steps[0]) && s2 == Exec(Unbounded, s1, steps[1])
    requires s3 == Exec(Unbounded, s2, steps[2]) && s4 == Exec(Unbounded, s3, steps[3])
    requires Admissible(s0, steps[0]) && Admissible(s1, steps[1])
    requires Admissible(s2, steps[2]) && Admissible(s3, steps[3])
    ensures AllAdmissible(s0, steps) && RunAll(Unbounded, s0, steps) == s4
  {
    assert steps[1..][1..] == steps[2..] && steps[2..][1..] == steps[3..] && steps[3..][1..] == [];
    assert RunAll(Unbounded, s3, steps[3..]) == s4 && AllAdmissible(s3, steps[3..]);
    assert RunAll(Unbounded, s2, steps[2..]) == s4 && AllAdmissible(s2, steps[2..]);
    assert RunAll(Unbounded, s1, steps[1..]) == s4 && AllAdmissible(s1, steps[1..]);
  }

  // ----- Nothing is forgotten early -----

  /** The queue holds exactly the last reliable packets enqueued. */
  lemma QueueIsTail(p: PeerState, base: int)
    requires Side(p, base)
    ensures var n := Lo(p, base) - base;
            0 <= n <= |Rels(p.enq)| && Rels(p.sendq) == Rels(p.enq)[n..]
  {
    var lo := Lo(p, base);
    ChainRels(p.enq, base, 0, p.outRel, p.outUnrel);
    ChainRels(p.sendq, lo, 0, p.outRel, p.outUnrel);
    forall i | 0 <= i < |Rels(p.sendq)|
      ensures Rels(p.sendq)[i] == Rels(p.enq)[lo - base + i]
    {
      var k := RelsFrom(p.sendq, i);
      ChainMember(p.enq, base, 0, p.outRel, p.outUnrel, Strip(k));
    }
  }

  lemma {:induction false} RelsFrom(q: seq<Packet>, i: nat) returns (k: Packet)
    requires i < |Rels(q)|
    ensures k in q && k.rel && Rels(q)[i] == Strip(k)
    decreases |q|
  {
    if q[0].rel && i == 0 {
      k := q[0];
    } else {
      k := RelsFrom(q[1..], if q[0].rel then i - 1 else i);
    }
  }

  /** How far each number of a direction from x to y has got. */
  predicate Ordered(x: PeerState, y: PeerState) {
    x.acked <= y.inRel <= Tx(x) <= x.outRel
  }

  /** Once both peers run: acknowledged, accepted, transmitted, issued, in this order. */
  lemma NumbersOrdered(r: int, s: int, nowX: int, nowY: int, steps: seq<Step>)
    requires Usable(r, s) && AllAdmissible(Opening(Unbounded, r, s, nowX, nowY), steps)
    ensures var u := RunAll(Unbounded, Opening(Unbounded, r, s, nowX, nowY), steps);
            u.x.state != Connecting ==> Ordered(u.x, u.y) && Ordered(u.y, u.x)
  {
    var u := RunFromReset(r, s, nowX, nowY, steps);
    if u.x.state != Connecting {
      SessionOrdered(u, r, s);
    }
  }

  lemma SessionOrdered(u: System, r: int, s: int)
    requires InSession(u, r, s) && u.x.state != Connecting
    ensures Ordered(u.x, u.y) && Ordered(u.y, u.x)
  {
  }

  /** Every reliable packet enqueued is still in the sender's queue or has been
      accepted by the receiver. */
  ghost predicate NoneLost(x: PeerState, y: PeerState) {
    exists n: nat :: n <= |Rels(x.enq)| && Rels(x.sendq) == Rels(x.enq)[n..] && Rels(x.enq)[..n] <= Rels(y.acc)
  }

  lemma HalfNoneLost(x: PeerState, y: PeerState, base: int)
    requires Side(x, base) && Half(x, y, base)
    ensures NoneLost(Proj(x), Proj(y))
  {
    QueueIsTail(x, base);
    RelsProject(x.enq);
    RelsProject(x.sendq);
    RelsProject(y.acc);
    var n := Lo(x, base) - base;
    var e := Rels(x.enq);
    assert e[..n] <= e[..y.inRel - base];
    assert ProjS(e[n..]) == ProjS(e)[n..];
    assert ProjS(e)[..n] == ProjS(e[..n]) <= ProjS(Rels(y.acc));
  }

  /** No reliable packet is forgotten early, in either direction, once both run. */
  lemma NothingForgotten(r: int, s: int, nowX: int, nowY: int, steps: seq<Step>)
    requires Usable(r, s) && AllAdmissible(Opening(Unbounded, r, s, nowX, nowY), steps)
    ensures var w := RunAll(Wrapped, Opening(Wrapped, r, s, nowX, nowY), steps);
            w.x.state != Connecting ==> NoneLost(w.x, w.y) && NoneLost(w.y, w.x)
  {
    var u := RunFromReset(r, s, nowX, nowY, steps);
    if u.x.state != Connecting {
      HalfNoneLost(u.x, u.y, r);
      HalfNoneLost(u.y, u.x, s);
    }
  }

  // ----- The last CLOSE -----

  lemma {:induction false} ClosedAt(acc: seq<Packet>) returns (i: nat)
    requires Closed(acc)
    ensures i < |acc| && acc[i].cmd == CMD_CLOSE
    decreases |acc|
  {
    if acc[|acc| - 1].cmd == CMD_CLOSE {
      i := |acc| - 1;
    } else {
      i := ClosedAt(acc[..|acc| - 1]);
    }
  }

  lemma RelsPrefix(a: seq<Packet>, n: nat)
    requires n <= |a|
    ensures Rels(a[..n]) <= Rels(a)
  {
    var b, c := a[..n], a[n..];
    assert a == b + c;
    RelsAppend(b, c);
  }

  /** No reliable packet is enqueued after a CLOSE; a CLOSE may be repeated, and followed
      by acknowledgements. */
  predicate ClosesLast(enq: seq<Packet>) {
    forall i, j :: 0 <= i < j < |enq| && enq[i].cmd == CMD_CLOSE ==> !enq[j].rel
  }

  lemma {:induction false} RelsNone(q: seq<Packet>)
    requires forall i :: 0 <= i < |q| ==> !q[i].rel
    ensures Rels(q) == []
    decreases |q|
  {
    if q != [] {
      RelsNone(q[1..]);
    }
  }

  /** When packet i was accepted, exactly the reliable packets enqueued before it had been. */
  ghost predicate NothingSkipped(enq: seq<Packet>, acc: seq<Packet>, i: nat)
    requires i < |acc|
  {
    exists j: nat :: j < |enq| && enq[j] == Strip(acc[i]) && Rels(acc[..i + 1]) == Rels(enq[..j + 1])
  }

  lemma CloseFollows(enq: seq<Packet>, acc: seq<Packet>, i: nat)
    requires InOrder(enq, acc) && i < |acc|
    ensures NothingSkipped(enq, acc, i)
  {
    var idx :| Embeds(enq, acc, idx);
    assert enq[idx[i]] == Strip(acc[i]);
  }

  lemma NoneAfter(enq: seq<Packet>, j: nat)
    requires ClosesLast(enq) && j < |enq| && enq[j].cmd == CMD_CLOSE
    ensures Rels(enq) == Rels(enq[..j + 1])
  {
    var a, t := enq[..j + 1], enq[j + 1..];
    assert enq == a + t;
    assert forall i :: 0 <= i < |t| ==> t[i] == enq[j + 1 + i];
    RelsAppend(a, t);
    RelsNone(t);
  }

  /** If nothing reliable is enqueued after a CLOSE, that is every reliable packet there is. */
  lemma CloseIsLast(enq: seq<Packet>, acc: seq<Packet>)
    requires InOrder(enq, acc) && Closed(acc) && ClosesLast(enq)
    ensures Rels(acc) == Rels(enq)
  {
    var i := ClosedAt(acc);
    CloseFollows(enq, acc, i);
    RelsPrefix(acc, i + 1);
    var j: nat :| j < |enq| && enq[j] == Strip(acc[i]) && Rels(acc[..i + 1]) == Rels(enq[..j + 1]);
    NoneAfter(enq, j);
  }

  ghost predicate CloseInOrder(enq: seq<Packet>, acc: seq<Packet>) {
    && (forall i :: 0 <= i < |acc| && acc[i].cmd == CMD_CLOSE ==> NothingSkipped(enq, acc, i))
    && (Closed(acc) && ClosesLast(enq) ==> Rels(acc) == Rels(enq))
  }

  /** CLOSE cannot overtake reliable data, in any run from reset and in either direction. */
  lemma CloseCannotOvertake(r: int, s: int, nowX: int, nowY: int, steps: seq<Step>)
    requires Usable(r, s) && AllAdmissible(Opening(Unbounded, r, s, nowX, nowY), steps)
    ensures var w := RunAll(Wrapped, Opening(Wrapped, r, s, nowX, nowY), steps);
            CloseInOrder(w.x.enq, w.y.acc) && CloseInOrder(w.y.enq, w.x.acc)
  {
    InOrderDelivery(r, s, nowX, nowY, steps);
    var w := RunAll(Wrapped, Opening(Wrapped, r, s, nowX, nowY), steps);
    CloseOrdered(w.x.enq, w.y.acc);
    CloseOrdered(w.y.enq, w.x.acc);
  }

  lemma CloseOrdered(enq: seq<Packet>, acc: seq<Packet>)
    requires InOrder(enq, acc)
    ensures CloseInOrder(enq, acc)
  {
    forall i | 0 <= i < |acc| ensures NothingSkipped(enq, acc, i) {
      CloseFollows(enq, acc, i);
    }
    if Closed(acc) && ClosesLast(enq) {
      CloseIsLast(enq, acc);
    }
  }

  // ----- Acknowledgements on the wire -----

  lemma SequencedSent(m: Arith, p: PeerState, k: Packet, now: int, replies: seq<AppSend>)
    ensures HandleSequenced(m, p, k, now, replies).sent == p.sent
  {
    SendAllFrame(m, p.(up := p.up + [HandlePacket(k)]), replies, now);
  }

  /** Handling a packet transmits nothing by itself. */
  lemma IncomingSent(m: Arith, p: PeerState, k: Packet, now: int, replies: seq<AppSend>)
    ensures Incoming(m, p, k, now, replies).sent == p.sent
  {
    var p1 := if k.ack then HandleAck(m, p, k.ackSeq) else p;
    if Classify(m, p1, k) == Sequenced {
      SequencedSent(m, Accept(p1, k, now), k, now, replies);
    } else {
      assert HandleUnsequenced(m, p1, k, now).sent == p.sent;
    }
  }

  /** From p to p' the wire only grew, by packets whose acknowledgements are current. */
  predicate AcksCurrent(p: PeerState, p': PeerState) {
    p.sent <= p'.sent && forall i :: |p.sent| <= i < |p'.sent| && p'.sent[i].ack ==> p'.sent[i].ackSeq == p'.inRel
  }

  lemma ServiceAcks(p: PeerState, now: int)
    requires !p.mustAck ==> NoAcks(p.sendq)
    ensures AcksCurrent(p, Service(Unbounded, p, now))
  {
    var p1 := Probe(Unbounded, p.(wake := None), now);
    SendQueueStamped(p1, now);
    var p' := SendQueue(p1, now);
    var t := p'.sent[|p.sent|..];
    assert forall i :: |p.sent| <= i < |p'.sent| ==> p'.sent[i] == t[i - |p.sent|];
  }

  lemma ActAcks(p: PeerState, other: PeerState, act: Action)
    requires !p.mustAck ==> NoAcks(p.sendq)
    ensures AcksCurrent(p, Act(Unbounded, p, other, act))
  {
    match act
    case Serve(now) => ServiceAcks(p, now);
    case Deliver(i, now, replies) =>
      if i < |other.sent| {
        IncomingSent(Unbounded, p, other.sent[i], now, replies);
      }
    case _ =>
  }

  lemma AcksProject(p: PeerState, p': PeerState)
    requires AcksCurrent(p, p')
    ensures AcksCurrent(Proj(p), Proj(p'))
  {
    assert ProjS(p.sent) == ProjS(p'.sent)[..|p.sent|];
  }

  /** In every run, whatever step comes next: each packet it puts on the wire with an
      acknowledgement carries the sender's current in_seq_reliable. */
  lemma WireAcksCurrent(r: int, s: int, nowX: int, nowY: int, steps: seq<Step>, st: Step)
    requires Usable(r, s) && AllAdmissible(Opening(Unbounded, r, s, nowX, nowY), steps)
    requires Admissible(RunAll(Unbounded, Opening(Unbounded, r, s, nowX, nowY), steps), st)
    ensures var w := RunAll(Wrapped, Opening(Wrapped, r, s, nowX, nowY), steps);
            AcksCurrent(Actor(w, st), Actor(Exec(Wrapped, w, st), st))
  {
    var u := RunFromReset(r, s, nowX, nowY, steps);
    SessionStep(u, r, s, st);
    var p := Actor(u, st);
    QueueAcks(u, r, s, st);
    ActAcks(p, Other(u, st), st.act);
    AcksProject(p, Actor(Exec(Unbounded, u, st), st));
  }

  lemma QueueAcks(u: System, r: int, s: int, st: Step)
    requires InSession(u, r, s)
    ensures !Actor(u, st).mustAck ==> NoAcks(Actor(u, st).sendq)
  {
  }

  /** No honest acknowledgement is rejected: no packet delivered in a run is taken for
      broken, neither on the true numbers nor on the 16-bit ones. */
  lemma HonestNeverRejected(r: int, s: int, nowX: int, nowY: int, steps: seq<Step>, st: Step)
    requires Usable(r, s) && AllAdmissible(Opening(Unbounded, r, s, nowX, nowY), steps)
    requires Admissible(RunAll(Unbounded, Opening(Unbounded, r, s, nowX, nowY), steps), st) && st.act.Deliver?
    ensures var w := RunAll(Wrapped, Opening(Wrapped, r, s, nowX, nowY), steps);
            st.act.i < |Other(w, st).sent| ==> !Rejected(Wrapped, Actor(w, st), Other(w, st).sent[st.act.i])
  {
    var u := RunFromReset(r, s, nowX, nowY, steps);
    var p, q := Actor(u, st), Other(u, st);
    if st.act.i < |q.sent| {
      var k := q.sent[st.act.i];
      SessionRecent(u, r, s, st);
      SessionAccepts(u, r, s, st, k);
      IncomingCommutes(p, k, st.act.now, []);
    }
  }

  lemma SessionRecent(u: System, r: int, s: int, st: Step)
    requires Usable(r, s) && InSession(u, r, s) && Admissible(u, st)
    ensures RecentStep(Actor(u, st), Other(u, st), st.act)
  {
    if u.x.state == Connecting {
      OpenedRecent(u, r, s, st);
    } else if st.act.Deliver? && st.act.i < |Other(u, st).sent| {
      if st.onX {
        YoungIsRecent(u.x, u.y, r, s, u.y.sent[st.act.i]);
      } else {
        YoungIsRecent(u.y, u.x, s, r, u.x.sent[st.act.i]);
      }
    }
  }

  lemma SessionAccepts(u: System, r: int, s: int, st: Step, k: Packet)
    requires Usable(r, s) && InSession(u, r, s) && k in Other(u, st).sent
    ensures !Rejected(Unbounded, Actor(u, st), k)
  {
    if u.x.state != Connecting {
      if st.onX {
        IncomingLinked(u.x, u.y, r, s, k, 0, []);
      } else {
        IncomingLinked(u.y, u.x, s, r, k, 0, []);
      }
    } else if st.onX {
      AnswererNumbers(u.y, r, s, k);
      ConnectorAcked(u, r, s, k.ackSeq);
    } else {
      RequestNumbers(u.x, r, k);
    }
  }

  // ----- Upcalls and PONGs -----

  lemma {:induction false} ClosedProjects(acc: seq<Packet>)
    ensures Closed(ProjS(acc)) <==> Closed(acc)
    decreases |acc|
  {
    if acc != [] {
      ClosedProjects(acc[..|acc| - 1]);
      assert ProjS(acc)[..|acc| - 1] == ProjS(acc[..|acc| - 1]);
    }
  }

  lemma {:induction false} AnsweredProjects(acc: seq<Packet>)
    ensures Answered(ProjS(acc)) == Answered(acc)
    ensures Delivered(ProjS(acc)) == ProjS(Delivered(acc))
    decreases |acc|
  {
    if acc != [] {
      var t := acc[..|acc| - 1];
      AnsweredProjects(t);
      ClosedProjects(t);
      assert ProjS(acc)[..|acc| - 1] == ProjS(t);
    }
  }

  lemma {:induction false} PongsProjects(enq: seq<Packet>)
    ensures Pongs(ProjS(enq)) == Pongs(enq)
    decreases |enq|
  {
    if enq != [] {
      PongsProjects(enq[..|enq| - 1]);
      assert ProjS(enq)[..|enq| - 1] == ProjS(enq[..|enq| - 1]);
    }
  }

  lemma {:induction false} HandledProjects(up: seq<Upcall>)
    ensures Handled(ProjU(up)) == ProjS(Handled(up))
    decreases |up|
  {
    if up != [] {
      HandledProjects(up[..|up| - 1]);
      assert ProjU(up)[..|up| - 1] == ProjU(up[..|up| - 1]);
    }
  }

  lemma FaithfulProjects(p: PeerState)
    requires Faithful(p)
    ensures Faithful(Proj(p))
  {
    ClosedProjects(p.acc);
    AnsweredProjects(p.acc);
    PongsProjects(p.enq);
    HandledProjects(p.up);
  }

  /** The application gets exactly the accepted application packets, in order, and each
      PING accepted in its first transmission is answered by exactly one PONG with its
      payload, a retransmitted one by none. */
  lemma FaithfulUpcalls(r: int, s: int, nowX: int, nowY: int, steps: seq<Step>)
    requires Usable(r, s) && AllAdmissible(Opening(Unbounded, r, s, nowX, nowY), steps)
    ensures var w := RunAll(Wrapped, Opening(Wrapped, r, s, nowX, nowY), steps);
            && (w.x.state != Connecting ==> Faithful(w.x))
            && (w.y.state != New ==> Faithful(w.y))
  {
    var u := RunFromReset(r, s, nowX, nowY, steps);
    if u.x.state != Connecting {
      FaithfulProjects(u.x);
    }
    if u.y.state != New {
      FaithfulProjects(u.y);
    }
  }

  // ----- The RETRANSMITTED flag -----

  lemma {:induction false} RetAt(sent: seq<Packet>, i: nat)
    requires RetOk(sent) && i < |sent| && sent[i].rel
    ensures sent[i].ret <==> Transmitted(sent[..i], sent[i].relSeq)
    decreases |sent|
  {
    var t := sent[..|sent| - 1];
    if i == |sent| - 1 {
      assert sent[..i] == t;
    } else {
      RetAt(t, i);
      assert t[..i] == sent[..i];
    }
  }

  /** On the wire the first transmission of a reliable packet has no RETRANSMITTED flag
      and every later one has it. "The same packet" is told by its unbounded number. */
  lemma FlagsOnWire(r: int, s: int, nowX: int, nowY: int, steps: seq<Step>, i: nat)
    requires Usable(r, s) && AllAdmissible(Opening(Unbounded, r, s, nowX, nowY), steps)
    ensures var w := RunAll(Wrapped, Opening(Wrapped, r, s, nowX, nowY), steps);
            var u := RunAll(Unbounded, Opening(Unbounded, r, s, nowX, nowY), steps);
            && |w.x.sent| == |u.x.sent| && |w.y.sent| == |u.y.sent|
            && (i < |w.x.sent| && w.x.sent[i].rel ==>
                  (w.x.sent[i].ret <==> Transmitted(u.x.sent[..i], u.x.sent[i].relSeq)))
            && (i < |w.y.sent| && w.y.sent[i].rel ==>
                  (w.y.sent[i].ret <==> Transmitted(u.y.sent[..i], u.y.sent[i].relSeq)))
  {
    var u := RunFromReset(r, s, nowX, nowY, steps);
    SessionSides(u, r, s);
    if i < |u.x.sent| && u.x.sent[i].rel {
      RetAt(u.x.sent, i);
    }
    if i < |u.y.sent| && u.y.sent[i].rel {
      RetAt(u.y.sent, i);
    }
  }

  lemma SessionSides(u: System, r: int, s: int)
    requires InSession(u, r, s)
    ensures Side(if u.x.state == Connecting then Ahead(u.x, s) else u.x, r)
    ensures u.y.state != New ==> Side(u.y, s)
    ensures RetOk(u.x.sent) && RetOk(u.y.sent)
  {
  }

  // ----- Reset numbers do not come back -----

  lemma AfreshIsUnused(p: PeerState, base: int)
    requires Side(p, base) && NumberedAfresh(Unbounded, p)
    ensures p.outRel == base && p.enq == []
  {
    ChainBounds(p.enq, base, 0, p.outRel, p.outUnrel);
  }

  /** After any run, drops included: once a peer has numbered anything its outgoing numbers
      are never again as reset left them. So it is with the client from the start. */
  lemma NeverNumberedAfresh(r: int, s: int, nowX: int, nowY: int, steps: seq<Step>)
    requires Usable(r, s) && AllAdmissible(Opening(Unbounded, r, s, nowX, nowY), steps)
    ensures var u := RunAll(Unbounded, Opening(Unbounded, r, s, nowX, nowY), steps);
            && !NumberedAfresh(Unbounded, u.x)
            && (u.y.state != New && NumberedAfresh(Unbounded, u.y) ==> u.y.enq == [])
  {
    var u := RunFromReset(r, s, nowX, nowY, steps);
    SessionSides(u, r, s);
    ClientIssued(u, r, s);
    if NumberedAfresh(Unbounded, u.x) {
      AfreshIsUnused(if u.x.state == Connecting then Ahead(u.x, s) else u.x, r);
    }
    if u.y.state != New && NumberedAfresh(Unbounded, u.y) {
      AfreshIsUnused(u.y, s);
    }
  }

  lemma ClientIssued(u: System, r: int, s: int)
    requires InSession(u, r, s)
    ensures u.x.outRel > r
  {
  }

  // ----- The shape of the send queue -----

  /** A prefix of transmitted reliable packets numbered consecutively, then packets
      never transmitted; strictly increasing throughout, the reliable numbers without a
      gap up to the last one issued. */
  predicate Shaped(p: PeerState, base: int) {
    var q, lo, n := p.sendq, Lo(p, base), Tx(p) - Lo(p, base);
    && 0 <= n <= |q|
    && (forall i :: 0 <= i < n ==> q[i].rel && q[i].ret && q[i].relSeq == lo + 1 + i)
    && (forall i :: n <= i < |q| ==> !q[i].ret)
    && (forall i, j :: 0 <= i < j < |q| ==> Lt(q[i], q[j]))
    && |Rels(q)| == p.outRel - lo
    && (forall i :: 0 <= i < |Rels(q)| ==> Rels(q)[i].relSeq == lo + 1 + i)
  }

  /** The send queues have this shape in every run, the server's from its first answer. */
  lemma QueuesShaped(r: int, s: int, nowX: int, nowY: int, steps: seq<Step>)
    requires Usable(r, s) && AllAdmissible(Opening(Unbounded, r, s, nowX, nowY), steps)
    ensures var u := RunAll(Unbounded, Opening(Unbounded, r, s, nowX, nowY), steps);
            Shaped(u.x, r) && (u.y.state != New ==> Shaped(u.y, s))
  {
    var u := RunFromReset(r, s, nowX, nowY, steps);
    SessionSides(u, r, s);
    if u.x.state == Connecting {
      ShapedAhead(u.x, r, s);
    } else {
      QueueShape(u.x, r);
    }
    if u.y.state != New {
      QueueShape(u.y, s);
    }
  }

  lemma ShapedAhead(x: PeerState, r: int, s: int)
    requires Side(Ahead(x, s), r)
    ensures Shaped(x, r)
  {
    QueueShape(Ahead(x, s), r);
  }

  lemma QueueShape(p: PeerState, base: int)
    requires Side(p, base)
    ensures Shaped(p, base)
  {
    ChainSorted(p.sendq, Lo(p, base), 0, p.outRel, p.outUnrel);
    ChainRels(p.sendq, Lo(p, base), 0, p.outRel, p.outUnrel);
    MarksAreTx(p.sendq, Lo(p, base), 0, p.outRel, p.outUnrel);
  }

  lemma {:induction false} MarksAreTx(q: seq<Packet>, r: int, u: int, out: int, outU: int)
    requires Chain(q, r, u, out, outU) && MarkPrefix(q)
    ensures var n := out - Unsent(q) - r;
            && 0 <= n <= |q|
            && (forall i :: 0 <= i < n ==> q[i].rel && q[i].ret && q[i].relSeq == r + 1 + i)
            && (forall i :: n <= i < |q| ==> !q[i].ret)
    decreases |q|
  {
    if NoMarks(q) {
      ChainRels(q, r, u, out, outU);
      UnsentBound(q);
    } else {
      MarksAreTx(q[1..], r + 1, 0, out, outU);
      assert forall i :: 1 <= i < |q| ==> q[i] == q[1..][i - 1];
    }
  }
}
