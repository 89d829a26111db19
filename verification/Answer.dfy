/** The server's answer: it is transmitted once, and the client runs exactly if that one
    packet reaches it. */
module Answer {
  import opened SeqNum
  import opened Packets
  import opened PeerSpec
  import opened Transmission
  import opened Session
  import opened Handshake
  import opened Delivery
  import opened Guarantees
  import opened Timing

  // ----- At most one CONN_RSP on the wire -----

  function Answers(q: seq<Packet>): nat
    decreases |q|
  {
    if q == [] then 0 else (if q[0].cmd == CMD_CONN_RSP then 1 else 0) + Answers(q[1..])
  }

  lemma {:induction false} AnswersAppend(a: seq<Packet>, b: seq<Packet>)
    ensures Answers(a + b) == Answers(a) + Answers(b)
    decreases |a|
  {
    if a == [] {
      assert a + b == b;
    } else {
      assert (a + b)[1..] == a[1..] + b;
      AnswersAppend(a[1..], b);
    }
  }

  lemma AnswersOne(a: seq<Packet>, k: Packet)
    ensures Answers(a + [k]) == Answers(a) + if k.cmd == CMD_CONN_RSP then 1 else 0
  {
    AnswersAppend(a, [k]);
    assert [k][1..] == [];
  }

  /** Two answers in a sequence count as two. */
  lemma {:induction false} AnswersCount(q: seq<Packet>, i: nat, j: nat)
    requires i <= j < |q| && q[i].cmd == q[j].cmd == CMD_CONN_RSP
    ensures Answers(q) >= if i == j then 1 else 2
    decreases |q|
  {
    if i > 0 {
      AnswersCount(q[1..], i - 1, j - 1);
    } else if j > 0 {
      AnswersCount(q[1..], j - 1, j - 1);
    }
  }

  predicate NoReliableAnswer(q: seq<Packet>) {
    forall i :: 0 <= i < |q| && q[i].cmd == CMD_CONN_RSP ==> !q[i].rel
  }

  /** At most one answer has left PEER_NEW, and none is reliable. */
  predicate OneAnswer(p: PeerState) {
    && NoReliableAnswer(p.sendq)
    && Answers(p.sent) + Answers(p.sendq) <= if p.state == New then 0 else 1
  }

  lemma SendOneAnswer(m: Arith, p: PeerState, pc: Packet, now: int)
    requires OneAnswer(p) && pc.cmd != CMD_CONN_RSP
    ensures OneAnswer(SendUnreliable(m, p, pc, now)) && OneAnswer(SendReliable(m, p, pc, now))
  {
    AnswersOne(p.sendq, Unreliable(m, p, pc));
    AnswersOne(p.sendq, Reliable(m, p, pc));
  }

  lemma {:induction false} SendAllOneAnswer(m: Arith, p: PeerState, msgs: seq<AppSend>, now: int)
    requires OneAnswer(p) && forall i :: 0 <= i < |msgs| ==> AppCommand(msgs[i])
    ensures OneAnswer(SendAll(m, p, msgs, now))
    decreases |msgs|
  {
    if msgs != [] {
      SendOneAnswer(m, p, Fresh(msgs[0].cmd, msgs[0].data), now);
      SendAllOneAnswer(m, PeerSpec.Send(m, p, msgs[0], now), msgs[1..], now);
    }
  }

  lemma {:induction false} DropAckedAnswers(m: Arith, q: seq<Packet>, ack: int)
    requires NoReliableAnswer(q)
    ensures NoReliableAnswer(DropAcked(m, q, ack)) && Answers(DropAcked(m, q, ack)) == Answers(q)
    decreases |q|
  {
    if q != [] && q[0].rel && q[0].ret && Delta(m, q[0].relSeq, ack) <= 0 {
      DropAckedAnswers(m, q[1..], ack);
    }
  }

  lemma HandleAckOneAnswer(m: Arith, p: PeerState, ack: int)
    requires OneAnswer(p)
    ensures OneAnswer(HandleAck(m, p, ack))
  {
    DropAckedAnswers(m, p.sendq, ack);
  }

  lemma FinishOneAnswer(m: Arith, p: PeerState, k: Packet, now: int)
    requires OneAnswer(p)
    ensures OneAnswer(Finish(m, p, k, now))
  {
    var p' := p.(mustAck := true);
    assert OneAnswer(p');
    SendOneAnswer(m, p', Fresh(CMD_NOOP, Blank), now);
  }

  lemma UnsequencedOneAnswer(m: Arith, p: PeerState, k: Packet, now: int)
    requires OneAnswer(p)
    ensures OneAnswer(HandleUnsequenced(m, p, k, now))
  {
    if p.state == New && k.cmd == CMD_CONN_REQ {
      AnswersOne(p.sendq, Unreliable(m, p, Fresh(CMD_CONN_RSP, Word(1))));
    } else {
      HandleAckOneAnswer(m, p.(inRel := k.relSeq), k.ackSeq);
    }
  }

  lemma SequencedOneAnswer(m: Arith, p: PeerState, k: Packet, now: int, replies: seq<AppSend>)
    requires OneAnswer(p) && forall i :: 0 <= i < |replies| ==> AppCommand(replies[i])
    ensures OneAnswer(HandleSequenced(m, p, k, now, replies))
  {
    if k.cmd == CMD_PING {
      SendOneAnswer(m, p, Fresh(CMD_PONG, k.data), now);
    } else if k.cmd >= CMD_APP {
      SendAllOneAnswer(m, p.(up := p.up + [HandlePacket(k)]), replies, now);
    }
  }

  lemma ReceiveOneAnswer(m: Arith, p: PeerState, k: Packet, now: int, replies: seq<AppSend>)
    requires OneAnswer(p) && forall i :: 0 <= i < |replies| ==> AppCommand(replies[i])
    ensures OneAnswer(Receive(m, p, k, now, replies))
  {
    match Classify(m, p, k)
    case Unsequenced =>
      UnsequencedOneAnswer(m, p, k, now);
      FinishOneAnswer(m, HandleUnsequenced(m, p, k, now), k, now);
    case Retransmitted => FinishOneAnswer(m, p.(deadline := now + DROP_TIMEOUT), k, now);
    case Sequenced =>
      SequencedOneAnswer(m, Accept(p, k, now), k, now, replies);
      FinishOneAnswer(m, HandleSequenced(m, Accept(p, k, now), k, now, replies), k, now);
  }

  /** The queue passes each answer on to the wire, once. */
  lemma {:induction false} SendLoopAnswers(p: PeerState, now: int, done: seq<Packet>, todo: seq<Packet>)
    requires NoReliableAnswer(done) && NoReliableAnswer(todo)
    ensures var p' := SendLoop(p, now, done, todo);
            && NoReliableAnswer(p'.sendq) && p'.state == p.state
            && Answers(p'.sent) + Answers(p'.sendq) == Answers(p.sent) + Answers(done) + Answers(todo)
    decreases |todo|
  {
    if todo != [] {
      var h := Stamp(p.mustAck, p.inRel, todo[0]);
      var p1 := p.(sent := p.sent + [h], lastOut := now);
      AnswersOne(p.sent, h);
      AnswersOne(done, h);
      AnswersOne(done, h.(ret := true));
      if h.rel && h.ret {
        AnswersAppend(done + [h], todo[1..]);
      } else {
        SendLoopAnswers(p1, now, if h.rel then done + [h.(ret := true)] else done, todo[1..]);
      }
    }
  }

  lemma ServiceOneAnswer(m: Arith, p: PeerState, now: int)
    requires OneAnswer(p)
    ensures OneAnswer(Service(m, p, now))
  {
    var p0 := p.(wake := None);
    SendOneAnswer(m, p0, Fresh(CMD_PING, Timestamp(now)), now);
    var p1 := Probe(m, p0, now);
    assert OneAnswer(p1);
    SendLoopAnswers(p1, now, [], p1.sendq);
  }

  /** The application keeps to its commands. */
  predicate AppEvent(e: PeerEvent) {
    match e
    case Sends(msg, _) => AppCommand(msg)
    case Receives(_, replies, _) => forall i :: 0 <= i < |replies| ==> AppCommand(replies[i])
    case _ => true
  }

  lemma EventOneAnswer(m: Arith, p: PeerState, e: PeerEvent)
    requires OneAnswer(p) && AppEvent(e)
    ensures OneAnswer(After(m, p, e))
  {
    match e
    case Receives(k, replies, now) =>
      HandleAckOneAnswer(m, p, k.ackSeq);
      ReceiveOneAnswer(m, if k.ack then HandleAck(m, p, k.ackSeq) else p, k, now, replies);
    case Serves(now) => ServiceOneAnswer(m, p, now);
    case Sends(msg, now) => SendOneAnswer(m, p, Fresh(msg.cmd, msg.data), now);
    case Closes(now) => AnswersOne(p.sent, Unreliable(m, p, Fresh(CMD_CLOSE, Blank)));
  }

  lemma {:induction false} LifeOneAnswer(m: Arith, p: PeerState, es: seq<PeerEvent>)
    requires OneAnswer(p) && forall i :: 0 <= i < |es| ==> AppEvent(es[i])
    ensures OneAnswer(Life(m, p, es))
    decreases |es|
  {
    if es != [] {
      EventOneAnswer(m, p, es[0]);
      LifeOneAnswer(m, After(m, p, es[0]), es[1..]);
    }
  }

  /** Whatever it receives, a peer transmits at most one CONN_RSP between two resets. */
  lemma AnswersAtMostOnce(m: Arith, rand: int, start: int, es: seq<PeerEvent>)
    requires forall i :: 0 <= i < |es| ==> AppEvent(es[i])
    ensures Answers(Life(m, Init(m, rand, start), es).sent) <= 1
  {
    LifeOneAnswer(m, Init(m, rand, start), es);
  }

  // ----- The client runs exactly if the answer reaches it -----

  /** The step delivers an answer of y to x. */
  predicate DeliversAnswer(u: System, st: Step) {
    st.onX && st.act.Deliver? && st.act.i < |u.y.sent| && u.y.sent[st.act.i].cmd == CMD_CONN_RSP
  }

  predicate AnswerDelivered(u: System, steps: seq<Step>)
    decreases |steps|
  {
    steps != [] && (DeliversAnswer(u, steps[0]) || AnswerDelivered(Exec(Unbounded, u, steps[0]), steps[1..]))
  }

  lemma StepAnswered(u: System, r: int, s: int, st: Step)
    requires Usable(r, s) && Opened(u, r, s) && Admissible(u, st)
    ensures Exec(Unbounded, u, st).x.state != Connecting <==> DeliversAnswer(u, st)
  {
    if st.onX {
      match st.act
      case Send(msg, now) => ConnectorSends(u, r, s, msg, now);
      case Serve(now) => ConnectorServes(u, r, s, now);
      case Deliver(i, now, replies) =>
        if i < |u.y.sent| {
          ConnectorReceives(u, r, s, u.y.sent[i], now, replies);
        }
      case Close(_) =>
    }
  }

  lemma {:induction false} StaysOut(u: System, r: int, s: int, steps: seq<Step>)
    requires Usable(r, s) && InSession(u, r, s) && u.x.state != Connecting && AllAdmissible(u, steps)
    ensures RunAll(Unbounded, u, steps).x.state != Connecting
    decreases |steps|
  {
    if steps != [] {
      EstablishedStays(u, r, s, steps[0]);
      SessionStep(u, r, s, steps[0]);
      StaysOut(Exec(Unbounded, u, steps[0]), r, s, steps[1..]);
    }
  }

  lemma {:induction false} RunAnswered(u: System, r: int, s: int, steps: seq<Step>)
    requires Usable(r, s) && Opened(u, r, s) && AllAdmissible(u, steps)
    ensures RunAll(Unbounded, u, steps).x.state != Connecting <==> AnswerDelivered(u, steps)
    decreases |steps|
  {
    if steps != [] {
      var u' := Exec(Unbounded, u, steps[0]);
      StepAnswered(u, r, s, steps[0]);
      SessionStep(u, r, s, steps[0]);
      if u'.x.state != Connecting {
        StaysOut(u', r, s, steps[1..]);
      } else {
        RunAnswered(u', r, s, steps[1..]);
      }
    }
  }

  /** In every admissible run from reset the client has left the handshake if and only if
      an answer of the server has been delivered to it. */
  lemma RunsIffAnswered(r: int, s: int, nowX: int, nowY: int, steps: seq<Step>)
    requires Usable(r, s) && AllAdmissible(Opening(Unbounded, r, s, nowX, nowY), steps)
    ensures RunAll(Wrapped, Opening(Wrapped, r, s, nowX, nowY), steps).x.state != Connecting
       <==> AnswerDelivered(Opening(Unbounded, r, s, nowX, nowY), steps)
  {
    var u := RunFromReset(r, s, nowX, nowY, steps);
    OpeningOpened(r, s, nowX, nowY);
    RunAnswered(Opening(Unbounded, r, s, nowX, nowY), r, s, steps);
  }

  // ----- A lost answer is final -----

  /** The packet y sent as number i never reaches x. */
  predicate NeverDelivered(steps: seq<Step>, i: nat) {
    forall j :: 0 <= j < |steps| && steps[j].onX && steps[j].act.Deliver? ==> steps[j].act.i != i
  }

  lemma ActOneAnswer(m: Arith, p: PeerState, other: PeerState, act: Action)
    requires OneAnswer(p) && AppStep(act)
    ensures OneAnswer(Act(m, p, other, act))
  {
    match act
    case Send(msg, now) => EventOneAnswer(m, p, Sends(msg, now));
    case Serve(now) => EventOneAnswer(m, p, Serves(now));
    case Close(now) => EventOneAnswer(m, p, Closes(now));
    case Deliver(i, now, replies) =>
      if i < |other.sent| {
        EventOneAnswer(m, p, Receives(other.sent[i], replies, now));
      }
  }

  lemma ActSent(m: Arith, p: PeerState, other: PeerState, act: Action)
    ensures p.sent <= Act(m, p, other, act).sent
  {
    match act
    case Serve(now) => SendQueueStamped(Probe(m, p.(wake := None), now), now);
    case Deliver(i, now, replies) =>
      if i < |other.sent| {
        IncomingSent(m, p, other.sent[i], now, replies);
      }
    case _ =>
  }

  /** The answer is packet i of the server, and the only one. */
  predicate AnsweredAs(u: System, i: nat) {
    OneAnswer(u.y) && i < |u.y.sent| && u.y.sent[i].cmd == CMD_CONN_RSP
  }

  lemma AnsweredStays(m: Arith, u: System, i: nat, st: Step)
    requires AnsweredAs(u, i) && AppStep(st.act)
    ensures AnsweredAs(Exec(m, u, st), i)
  {
    if !st.onX {
      ActOneAnswer(m, u.y, u.x, st.act);
      ActSent(m, u.y, u.x, st.act);
    }
  }

  lemma OnlyAnswer(u: System, i: nat, st: Step)
    requires AnsweredAs(u, i) && DeliversAnswer(u, st)
    ensures st.act.i == i
  {
    if st.act.i != i {
      AnswersCount(u.y.sent, if i < st.act.i then i else st.act.i, if i < st.act.i then st.act.i else i);
    }
  }

  predicate AppSteps(steps: seq<Step>) {
    forall j :: 0 <= j < |steps| ==> AppStep(steps[j].act)
  }

  /** Neither running nor a server's peer. */
  predicate Out(p: PeerState) {
    p.state in {Connecting, Dead}
  }

  lemma SequencedStaysOut(m: Arith, p: PeerState, k: Packet, now: int, replies: seq<AppSend>)
    requires Out(p)
    ensures HandleSequenced(m, p, k, now, replies) == p
  {
  }

  /** Only an answer lets a client run. */
  lemma IncomingStaysOut(m: Arith, p: PeerState, k: Packet, now: int, replies: seq<AppSend>)
    requires Out(p) && k.cmd != CMD_CONN_RSP
    ensures Out(Incoming(m, p, k, now, replies))
  {
    var p1 := if k.ack then HandleAck(m, p, k.ackSeq) else p;
    SequencedStaysOut(m, Accept(p1, k, now), k, now, replies);
    assert HandleUnsequenced(m, p1, k, now) == p1;
  }

  lemma ActStaysOut(m: Arith, u: System, i: nat, st: Step)
    requires AnsweredAs(u, i) && Out(u.x)
    requires st.onX && st.act.Deliver? ==> st.act.i != i
    ensures Out(Exec(m, u, st).x)
  {
    if st.onX {
      match st.act
      case Serve(now) => SendQueueStamped(Probe(m, u.x.(wake := None), now), now);
      case Deliver(j, now, replies) =>
        if j < |u.y.sent| {
          if DeliversAnswer(u, st) {
            OnlyAnswer(u, i, st);
          } else {
            IncomingStaysOut(m, u.x, u.y.sent[j], now, replies);
          }
        }
      case _ =>
    }
  }

  lemma {:induction false} LostFrom(m: Arith, u: System, i: nat, steps: seq<Step>)
    requires AnsweredAs(u, i) && Out(u.x) && AppSteps(steps) && NeverDelivered(steps, i)
    ensures Out(RunAll(m, u, steps).x)
    decreases |steps|
  {
    if steps != [] {
      ActStaysOut(m, u, i, steps[0]);
      AnsweredStays(m, u, i, steps[0]);
      LostFrom(m, Exec(m, u, steps[0]), i, steps[1..]);
    }
  }

  lemma {:induction false} RunOneAnswer(m: Arith, u: System, steps: seq<Step>)
    requires OneAnswer(u.y) && AppSteps(steps)
    ensures OneAnswer(RunAll(m, u, steps).y)
    decreases |steps|
  {
    if steps != [] {
      if !steps[0].onX {
        ActOneAnswer(m, u.y, u.x, steps[0].act);
      }
      RunOneAnswer(m, Exec(m, u, steps[0]), steps[1..]);
    }
  }

  /** Once the server has sent its answer, as its packet i, and the client waits: if the
      network loses packet i, no continuation whatever makes the client run. A repeated
      request is answered by no second CONN_RSP. This needs no bound on windows, on packet
      age, or on what is sent during the handshake. */
  lemma LostAnswerIsFinal(m: Arith, r: int, s: int, nowX: int, nowY: int, steps: seq<Step>, i: nat, more: seq<Step>)
    requires AppSteps(steps) && AppSteps(more) && NeverDelivered(more, i)
    requires var u := RunAll(m, Opening(m, r, s, nowX, nowY), steps);
             u.x.state == Connecting && i < |u.y.sent| && u.y.sent[i].cmd == CMD_CONN_RSP
    ensures RunAll(m, RunAll(m, Opening(m, r, s, nowX, nowY), steps), more).x.state in {Connecting, Dead}
  {
    RunOneAnswer(m, Opening(m, r, s, nowX, nowY), steps);
    LostFrom(m, RunAll(m, Opening(m, r, s, nowX, nowY), steps), i, more);
  }
}
