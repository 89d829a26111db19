/** What the application asked for and what the far application gets: packets of the
    application are numbered as requested, and delivered as they were numbered. */
module Applications {
  import opened SeqNum
  import opened Packets
  import opened PeerSpec
  import opened Queues
  import opened Session
  import opened Transmission
  import opened Handshake
  import opened Delivery
  import opened Guarantees
  import opened Answer

  // ----- Messages -----

  /** The application's packets of a sequence, as it knows them: command numbers from 0x10
      on are its own. */
  function Messages(q: seq<Packet>): seq<AppSend>
    decreases |q|
  {
    if q == [] then []
    else (if q[0].cmd >= 0x10 then [AppSend(q[0].rel, q[0].cmd, q[0].data)] else []) + Messages(q[1..])
  }

  function ReliableOnes(msgs: seq<AppSend>): seq<AppSend>
    decreases |msgs|
  {
    if msgs == [] then []
    else (if msgs[0].reliable then [msgs[0]] else []) + ReliableOnes(msgs[1..])
  }

  lemma {:induction false} MessagesAppend(a: seq<Packet>, b: seq<Packet>)
    ensures Messages(a + b) == Messages(a) + Messages(b)
    decreases |a|
  {
    if a == [] {
      assert a + b == b;
    } else {
      assert (a + b)[1..] == a[1..] + b;
      MessagesAppend(a[1..], b);
      var h := if a[0].cmd >= 0x10 then [AppSend(a[0].rel, a[0].cmd, a[0].data)] else [];
      assert h + (Messages(a[1..]) + Messages(b)) == (h + Messages(a[1..])) + Messages(b);
    }
  }

  lemma MessagesOne(a: seq<Packet>, k: Packet)
    ensures Messages(a + [k]) == if k.cmd >= 0x10 then Messages(a) + [AppSend(k.rel, k.cmd, k.data)] else Messages(a)
  {
    MessagesAppend(a, [k]);
    assert [k][1..] == [];
    assert Messages(a) + [] == Messages(a);
  }

  lemma {:induction false} ReliableOnesAppend(a: seq<AppSend>, b: seq<AppSend>)
    ensures ReliableOnes(a + b) == ReliableOnes(a) + ReliableOnes(b)
    decreases |a|
  {
    if a == [] {
      assert a + b == b;
    } else {
      assert (a + b)[1..] == a[1..] + b;
      ReliableOnesAppend(a[1..], b);
      var h := if a[0].reliable then [a[0]] else [];
      assert h + (ReliableOnes(a[1..]) + ReliableOnes(b)) == (h + ReliableOnes(a[1..])) + ReliableOnes(b);
    }
  }

  // ----- What is numbered is what was asked for -----

  /** What a step asks of the peer that takes it: a send, or the replies of its application
      if handle_packet was called during the step. */
  function Asked(p: PeerState, p': PeerState, act: Action): seq<AppSend> {
    match act
    case Send(msg, _) => [msg]
    case Deliver(_, _, replies) => if |Handled(p'.up)| > |Handled(p.up)| then replies else []
    case _ => []
  }

  function Of(sys: System, client: bool): PeerState {
    if client then sys.x else sys.y
  }

  /** What a run asks of one of the peers, in order. */
  function Requests(m: Arith, sys: System, steps: seq<Step>, client: bool): seq<AppSend>
    decreases |steps|
  {
    if steps == [] then []
    else
      var sys' := Exec(m, sys, steps[0]);
      (if steps[0].onX == client then Asked(Of(sys, client), Of(sys', client), steps[0].act) else [])
      + Requests(m, sys', steps[1..], client)
  }

  lemma SendMessage(m: Arith, p: PeerState, msg: AppSend, now: int)
    requires AppCommand(msg)
    ensures Messages(PeerSpec.Send(m, p, msg, now).enq) == Messages(p.enq) + [msg]
  {
    MessagesOne(p.enq, Strip(Unreliable(m, p, Fresh(msg.cmd, msg.data))));
    MessagesOne(p.enq, Strip(Reliable(m, p, Fresh(msg.cmd, msg.data))));
  }

  lemma {:induction false} SendAllMessages(m: Arith, p: PeerState, msgs: seq<AppSend>, now: int)
    requires forall i :: 0 <= i < |msgs| ==> AppCommand(msgs[i])
    ensures Messages(SendAll(m, p, msgs, now).enq) == Messages(p.enq) + msgs
    decreases |msgs|
  {
    if msgs != [] {
      var p1 := PeerSpec.Send(m, p, msgs[0], now);
      SendMessage(m, p, msgs[0], now);
      SendAllMessages(m, p1, msgs[1..], now);
      assert Messages(p.enq) + msgs == (Messages(p.enq) + [msgs[0]]) + msgs[1..];
    }
  }

  /** Nothing the peer sends of itself is an application packet. */
  lemma OwnPacket(m: Arith, p: PeerState, pc: Packet, now: int)
    requires pc.cmd < 0x10
    ensures Messages(SendUnreliable(m, p, pc, now).enq) == Messages(p.enq)
    ensures Messages(SendReliable(m, p, pc, now).enq) == Messages(p.enq)
  {
    MessagesOne(p.enq, Strip(Unreliable(m, p, pc)));
    MessagesOne(p.enq, Strip(Reliable(m, p, pc)));
  }

  /** The packet was given to handle_packet. */
  predicate HandledNow(p: PeerState, k: Packet) {
    p.state == Run && k.cmd >= CMD_APP
  }

  lemma SequencedMessages(m: Arith, p: PeerState, k: Packet, now: int, replies: seq<AppSend>)
    requires forall i :: 0 <= i < |replies| ==> AppCommand(replies[i])
    ensures var p' := HandleSequenced(m, p, k, now, replies);
            && Messages(p'.enq) == Messages(p.enq) + (if HandledNow(p, k) then replies else [])
            && Handled(p'.up) == Handled(p.up) + if HandledNow(p, k) then [k] else []
  {
    if HandledNow(p, k) {
      var p1 := p.(up := p.up + [HandlePacket(k)]);
      assert p1.up[..|p.up|] == p.up;
      SendAllFrame(m, p1, replies, now);
      SendAllMessages(m, p1, replies, now);
    } else {
      OwnPacket(m, p, Fresh(CMD_PONG, k.data), now);
      assert Messages(p.enq) + [] == Messages(p.enq) && Handled(p.up) + [] == Handled(p.up);
    }
  }

  lemma FinishMessages(m: Arith, p: PeerState, k: Packet, now: int)
    ensures Messages(Finish(m, p, k, now).enq) == Messages(p.enq)
    ensures Finish(m, p, k, now).up == p.up
  {
    OwnPacket(m, p.(mustAck := true), Fresh(CMD_NOOP, Blank), now);
  }

  lemma UnsequencedMessages(m: Arith, p: PeerState, k: Packet, now: int)
    ensures Messages(HandleUnsequenced(m, p, k, now).enq) == Messages(p.enq)
    ensures HandleUnsequenced(m, p, k, now).up == p.up
  {
    OwnPacket(m, p, Fresh(CMD_CONN_RSP, Word(1)), now);
  }

  lemma ReceiveMessages(m: Arith, p: PeerState, k: Packet, now: int, replies: seq<AppSend>)
    requires forall i :: 0 <= i < |replies| ==> AppCommand(replies[i])
    ensures var p' := Receive(m, p, k, now, replies);
            Messages(p'.enq) == Messages(p.enq) + if |Handled(p'.up)| > |Handled(p.up)| then replies else []
  {
    match Classify(m, p, k)
    case Unsequenced =>
      UnsequencedMessages(m, p, k, now);
      FinishMessages(m, HandleUnsequenced(m, p, k, now), k, now);
    case Retransmitted => FinishMessages(m, p.(deadline := now + DROP_TIMEOUT), k, now);
    case Sequenced =>
      var p1 := Accept(p, k, now);
      assert (p1.up + [Dropped])[..|p1.up|] == p1.up;
      SequencedMessages(m, p1, k, now, replies);
      FinishMessages(m, HandleSequenced(m, p1, k, now, replies), k, now);
  }

  lemma ServiceMessages(m: Arith, p: PeerState, now: int)
    ensures Messages(Service(m, p, now).enq) == Messages(p.enq)
  {
    var p0 := p.(wake := None);
    OwnPacket(m, p0, Fresh(CMD_PING, Timestamp(now)), now);
    SendQueueStamped(Probe(m, p0, now), now);
  }

  lemma ActMessages(m: Arith, p: PeerState, other: PeerState, act: Action)
    requires AppStep(act)
    ensures var p' := Act(m, p, other, act); Messages(p'.enq) == Messages(p.enq) + Asked(p, p', act)
  {
    match act
    case Send(msg, now) => SendAllMessages(m, p, [msg], now);
    case Serve(now) => ServiceMessages(m, p, now);
    case Close(now) => MessagesOne(p.enq, Strip(Unreliable(m, p, Fresh(CMD_CLOSE, Blank))));
    case Deliver(i, now, replies) =>
      if i < |other.sent| {
        var k := other.sent[i];
        ReceiveMessages(m, if k.ack then HandleAck(m, p, k.ackSeq) else p, k, now, replies);
      }
  }

  lemma {:induction false} RunMessages(m: Arith, sys: System, steps: seq<Step>, client: bool)
    requires AppSteps(steps)
    ensures Messages(Of(RunAll(m, sys, steps), client).enq)
         == Messages(Of(sys, client).enq) + Requests(m, sys, steps, client)
    ensures Messages(Of(sys, client).enq) == [] ==>
              Messages(Of(RunAll(m, sys, steps), client).enq) == Requests(m, sys, steps, client)
    decreases |steps|
  {
    if steps != [] {
      var sys' := Exec(m, sys, steps[0]);
      if steps[0].onX == client {
        ActMessages(m, Of(sys, client), Of(sys, !client), steps[0].act);
      }
      RunMessages(m, sys', steps[1..], client);
      Regroup(Messages(Of(sys, client).enq),
              if steps[0].onX == client then Asked(Of(sys, client), Of(sys', client), steps[0].act) else [],
              Requests(m, sys', steps[1..], client));
      Regroup([], Requests(m, sys, steps, client), []);
    } else {
      assert Messages(Of(sys, client).enq) + [] == Messages(Of(sys, client).enq);
    }
  }

  lemma Regroup(a: seq<AppSend>, b: seq<AppSend>, c: seq<AppSend>)
    ensures (a + b) + c == a + (b + c)
    ensures b == [] ==> a + b == a
    ensures a == [] ==> a + b == b
  {
  }

  /** The application packets a peer numbers are exactly the sends and replies of its
      application, in order, with the reliability, command and payload asked for; in any run
      from reset, in either arithmetic, whatever the network does. */
  lemma NumberedAsRequested(m: Arith, r: int, s: int, nowX: int, nowY: int, steps: seq<Step>, client: bool)
    requires AppSteps(steps)
    ensures var sys := Opening(m, r, s, nowX, nowY);
            Messages(Of(RunAll(m, sys, steps), client).enq) == Requests(m, sys, steps, client)
  {
    OpeningMessages(m, r, s, nowX, nowY, client);
    RunMessages(m, Opening(m, r, s, nowX, nowY), steps, client);
  }

  lemma OpeningMessages(m: Arith, r: int, s: int, nowX: int, nowY: int, client: bool)
    ensures Messages(Of(Opening(m, r, s, nowX, nowY), client).enq) == []
  {
    var x0 := Init(m, r, nowX).(state := Connecting);
    OwnPacket(m, x0, Fresh(CMD_CONN_REQ, Blank), nowX);
  }

  // ----- What is delivered is a selection of what was asked for -----

  ghost predicate Picks(a: seq<AppSend>, b: seq<AppSend>, idx: seq<nat>) {
    && |idx| == |a|
    && (forall i :: 0 <= i < |a| ==> idx[i] < |b| && b[idx[i]] == a[i])
    && (forall i, j :: 0 <= i < j < |a| ==> idx[i] < idx[j])
  }

  /** a is a selection of b: in the same order, each at its own place. */
  ghost predicate Selected(a: seq<AppSend>, b: seq<AppSend>) {
    exists idx :: Picks(a, b, idx)
  }

  lemma SelectedMore(a: seq<AppSend>, b: seq<AppSend>, c: seq<AppSend>)
    requires Selected(a, b)
    ensures Selected(a, b + c)
  {
    var idx :| Picks(a, b, idx);
    assert Picks(a, b + c, idx);
  }

  lemma SelectedOne(a: seq<AppSend>, b: seq<AppSend>, m: AppSend)
    requires Selected(a, b)
    ensures Selected(a + [m], b + [m])
  {
    var idx: seq<nat> :| Picks(a, b, idx);
    var last: nat := |b|;
    assert Picks(a + [m], b + [m], idx + [last]);
  }

  lemma SelectedPrefix(a: seq<AppSend>, a': seq<AppSend>, b: seq<AppSend>)
    requires Selected(a, b) && a' <= a
    ensures Selected(a', b)
  {
    var idx :| Picks(a, b, idx);
    assert Picks(a', b, idx[..|a'|]);
  }

  /** acc at places idx of enq, as far as messages are concerned. */
  ghost predicate Places(enq: seq<Packet>, acc: seq<Packet>, idx: seq<nat>) {
    && |idx| == |acc|
    && (forall i :: 0 <= i < |acc| ==> idx[i] < |enq| && enq[idx[i]] == Strip(acc[i]))
    && (forall i, j :: 0 <= i < j < |acc| ==> idx[i] < idx[j])
  }

  lemma {:induction false} MessagesSelected(enq: seq<Packet>, acc: seq<Packet>, idx: seq<nat>)
    requires Places(enq, acc, idx)
    ensures Selected(Messages(acc), Messages(enq))
    decreases |acc|
  {
    if acc == [] {
      assert Picks([], Messages(enq), []);
    } else {
      var n := |acc| - 1;
      var j := idx[n];
      var e, k := enq[..j], enq[j];
      assert k.cmd == acc[n].cmd && k.rel == acc[n].rel && k.data == acc[n].data;
      assert Places(e, acc[..n], idx[..n]);
      MessagesSelected(e, acc[..n], idx[..n]);
      assert acc == acc[..n] + [acc[n]] && enq == e + [enq[j]] + enq[j + 1..];
      MessagesOne(acc[..n], acc[n]);
      MessagesOne(e, enq[j]);
      MessagesAppend(e + [enq[j]], enq[j + 1..]);
      if acc[n].cmd >= 0x10 {
        SelectedOne(Messages(acc[..n]), Messages(e), AppSend(acc[n].rel, acc[n].cmd, acc[n].data));
      }
      SelectedMore(Messages(acc), Messages(e + [enq[j]]), Messages(enq[j + 1..]));
    }
  }

  lemma {:induction false} MessagesOfRels(q: seq<Packet>)
    ensures ReliableOnes(Messages(q)) == Messages(Rels(q))
    decreases |q|
  {
    if q != [] {
      MessagesOfRels(q[1..]);
      var h := if q[0].cmd >= 0x10 then [AppSend(q[0].rel, q[0].cmd, q[0].data)] else [];
      ReliableOnesAppend(h, Messages(q[1..]));
      var g := if q[0].rel then [Strip(q[0])] else [];
      MessagesAppend(g, Rels(q[1..]));
      assert g != [] ==> g[1..] == [];
      assert h != [] ==> h[1..] == [];
    }
  }

  lemma MessagesPrefix(a: seq<Packet>, b: seq<Packet>)
    requires a <= b
    ensures Messages(a) <= Messages(b)
  {
    assert b == a + b[|a|..];
    MessagesAppend(a, b[|a|..]);
  }

  lemma ReliableOnesPrefix(a: seq<AppSend>, b: seq<AppSend>)
    requires a <= b
    ensures ReliableOnes(a) <= ReliableOnes(b)
  {
    assert b == a + b[|a|..];
    ReliableOnesAppend(a, b[|a|..]);
  }

  /** What handle_packet is given are the messages accepted, up to a CLOSE. */
  lemma {:induction false} DeliveredMessages(acc: seq<Packet>)
    ensures Messages(Delivered(acc)) <= Messages(acc)
    ensures !Closed(acc) ==> Messages(Delivered(acc)) == Messages(acc)
    ensures |Messages(Delivered(acc))| == |Delivered(acc)|
    decreases |acc|
  {
    if acc != [] {
      var t, k := acc[..|acc| - 1], acc[|acc| - 1];
      DeliveredMessages(t);
      assert acc == t + [k];
      MessagesOne(t, k);
      MessagesOne(Delivered(t), k);
      assert Delivered(t) + [] == Delivered(t);
    }
  }

  /** The application of the receiver got a selection of what that of the sender asked for,
      every packet given to it included, and of the reliable messages the first ones. */
  ghost predicate DeliveredOf(up: seq<Upcall>, requests: seq<AppSend>) {
    var got := Messages(Handled(up));
    |got| == |Handled(up)| && Selected(got, requests) && ReliableOnes(got) <= ReliableOnes(requests)
  }

  lemma DeliveredInOrder(enq: seq<Packet>, p: PeerState)
    requires InOrder(enq, p.acc) && Handled(p.up) == Delivered(p.acc)
    ensures DeliveredOf(p.up, Messages(enq))
  {
    var idx :| Embeds(enq, p.acc, idx);
    MessagesSelected(enq, p.acc, idx);
    DeliveredMessages(p.acc);
    SelectedPrefix(Messages(p.acc), Messages(Delivered(p.acc)), Messages(enq));
    ReliableOnesPrefix(Messages(Delivered(p.acc)), Messages(p.acc));
    MessagesOfRels(p.acc);
    MessagesOfRels(enq);
    MessagesPrefix(Rels(p.acc), Rels(enq));
  }

  lemma NothingDelivered(up: seq<Upcall>, requests: seq<AppSend>)
    requires Handled(up) == []
    ensures DeliveredOf(up, requests)
  {
    assert Picks([], requests, []);
  }

  lemma {:induction false} AdmissibleApps(sys: System, steps: seq<Step>)
    requires AllAdmissible(sys, steps)
    ensures AppSteps(steps)
    decreases |steps|
  {
    if steps != [] {
      AdmissibleApps(Exec(Unbounded, sys, steps[0]), steps[1..]);
    }
  }

  /** Before a peer runs its application has been given nothing. */
  lemma NothingHandledYet(u: System, r: int, s: int)
    requires InSession(u, r, s)
    ensures u.x.state == Connecting ==> Handled(u.x.up) == []
    ensures u.y.state == New ==> Handled(u.y.up) == []
  {
  }

  /** From application to application, on 16-bit numbers, in every admissible run from
      reset and in both directions. */
  lemma ApplicationDelivery(r: int, s: int, nowX: int, nowY: int, steps: seq<Step>)
    requires Usable(r, s) && AllAdmissible(Opening(Unbounded, r, s, nowX, nowY), steps)
    ensures var sys := Opening(Wrapped, r, s, nowX, nowY);
            var w := RunAll(Wrapped, sys, steps);
            && DeliveredOf(w.y.up, Requests(Wrapped, sys, steps, true))
            && DeliveredOf(w.x.up, Requests(Wrapped, sys, steps, false))
  {
    var sys := Opening(Wrapped, r, s, nowX, nowY);
    var w := RunAll(Wrapped, sys, steps);
    AdmissibleApps(Opening(Unbounded, r, s, nowX, nowY), steps);
    NumberedAsRequested(Wrapped, r, s, nowX, nowY, steps, true);
    NumberedAsRequested(Wrapped, r, s, nowX, nowY, steps, false);
    InOrderDelivery(r, s, nowX, nowY, steps);
    FaithfulUpcalls(r, s, nowX, nowY, steps);
    var u := RunFromReset(r, s, nowX, nowY, steps);
    NothingHandledYet(u, r, s);
    HandledProjects(u.x.up);
    HandledProjects(u.y.up);
    if w.y.state == New {
      NothingDelivered(w.y.up, Messages(w.x.enq));
    } else {
      DeliveredInOrder(w.x.enq, w.y);
    }
    if w.x.state == Connecting {
      NothingDelivered(w.x.up, Messages(w.y.enq));
    } else {
      DeliveredInOrder(w.y.enq, w.x);
    }
  }
}
