/** Properties of single packets, for every peer whatever it receives: which
    acknowledgements count, when one is sent, and exactly when 16-bit comparison and the
    handshake do what they are meant to. */
module Exactness {
  import opened SeqNum
  import opened Packets
  import opened PeerSpec
  import opened Invariants
  import opened Transmission
  import opened Refinement

  // ----- Acknowledgements are cumulative and confluent -----

  function HandleAcks(m: Arith, p: PeerState, acks: seq<int>): PeerState
    decreases |acks|
  {
    if acks == [] then p else HandleAcks(m, HandleAck(m, p, acks[0]), acks[1..])
  }

  lemma {:induction false} DropTwice(q: seq<Packet>, a: int, b: int)
    requires a <= b
    ensures DropAcked(Unbounded, DropAcked(Unbounded, q, a), b) == DropAcked(Unbounded, q, b)
    decreases |q|
  {
    if q != [] && q[0].rel && q[0].ret && q[0].relSeq <= a {
      DropTwice(q[1..], a, b);
    }
  }

  lemma TwoAcks(p: PeerState, a: int, b: int)
    requires a <= p.outRel && b <= p.outRel
    ensures HandleAck(Unbounded, HandleAck(Unbounded, p, a), b) == HandleAck(Unbounded, p, if a < b then b else a)
  {
    if a <= b {
      DropTwice(p.sendq, a, b);
    }
  }

  predicate IsMax(acks: seq<int>, n: int) {
    n in acks && forall a :: a in acks ==> a <= n
  }

  lemma {:induction false} TrueAcksConfluent(p: PeerState, acks: seq<int>, n: int)
    requires IsMax(acks, n) && n <= p.outRel
    ensures HandleAcks(Unbounded, p, acks) == HandleAck(Unbounded, p, n)
    decreases |acks|
  {
    var a, t := acks[0], acks[1..];
    assert acks == [a] + t;
    var p1 := HandleAck(Unbounded, p, a);
    if t == [] {
      assert HandleAcks(Unbounded, p1, t) == p1;
    } else {
      var n' := SomeMax(t);
      assert a in acks && n' in acks;
      assert n in [a] + t;
      TrueAcksConfluent(p1, t, n');
      TwoAcks(p, a, n');
    }
  }

  function SomeMax(acks: seq<int>): (n: int)
    requires acks != []
    ensures IsMax(acks, n)
  {
    if |acks| == 1 then acks[0]
    else var n := SomeMax(acks[1..]);
      assert acks == [acks[0]] + acks[1..];
      if acks[0] > n then acks[0] else n
  }

  function WrapAll(acks: seq<int>): (r: seq<int>)
    ensures |r| == |acks| && forall i :: 0 <= i < |acks| ==> r[i] == Wrap16(acks[i])
  {
    seq(|acks|, i requires 0 <= i < |acks| => Wrap16(acks[i]))
  }

  /** Fewer than 2^15 numbers are unacknowledged, and nothing compared lies more than 2^15
      behind the last one issued. */
  predicate AckWindow(p: PeerState, acks: seq<int>) {
    && 0 <= p.outRel - p.acked < 0x8000
    && (forall i :: 0 <= i < |acks| ==> p.outRel - 0x8000 <= acks[i] <= p.outRel)
    && (forall i :: 0 <= i < |p.sendq| ==> p.outRel - 0x8000 <= p.sendq[i].relSeq <= p.outRel)
  }

  lemma AckWindowStays(p: PeerState, acks: seq<int>)
    requires AckWindow(p, acks) && acks != []
    ensures RecentAck(p, acks[0]) && AckWindow(HandleAck(Unbounded, p, acks[0]), acks[1..])
  {
    var n := DropAckedSuffix(Unbounded, p.sendq, acks[0]);
    var q := p.sendq[n..];
    assert forall i :: 0 <= i < |q| ==> q[i] == p.sendq[n + i];
  }

  lemma {:induction false} AcksCommute(p: PeerState, acks: seq<int>)
    requires AckWindow(p, acks)
    ensures HandleAcks(Wrapped, Proj(p), WrapAll(acks)) == Proj(HandleAcks(Unbounded, p, acks))
    decreases |acks|
  {
    if acks != [] {
      AckWindowStays(p, acks);
      HandleAckCommutes(p, acks[0]);
      assert WrapAll(acks)[1..] == WrapAll(acks[1..]);
      AcksCommute(HandleAck(Unbounded, p, acks[0]), acks[1..]);
    }
  }

  /** Any sequence of acknowledgements of numbers issued leaves the 16-bit peer as the
      largest alone would. */
  lemma AcksConfluent(p: PeerState, acks: seq<int>, n: int)
    requires AckWindow(p, acks) && IsMax(acks, n)
    ensures HandleAcks(Wrapped, Proj(p), WrapAll(acks)) == HandleAck(Wrapped, Proj(p), Wrap16(n))
  {
    AcksCommute(p, acks);
    TrueAcksConfluent(p, acks, n);
    AckWindowStays(p, [n]);
    HandleAckCommutes(p, n);
  }

  /** So they may arrive in any order, and repeatedly. */
  lemma AcksAnyOrder(p: PeerState, acks: seq<int>, acks': seq<int>)
    requires AckWindow(p, acks) && acks != [] && acks' != [] && forall a :: a in acks <==> a in acks'
    ensures HandleAcks(Wrapped, Proj(p), WrapAll(acks)) == HandleAcks(Wrapped, Proj(p), WrapAll(acks'))
  {
    var n := SomeMax(acks);
    assert IsMax(acks', n);
    forall i | 0 <= i < |acks'| ensures p.outRel - 0x8000 <= acks'[i] <= p.outRel {
      var a := acks'[i];
      assert a in acks';
      assert a in acks;
    }
    AcksConfluent(p, acks, n);
    AcksConfluent(p, acks', n);
  }

  // ----- Every acknowledgement owed is sent -----

  lemma ReceiveOwes(m: Arith, p: PeerState, k: Packet, now: int, replies: seq<AppSend>)
    requires k.rel && (k.cmd == CMD_CLOSE ==> Classify(m, p, k) != Sequenced)
    ensures var p' := Receive(m, p, k, now, replies); p'.mustAck && p'.sendq != []
  {
  }

  /** After a reliable packet (in sequence or not) that is no accepted CLOSE and whose own
      acknowledgement is not broken, a service in time sends at least one packet, and
      all it sends acknowledge the current in_seq_reliable. */
  lemma OwedAckEmitted(m: Arith, p: PeerState, k: Packet, now: int, replies: seq<AppSend>, later: int)
    requires k.rel && !Closes(m, p, k) && !Rejected(m, p, k)
    requires later <= Incoming(m, p, k, now, replies).deadline
    ensures var p' := Incoming(m, p, k, now, replies);
            var p'' := Service(m, p', later);
            && |p'.sent| < |p''.sent|
            && (forall i :: |p'.sent| <= i < |p''.sent| ==> p''.sent[i].ack && p''.sent[i].ackSeq == p'.inRel)
  {
    ReceiveOwes(m, if k.ack then HandleAck(m, p, k.ackSeq) else p, k, now, replies);
    var p' := Incoming(m, p, k, now, replies);
    ServiceOwed(m, p', later);
  }

  lemma ServiceOwed(m: Arith, p: PeerState, now: int)
    requires p.mustAck && p.sendq != [] && now <= p.deadline
    ensures var p' := Service(m, p, now);
            && |p.sent| < |p'.sent|
            && (forall i :: |p.sent| <= i < |p'.sent| ==> p'.sent[i].ack && p'.sent[i].ackSeq == p.inRel)
  {
    AckEmitted(p.(wake := None), now);
  }

  // ----- Exactly when 16-bit comparisons are right -----

  /** The reliable decision is right except for a packet a whole number of wraps away
      from the two numbers the receiver looks for. */
  lemma ReliableDecisionExact(p: PeerState, k: Packet)
    requires k.rel
    ensures Classify(Wrapped, Proj(p), ProjK(k)) == Classify(Unbounded, p, k)
       <==> ((k.relSeq - p.inRel) % 0x1_0000 in {0, 1} ==> k.relSeq - p.inRel in {0, 1})
  {
    WrapEqual(k.relSeq, p.inRel);
    WrapStep(p.inRel, 1);
    WrapEqual(k.relSeq, p.inRel + 1);
    var d := k.relSeq - p.inRel;
    assert (d - 1) % 0x1_0000 == 0 <==> d % 0x1_0000 == 1;
  }

  /** The unreliable decision is right except when the reliable number looks current and
      the sign of the 16-bit difference is not what the true numbers say. */
  lemma UnreliableDecisionExact(p: PeerState, k: Packet)
    requires !k.rel
    ensures Classify(Wrapped, Proj(p), ProjK(k)) == Classify(Unbounded, p, k)
       <==> ((k.relSeq - p.inRel) % 0x1_0000 == 0 ==>
               (0 < (k.unrelSeq - p.inUnrel) % 0x1_0000 < 0x8000 <==> k.relSeq == p.inRel && k.unrelSeq > p.inUnrel))
  {
    WrapEqual(k.relSeq, p.inRel);
    var a, b := k.unrelSeq, p.inUnrel;
    var qa, qb := a / 0x1_0000, b / 0x1_0000;
    var d := Wrap16(a) - Wrap16(b);
    assert a - b == 0x1_0000 * (qa - qb) + d;
    assert (a - b) % 0x1_0000 == d % 0x1_0000;
  }

  /** An acknowledgement is past in the half circle behind the last one taken, and broken
      if not past and in the half circle ahead of the last number issued. */
  lemma AckDecisionExact(p: PeerState, ack: int)
    ensures PastAck(Wrapped, p, ack) <==> (ack - p.acked) % 0x1_0000 >= 0x8000
    ensures BrokenAck(Wrapped, p, ack) <==>
              (ack - p.acked) % 0x1_0000 < 0x8000 && 0 < (ack - p.outRel) % 0x1_0000 < 0x8000
  {
    HalfCircle(ack - p.acked);
    HalfCircle(ack - p.outRel);
  }

  lemma HalfCircle(d: int)
    ensures Signed16(d) < 0 <==> d % 0x1_0000 >= 0x8000
    ensures Signed16(d) > 0 <==> 0 < d % 0x1_0000 < 0x8000
  {
    var e := d % 0x1_0000;
    assert d == 0x1_0000 * (d / 0x1_0000) + e;
    assert (d + 0x8000) % 0x1_0000 == (e + 0x8000) % 0x1_0000;
  }

  /** A reliable packet that survives a full wrap in the network is taken for a new one:
      without the bound on packet age, delivery is not exactly-once. */
  lemma OldPacketTakenForNew(p: PeerState, k: Packet)
    requires k.rel && k.relSeq == p.inRel + 1 - 0x1_0000
    ensures Classify(Unbounded, p, k) == Unsequenced
    ensures Classify(Wrapped, Proj(p), ProjK(k)) == Sequenced
  {
    WrapStep(p.inRel, 1);
    WrapEqual(k.relSeq, p.inRel + 1);
    WrapEqual(k.relSeq, p.inRel);
  }

  /** So is an unreliable packet whose reliable number is a full wrap old. */
  lemma OldUnreliableTakenForNew(p: PeerState, k: Packet)
    requires !k.rel && k.relSeq == p.inRel - 0x1_0000 && k.unrelSeq == p.inUnrel + 1
    ensures Classify(Unbounded, p, k) == Unsequenced
    ensures Classify(Wrapped, Proj(p), ProjK(k)) == Sequenced
  {
    UnreliableDecisionExact(p, k);
  }

  // ----- Exactly when the handshake completes -----

  predicate Waiting(p: PeerState) {
    p.inRel == 0xFFFF && p.inUnrel == 0
  }

  /** A fresh server peer starts running on a CONN_REQ unless its numbers are ones that
      reset makes look received or next. */
  lemma ServerRunsIff(p: PeerState, k: Packet, now: int, replies: seq<AppSend>)
    requires p.state == New && Waiting(p) && k.cmd == CMD_CONN_REQ && OnWire(k) && !Rejected(Wrapped, p, k)
    ensures Incoming(Wrapped, p, k, now, replies).state == Run <==> LooksNew(k)
  {
  }

  /** So does a connecting client on a CONN_RSP. */
  lemma ClientRunsIff(p: PeerState, k: Packet, now: int, replies: seq<AppSend>)
    requires p.state == Connecting && Waiting(p) && k.cmd == CMD_CONN_RSP && OnWire(k) && !Rejected(Wrapped, p, k)
    ensures Incoming(Wrapped, p, k, now, replies).state == Run <==> LooksNew(k)
  {
  }

  // ----- What a waiting client acknowledges -----

  predicate Silent(p: PeerState) {
    !p.mustAck && NoAcks(p.sendq)
  }

  lemma HandleAckSilent(m: Arith, p: PeerState, ack: int)
    requires Silent(p)
    ensures Silent(HandleAck(m, p, ack))
  {
    var n := DropAckedSuffix(m, p.sendq, ack);
    var q := p.sendq[n..];
    assert forall i :: 0 <= i < |q| ==> q[i] == p.sendq[n + i];
  }

  /** A waiting client that owes nothing still owes nothing after an unreliable packet or
      a CLOSE that looks next. */
  lemma StaysSilent(p: PeerState, k: Packet, now: int, replies: seq<AppSend>)
    requires p.state == Connecting && Waiting(p) && Silent(p) && !Rejected(Wrapped, p, k)
    requires !k.rel || (k.cmd == CMD_CLOSE && k.relSeq == 0)
    ensures Silent(Incoming(Wrapped, p, k, now, replies))
  {
    var p1 := if k.ack then HandleAck(Wrapped, p, k.ackSeq) else p;
    HandleAckSilent(Wrapped, p, k.ackSeq);
    HandleAckSilent(Wrapped, p1.(inRel := k.relSeq), k.ackSeq);
  }

  lemma SilentService(p: PeerState, now: int)
    requires Silent(p)
    ensures var p' := Service(Wrapped, p, now);
            |p.sent| <= |p'.sent| && forall i :: |p.sent| <= i < |p'.sent| ==> !p'.sent[i].ack
  {
    var p1 := Probe(Wrapped, p.(wake := None), now);
    SendQueueStamped(p1, now);
    var t := SendQueue(p1, now).sent[|p1.sent|..];
    assert forall i :: 0 <= i < |t| ==> SendQueue(p1, now).sent[|p1.sent| + i] == t[i];
  }

  /** Some packet of the next service acknowledges 0xFFFF. */
  predicate Acks0xFFFF(p: PeerState, later: int) {
    var p' := Service(Wrapped, p, later);
    exists i :: |p.sent| <= i < |p'.sent| && p'.sent[i].ack && p'.sent[i].ackSeq == 0xFFFF
  }

  lemma WaitingBaseline(p: PeerState, k: Packet, now: int, replies: seq<AppSend>)
    requires p.state == Connecting && Waiting(p) && OnWire(k) && k.rel
    ensures var p' := Receive(Wrapped, p, k, now, replies);
            && (p'.inRel == 0xFFFF <==> k.relSeq != 0 && (k.cmd == CMD_CONN_RSP ==> k.relSeq == 0xFFFF))
            && (p'.inRel == 0xFFFF ==> p'.acc == p.acc && p'.state == Connecting)
            && p'.deadline in {p.deadline, now + DROP_TIMEOUT}
  {
    match Classify(Wrapped, p, k)
    case Unsequenced => assert Finish(Wrapped, p, k, now).inRel == p.inRel;
    case Retransmitted =>
    case Sequenced => assert HandleSequenced(Wrapped, Accept(p, k, now), k, now, replies) == Accept(p, k, now);
  }

  /** Why reliable data is held during the handshake. A client that waits, and owes no
      acknowledgement yet, acknowledges 0xFFFF, a number it never received, in its next
      service exactly if it has been sent a reliable packet not numbered 0 that is no
      answer to its request, or one that is and carries 0xFFFF itself. It has accepted
      nothing then. */
  lemma EarlyReliableMisacked(p: PeerState, k: Packet, now: int, replies: seq<AppSend>, later: int)
    requires p.state == Connecting && Waiting(p) && Silent(p) && OnWire(k) && !Rejected(Wrapped, p, k)
    requires later <= p.deadline && later <= now + DROP_TIMEOUT
    ensures var p' := Incoming(Wrapped, p, k, now, replies);
            && (Acks0xFFFF(p', later)
                <==> k.rel && k.relSeq != 0 && (k.cmd == CMD_CONN_RSP ==> k.relSeq == 0xFFFF))
            && (Acks0xFFFF(p', later) ==> p'.acc == p.acc && p'.state == Connecting)
  {
    var p' := Incoming(Wrapped, p, k, now, replies);
    if !k.rel || (k.cmd == CMD_CLOSE && k.relSeq == 0) {
      StaysSilent(p, k, now, replies);
      SilentService(p', later);
    } else {
      var p1 := if k.ack then HandleAck(Wrapped, p, k.ackSeq) else p;
      WaitingBaseline(p1, k, now, replies);
      ReceiveOwes(Wrapped, p1, k, now, replies);
      ServiceOwed(Wrapped, p', later);
      assert p'.inRel == 0xFFFF ==> Acks0xFFFF(p', later) by {
        assert Service(Wrapped, p', later).sent[|p'.sent|].ack;
      }
    }
  }

  // ----- What a drop leaves -----

  /** The outgoing numbers as reset leaves them: nothing queued, nothing numbered since,
      and the number below the first one acknowledged. */
  predicate NumberedAfresh(m: Arith, p: PeerState) {
    p.outUnrel == 0 && p.acked == Norm(m, p.outRel - 1) && p.sendq == []
  }

  /** The acknowledged number once the packet's acknowledgement has been handled. */
  function AckedWith(m: Arith, p: PeerState, k: Packet): int {
    if k.ack && !PastAck(m, p, k.ackSeq) then k.ackSeq else p.acked
  }

  /** The packet's acknowledgement empties the queue. */
  predicate EmptiedBy(m: Arith, p: PeerState, k: Packet) {
    p.sendq == [] ||
    (k.ack && !PastAck(m, p, k.ackSeq) &&
     forall i :: 0 <= i < |p.sendq| ==> p.sendq[i].rel && p.sendq[i].ret && Delta(m, p.sendq[i].relSeq, k.ackSeq) <= 0)
  }

  lemma {:induction false} DropAckedEmpties(m: Arith, q: seq<Packet>, ack: int)
    ensures DropAcked(m, q, ack) == []
       <==> forall i :: 0 <= i < |q| ==> q[i].rel && q[i].ret && Delta(m, q[i].relSeq, ack) <= 0
    decreases |q|
  {
    if q != [] {
      DropAckedEmpties(m, q[1..], ack);
      assert forall i :: 0 < i < |q| ==> q[i] == q[1..][i - 1];
    }
  }

  /** A time-out drop resets nothing: all but the timer is what it was. So the peer is
      numbered afresh if and only if it was. */
  lemma TimeoutKeepsNumbers(m: Arith, p: PeerState, now: int)
    requires TimedOut(p, now)
    ensures Service(m, p, now) == p.(wake := None, up := p.up + [Dropped])
    ensures NumberedAfresh(m, Service(m, p, now)) <==> NumberedAfresh(m, p)
  {
  }

  /** Neither does an accepted CLOSE: the outgoing numbers stay, the queue loses what the
      CLOSE acknowledges and no more, and the peer is dead. Exactly when it is numbered
      afresh, from the state before. */
  lemma CloseKeepsNumbers(m: Arith, p: PeerState, k: Packet, now: int, replies: seq<AppSend>) returns (n: nat)
    requires Closes(m, p, k)
    ensures var p' := Incoming(m, p, k, now, replies);
            && p'.outRel == p.outRel && p'.outUnrel == p.outUnrel && p'.acked == AckedWith(m, p, k)
            && n <= |p.sendq| && p'.sendq == p.sendq[n..] && (!k.ack ==> n == 0)
            && (forall i :: 0 <= i < n ==> p.sendq[i].rel && p.sendq[i].ret && Delta(m, p.sendq[i].relSeq, k.ackSeq) <= 0)
            && p'.state == Dead && Dropped in p'.up[|p.up|..]
            && (NumberedAfresh(m, p') <==>
                  p.outUnrel == 0 && AckedWith(m, p, k) == Norm(m, p.outRel - 1) && EmptiedBy(m, p, k))
  {
    var p1 := if k.ack then HandleAck(m, p, k.ackSeq) else p;
    DropAckedEmpties(m, p.sendq, k.ackSeq);
    n := 0;
    if k.ack && !PastAck(m, p, k.ackSeq) {
      n := DropAckedSuffix(m, p.sendq, k.ackSeq);
    }
    assert Incoming(m, p, k, now, replies).up[|p.up|..] == [Dropped];
  }
}
