/** The inductive invariant of an established session between two peers, on
    unbounded numbers, and its preservation by each part of the peer machine. */
module Invariants {
  import opened SeqNum
  import opened Packets
  import opened PeerSpec
  import opened Queues

  // ----- One peer -----

  predicate Known(s: seq<Packet>, enq: seq<Packet>) {
    forall i :: 0 <= i < |s| ==> Strip(s[i]) in enq
  }

  predicate Transmitted(sent: seq<Packet>, r: int) {
    exists j :: 0 <= j < |sent| && sent[j].rel && sent[j].relSeq == r
  }

  /** A reliable packet carries RETRANSMITTED exactly when its number went out before. */
  predicate RetOk(sent: seq<Packet>)
    decreases |sent|
  {
    sent == [] ||
    (RetOk(sent[..|sent| - 1]) &&
     (sent[|sent| - 1].rel ==>
        (sent[|sent| - 1].ret <==> Transmitted(sent[..|sent| - 1], sent[|sent| - 1].relSeq))))
  }

  /** The reliable numbers on the wire above base are exactly those up to tx. */
  predicate SentRange(sent: seq<Packet>, base: int, tx: int) {
    && (forall i :: 0 <= i < |sent| && sent[i].rel ==> sent[i].relSeq <= tx)
    && (forall r :: base < r <= tx ==> Transmitted(sent, r))
  }

  predicate AcksWithin(sent: seq<Packet>, n: int) {
    forall i :: 0 <= i < |sent| && sent[i].ack ==> sent[i].ackSeq <= n
  }

  predicate NoAcks(q: seq<Packet>) {
    forall i :: 0 <= i < |q| ==> !q[i].ack
  }

  /** The reliable number below the queue. */
  function Lo(p: PeerState, base: int): int {
    if p.acked > base then p.acked else base
  }

  /** The highest reliable number transmitted. */
  function Tx(p: PeerState): int {
    p.outRel - Unsent(p.sendq)
  }

  /** The sender part of a peer whose session started after reliable number base. */
  predicate Side(p: PeerState, base: int) {
    && Chain(p.enq, base, 0, p.outRel, p.outUnrel)
    && Chain(p.sendq, Lo(p, base), 0, p.outRel, p.outUnrel)
    && MarkPrefix(p.sendq)
    && Known(p.sendq, p.enq)
    && Known(p.sent, p.enq)
    && RetOk(p.sent)
    && SentRange(p.sent, base, Tx(p))
    && AcksWithin(p.sent, p.inRel)
    && (!p.mustAck ==> NoAcks(p.sendq))
  }

  // ----- The two directions -----

  /** Whenever a packet was accepted, the reliable packets accepted until then were
      exactly those enqueued until then. */
  predicate AccRels(acc: seq<Packet>, enq: seq<Packet>, base: int)
    decreases |acc|
  {
    acc == [] ||
    (AccRels(acc[..|acc| - 1], enq, base) &&
     0 <= acc[|acc| - 1].relSeq - base <= |Rels(enq)| &&
     Rels(acc) == Rels(enq)[..acc[|acc| - 1].relSeq - base])
  }

  predicate Accepted(enq: seq<Packet>, acc: seq<Packet>, inRel: int, inUnrel: int, base: int) {
    && Known(acc, enq)
    && (forall i, j :: 0 <= i < j < |acc| ==> Lt(acc[i], acc[j]))
    && (forall i :: 0 <= i < |acc| ==> !Before(inRel, inUnrel, acc[i].relSeq, acc[i].unrelSeq))
    && AccRels(acc, enq, base)
    && 0 <= inRel - base <= |Rels(enq)|
    && Rels(acc) == Rels(enq)[..inRel - base]
  }

  /** Data from x to y, acknowledgements from y to x. */
  predicate Half(x: PeerState, y: PeerState, base: int) {
    && x.acked <= y.inRel
    && base <= y.inRel <= Tx(x)
    && !Before(x.outRel, x.outUnrel, y.inRel, y.inUnrel)
    && Accepted(x.enq, y.acc, y.inRel, y.inUnrel, base)
  }

  // ----- Enqueueing -----

  predicate NextPacket(p: PeerState, k: Packet) {
    && !k.ret && !k.ack
    && if k.rel then k.relSeq == p.outRel + 1 && k.unrelSeq == 0
       else k.relSeq == p.outRel && k.unrelSeq == p.outUnrel + 1
  }

  function Enqueue(p: PeerState, k: Packet): PeerState {
    p.(outRel := k.relSeq, outUnrel := k.unrelSeq, sendq := p.sendq + [k], enq := p.enq + [Strip(k)])
  }

  lemma EnqueueSide(p: PeerState, base: int, k: Packet)
    requires Side(p, base) && NextPacket(p, k)
    ensures Side(Enqueue(p, k), base)
    ensures Tx(Enqueue(p, k)) == Tx(p)
  {
    ChainAppend(p.enq, base, 0, p.outRel, p.outUnrel, Strip(k));
    ChainAppend(p.sendq, Lo(p, base), 0, p.outRel, p.outUnrel, k);
    MarkPrefixAppend(p.sendq, k);
    UnsentAppend(p.sendq, k);
  }

  lemma {:induction false} AccRelsExtend(acc: seq<Packet>, enq: seq<Packet>, k: Packet, base: int)
    requires AccRels(acc, enq, base)
    ensures AccRels(acc, enq + [k], base)
    decreases |acc|
  {
    if acc != [] {
      AccRelsExtend(acc[..|acc| - 1], enq, k, base);
      RelsOne(enq, k);
    }
  }

  lemma EnqueueAccepted(enq: seq<Packet>, k: Packet, acc: seq<Packet>, inRel: int, inUnrel: int, base: int)
    requires Accepted(enq, acc, inRel, inUnrel, base)
    ensures Accepted(enq + [k], acc, inRel, inUnrel, base)
  {
    AccRelsExtend(acc, enq, k, base);
    RelsOne(enq, k);
  }

  // ----- The unqueued CLOSE -----

  function Emit(p: PeerState, k: Packet): PeerState {
    p.(outUnrel := k.unrelSeq, enq := p.enq + [Strip(k)], sent := p.sent + [k])
  }

  lemma TransmittedAppend(sent: seq<Packet>, k: Packet, r: int)
    ensures Transmitted(sent + [k], r) <==> Transmitted(sent, r) || (k.rel && k.relSeq == r)
  {
    var s := sent + [k];
    if k.rel && k.relSeq == r {
      assert s[|sent|] == k;
    }
    if Transmitted(sent, r) {
      var j :| 0 <= j < |sent| && sent[j].rel && sent[j].relSeq == r;
      assert s[j] == sent[j];
    }
  }

  lemma SentAppend(sent: seq<Packet>, k: Packet, base: int, tx: int)
    requires RetOk(sent) && SentRange(sent, base, tx)
    requires k.rel ==> base < k.relSeq <= tx + 1 && (k.ret <==> k.relSeq <= tx)
    ensures RetOk(sent + [k])
    ensures SentRange(sent + [k], base, if k.rel && k.relSeq > tx then k.relSeq else tx)
  {
    var s := sent + [k];
    assert s[..|s| - 1] == sent;
    forall r
      ensures Transmitted(s, r) <==> Transmitted(sent, r) || (k.rel && k.relSeq == r)
    {
      TransmittedAppend(sent, k, r);
    }
  }

  lemma EmitSide(p: PeerState, base: int, k: Packet)
    requires Side(p, base) && NextPacket(p, k) && !k.rel
    ensures Side(Emit(p, k), base)
  {
    ChainAppend(p.enq, base, 0, p.outRel, p.outUnrel, Strip(k));
    ChainWeaken(p.sendq, Lo(p, base), 0, 0, p.outRel, p.outUnrel, k.unrelSeq);
    SentAppend(p.sent, k, base, Tx(p));
  }

  // ----- Acknowledgements -----

  /** An acknowledgement of transmitted packets removes exactly the reliable packets
      numbered at or below it: the queue is left with those above. */
  lemma {:induction false} DropAckedExact(q: seq<Packet>, r: int, out: int, outU: int, ack: int)
    requires Chain(q, r, 0, out, outU) && MarkPrefix(q) && ack <= out - Unsent(q)
    ensures var q' := DropAcked(Unbounded, q, ack);
            var n := if ack > r then ack - r else 0;
            && n <= |q| && q' == q[n..]
            && (forall i :: 0 <= i < n ==> q[i].rel && q[i].ret && q[i].relSeq == r + 1 + i)
            && Chain(q', r + n, 0, out, outU)
            && MarkPrefix(q') && Unsent(q') == Unsent(q)
    decreases |q|
  {
    if q != [] && q[0].ret {
      if q[0].relSeq <= ack {
        DropAckedExact(q[1..], r + 1, out, outU, ack);
        var n := ack - r;
        assert q[n..] == q[1..][n - 1..];
        assert forall i :: 1 <= i < n ==> q[i] == q[1..][i - 1];
      }
    } else {
      ChainRels(q, r, 0, out, outU);
      UnsentBound(q);
    }
  }

  lemma SuffixKnown(q: seq<Packet>, n: nat, enq: seq<Packet>)
    requires n <= |q| && Known(q, enq)
    ensures Known(q[n..], enq) && (NoAcks(q) ==> NoAcks(q[n..]))
  {
    assert forall i :: 0 <= i < |q| - n ==> q[n..][i] == q[n + i];
  }

  /** What the sender invariant says once the first n packets are unqueued. */
  lemma UnqueuedSide(p: PeerState, base: int, ack: int, n: nat)
    requires Side(p, base) && n <= |p.sendq| && Unsent(p.sendq[n..]) == Unsent(p.sendq) && MarkPrefix(p.sendq[n..])
    requires Chain(p.sendq[n..], if ack > base then ack else base, 0, p.outRel, p.outUnrel)
    ensures var p' := p.(acked := ack, sendq := p.sendq[n..]); Side(p', base) && Tx(p') == Tx(p)
  {
    SuffixKnown(p.sendq, n, p.enq);
  }

  lemma HandleAckSide(p: PeerState, base: int, ack: int)
    requires Side(p, base) && ack <= Tx(p)
    ensures !BrokenAck(Unbounded, p, ack)
    ensures Side(HandleAck(Unbounded, p, ack), base)
    ensures Tx(HandleAck(Unbounded, p, ack)) == Tx(p)
    ensures HandleAck(Unbounded, p, ack).acked == if ack < p.acked then p.acked else ack
  {
    if p.acked <= ack {
      var lo := Lo(p, base);
      DropAckedExact(p.sendq, lo, p.outRel, p.outUnrel, ack);
      UnqueuedSide(p, base, ack, if ack > lo then ack - lo else 0);
    }
  }

  // ----- Acceptance -----

  /** The reliable packets accepted stay the first ones enqueued. */
  lemma RelsExtend(enq: seq<Packet>, acc: seq<Packet>, inRel: int, base: int, out: int, outU: int, k: Packet)
    requires Chain(enq, base, 0, out, outU) && Strip(k) in enq
    requires AccRels(acc, enq, base) && 0 <= inRel - base <= |Rels(enq)| && Rels(acc) == Rels(enq)[..inRel - base]
    requires k.relSeq == if k.rel then inRel + 1 else inRel
    ensures 0 <= k.relSeq - base <= |Rels(enq)| && Rels(acc + [k]) == Rels(enq)[..k.relSeq - base]
    ensures AccRels(acc + [k], enq, base)
  {
    var e := Strip(k);
    assert (acc + [k])[..|acc|] == acc;
    RelsOne(acc, k);
    if k.rel {
      ChainMember(enq, base, 0, out, outU, e);
      assert Rels(enq)[..k.relSeq - base] == Rels(enq)[..inRel - base] + [e];
    }
  }

  /** Accepting the next reliable packet, or a later unreliable one of the current
      reliable number, extends the accepted sequence in order. */
  lemma AcceptedExtend(enq: seq<Packet>, acc: seq<Packet>, inRel: int, inUnrel: int, base: int,
                       out: int, outU: int, k: Packet)
    requires Chain(enq, base, 0, out, outU)
    requires Accepted(enq, acc, inRel, inUnrel, base)
    requires Strip(k) in enq
    requires if k.rel then k.relSeq == inRel + 1 else k.relSeq == inRel && k.unrelSeq > inUnrel
    ensures Accepted(enq, acc + [k], k.relSeq, if k.rel then 0 else k.unrelSeq, base)
  {
    RelsExtend(enq, acc, inRel, base, out, outU, k);
    ChainBounds(enq, base, 0, out, outU);
    var acc' := acc + [k];
    assert forall i :: 0 <= i < |acc| ==> acc'[i] == acc[i];
    assert Known(acc', enq);
  }

  lemma AcceptHalf(y: PeerState, x: PeerState, base: int, k: Packet, now: int)
    requires Side(y, base) && Half(y, x, base) && k in y.sent
    requires Classify(Unbounded, x, k) == Sequenced
    ensures Half(y, Accept(x, k, now), base)
  {
    assert Strip(k) in y.enq;
    ChainBounds(y.enq, base, 0, y.outRel, y.outUnrel);
    AcceptedExtend(y.enq, x.acc, x.inRel, x.inUnrel, base, y.outRel, y.outUnrel, k);
  }
}
