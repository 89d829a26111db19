/** What one run of the send queue puts on the wire and leaves behind. */
module Transmission {
  import opened Packets
  import opened PeerSpec
  import opened Queues
  import opened Invariants

  function StampAll(mustAck: bool, inRel: int, q: seq<Packet>): seq<Packet>
    decreases |q|
  {
    if q == [] then [] else [Stamp(mustAck, inRel, q[0])] + StampAll(mustAck, inRel, q[1..])
  }

  /** The reliable packets stay, stamped and marked; the unreliable ones are gone. */
  function MarkSent(mustAck: bool, inRel: int, q: seq<Packet>): seq<Packet>
    decreases |q|
  {
    if q == [] then []
    else (if q[0].rel then [Stamp(mustAck, inRel, q[0]).(ret := true)] else [])
         + MarkSent(mustAck, inRel, q[1..])
  }

  lemma {:induction false} SendFresh(p: PeerState, now: int, done: seq<Packet>, todo: seq<Packet>)
    requires NoMarks(todo)
    ensures SendLoop(p, now, done, todo) ==
            p.(sent := p.sent + StampAll(p.mustAck, p.inRel, todo),
               lastOut := if todo == [] then p.lastOut else now,
               sendq := done + MarkSent(p.mustAck, p.inRel, todo))
    decreases |todo|
  {
    if todo != [] {
      var h := Stamp(p.mustAck, p.inRel, todo[0]);
      var p' := p.(sent := p.sent + [h], lastOut := now);
      var done' := if h.rel then done + [h.(ret := true)] else done;
      SendFresh(p', now, done', todo[1..]);
      assert p.sent + [h] + StampAll(p.mustAck, p.inRel, todo[1..]) == p.sent + StampAll(p.mustAck, p.inRel, todo);
      assert done' + MarkSent(p.mustAck, p.inRel, todo[1..]) == done + MarkSent(p.mustAck, p.inRel, todo);
    }
  }

  /** One run of the queue: either its head was transmitted before, and it alone goes
      out again with a back-off; or nothing was, and everything goes out once. */
  lemma SendQueueEffect(p: PeerState, now: int)
    requires MarkPrefix(p.sendq)
    ensures SendQueue(p, now) ==
            if p.sendq == [] then p
            else if p.sendq[0].ret then
              var h := Stamp(p.mustAck, p.inRel, p.sendq[0]);
              p.(sent := p.sent + [h], lastOut := now, rto := Backoff(p.rto), sendq := [h] + p.sendq[1..])
            else
              p.(sent := p.sent + StampAll(p.mustAck, p.inRel, p.sendq), lastOut := now,
                 sendq := MarkSent(p.mustAck, p.inRel, p.sendq))
  {
    if p.sendq == [] || !p.sendq[0].ret {
      SendFresh(p, now, [], p.sendq);
      assert [] + MarkSent(p.mustAck, p.inRel, p.sendq) == MarkSent(p.mustAck, p.inRel, p.sendq);
      assert p.sendq == [] ==> p.sent + [] == p.sent;
    } else {
      assert [] + [Stamp(p.mustAck, p.inRel, p.sendq[0])] == [Stamp(p.mustAck, p.inRel, p.sendq[0])];
    }
  }

  lemma {:induction false} StampAllAt(mustAck: bool, inRel: int, q: seq<Packet>)
    ensures |StampAll(mustAck, inRel, q)| == |q|
    ensures forall i :: 0 <= i < |q| ==> StampAll(mustAck, inRel, q)[i] == Stamp(mustAck, inRel, q[i])
    decreases |q|
  {
    if q != [] {
      StampAllAt(mustAck, inRel, q[1..]);
      var t := StampAll(mustAck, inRel, q[1..]);
      assert forall i :: 1 <= i < |q| ==> StampAll(mustAck, inRel, q)[i] == t[i - 1] && q[i] == q[1..][i - 1];
    }
  }

  /** The first transmission of a queue carries no RETRANSMITTED flag and covers the
      reliable numbers r + 1 up to out. */
  lemma {:induction false} StampSent(sent: seq<Packet>, mustAck: bool, inRel: int, q: seq<Packet>,
                                     base: int, r: int, u: int, out: int, outU: int)
    requires RetOk(sent) && SentRange(sent, base, r) && base <= r
    requires Chain(q, r, u, out, outU) && NoMarks(q)
    ensures RetOk(sent + StampAll(mustAck, inRel, q))
    ensures SentRange(sent + StampAll(mustAck, inRel, q), base, out)
    decreases |q|
  {
    if q == [] {
      assert sent + StampAll(mustAck, inRel, q) == sent;
    } else {
      var h := Stamp(mustAck, inRel, q[0]);
      SentAppend(sent, h, base, r);
      StampSent(sent + [h], mustAck, inRel, q[1..], base,
                q[0].relSeq, if q[0].rel then 0 else q[0].unrelSeq, out, outU);
      assert sent + [h] + StampAll(mustAck, inRel, q[1..]) == sent + StampAll(mustAck, inRel, q);
    }
  }

  /** What is left is still a chain: dropping unreliable packets leaves no gap. */
  lemma {:induction false} MarkSentChain(mustAck: bool, inRel: int, q: seq<Packet>, r: int, u: int, out: int, outU: int)
    requires Chain(q, r, u, out, outU)
    ensures Chain(MarkSent(mustAck, inRel, q), r, u, out, outU)
    ensures Rels(MarkSent(mustAck, inRel, q)) == Rels(q)
    decreases |q|
  {
    if q != [] {
      var t := MarkSent(mustAck, inRel, q[1..]);
      if q[0].rel {
        MarkSentChain(mustAck, inRel, q[1..], r + 1, 0, out, outU);
        assert MarkSent(mustAck, inRel, q)[1..] == t;
      } else {
        MarkSentChain(mustAck, inRel, q[1..], r, q[0].unrelSeq, out, outU);
        ChainWeaken(t, r, q[0].unrelSeq, u, out, outU, outU);
        assert MarkSent(mustAck, inRel, q) == t;
      }
    }
  }

  lemma {:induction false} MarkSentMarks(mustAck: bool, inRel: int, q: seq<Packet>)
    ensures var q' := MarkSent(mustAck, inRel, q); MarkPrefix(q') && Unsent(q') == 0
    decreases |q|
  {
    if q != [] {
      var t := MarkSent(mustAck, inRel, q[1..]);
      MarkSentMarks(mustAck, inRel, q[1..]);
      if q[0].rel {
        assert MarkSent(mustAck, inRel, q)[1..] == t;
      } else {
        assert MarkSent(mustAck, inRel, q) == t;
      }
    }
  }

  /** Each packet left is one of the queue, stamped and marked. */
  lemma {:induction false} MarkSentFrom(mustAck: bool, inRel: int, q: seq<Packet>)
    ensures forall k :: k in MarkSent(mustAck, inRel, q) ==>
              exists j :: 0 <= j < |q| && q[j].rel && k == Stamp(mustAck, inRel, q[j]).(ret := true)
    decreases |q|
  {
    if q != [] {
      MarkSentFrom(mustAck, inRel, q[1..]);
      forall k | k in MarkSent(mustAck, inRel, q[1..])
        ensures exists j :: 0 <= j < |q| && q[j].rel && k == Stamp(mustAck, inRel, q[j]).(ret := true)
      {
        var j :| 0 <= j < |q[1..]| && q[1..][j].rel && k == Stamp(mustAck, inRel, q[1..][j]).(ret := true);
        assert q[j + 1] == q[1..][j];
      }
    }
  }

  /** Stamping the head changes nothing that the invariant sees of a queue. */
  lemma RestampHead(q: seq<Packet>, h: Packet, mustAck: bool, inRel: int, enq: seq<Packet>)
    requires q != [] && h == Stamp(mustAck, inRel, q[0])
    ensures var q' := [h] + q[1..];
            && (forall r, u, out, outU :: Chain(q, r, u, out, outU) ==> Chain(q', r, u, out, outU))
            && (MarkPrefix(q) ==> MarkPrefix(q'))
            && (Known(q, enq) ==> Known(q', enq))
            && Unsent(q') == Unsent(q)
            && (!mustAck && NoAcks(q) ==> NoAcks(q'))
  {
    var q' := [h] + q[1..];
    assert q'[1..] == q[1..];
    assert forall i :: 1 <= i < |q| ==> q'[i] == q[i];
  }

  lemma ResendSide(p: PeerState, base: int, now: int)
    requires Side(p, base) && p.sendq != [] && p.sendq[0].ret
    ensures Side(SendQueue(p, now), base)
    ensures Tx(SendQueue(p, now)) == Tx(p)
  {
    SendQueueEffect(p, now);
    var q := p.sendq;
    var h := Stamp(p.mustAck, p.inRel, q[0]);
    RestampHead(q, h, p.mustAck, p.inRel, p.enq);
    HeadWasSent(q, Lo(p, base), p.outRel, p.outUnrel);
    ResentWire(p, base, h);
  }

  /** A marked head is the lowest number queued, and was transmitted. */
  lemma HeadWasSent(q: seq<Packet>, lo: int, out: int, outU: int)
    requires Chain(q, lo, 0, out, outU) && MarkPrefix(q) && q != [] && q[0].ret
    ensures q[0].rel && q[0].relSeq == lo + 1 <= out - Unsent(q)
  {
    ChainRels(q[1..], lo + 1, 0, out, outU);
    UnsentBound(q[1..]);
  }

  /** What the wire invariants say once the head has gone out again. */
  lemma ResentWire(p: PeerState, base: int, h: Packet)
    requires Side(p, base) && p.sendq != [] && h == Stamp(p.mustAck, p.inRel, p.sendq[0])
    requires h.rel && h.ret && base < h.relSeq <= Tx(p)
    ensures RetOk(p.sent + [h]) && SentRange(p.sent + [h], base, Tx(p))
    ensures Known(p.sent + [h], p.enq) && AcksWithin(p.sent + [h], p.inRel)
  {
    SentAppend(p.sent, h, base, Tx(p));
  }

  lemma StampAllKnown(sent: seq<Packet>, mustAck: bool, inRel: int, q: seq<Packet>, enq: seq<Packet>)
    requires Known(q, enq) && Known(sent, enq) && AcksWithin(sent, inRel)
    requires !mustAck ==> NoAcks(q)
    ensures Known(sent + StampAll(mustAck, inRel, q), enq)
    ensures AcksWithin(sent + StampAll(mustAck, inRel, q), inRel)
  {
    StampAllAt(mustAck, inRel, q);
    var s := sent + StampAll(mustAck, inRel, q);
    forall i | 0 <= i < |s|
      ensures Strip(s[i]) in enq && (s[i].ack ==> s[i].ackSeq <= inRel)
    {
      if i >= |sent| {
        assert s[i] == Stamp(mustAck, inRel, q[i - |sent|]);
      }
    }
  }

  lemma MarkSentKnown(mustAck: bool, inRel: int, q: seq<Packet>, enq: seq<Packet>)
    requires Known(q, enq)
    ensures Known(MarkSent(mustAck, inRel, q), enq)
    ensures !mustAck && NoAcks(q) ==> NoAcks(MarkSent(mustAck, inRel, q))
  {
    MarkSentFrom(mustAck, inRel, q);
    var q' := MarkSent(mustAck, inRel, q);
    forall i | 0 <= i < |q'|
      ensures Strip(q'[i]) in enq && (!mustAck && NoAcks(q) ==> !q'[i].ack)
    {
      assert q'[i] in q';
    }
  }

  lemma FirstSendSide(p: PeerState, base: int, now: int)
    requires Side(p, base) && p.sendq != [] && !p.sendq[0].ret
    ensures Side(SendQueue(p, now), base)
    ensures Tx(SendQueue(p, now)) == p.outRel
  {
    SendQueueEffect(p, now);
    var q, lo := p.sendq, Lo(p, base);
    ChainRels(q, lo, 0, p.outRel, p.outUnrel);
    UnsentBound(q);
    StampSent(p.sent, p.mustAck, p.inRel, q, base, lo, 0, p.outRel, p.outUnrel);
    StampAllKnown(p.sent, p.mustAck, p.inRel, q, p.enq);
    MarkSentChain(p.mustAck, p.inRel, q, lo, 0, p.outRel, p.outUnrel);
    MarkSentMarks(p.mustAck, p.inRel, q);
    MarkSentKnown(p.mustAck, p.inRel, q, p.enq);
  }

  lemma SendQueueSide(p: PeerState, base: int, now: int)
    requires Side(p, base)
    ensures Side(SendQueue(p, now), base)
    ensures Tx(p) <= Tx(SendQueue(p, now))
  {
    if p.sendq == [] {
      SendQueueEffect(p, now);
    } else if p.sendq[0].ret {
      ResendSide(p, base, now);
    } else {
      FirstSendSide(p, base, now);
    }
  }

  // ----- Acknowledgements on the wire -----

  predicate AllAcks(sent: seq<Packet>, n: int) {
    forall i :: 0 <= i < |sent| ==> sent[i].ack && sent[i].ackSeq == n
  }

  /** What a run of the queue sends carries the acknowledgement owed at that moment. */
  lemma {:induction false} SendLoopStamped(p: PeerState, now: int, done: seq<Packet>, todo: seq<Packet>)
    ensures var p' := SendLoop(p, now, done, todo);
            && |p.sent| <= |p'.sent| && p'.sent[..|p.sent|] == p.sent
            && p' == p.(sent := p'.sent, lastOut := p'.lastOut, rto := p'.rto, sendq := p'.sendq)
    ensures var p' := SendLoop(p, now, done, todo);
            && (p.mustAck ==> AllAcks(p'.sent[|p.sent|..], p.inRel))
            && (!p.mustAck && NoAcks(todo) ==> NoAcks(p'.sent[|p.sent|..]))
    decreases |todo|
  {
    if todo != [] {
      var h := Stamp(p.mustAck, p.inRel, todo[0]);
      var p1 := p.(sent := p.sent + [h], lastOut := now);
      if h.rel && h.ret {
        assert p1.sent[|p.sent|..] == [h];
      } else {
        var done' := if h.rel then done + [h.(ret := true)] else done;
        SendLoopStamped(p1, now, done', todo[1..]);
        var sent' := SendLoop(p1, now, done', todo[1..]).sent;
        assert sent'[|p.sent|] == sent'[..|p1.sent|][|p.sent|] == h;
        assert sent'[|p.sent|..] == [h] + sent'[|p1.sent|..];
        assert sent'[..|p.sent|] == sent'[..|p1.sent|][..|p.sent|];
      }
    }
  }

  lemma SendQueueStamped(p: PeerState, now: int)
    ensures var p' := SendQueue(p, now);
            && |p.sent| <= |p'.sent| && p'.sent == p.sent + p'.sent[|p.sent|..]
            && p' == p.(sent := p'.sent, lastOut := p'.lastOut, rto := p'.rto, sendq := p'.sendq)
            && (p.mustAck ==> AllAcks(p'.sent[|p.sent|..], p.inRel))
            && (!p.mustAck && NoAcks(p.sendq) ==> NoAcks(p'.sent[|p.sent|..]))
  {
    SendLoopStamped(p, now, [], p.sendq);
  }

  /** A peer that owes an acknowledgement and has a queue sends at least one packet, and
      each packet it sends acknowledges all it has accepted. */
  lemma AckEmitted(p: PeerState, now: int)
    requires p.mustAck && p.sendq != []
    ensures var p' := SendQueue(p, now);
            && |p.sent| < |p'.sent|
            && (forall i :: |p.sent| <= i < |p'.sent| ==> p'.sent[i].ack && p'.sent[i].ackSeq == p.inRel)
            && p'.deadline == p.deadline
  {
    SendQueueStamped(p, now);
    var h := Stamp(p.mustAck, p.inRel, p.sendq[0]);
    var p1 := p.(sent := p.sent + [h], lastOut := now);
    if !(h.rel && h.ret) {
      SendLoopStamped(p1, now, if h.rel then [] + [h.(ret := true)] else [], p.sendq[1..]);
    }
    var p' := SendQueue(p, now);
    var t := p'.sent[|p.sent|..];
    assert forall i :: |p.sent| <= i < |p'.sent| ==> p'.sent[i] == t[i - |p.sent|];
  }
}
