/** The end-to-end theorems: from reset, through the handshake, over any number of
    wraps of the sequence numbers, on the 16-bit machine. */
module Delivery {
  import opened SeqNum
  import opened Packets
  import opened PeerSpec
  import opened Queues
  import opened Invariants
  import opened Transmission
  import opened Session
  import opened Refinement
  import opened Handshake

  // ----- Runs -----

  function Actor(sys: System, st: Step): PeerState {
    if st.onX then sys.x else sys.y
  }

  function Other(sys: System, st: Step): PeerState {
    if st.onX then sys.y else sys.x
  }

  /** The assumptions on one step: applications use application commands and hold
      reliable data during the handshake, windows stay below 2^15, and the network
      forgets packets before they get too old. */
  predicate Admissible(sys: System, st: Step) {
    var p, q := Actor(sys, st), Other(sys, st);
    && AppStep(st.act)
    && (sys.x.state == Connecting ==> Held(p, st.act))
    && (st.act.Deliver? && st.act.i < |q.sent| ==>
          Window(p) && Window(q) && YoungPacket(p, q, q.sent[st.act.i]))
  }

  predicate AllAdmissible(sys: System, steps: seq<Step>)
    decreases |steps|
  {
    steps == [] || (Admissible(sys, steps[0]) && AllAdmissible(Exec(Unbounded, sys, steps[0]), steps[1..]))
  }

  predicate InSession(sys: System, r: int, s: int) {
    if sys.x.state == Connecting then Opened(sys, r, s)
    else Established(sys, r, s) && sys.y.inRel > r
  }

  lemma SequencedBaseline(m: Arith, p: PeerState, k: Packet, now: int, replies: seq<AppSend>)
    ensures HandleSequenced(m, p, k, now, replies).inRel == p.inRel
  {
    SendAllFrame(m, p.(up := p.up + [HandlePacket(k)]), replies, now);
  }

  lemma ReceiveBaseline(m: Arith, p: PeerState, k: Packet, now: int, replies: seq<AppSend>)
    requires p.state in {Run, Dead}
    ensures Receive(m, p, k, now, replies).inRel == if Classify(m, p, k) == Sequenced then k.relSeq else p.inRel
  {
    if Classify(m, p, k) == Sequenced {
      SequencedBaseline(m, Accept(p, k, now), k, now, replies);
    } else {
      assert HandleUnsequenced(m, p, k, now) == p;
    }
  }

  /** Once a peer has run, whatever it receives moves in_seq_reliable by one or not at
      all. */
  lemma BaselineSteps(m: Arith, p: PeerState, k: Packet, now: int, replies: seq<AppSend>)
    requires p.state in {Run, Dead}
    ensures var p' := Incoming(m, p, k, now, replies);
            p'.inRel == p.inRel || (k.rel && p'.inRel == Norm(m, p.inRel + 1))
  {
    ReceiveBaseline(m, if k.ack then HandleAck(m, p, k.ackSeq) else p, k, now, replies);
  }

  lemma ServiceBaseline(m: Arith, p: PeerState, now: int)
    ensures Service(m, p, now).inRel == p.inRel
  {
    SendQueueStamped(Probe(m, p.(wake := None), now), now);
  }

  lemma BaselineGrows(p: PeerState, other: PeerState, act: Action)
    requires p.state in {Run, Dead}
    ensures Act(Unbounded, p, other, act).inRel >= p.inRel
  {
    match act
    case Deliver(i, now, replies) =>
      if i < |other.sent| {
        BaselineSteps(Unbounded, p, other.sent[i], now, replies);
      }
    case Serve(now) => ServiceBaseline(Unbounded, p, now);
    case _ =>
  }

  lemma OpenedStep(sys: System, r: int, s: int, st: Step)
    requires Usable(r, s) && Opened(sys, r, s) && Admissible(sys, st)
    ensures InSession(Exec(Unbounded, sys, st), r, s)
  {
    match st.act
    case Send(msg, now) =>
      if st.onX {
        ConnectorSends(sys, r, s, msg, now);
      } else {
        AnswererSends(sys, r, s, msg, now);
      }
    case Serve(now) =>
      if st.onX {
        ConnectorServes(sys, r, s, now);
      } else if sys.y.state == New {
        ListenerServes(sys, r, s, now);
      } else {
        AnswererServes(sys, r, s, now);
      }
    case Deliver(i, now, replies) =>
      if st.onX {
        if i < |sys.y.sent| {
          ConnectorReceives(sys, r, s, sys.y.sent[i], now, replies);
        }
      } else if i < |sys.x.sent| {
        if sys.y.state == New {
          ListenerReceives(sys, r, s, sys.x.sent[i], now, replies);
        } else {
          AnswererReceives(sys, r, s, sys.x.sent[i], now, replies);
        }
      }
    case Close(_) =>
  }

  lemma ConnectorRecent(x: PeerState, y: PeerState, r: int, s: int, k: Packet)
    requires Usable(r, s) && Connector(x, r) && Side(Ahead(x, s), r)
    requires !k.rel && k.relSeq == s && k.ack && k.ackSeq == r + 1
    ensures Recent(x, k)
  {
    var lo := Lo(x, r);
    ChainBounds(x.sendq, lo, 0, x.outRel, x.outUnrel);
    forall i | 0 <= i < |x.sendq|
      ensures lo <= x.sendq[i].relSeq <= x.outRel
    {
      assert Before(lo, 0, x.sendq[i].relSeq, x.sendq[i].unrelSeq);
    }
  }

  /** Also before the session is established every comparison is exact. */
  lemma OpenedRecent(sys: System, r: int, s: int, st: Step)
    requires Usable(r, s) && Opened(sys, r, s) && Admissible(sys, st)
    ensures RecentStep(Actor(sys, st), Other(sys, st), st.act)
  {
    if st.act.Deliver? && st.act.i < |Other(sys, st).sent| {
      var k := Other(sys, st).sent[st.act.i];
      if st.onX {
        AnswererNumbers(sys.y, r, s, k);
        ConnectorRecent(sys.x, sys.y, r, s, k);
      } else {
        RequestNumbers(sys.x, r, k);
      }
    }
  }

  lemma SessionStep(sys: System, r: int, s: int, st: Step)
    requires Usable(r, s) && InSession(sys, r, s) && Admissible(sys, st)
    ensures InSession(Exec(Unbounded, sys, st), r, s)
    ensures Exec(Wrapped, ProjSystem(sys), st) == ProjSystem(Exec(Unbounded, sys, st))
  {
    if sys.x.state == Connecting {
      OpenedStep(sys, r, s, st);
      OpenedRecent(sys, r, s, st);
    } else {
      StepKeeps(sys, r, s, st);
      EstablishedStays(sys, r, s, st);
      BaselineGrows(sys.y, sys.x, st.act);
      if st.act.Deliver? && st.act.i < |Other(sys, st).sent| {
        if st.onX {
          YoungIsRecent(sys.x, sys.y, r, s, sys.y.sent[st.act.i]);
        } else {
          YoungIsRecent(sys.y, sys.x, s, r, sys.x.sent[st.act.i]);
        }
      }
    }
    ActCommutes(Actor(sys, st), Other(sys, st), st.act);
  }

  /** In every run that meets the assumptions the 16-bit machine is the wrapped image
      of the unbounded one, whose state satisfies the session invariant. */
  lemma {:induction false} RunRefines(sys: System, r: int, s: int, steps: seq<Step>)
    requires Usable(r, s) && InSession(sys, r, s) && AllAdmissible(sys, steps)
    ensures InSession(RunAll(Unbounded, sys, steps), r, s)
    ensures RunAll(Wrapped, ProjSystem(sys), steps) == ProjSystem(RunAll(Unbounded, sys, steps))
    decreases |steps|
  {
    if steps != [] {
      SessionStep(sys, r, s, steps[0]);
      RunRefines(Exec(Unbounded, sys, steps[0]), r, s, steps[1..]);
    }
  }

  lemma OpeningProjects(r: int, s: int, nowX: int, nowY: int)
    requires Usable(r, s)
    ensures ProjSystem(Opening(Unbounded, r, s, nowX, nowY)) == Opening(Wrapped, r, s, nowX, nowY)
  {
    var x := Init(Unbounded, r, nowX).(state := Connecting);
    assert ProjS([]) == [] && ProjU([]) == [];
    SendCommutes(x, Fresh(CMD_CONN_REQ, Blank), nowX);
  }

  // ----- Order -----

  /** idx places every accepted packet at its own place among those enqueued, in order
      and without repetition, and whenever a packet was accepted all reliable packets
      enqueued up to it had been. */
  ghost predicate Embeds(enq: seq<Packet>, acc: seq<Packet>, idx: seq<nat>) {
    && |idx| == |acc|
    && (forall i :: 0 <= i < |acc| ==> idx[i] < |enq| && enq[idx[i]] == Strip(acc[i]))
    && (forall i, j :: 0 <= i < j < |acc| ==> idx[i] < idx[j])
    && (forall i :: 0 <= i < |acc| ==> Rels(acc[..i + 1]) == Rels(enq[..idx[i] + 1]))
  }

  /** What y accepted against what x enqueued: in order, at most once, and the
      reliable packets without a gap from the first on. */
  ghost predicate InOrder(enq: seq<Packet>, acc: seq<Packet>) {
    (exists idx :: Embeds(enq, acc, idx)) && Rels(acc) <= Rels(enq)
  }

  lemma {:induction false} AccRelsAt(acc: seq<Packet>, enq: seq<Packet>, base: int, i: nat)
    requires AccRels(acc, enq, base) && i < |acc|
    ensures 0 <= acc[i].relSeq - base <= |Rels(enq)|
    ensures Rels(acc[..i + 1]) == Rels(enq)[..acc[i].relSeq - base]
    decreases |acc|
  {
    var t := acc[..|acc| - 1];
    if i == |acc| - 1 {
      assert acc[..i + 1] == acc;
    } else {
      AccRelsAt(t, enq, base, i);
      assert t[..i + 1] == acc[..i + 1];
    }
  }

  /** In a chain the reliable packets up to a position are those up to its number. */
  lemma {:induction false} ChainPrefix(q: seq<Packet>, r: int, u: int, out: int, outU: int, j: nat)
    requires Chain(q, r, u, out, outU) && j < |q|
    ensures 0 <= q[j].relSeq - r <= |Rels(q)|
    ensures Rels(q[..j + 1]) == Rels(q)[..q[j].relSeq - r]
    decreases |q|
  {
    ChainBounds(q, r, u, out, outU);
    ChainRels(q, r, u, out, outU);
    var u' := if q[0].rel then 0 else q[0].unrelSeq;
    assert q[..j + 1][1..] == q[1..][..j];
    if j > 0 {
      ChainPrefix(q[1..], q[0].relSeq, u', out, outU, j - 1);
    }
  }

  /** Places of accepted packets among those enqueued, in the order of acceptance. */
  lemma AcceptedPlaces(enq: seq<Packet>, acc: seq<Packet>, out: int, outU: int, base: int)
    returns (idx: seq<nat>)
    requires Chain(enq, base, 0, out, outU) && Known(acc, enq)
    requires forall i, j :: 0 <= i < j < |acc| ==> Lt(acc[i], acc[j])
    ensures |idx| == |acc|
    ensures forall i :: 0 <= i < |acc| ==> idx[i] < |enq| && enq[idx[i]] == Strip(acc[i])
    ensures forall i, j :: 0 <= i < j < |acc| ==> idx[i] < idx[j]
  {
    forall i | 0 <= i < |acc|
      ensures exists j :: 0 <= j < |enq| && enq[j] == Strip(acc[i])
    {
      assert Strip(acc[i]) in enq;
    }
    idx := seq(|acc|, i requires 0 <= i < |acc| => var j :| 0 <= j < |enq| && enq[j] == Strip(acc[i]); j);
    ChainSorted(enq, base, 0, out, outU);
    forall i, j | 0 <= i < j < |acc|
      ensures idx[i] < idx[j]
    {
      assert Lt(enq[idx[i]], enq[idx[j]]);
    }
  }

  lemma AcceptedEmbeds(enq: seq<Packet>, acc: seq<Packet>, inRel: int, inUnrel: int, base: int, out: int, outU: int)
    returns (idx: seq<nat>)
    requires Chain(enq, base, 0, out, outU) && Accepted(enq, acc, inRel, inUnrel, base)
    ensures Embeds(enq, acc, idx)
  {
    idx := AcceptedPlaces(enq, acc, out, outU, base);
    forall i | 0 <= i < |acc|
      ensures Rels(acc[..i + 1]) == Rels(enq[..idx[i] + 1])
    {
      AccRelsAt(acc, enq, base, i);
      ChainPrefix(enq, base, 0, out, outU, idx[i]);
    }
  }

  lemma {:induction false} RelsProject(q: seq<Packet>)
    ensures Rels(ProjS(q)) == ProjS(Rels(q))
    decreases |q|
  {
    if q != [] {
      RelsProject(q[1..]);
      assert ProjS(q)[1..] == ProjS(q[1..]);
      var h := if q[0].rel then [Strip(q[0])] else [];
      assert ProjS(h + Rels(q[1..])) == ProjS(h) + ProjS(Rels(q[1..]));
    }
  }

  lemma EmbedsProjects(enq: seq<Packet>, acc: seq<Packet>, idx: seq<nat>)
    requires Embeds(enq, acc, idx)
    ensures Embeds(ProjS(enq), ProjS(acc), idx)
  {
    forall i | 0 <= i < |acc|
      ensures Rels(ProjS(acc)[..i + 1]) == Rels(ProjS(enq)[..idx[i] + 1])
    {
      assert ProjS(acc)[..i + 1] == ProjS(acc[..i + 1]);
      assert ProjS(enq)[..idx[i] + 1] == ProjS(enq[..idx[i] + 1]);
      RelsProject(acc[..i + 1]);
      RelsProject(enq[..idx[i] + 1]);
    }
  }

  lemma HalfInOrder(x: PeerState, y: PeerState, base: int)
    requires Side(x, base) && Half(x, y, base)
    ensures InOrder(Proj(x).enq, Proj(y).acc)
  {
    var idx := AcceptedEmbeds(x.enq, y.acc, y.inRel, y.inUnrel, base, x.outRel, x.outUnrel);
    EmbedsProjects(x.enq, y.acc, idx);
    RelsProject(x.enq);
    RelsProject(y.acc);
  }

  /** In-order, exactly-once delivery. For every run of the 16-bit machine from reset
      under the assumptions, in both directions: what is accepted is a subsequence of
      what was enqueued, the reliable part of it a prefix, and nothing overtakes a
      reliable packet. (The client's direction is in order from its CONN_REQ on.) */
  lemma InOrderDelivery(r: int, s: int, nowX: int, nowY: int, steps: seq<Step>)
    requires Usable(r, s) && AllAdmissible(Opening(Unbounded, r, s, nowX, nowY), steps)
    ensures var w := RunAll(Wrapped, Opening(Wrapped, r, s, nowX, nowY), steps);
            InOrder(w.x.enq, w.y.acc) && InOrder(w.y.enq, w.x.acc)
  {
    var sys := Opening(Unbounded, r, s, nowX, nowY);
    OpeningOpened(r, s, nowX, nowY);
    OpeningProjects(r, s, nowX, nowY);
    RunRefines(sys, r, s, steps);
    SessionInOrder(RunAll(Unbounded, sys, steps), r, s);
  }

  lemma SessionInOrder(u: System, r: int, s: int)
    requires InSession(u, r, s)
    ensures InOrder(Proj(u.x).enq, Proj(u.y).acc) && InOrder(Proj(u.y).enq, Proj(u.x).acc)
  {
    if u.x.state != Connecting {
      HalfInOrder(u.x, u.y, r);
      HalfInOrder(u.y, u.x, s);
    } else if u.y.state == New {
      assert Embeds(Proj(u.x).enq, [], []) && Embeds(Proj(u.y).enq, [], []);
    } else {
      HalfInOrder(Ahead(u.x, s), u.y, r);
      HalfInOrder(u.y, Ahead(u.x, s), s);
    }
  }
}
