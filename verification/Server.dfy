/** The peer table of src/server.c: a list of peers searched by source address, all of
    them drawing packet chains from one pool. */
module Server {
  import opened SeqNum
  import opened Packets
  import opened PeerSpec
  import opened Pool
  import opened Sequences
  import opened Exactness
  import opened Duties
  import P = Peer

  const CONN_REQ_SIZE := 12

  /** struct sockaddr_in or sockaddr_in6. */
  datatype SockAddr =
    | V4(port: int, ip: seq<bv8>)
    | V6(port: int, ip: seq<bv8>, flowInfo: int, scopeId: int)

  /** What identifies a peer: family, port and address bytes. */
  datatype Key = Key(six: bool, port: int, ip: seq<bv8>)

  function KeyOf(a: SockAddr): Key {
    Key(a.V6?, a.port, a.ip)
  }

  /** Same family, port and address bytes: flow and scope do not matter. */
  predicate SameHost(a: SockAddr, b: SockAddr) {
    a.V4? == b.V4? && a.port == b.port && a.ip == b.ip
  }

  lemma KeyExact(a: SockAddr, b: SockAddr)
    ensures KeyOf(a) == KeyOf(b) <==> SameHost(a, b)
  {
  }

  /** rudp_address_compare: 0 (here false) when the addresses match. */
  function Differ(a: SockAddr, b: SockAddr): (r: bool)
    ensures r <==> !(a.V4? == b.V4? && a.port == b.port && a.ip == b.ip)
  {
    if a.V4? != b.V4? then true
    else if a.V4? then (if a.port != b.port then true else a.ip != b.ip)
    else if a.port != b.port then true
    else a.ip != b.ip
  }

  /** struct server_peer */
  class ServerPeer {
    const addr: SockAddr
    const base: P.Peer

    constructor (addr: SockAddr, rudp: Rudp, rand: P.u16, now: int)
      requires rudp.Valid()
      ensures this.addr == addr && fresh(base) && base.rudp == rudp
      ensures base.Valid() && base.sendq == [] && base.Others() == rudp.InUse()
      ensures base.Mine() == rudp.live - rudp.InUse()
      ensures base.Abs() == Init(Wrapped, rand, now)
    {
      this.addr := addr;
      base := new P.Peer(rudp, rand, now);
    }
  }

  /** What the application learns or does about its peers: handler calls peer_new and
      peer_dropped, and its own rudp_server_client_close. */
  datatype Event = PeerNew(p: ServerPeer) | PeerDropped(p: ServerPeer) | PeerClosed(p: ServerPeer)

  // ----- Lists without repetition -----

  /** rudp_list_remove */
  function Without(s: seq<ServerPeer>, p: ServerPeer): seq<ServerPeer> {
    if s == [] then []
    else if s[0] == p then s[1..]
    else [s[0]] + Without(s[1..], p)
  }

  lemma {:induction false} WithoutMembers(s: seq<ServerPeer>, p: ServerPeer)
    requires Distinct(s)
    ensures Distinct(Without(s, p))
    ensures forall q :: q in Without(s, p) <==> q in s && q != p
  {
    if s != [] {
      var t := s[1..];
      assert s == [s[0]] + t;
      WithoutMembers(t, p);
      assert s[0] !in t;
    }
  }

  /** The peers announced and since neither dropped nor closed, last announced first. */
  function Announced(events: seq<Event>): seq<ServerPeer> {
    if events == [] then []
    else
      var s := Announced(events[..|events| - 1]);
      var e := events[|events| - 1];
      if e.PeerNew? then [e.p] + s else Without(s, e.p)
  }

  lemma AnnouncedStep(events: seq<Event>, e: Event)
    ensures Announced(events + [e]) ==
            if e.PeerNew? then [e.p] + Announced(events) else Without(Announced(events), e.p)
  {
    assert (events + [e])[..|events|] == events;
  }

  ghost predicate Keyed(s: seq<ServerPeer>) {
    forall p, q {:trigger KeyOf(p.addr), KeyOf(q.addr)} :: p in s && q in s && p != q ==> KeyOf(p.addr) != KeyOf(q.addr)
  }

  /** The table as a map. */
  ghost function Table(s: seq<ServerPeer>): map<Key, ServerPeer>
    requires Keyed(s)
  {
    map p | p in s :: KeyOf(p.addr) := p
  }

  /** What the table says of a key. */
  ghost function Find(s: seq<ServerPeer>, k: Key): (r: Option<ServerPeer>)
    requires Keyed(s)
    ensures r.Some? ==> r.value in s && KeyOf(r.value.addr) == k
    ensures r.None? ==> forall p :: p in s ==> KeyOf(p.addr) != k
  {
    if k in Table(s) then Some(Table(s)[k]) else None
  }

  /** A peer announced and not since dropped or closed is still the one its address finds. */
  lemma {:induction false} SamePeerUntilForgotten(events: seq<Event>, more: seq<Event>, q: ServerPeer)
    requires q in Announced(events) && Keyed(Announced(events + more))
    requires PeerDropped(q) !in more && PeerClosed(q) !in more
    ensures q in Announced(events + more)
    ensures forall a :: KeyOf(a) == KeyOf(q.addr) ==> Find(Announced(events + more), KeyOf(a)) == Some(q)
  {
    Remains(events, more, q);
  }

  lemma {:induction false} Remains(events: seq<Event>, more: seq<Event>, q: ServerPeer)
    requires q in Announced(events)
    requires PeerDropped(q) !in more && PeerClosed(q) !in more
    ensures q in Announced(events + more)
  {
    if more == [] {
      assert events + more == events;
    } else {
      var n := |more| - 1;
      Remains(events, more[..n], q);
      assert events + more == (events + more[..n]) + [more[n]];
      AnnouncedStep(events + more[..n], more[n]);
      assert more[n] in more;
      StaysIn(Announced(events + more[..n]), more[n].p, q);
    }
  }

  lemma {:induction false} StaysIn(s: seq<ServerPeer>, p: ServerPeer, q: ServerPeer)
    requires q in s
    ensures p != q ==> q in Without(s, p)
    ensures q in [p] + s
  {
    if p != q && s[0] != p && q in s[1..] {
      StaysIn(s[1..], p, q);
    }
  }

  lemma WithoutFront(s: seq<ServerPeer>, p: ServerPeer)
    ensures Without([p] + s, p) == s
  {
    assert ([p] + s)[1..] == s;
  }

  lemma InFront(s: seq<ServerPeer>, p: ServerPeer)
    requires Distinct(s) && p !in s
    ensures Distinct([p] + s) && forall q :: q in [p] + s <==> q in s || q == p
  {
  }

  /** Not the first packet of a connection. */
  predicate Garbage(k: Packet, len: nat) {
    len != CONN_REQ_SIZE || k.cmd != CMD_CONN_REQ
  }

  ghost function Drops(s: seq<ServerPeer>): (r: seq<Event>)
    ensures |r| == |s| && forall i :: 0 <= i < |s| ==> r[i] == PeerDropped(s[i])
  {
    seq(|s|, i requires 0 <= i < |s| => PeerDropped(s[i]))
  }

  // ----- What an announcement means -----

  /** A first packet is refused exactly when it carries an acknowledgement from the
      forward half of the number circle past the random base. */
  lemma FirstPacketRejectedIff(rand: P.u16, now: int, k: Packet)
    requires OnWire(k)
    ensures Rejected(Wrapped, Init(Wrapped, rand, now), k) <==> k.ack && 0 < (k.ackSeq - rand) % 0x1_0000 < 0x7FFF
  {
    var d := k.ackSeq - rand;
    if rand == 0 {
      assert Wrap16(rand - 1) == 0xFFFF;
      assert Signed16(k.ackSeq - 0xFFFF) == Signed16(d + 1);
    } else {
      assert Wrap16(rand - 1) == rand - 1;
    }
  }

  /** The header of peer_new promises an established connection. The announced peer is
      running exactly when its connection request does not look received or next to a peer
      just reset, whose in_seq_reliable is 0xFFFF. */
  lemma AnnouncedEstablishedIff(rand: P.u16, now: int, k: Packet, replies: seq<AppSend>)
    requires OnWire(k) && k.cmd == CMD_CONN_REQ && !Rejected(Wrapped, Init(Wrapped, rand, now), k)
    ensures PeerSpec.Incoming(Wrapped, Init(Wrapped, rand, now), k, now, replies).state == Run <==> LooksNew(k)
  {
    ServerRunsIff(Init(Wrapped, rand, now), k, now, replies);
  }

  /** The result `dropped` of a packet handled is the handler call: it is among the calls
      made during the packet exactly when the packet is an accepted CLOSE. */
  lemma DropReported(p: PeerState, k: Packet, now: int, replies: seq<AppSend>)
    ensures var u := PeerSpec.Incoming(Wrapped, p, k, now, replies).up;
            p.up <= u && (Dropped in u[|p.up|..] <==> Closes(Wrapped, p, k))
  {
    if !Rejected(Wrapped, p, k) {
      ReceiveCalls(if k.ack then HandleAck(Wrapped, p, k.ackSeq) else p, k, now, replies);
    }
  }

  lemma ReceiveCalls(p: PeerState, k: Packet, now: int, replies: seq<AppSend>)
    ensures PeerSpec.Receive(Wrapped, p, k, now, replies).up == p.up +
            if Classify(Wrapped, p, k) != Sequenced then []
            else if k.cmd == CMD_CLOSE then [Dropped]
            else if p.state == Run && k.cmd >= CMD_APP then [HandlePacket(k)]
            else []
  {
    if Classify(Wrapped, p, k) == Sequenced {
      SequencedCalls(Accept(p, k, now), k, now, replies);
    } else {
      assert p.up + [] == p.up;
    }
  }

  lemma SequencedCalls(p: PeerState, k: Packet, now: int, replies: seq<AppSend>)
    ensures HandleSequenced(Wrapped, p, k, now, replies).up == p.up +
            if p.state == Run && k.cmd >= CMD_APP then [HandlePacket(k)] else []
  {
    SendAllFrame(Wrapped, p.(up := p.up + [HandlePacket(k)]), replies, now);
    assert p.up + [] == p.up;
  }

  /** One packet more is queued: as the application wants it, under the next number. */
  predicate Queued(p: PeerState, p': PeerState, reliable: bool, cmd: int, data: Payload) {
    p'.sendq == p.sendq +
      if reliable then [Packet(cmd, true, false, false, 0, Wrap16(p.outRel + 1), 0, data)]
      else [Packet(cmd, false, false, false, 0, p.outRel, Wrap16(p.outUnrel + 1), data)]
  }

  lemma SendQueues(p: PeerState, a: AppSend, now: int)
    ensures Queued(p, PeerSpec.Send(Wrapped, p, a, now), a.reliable, a.cmd, a.data)
  {
  }

  lemma DropsOne(done: seq<ServerPeer>, s: seq<ServerPeer>)
    requires s != []
    ensures Drops(done + [s[0]]) == Drops(done) + [PeerDropped(s[0])]
    ensures done + s == done + [s[0]] + s[1..]
  {
  }

  class Server {
    const rudp: Rudp
    var peerList: seq<ServerPeer>
    ghost var events: seq<Event>

    /** The chains in use outside the server's queues. */
    ghost var held: set<PacketChain>

    ghost function Bases(): set<P.Peer>
      reads this`peerList
    {
      set p | p in peerList :: p.base
    }

    ghost function Repr(): set<object>
      reads this, rudp
    {
      {this, rudp} + Bases() + (rudp.live - held)
    }

    ghost predicate Fine(p: ServerPeer)
      reads this`peerList, this`held, Bases(), rudp, rudp.live - held
    {
      && p.base in Bases() && p.base.rudp == rudp
      && SetOf(p.base.sendq) <= rudp.live - held && p.base.Valid()
    }

    /** Two peers share neither their structure nor a packet chain. */
    ghost predicate Apart(p: ServerPeer, q: ServerPeer)
      reads p.base`sendq, q.base`sendq
    {
      p.base != q.base && SetOf(p.base.sendq) !! SetOf(q.base.sendq)
    }

    /** Some listed peer has queued the chain. */
    ghost predicate Owned(c: PacketChain)
      reads this`peerList, Bases()
    {
      exists p :: p in peerList && p.base in Bases() && c in p.base.sendq
    }

    /** The peers are well formed, share the pool and nothing else, and have distinct
        addresses; every chain in use is held outside or in one of their queues. */
    ghost predicate Sound()
      reads this`peerList, this`held, Bases(), rudp, rudp.live - held
    {
      && rudp.Valid() && held <= rudp.InUse() && Distinct(peerList) && Keyed(peerList)
      && (forall p {:trigger Fine(p)} :: p in peerList ==> Fine(p))
      && (forall p, q {:trigger Apart(p, q)} :: p in peerList && q in peerList && p != q ==> p.base in Bases() && q.base in Bases() && Apart(p, q))
      && (forall c {:trigger Owned(c)} :: c in rudp.InUse() - held ==> Owned(c))
    }

    /** Conservation: every live chain is in exactly one place, the free list, the hands
        of somebody outside, or one place of one queue of one listed peer. */
    lemma ChainsConserved(c: PacketChain)
      requires Sound() && c in rudp.live
      ensures c in rudp.freeList || c in held || Owned(c)
      ensures !(c in rudp.freeList && c in held) && !(c in rudp.freeList && Owned(c)) && !(c in held && Owned(c))
      ensures forall p, q :: p in peerList && q in peerList && c in p.base.sendq && c in q.base.sendq ==> p == q
      ensures forall p :: p in peerList ==> Distinct(p.base.sendq)
    {
      forall p | p in peerList
        ensures Distinct(p.base.sendq)
        ensures c in p.base.sendq ==> c !in rudp.freeList && c !in held
      {
        assert Fine(p);
        assert c in p.base.sendq ==> c in SetOf(p.base.sendq);
      }
      forall p, q | p in peerList && q in peerList && p != q ensures !(c in p.base.sendq && c in q.base.sendq) {
        assert Apart(p, q) && Fine(p);
        assert c in p.base.sendq ==> c in SetOf(p.base.sendq);
        assert c in q.base.sendq ==> c in SetOf(q.base.sendq);
      }
    }

    ghost predicate Valid()
      reads this, Bases(), rudp, rudp.live - held
    {
      Sound() && peerList == Announced(events)
    }

    /** rudp_server_init */
    constructor (rudp: Rudp)
      requires rudp.Valid()
      ensures Valid() && this.rudp == rudp && peerList == [] && events == [] && held == rudp.InUse()
    {
      this.rudp := rudp;
      peerList := [];
      events := [];
      held := rudp.InUse();
    }

    /** After a call on a peer that is still listed or has nothing queued, the table is
        sound again. */
    twostate lemma Kept(p: ServerPeer)
      requires old(Sound()) && p in old(peerList) && held == old(held)
      requires Distinct(peerList) && forall q :: q in old(peerList) && q != p ==> q in peerList
      requires forall q :: q in peerList ==> q in old(peerList)
      requires p in peerList || p.base.sendq == []
      requires p.base.Valid() && p.base.Others() == old(p.base.Others())
      requires forall q :: q in old(peerList) && q != p ==> q.base.sendq == old(q.base.sendq) && q.base.queue == old(q.base.queue)
      requires forall c :: c in old(p.base.Others()) ==> c.packet == old(c.packet)
      ensures Sound()
    {
      assert old(Fine(p));
      assert held <= p.base.Others();
      forall q | q in peerList
        ensures Fine(q) && (q != p ==> SetOf(q.base.sendq) <= p.base.Others())
      {
        assert old(Fine(q)) && q.base in Bases();
        if q != p {
          assert old(Apart(p, q));
          assert SetOf(q.base.sendq) <= p.base.Others();
          forall i | 0 <= i < |q.base.sendq| ensures q.base.sendq[i].packet == q.base.queue[i] {
            assert q.base.sendq[i] in SetOf(q.base.sendq);
          }
        }
      }
      forall q, r | q in peerList && r in peerList && q != r ensures Apart(q, r) {
        assert old(Apart(q, r)) && Fine(q) && Fine(r);
      }
      forall c | c in rudp.InUse() - held ensures Owned(c) {
        if c in SetOf(p.base.sendq) {
          assert p.base in Bases();
        } else {
          assert c in old(p.base.Others()) && old(Owned(c));
          var q :| q in old(peerList) && c in old(q.base.sendq);
          assert q.base in Bases();
        }
      }
    }

    /** rudp_server_peer_lookup */
    method Lookup(addr: SockAddr) returns (r: Option<ServerPeer>)
      requires Keyed(peerList)
      ensures r == Find(peerList, KeyOf(addr))
      ensures match r
              case Some(p) => p in peerList && SameHost(p.addr, addr)
              case None => forall p :: p in peerList ==> !SameHost(p.addr, addr)
    {
      for i := 0 to |peerList|
        invariant forall j :: 0 <= j < i ==> !SameHost(peerList[j].addr, addr)
      {
        if !Differ(peerList[i].addr, addr) {
          return Some(peerList[i]);
        }
      }
      return None;
    }

    /** server_peer_new */
    method NewPeer(addr: SockAddr, rand: P.u16, now: int) returns (p: ServerPeer)
      requires Sound() && forall q :: q in peerList ==> KeyOf(q.addr) != KeyOf(addr)
      modifies this`peerList
      ensures Sound() && peerList == [p] + old(peerList)
      ensures p.addr == addr && fresh(p) && fresh(p.base)
      ensures p.base.rudp == rudp && p.base.Mine() == rudp.live - rudp.InUse()
      ensures p.base.Abs() == Init(Wrapped, rand, now)
    {
      p := new ServerPeer(addr, rudp, rand, now);
      InFront(peerList, p);
      peerList := [p] + peerList;
      assert SetOf(p.base.sendq) == {};
      forall q | q in peerList ensures Fine(q) {
        assert q != p ==> old(Fine(q));
        assert q.base in Bases();
      }
      forall q, r | q in peerList && r in peerList && q != r ensures Apart(q, r) {
        assert q != p && r != p ==> old(Apart(q, r));
        assert q != p ==> old(Fine(q));
        assert r != p ==> old(Fine(r));
      }
      forall c | c in rudp.InUse() - held ensures Owned(c) {
        assert old(Owned(c));
        var q :| q in old(peerList) && c in q.base.sendq;
        assert q.base in Bases();
      }
    }

    /** server_peer_forget; rand and now are what the reset of the peer reads. */
    method Forget(p: ServerPeer, rand: P.u16, now: int)
      requires Sound() && p in peerList
      modifies this`peerList, p.base, rudp
      ensures Sound() && peerList == Without(old(peerList), p)
    {
      assert Fine(p);
      WithoutMembers(peerList, p);
      peerList := Without(peerList, p);
      p.base.Reset(rand, now);
      forall q | q in old(peerList) && q != p
        ensures q.base.sendq == old(q.base.sendq) && q.base.queue == old(q.base.queue)
      {
        assert old(Apart(p, q));
      }
      Kept(p);
    }

    /** A call to the application, or by it. */
    ghost method Note(e: Event)
      requires Sound()
      modifies this`events
      ensures Sound() && events == old(events) + [e]
      ensures Announced(events) == if e.PeerNew? then [e.p] + Announced(old(events)) else Without(Announced(old(events)), e.p)
    {
      AnnouncedStep(events, e);
      events := events + [e];
      forall p | p in peerList ensures Fine(p) {
        assert old(Fine(p));
      }
      forall p, q | p in peerList && q in peerList && p != q ensures Apart(p, q) {
        assert old(Apart(p, q)) && Fine(p) && Fine(q);
      }
      forall c | c in rudp.InUse() - held ensures Owned(c) {
        assert old(Owned(c));
      }
    }

    /** server_peer_dropped: tell the application, forget the peer. */
    method DropPeer(p: ServerPeer, rand: P.u16, now: int)
      requires Sound() && p in peerList && peerList == Announced(events)
      modifies this`peerList, this`events, p.base, rudp
      ensures Valid() && events == old(events) + [PeerDropped(p)]
      ensures peerList == Without(old(peerList), p)
    {
      Note(PeerDropped(p));
      Forget(p, rand, now);
    }

    /** rudp_server_client_close */
    method ClientClose(p: ServerPeer, rand: P.u16, now: int)
      requires Valid() && p in peerList
      modifies this`peerList, this`events, p.base, rudp
      ensures Valid() && events == old(events) + [PeerClosed(p)]
    {
      Note(PeerClosed(p));
      Forget(p, rand, now);
    }

    /** rudp_peer_incoming_packet on a listed peer. */
    method Incoming(p: ServerPeer, k: Packet, len: nat, now: int, replies: seq<AppSend>) returns (err: bool, dropped: bool)
      requires Sound() && p in peerList && OnWire(k)
      modifies p.base.Repr()
      ensures Sound()
      ensures err == Rejected(Wrapped, old(p.base.Abs()), k) && dropped == Closes(Wrapped, old(p.base.Abs()), k)
      ensures p.base.Abs() == PeerSpec.Incoming(Wrapped, old(p.base.Abs()), k, now, replies)
      ensures held == old(held) && peerList == old(peerList) && events == old(events)
      ensures forall b :: b in old(Bases()) && b != p.base ==> b.Abs() == old(b.Abs())
    {
      assert Fine(p);
      err, dropped := p.base.IncomingPacket(k, len, now, replies);
      forall q | q in peerList && q != p
        ensures q.base.sendq == old(q.base.sendq) && q.base.queue == old(q.base.queue)
      {
        assert old(Apart(p, q));
      }
      Kept(p);
    }

    /** What a listed peer may write is within what the server may, and no other peer. */
    lemma Within(p: ServerPeer)
      requires Sound() && p in peerList
      ensures p.base.Repr() <= Repr() && SetOf(p.base.sendq) !! held
      ensures forall q :: q in peerList && q != p ==> q.base != p.base
    {
      assert Fine(p);
      forall q | q in peerList && q != p ensures q.base != p.base {
        assert Apart(p, q);
      }
    }

    /** The first half of server_handle_endpoint_packet: a packet for a known peer. */
    method Deliver(p: ServerPeer, k: Packet, len: nat, rand: P.u16, now: int, replies: seq<AppSend>)
      requires Valid() && p in peerList && OnWire(k)
      modifies Repr()
      ensures Valid() && held == old(held)
      ensures if Closes(Wrapped, old(p.base.Abs()), k) then events == old(events) + [PeerDropped(p)]
              else events == old(events) && p.base.Abs() == PeerSpec.Incoming(Wrapped, old(p.base.Abs()), k, now, replies)
      ensures forall b :: b in old(Bases()) && b != p.base ==> b.Abs() == old(b.Abs())
    {
      Within(p);
      var _, dropped := Incoming(p, k, len, now, replies);
      if dropped {
        DropPeer(p, rand, now);
      }
    }

    /** The first packet of a new peer, not yet announced: the peer is forgotten if the
        packet is rejected, announced if it is not. */
    method Settle(p: ServerPeer, k: Packet, len: nat, rand: P.u16, now: int, replies: seq<AppSend>)
      requires Sound() && peerList == [p] + Announced(events) && OnWire(k)
      modifies this`peerList, this`events, p.base.Repr()
      ensures Valid() && held == old(held)
      ensures forall b :: b in old(Bases()) && b != p.base ==> b.Abs() == old(b.Abs())
      ensures if Rejected(Wrapped, old(p.base.Abs()), k) then events == old(events)
              else events == old(events) + [PeerNew(p)]
                   && p.base.Abs() == PeerSpec.Incoming(Wrapped, old(p.base.Abs()), k, now, replies)
    {
      WithoutFront(Announced(events), p);
      assert Fine(p);
      var err, _ := Incoming(p, k, len, now, replies);
      if err {
        Forget(p, rand, now);
      } else {
        Note(PeerNew(p));
      }
    }

    /** The second half: a packet from an unknown address makes a peer. */
    method Admit(addr: SockAddr, k: Packet, len: nat, rand: P.u16, now: int, replies: seq<AppSend>) returns (p: ServerPeer)
      requires Valid() && OnWire(k)
      requires forall q :: q in peerList ==> KeyOf(q.addr) != KeyOf(addr)
      modifies Repr()
      ensures Valid() && held == old(held)
      ensures forall b :: b in old(Bases()) ==> b.Abs() == old(b.Abs())
      ensures p.addr == addr && fresh(p) && fresh(p.base)
      ensures var p0 := Init(Wrapped, rand, now);
              if Rejected(Wrapped, p0, k) then events == old(events)
              else events == old(events) + [PeerNew(p)] && p.base.Abs() == PeerSpec.Incoming(Wrapped, p0, k, now, replies)
    {
      p := NewPeer(addr, rand, now);
      Within(p);
      assert Repr() - {p.base} <= old(Repr()) && old(Bases()) == Bases() - {p.base};
      Settle(p, k, len, rand, now, replies);
    }

    /** A packet from an unknown address; len is the length of the packet received. */
    method Greet(addr: SockAddr, k: Packet, len: nat, rand: P.u16, now: int, replies: seq<AppSend>)
      requires Valid() && OnWire(k)
      requires forall q :: q in peerList ==> KeyOf(q.addr) != KeyOf(addr)
      modifies Repr()
      ensures Valid() && held == old(held)
      ensures forall b :: b in old(Bases()) ==> b.Abs() == old(b.Abs())
      ensures var p0 := Init(Wrapped, rand, now);
              if k.cmd == CMD_CONN_REQ && len == 12 && !Rejected(Wrapped, p0, k) then exists p ::
                fresh(p) && events == old(events) + [PeerNew(p)] && p.addr == addr
                && p.base.Abs() == PeerSpec.Incoming(Wrapped, p0, k, now, replies)
              else events == old(events)
    {
      if !Garbage(k, len) {
        var _ := Admit(addr, k, len, rand, now, replies);
      }
    }

    /** server_handle_endpoint_packet; len is the length of the packet received, rand what
        rudp_random would give for a reset, replies what the application sends from inside
        handle_packet. */
    method HandleEndpointPacket(addr: SockAddr, k: Packet, len: nat, rand: P.u16, now: int, replies: seq<AppSend>)
      requires Valid() && OnWire(k)
      modifies Repr()
      ensures Valid() && held == old(held)
      ensures var found := old(Find(peerList, KeyOf(addr)));
              found.Some? ==>
                var p := found.value;
                if Closes(Wrapped, old(p.base.Abs()), k) then events == old(events) + [PeerDropped(p)]
                else events == old(events)
                     && p.base.Abs() == PeerSpec.Incoming(Wrapped, old(p.base.Abs()), k, now, replies)
      ensures old(Find(peerList, KeyOf(addr))).None? ==>
                var p0 := Init(Wrapped, rand, now);
                if k.cmd == CMD_CONN_REQ && len == 12 && !Rejected(Wrapped, p0, k) then exists p ::
                  fresh(p) && events == old(events) + [PeerNew(p)] && p.addr == addr
                  && p.base.Abs() == PeerSpec.Incoming(Wrapped, p0, k, now, replies)
                else events == old(events)
      ensures var found := old(Find(peerList, KeyOf(addr)));
              forall b :: b in old(Bases()) && (found.Some? ==> b != found.value.base) ==> b.Abs() == old(b.Abs())
    {
      var found := Lookup(addr);
      if found.Some? {
        Deliver(found.value, k, len, rand, now, replies);
      } else {
        Greet(addr, k, len, rand, now, replies);
      }
    }

    /** The first service of a new client, and what it sent delivered here from an unknown
        address: exactly one more peer is announced, running, with the number of the request
        as its baseline and the answer queued; for every number the client may draw but the
        two that put 0 or 0xFFFF on the request. */
    method Meet(addr: SockAddr, r: P.u16, start: int, t: int, rand: P.u16, now: int, replies: seq<AppSend>)
      requires Valid() && t <= start + DROP_TIMEOUT
      requires forall q :: q in peerList ==> !SameHost(q.addr, addr)
      requires Wrap16(r + 1) != 0 && Wrap16(r + 1) != 0xFFFF
      modifies Repr()
      ensures Valid() && held == old(held)
      ensures exists p :: fresh(p) && events == old(events) + [PeerNew(p)] && peerList == [p] + old(peerList)
                          && p.addr == addr && p.base.state == Run && p.base.inRel == Wrap16(r + 1)
                          && p.base.queue == [Packet(3, false, false, false, 0, rand, 1, Word(1))]
      ensures forall b :: b in old(Bases()) ==> b.Abs() == old(b.Abs())
    {
      var request := PeerSpec.Service(Wrapped, PeerSpec.SendConnect(Wrapped, Init(Wrapped, r, start), start), t).sent;
      FirstRequest(r, start, t);
      RequestAnswered(Wrap16(r + 1), rand, now, replies);
      HandleEndpointPacket(addr, request[0], 12, rand, now, replies);
      AnnouncedStep(old(events), events[|events| - 1]);
    }

    /** The service timer of a listed peer fires: peer_service, and server_peer_dropped if
        its deadline has passed. */
    method ServicePeer(p: ServerPeer, rand: P.u16, now: int)
      requires Valid() && p in peerList
      modifies Repr()
      ensures Valid() && held == old(held)
      ensures if TimedOut(old(p.base.Abs()), now) then events == old(events) + [PeerDropped(p)]
              else events == old(events) && p.base.Abs() == PeerSpec.Service(Wrapped, old(p.base.Abs()), now)
      ensures forall b :: b in old(Bases()) && b != p.base ==> b.Abs() == old(b.Abs())
    {
      Within(p);
      assert Fine(p);
      var dropped := p.base.Service(now);
      Kept(p);
      if dropped {
        DropPeer(p, rand, now);
      }
    }

    /** rudp_server_send on a listed peer; the result says EINVAL. */
    method Send(p: ServerPeer, reliable: bool, command: nat, data: Payload, size: nat, now: int) returns (err: bool)
      requires Valid() && p in peerList
      modifies Repr()
      ensures Valid() && held == old(held) && events == old(events)
      ensures err <==> command > 239
      ensures !err ==> Queued(old(p.base.Abs()), p.base.Abs(), reliable, 16 + command, data)
      ensures p.base.Abs() == if err then old(p.base.Abs())
                              else PeerSpec.Send(Wrapped, old(p.base.Abs()), AppSend(reliable, CMD_APP + command, data), now)
      ensures forall b :: b in old(Bases()) && b != p.base ==> b.Abs() == old(b.Abs())
    {
      if command + CMD_APP > 255 {
        return true;
      }
      Within(p);
      assert Fine(p);
      SendQueues(p.base.Abs(), AppSend(reliable, CMD_APP + command, data), now);
      p.base.Push(reliable, CMD_APP + command, data, size, now);
      Kept(p);
      return false;
    }

    lemma NothingOwned()
      requires Sound() && peerList == []
      ensures rudp.InUse() == held
    {
      forall c | c in rudp.InUse() ensures c in held {
        assert !Owned(c);
      }
    }

    method DropFirst(rand: P.u16, now: int)
      requires Valid() && peerList != []
      modifies this`peerList, this`events, Bases(), rudp
      ensures Valid() && peerList == old(peerList)[1..] && Bases() <= old(Bases())
      ensures events == old(events) + [PeerDropped(old(peerList)[0])]
    {
      var p := peerList[0];
      assert [p] + peerList[1..] == peerList;
      WithoutFront(peerList[1..], p);
      assert p.base in Bases();
      DropPeer(p, rand, now);
      assert forall q :: q in peerList ==> q in old(peerList);
    }

    /** rudp_server_close */
    method Close(rand: P.u16, now: int)
      requires Valid()
      modifies this`peerList, this`events, Bases(), rudp
      ensures Valid() && peerList == [] && rudp.InUse() == held
      ensures events == old(events) + Drops(old(peerList))
    {
      ghost var done, list := [], peerList;
      while peerList != []
        invariant Valid() && Bases() <= old(Bases())
        invariant list == done + peerList && events == old(events) + Drops(done)
        decreases |peerList|
      {
        DropsOne(done, peerList);
        done := done + [peerList[0]];
        DropFirst(rand, now);
      }
      assert done == list;
      NothingOwned();
    }
  }
}
