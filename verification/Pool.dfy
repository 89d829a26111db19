/** The packet-chain pool of src/packet.c. */
module Pool {
  import opened SeqNum
  import opened Packets
  import opened Sequences

  const DEFAULT_ALLOC_SIZE := 4096
  const FREE_PACKET_POOL := 10

  /** struct rudp_packet_chain. The chain_item link is the chain's place in the list
      that holds it. */
  class PacketChain {
    const allocSize: nat
    var len: nat
    var packet: Packet

    constructor (alloc: nat)
      ensures allocSize == alloc
    {
      allocSize := alloc;
      len := 0;
      packet := Fresh(CMD_NOOP, Blank);
    }
  }

  ghost function SetOf(s: seq<PacketChain>): set<PacketChain> {
    set c | c in s
  }

  lemma SetOfTail(s: seq<PacketChain>)
    requires s != [] && Distinct(s)
    ensures SetOf(s[1..]) == SetOf(s) - {s[0]} && Distinct(s[1..])
  {
    assert s == [s[0]] + s[1..];
  }

  /** The part of struct rudp that owns packet chains. `live` are the chains obtained
      from mem_alloc and not yet given to mem_free. */
  class Rudp {
    var freeList: seq<PacketChain>
    var freePackets: int
    var allocatedPackets: int
    ghost var live: set<PacketChain>
    ghost var wraps: int

    /** The counters, both uint16_t, count the free list and the live chains, the second
        one modulo 2^16 (see Counter); the pool holds at most FREE_PACKET_POOL chains, all
        of the default size. */
    ghost predicate Valid()
      reads this
    {
      && Distinct(freeList) && SetOf(freeList) <= live
      && (forall c :: c in freeList ==> c.allocSize == DEFAULT_ALLOC_SIZE)
      && |freeList| <= FREE_PACKET_POOL
      && freePackets == |freeList|
      && 0 <= allocatedPackets < 0x1_0000
      && |live| == allocatedPackets + 0x1_0000 * wraps
    }

    /** allocated_packets is the number of chains obtained and not given back, exactly as
        long as that fits in its 16 bits. */
    lemma Counter()
      requires Valid()
      ensures allocatedPackets == Wrap16(|live|)
      ensures allocatedPackets == |live| <==> |live| < 0x1_0000
    {
      assert 0 <= wraps;
    }

    /** The chains in somebody's hands. */
    ghost function InUse(): set<PacketChain>
      reads this
    {
      live - SetOf(freeList)
    }

    /** rudp_init */
    constructor ()
      ensures Valid() && live == {} && freeList == []
    {
      freeList := [];
      freePackets := 0;
      allocatedPackets := 0;
      live := {};
      wraps := 0;
    }

    /** The head of the pool. */
    method TakeFree() returns (pc: PacketChain)
      requires Valid() && freeList != []
      modifies this
      ensures Valid() && live == old(live)
      ensures pc == old(freeList)[0] && freeList == old(freeList)[1..]
      ensures pc !in old(InUse()) && InUse() == old(InUse()) + {pc}
    {
      pc := freeList[0];
      SetOfTail(freeList);
      freeList := freeList[1..];
      freePackets := freePackets - 1;
    }

    /** The part of a new chain in the counter. */
    method Record(pc: PacketChain)
      requires pc !in live && 0 <= allocatedPackets < 0x1_0000
      requires |live| == allocatedPackets + 0x1_0000 * wraps
      modifies this`live, this`allocatedPackets, this`wraps
      ensures live == old(live) + {pc} && 0 <= allocatedPackets < 0x1_0000
      ensures |live| == allocatedPackets + 0x1_0000 * wraps
    {
      live := live + {pc};
      if allocatedPackets == 0xFFFF {
        wraps := wraps + 1;
      }
      allocatedPackets := Wrap16(allocatedPackets + 1);
    }

    /** A chain from the system. */
    method NewChain(alloc: nat) returns (pc: PacketChain)
      requires Valid()
      modifies this
      ensures Valid() && freeList == old(freeList)
      ensures fresh(pc) && pc.allocSize == alloc && live == old(live) + {pc}
      ensures pc !in old(live) && InUse() == old(InUse()) + {pc}
    {
      pc := new PacketChain(alloc);
      Record(pc);
    }

    /** rudp_packet_chain_alloc: a chain nobody holds, from the pool when the default
        size is enough and the pool is not empty. */
    method Alloc(asked: nat) returns (pc: PacketChain)
      requires Valid()
      modifies this, live - InUse()
      ensures Valid()
      ensures pc !in old(InUse()) && InUse() == old(InUse()) + {pc}
      ensures live == old(live) + {pc} && fresh({pc} - old(live))
      ensures pc.len == asked <= pc.allocSize
      ensures pc.allocSize == if asked < 4096 then 4096 else asked
      ensures if asked <= 4096 && old(freeList) != []
              then pc == old(freeList)[0] && freeList == old(freeList)[1..]
              else fresh(pc) && freeList == old(freeList)
    {
      var alloc := if asked < DEFAULT_ALLOC_SIZE then DEFAULT_ALLOC_SIZE else asked;
      if alloc == DEFAULT_ALLOC_SIZE && freeList != [] {
        pc := TakeFree();
      } else {
        pc := NewChain(alloc);
      }
      pc.len := asked;
    }

    /** rudp_free on a chain, and its part in the counter. */
    method Release(pc: PacketChain)
      requires pc in live && 0 <= allocatedPackets < 0x1_0000
      requires |live| == allocatedPackets + 0x1_0000 * wraps
      modifies this`live, this`allocatedPackets, this`wraps
      ensures live == old(live) - {pc} && 0 <= allocatedPackets < 0x1_0000
      ensures |live| == allocatedPackets + 0x1_0000 * wraps
    {
      live := live - {pc};
      if allocatedPackets == 0 {
        wraps := wraps - 1;
      }
      allocatedPackets := Wrap16(allocatedPackets - 1);
    }

    /** rudp_packet_chain_free: the chain leaves its holder's hands, into the pool if it
        is of the default size and the pool is not full, else back to the system. */
    method Free(pc: PacketChain)
      requires Valid() && pc in InUse()
      modifies this
      ensures Valid()
      ensures InUse() == old(InUse()) - {pc}
      ensures freeList == if pc.allocSize == 4096 && |old(freeList)| < 10
                          then [pc] + old(freeList) else old(freeList)
      ensures live == if pc in freeList then old(live) else old(live) - {pc}
    {
      if pc.allocSize == DEFAULT_ALLOC_SIZE {
        freeList := [pc] + freeList;
        freePackets := freePackets + 1;
      } else {
        Release(pc);
      }
      while freePackets > FREE_PACKET_POOL
        invariant freePackets == |freeList|
        invariant if freePackets > FREE_PACKET_POOL
                  then freeList == [pc] + old(freeList) && live == old(live)
                       && |old(freeList)| == FREE_PACKET_POOL && 0 <= allocatedPackets < 0x1_0000
                       && |live| == allocatedPackets + 0x1_0000 * wraps
                  else Valid() && InUse() == old(InUse()) - {pc}
                       && freeList == (if pc.allocSize == DEFAULT_ALLOC_SIZE && |old(freeList)| < FREE_PACKET_POOL
                                       then [pc] + old(freeList) else old(freeList))
                       && live == if pc in freeList then old(live) else old(live) - {pc}
        decreases freePackets
      {
        var head := freeList[0];
        freeList := freeList[1..];
        freePackets := freePackets - 1;
        Release(head);
      }
    }
  }
}
