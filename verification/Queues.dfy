/** Sequences of packets by their unbounded numbers: the order a sender issues them
    in, the reliable ones among them, and the marks a send queue carries. */
module Queues {
  import opened Packets

  /** Position (relSeq, unrelSeq) in lexicographic order. */
  predicate Before(r1: int, u1: int, r2: int, u2: int) {
    r1 < r2 || (r1 == r2 && u1 < u2)
  }

  predicate Lt(k1: Packet, k2: Packet) {
    Before(k1.relSeq, k1.unrelSeq, k2.relSeq, k2.unrelSeq)
  }

  /** q continues the numbering from position (r, u) and ends at or before (out, outU):
      reliable numbers are consecutive through `out`, an unreliable packet repeats the
      reliable number before it and has a larger unreliable number. */
  predicate Chain(q: seq<Packet>, r: int, u: int, out: int, outU: int)
    decreases |q|
  {
    if q == [] then r == out && u <= outU
    else if q[0].rel then
      q[0].relSeq == r + 1 && q[0].unrelSeq == 0 && Chain(q[1..], r + 1, 0, out, outU)
    else
      q[0].relSeq == r && q[0].unrelSeq > u && Chain(q[1..], r, q[0].unrelSeq, out, outU)
  }

  /** The reliable packets of a sequence, in order, stripped. */
  function Rels(q: seq<Packet>): seq<Packet>
    decreases |q|
  {
    if q == [] then []
    else (if q[0].rel then [Strip(q[0])] else []) + Rels(q[1..])
  }

  /** How many reliable packets of q were never transmitted. */
  function Unsent(q: seq<Packet>): nat
    decreases |q|
  {
    if q == [] then 0 else (if q[0].rel && !q[0].ret then 1 else 0) + Unsent(q[1..])
  }

  predicate NoMarks(q: seq<Packet>) {
    forall i :: 0 <= i < |q| ==> !q[i].ret
  }

  /** A prefix of reliable packets marked RETRANSMITTED, then no mark at all. */
  predicate MarkPrefix(q: seq<Packet>)
    decreases |q|
  {
    NoMarks(q) || (q[0].rel && q[0].ret && MarkPrefix(q[1..]))
  }

  // ----- Chains -----

  lemma {:induction false} ChainAppend(q: seq<Packet>, r: int, u: int, out: int, outU: int, k: Packet)
    requires Chain(q, r, u, out, outU)
    requires if k.rel then k.relSeq == out + 1 && k.unrelSeq == 0
             else k.relSeq == out && k.unrelSeq > outU
    ensures Chain(q + [k], r, u, k.relSeq, k.unrelSeq)
    decreases |q|
  {
    if q == [] {
      assert (q + [k])[1..] == [];
    } else {
      assert (q + [k])[1..] == q[1..] + [k];
      if q[0].rel {
        ChainAppend(q[1..], r + 1, 0, out, outU, k);
      } else {
        ChainAppend(q[1..], r, q[0].unrelSeq, out, outU, k);
      }
    }
  }

  /** A chain may start earlier and end later within the same reliable number. */
  lemma {:induction false} ChainWeaken(q: seq<Packet>, r: int, u: int, u': int, out: int, outU: int, outU': int)
    requires Chain(q, r, u, out, outU) && u' <= u && outU <= outU'
    ensures Chain(q, r, u', out, outU')
    decreases |q|
  {
    if q != [] {
      if q[0].rel {
        ChainWeaken(q[1..], r + 1, 0, 0, out, outU, outU');
      } else {
        ChainWeaken(q[1..], r, q[0].unrelSeq, q[0].unrelSeq, out, outU, outU');
      }
    }
  }

  /** Every packet of a chain lies after its start and at or before its end. */
  lemma {:induction false} ChainBounds(q: seq<Packet>, r: int, u: int, out: int, outU: int)
    requires Chain(q, r, u, out, outU)
    ensures r <= out
    ensures r == out ==> u <= outU
    ensures forall i :: 0 <= i < |q| ==> Before(r, u, q[i].relSeq, q[i].unrelSeq)
    ensures forall i :: 0 <= i < |q| ==> !Before(out, outU, q[i].relSeq, q[i].unrelSeq)
    ensures forall i :: 0 <= i < |q| && q[i].rel ==> r < q[i].relSeq <= out && q[i].unrelSeq == 0
    decreases |q|
  {
    if q != [] {
      var q' := q[1..];
      if q[0].rel {
        ChainBounds(q', r + 1, 0, out, outU);
      } else {
        ChainBounds(q', r, q[0].unrelSeq, out, outU);
      }
      assert forall i :: 0 < i < |q| ==> q[i] == q'[i - 1];
    }
  }

  /** A chain is strictly increasing. */
  lemma {:induction false} ChainSorted(q: seq<Packet>, r: int, u: int, out: int, outU: int)
    requires Chain(q, r, u, out, outU)
    ensures forall i, j :: 0 <= i < j < |q| ==> Lt(q[i], q[j])
    decreases |q|
  {
    if q != [] {
      var q' := q[1..];
      var u' := if q[0].rel then 0 else q[0].unrelSeq;
      ChainBounds(q', q[0].relSeq, u', out, outU);
      ChainSorted(q', q[0].relSeq, u', out, outU);
      assert forall i :: 0 < i < |q| ==> q[i] == q'[i - 1];
    }
  }

  /** The reliable packets of a chain are numbered r + 1, r + 2, ..., out. */
  lemma {:induction false} ChainRels(q: seq<Packet>, r: int, u: int, out: int, outU: int)
    requires Chain(q, r, u, out, outU)
    ensures |Rels(q)| == out - r
    ensures forall i :: 0 <= i < |Rels(q)| ==> Rels(q)[i].rel && Rels(q)[i].relSeq == r + 1 + i
    decreases |q|
  {
    if q != [] {
      if q[0].rel {
        ChainRels(q[1..], r + 1, 0, out, outU);
      } else {
        ChainRels(q[1..], r, q[0].unrelSeq, out, outU);
      }
    }
  }

  /** A reliable packet of a chain is found among its reliable ones by its number. */
  lemma {:induction false} ChainMember(q: seq<Packet>, r: int, u: int, out: int, outU: int, k: Packet)
    requires Chain(q, r, u, out, outU) && k in q && k.rel
    ensures |Rels(q)| == out - r && r < k.relSeq <= out
    ensures Rels(q)[k.relSeq - r - 1] == Strip(k)
    decreases |q|
  {
    ChainRels(q, r, u, out, outU);
    ChainBounds(q, r, u, out, outU);
    if q[0] != k {
      assert k in q[1..];
      if q[0].rel {
        ChainMember(q[1..], r + 1, 0, out, outU, k);
      } else {
        ChainMember(q[1..], r, q[0].unrelSeq, out, outU, k);
      }
    }
  }

  // ----- Reliable packets, marks -----

  lemma {:induction false} RelsAppend(a: seq<Packet>, b: seq<Packet>)
    ensures Rels(a + b) == Rels(a) + Rels(b)
    decreases |a|
  {
    if a == [] {
      assert a + b == b;
    } else {
      assert (a + b)[1..] == a[1..] + b;
      RelsAppend(a[1..], b);
      var h := if a[0].rel then [Strip(a[0])] else [];
      assert h + (Rels(a[1..]) + Rels(b)) == (h + Rels(a[1..])) + Rels(b);
    }
  }

  lemma {:induction false} RelsOne(a: seq<Packet>, k: Packet)
    ensures Rels(a + [k]) == if k.rel then Rels(a) + [Strip(k)] else Rels(a)
  {
    RelsAppend(a, [k]);
    assert [k][1..] == [];
  }

  lemma {:induction false} UnsentAppend(q: seq<Packet>, k: Packet)
    ensures Unsent(q + [k]) == Unsent(q) + if k.rel && !k.ret then 1 else 0
    decreases |q|
  {
    if q == [] {
      assert (q + [k])[1..] == [];
    } else {
      assert (q + [k])[1..] == q[1..] + [k];
      UnsentAppend(q[1..], k);
    }
  }

  lemma {:induction false} MarkPrefixAppend(q: seq<Packet>, k: Packet)
    requires MarkPrefix(q) && !k.ret
    ensures MarkPrefix(q + [k])
    decreases |q|
  {
    if !NoMarks(q) {
      assert (q + [k])[1..] == q[1..] + [k];
      MarkPrefixAppend(q[1..], k);
    }
  }

  lemma {:induction false} UnsentBound(q: seq<Packet>)
    ensures Unsent(q) <= |Rels(q)|
    ensures NoMarks(q) ==> Unsent(q) == |Rels(q)|
    decreases |q|
  {
    if q != [] {
      UnsentBound(q[1..]);
    }
  }
}
