/** The intrusive circular list of src/rudp_list.h: links on the heap with a sentinel,
    refining a sequence. */
module RudpList {
  import opened Sequences

  /** struct rudp_list, as a sentinel or inside an element. */
  class Link {
    var next: Link
    var prev: Link

    /** rudp_list_init */
    constructor ()
      ensures Ring(this, [])
    {
      next := this;
      prev := this;
    }
  }

  /** Position i of the ring: the sentinel, the elements, the sentinel again. */
  function At(head: Link, items: seq<Link>, i: nat): Link {
    if 0 < i <= |items| then items[i - 1] else head
  }

  /** The links from head are exactly items, in order, and next and prev are inverse. */
  ghost predicate Ring(head: Link, items: seq<Link>)
    reads head, items
  {
    && head !in items
    && Distinct(items)
    && forall i :: 0 <= i <= |items| ==>
         At(head, items, i).next == At(head, items, i + 1) && At(head, items, i + 1).prev == At(head, items, i)
  }

  /** A ring holds one sequence only: the links determine it. */
  lemma RingUnique(head: Link, a: seq<Link>, b: seq<Link>)
    requires Ring(head, a) && Ring(head, b)
    ensures a == b
    decreases |a|
  {
    if |a| <= |b| {
      RingPrefix(head, a, b, |a|);
      assert At(head, a, |a|).next == At(head, a, |a| + 1) == head;
      assert At(head, b, |a|).next == At(head, b, |a| + 1);
      assert forall i :: 0 <= i < |b| ==> b[i] != head;
    } else {
      RingUnique(head, b, a);
    }
  }

  lemma {:induction false} RingPrefix(head: Link, a: seq<Link>, b: seq<Link>, n: nat)
    requires Ring(head, a) && Ring(head, b) && n <= |a| <= |b|
    ensures a[..n] == b[..n]
    ensures At(head, a, n) == At(head, b, n)
    decreases n
  {
    if n > 0 {
      RingPrefix(head, a, b, n - 1);
      assert At(head, a, n - 1).next == At(head, a, n);
      assert At(head, b, n - 1).next == At(head, b, n);
      assert a[..n] == a[..n - 1] + [a[n - 1]];
      assert b[..n] == b[..n - 1] + [b[n - 1]];
    }
  }

  /** rudp_list_init on an existing link: whatever it headed is forgotten. */
  method Init(list: Link)
    modifies list
    ensures Ring(list, [])
  {
    list.prev := list;
    list.next := list;
  }

  /** rudp_list_insert: elm becomes the first element. */
  method Insert(list: Link, elm: Link, ghost items: seq<Link>)
    requires Ring(list, items) && elm != list && elm !in items
    modifies list`next, elm, list.next`prev
    ensures Ring(list, [elm] + items)
  {
    assert At(list, items, 0).next == At(list, items, 1);
    elm.prev := list;
    elm.next := list.next;
    list.next := elm;
    elm.next.prev := elm;
    ghost var items' := [elm] + items;
    forall i | 0 <= i <= |items'|
      ensures At(list, items', i).next == At(list, items', i + 1)
      ensures At(list, items', i + 1).prev == At(list, items', i)
    {
      if i >= 2 {
        assert At(list, items', i) == At(list, items, i - 1);
        assert At(list, items', i + 1) == At(list, items, i);
      }
    }
  }

  /** rudp_list_append: elm becomes the last element. */
  method Append(list: Link, elm: Link, ghost items: seq<Link>)
    requires Ring(list, items) && elm != list && elm !in items
    modifies list`prev, elm, list.prev`next
    ensures Ring(list, items + [elm])
  {
    assert At(list, items, |items| + 1).prev == At(list, items, |items|);
    elm.next := list;
    elm.prev := list.prev;
    list.prev := elm;
    elm.prev.next := elm;
    ghost var items' := items + [elm];
    forall i | 0 <= i <= |items'|
      ensures At(list, items', i).next == At(list, items', i + 1)
      ensures At(list, items', i + 1).prev == At(list, items', i)
    {
      if i < |items| {
        assert At(list, items', i) == At(list, items, i);
        assert At(list, items', i + 1) == At(list, items, i + 1);
      }
    }
  }

  /** rudp_list_remove: elm, wherever it is, leaves the ring; its own links stay. */
  method Remove(elm: Link, ghost list: Link, ghost items: seq<Link>, ghost k: nat)
    requires Ring(list, items) && k < |items| && items[k] == elm
    modifies elm.prev`next, elm.next`prev
    ensures Ring(list, items[..k] + items[k + 1..])
  {
    assert At(list, items, k + 1) == elm;
    assert At(list, items, k).next == At(list, items, k + 1);
    assert At(list, items, k + 1).next == At(list, items, k + 2);
    assert elm.prev == At(list, items, k) && elm.next == At(list, items, k + 2);
    elm.prev.next := elm.next;
    elm.next.prev := elm.prev;
    ghost var items' := items[..k] + items[k + 1..];
    forall i | 0 <= i <= |items'|
      ensures At(list, items', i).next == At(list, items', i + 1)
      ensures At(list, items', i + 1).prev == At(list, items', i)
    {
      ghost var j := if i <= k then i else i + 1;
      assert At(list, items', i) == At(list, items, j);
      assert At(list, items', i + 1) == At(list, items, if i < k then i + 1 else i + 2);
    }
  }

  /** rudp_list_length */
  method Length(list: Link, ghost items: seq<Link>) returns (count: int)
    requires Ring(list, items)
    ensures count == |items|
  {
    count := 0;
    var e := list.next;
    assert At(list, items, 0).next == At(list, items, 1);
    while e != list
      invariant 0 <= count <= |items|
      invariant e == At(list, items, count + 1)
      decreases |items| - count
    {
      assert At(list, items, count + 1).next == At(list, items, count + 2);
      e := e.next;
      count := count + 1;
    }
  }

  /** rudp_list_empty */
  method Empty(list: Link, ghost items: seq<Link>) returns (r: bool)
    requires Ring(list, items)
    ensures r <==> items == []
  {
    assert At(list, items, 0).next == At(list, items, 1);
    r := list.next == list;
  }

  function Reversed(s: seq<Link>): seq<Link>
    decreases |s|
  {
    if s == [] then [] else Reversed(s[1..]) + [s[0]]
  }

  lemma {:induction false} ReversedSnoc(s: seq<Link>, x: Link)
    ensures Reversed(s + [x]) == [x] + Reversed(s)
    decreases |s|
  {
    if s == [] {
      assert (s + [x])[1..] == [];
    } else {
      assert (s + [x])[1..] == s[1..] + [x];
      ReversedSnoc(s[1..], x);
    }
  }

  ghost function Footprint(head: Link, items: seq<Link>): set<object> {
    {head} + (set x | x in items)
  }

  lemma InFootprint(head: Link, items: seq<Link>, i: nat)
    ensures At(head, items, i) in Footprint(head, items)
  {
  }

  lemma FootprintTail(head: Link, items: seq<Link>)
    requires items != [] && head !in items && Distinct(items)
    ensures Footprint(head, items) == Footprint(head, items[1..]) + {items[0]}
    ensures items[0] !in Footprint(head, items[1..])
  {
    assert items == [items[0]] + items[1..];
  }

  lemma FootprintCons(head: Link, x: Link, items: seq<Link>)
    ensures Footprint(head, [x] + items) == Footprint(head, items) + {x}
  {
  }

  /** Remove element k; a list elsewhere is not touched. */
  method TakeAt(elm: Link, ghost src: Link, ghost items: seq<Link>, ghost k: nat, ghost dst: Link, ghost others: seq<Link>)
    requires Ring(src, items) && Ring(dst, others) && k < |items| && items[k] == elm
    requires Footprint(src, items) !! Footprint(dst, others)
    modifies Footprint(src, items)
    ensures Ring(src, items[..k] + items[k + 1..]) && Ring(dst, others)
  {
    assert At(src, items, k + 1) == elm;
    assert At(src, items, k).next == At(src, items, k + 1) && At(src, items, k + 1).next == At(src, items, k + 2);
    InFootprint(src, items, k);
    InFootprint(src, items, k + 2);
    Remove(elm, src, items, k);
  }

  /** Insert or append an element that is in no list; a list elsewhere is not touched. */
  method PutAt(dst: Link, elm: Link, ghost items: seq<Link>, first: bool, ghost src: Link, ghost others: seq<Link>)
    requires Ring(dst, items) && Ring(src, others)
    requires Footprint(src, others) !! Footprint(dst, items)
    requires elm !in Footprint(src, others) && elm !in Footprint(dst, items)
    modifies {elm} + Footprint(dst, items)
    ensures Ring(dst, if first then [elm] + items else items + [elm]) && Ring(src, others)
  {
    assert At(dst, items, 0).next == At(dst, items, 1);
    assert At(dst, items, |items| + 1).prev == At(dst, items, |items|);
    InFootprint(dst, items, 1);
    InFootprint(dst, items, |items|);
    if first {
      Insert(dst, elm, items);
    } else {
      Append(dst, elm, items);
    }
  }

  lemma MoveStep(visited: seq<Link>, rest: seq<Link>, others: seq<Link>)
    requires rest != []
    ensures visited + rest == (visited + [rest[0]]) + rest[1..]
    ensures [rest[0]] + (Reversed(visited) + others) == Reversed(visited + [rest[0]]) + others
  {
    ReversedSnoc(visited, rest[0]);
  }

  /** The safe loop with a body that moves the current element to the front of another
      list, as rudp_peer_reset does with its send queue and the pool: every element is
      visited once, in order, and the first list ends empty. */
  method MoveAll(src: Link, dst: Link, ghost items: seq<Link>, ghost others: seq<Link>)
    returns (ghost visited: seq<Link>)
    requires Ring(src, items) && Ring(dst, others)
    requires Footprint(src, items) !! Footprint(dst, others)
    modifies Footprint(src, items) + Footprint(dst, others)
    ensures visited == items
    ensures Ring(src, []) && Ring(dst, Reversed(items) + others)
  {
    visited := [];
    ghost var rest, moved := items, others;
    var pos := src.next;
    var tmp := pos.next;
    assert At(src, items, 0).next == At(src, items, 1);
    while pos != src
      invariant items == visited + rest && moved == Reversed(visited) + others
      invariant Ring(src, rest) && Ring(dst, moved)
      invariant Footprint(src, rest) !! Footprint(dst, moved)
      invariant Footprint(src, rest) + Footprint(dst, moved) == Footprint(src, items) + Footprint(dst, others)
      invariant pos == At(src, rest, 1) && tmp == pos.next
      decreases |rest|
    {
      assert At(src, rest, 1).next == At(src, rest, 2) == At(src, rest[1..], 1);
      FootprintTail(src, rest);
      FootprintCons(dst, pos, moved);
      TakeAt(pos, src, rest, 0, dst, moved);
      assert rest[..0] + rest[1..] == rest[1..];
      PutAt(dst, pos, moved, true, src, rest[1..]);
      MoveStep(visited, rest, others);
      visited, moved, rest := visited + [pos], [pos] + moved, rest[1..];
      pos := tmp;
      tmp := pos.next;
    }
    assert rest == [];
  }

  // ----- Several lists at once -----

  /** No link is in two lists. */
  ghost predicate Separate(family: map<Link, seq<Link>>) {
    forall h, g :: h in family && g in family && h != g ==> Footprint(h, family[h]) !! Footprint(g, family[g])
  }

  ghost function Links(family: map<Link, seq<Link>>): set<Link> {
    set h, l | h in family && l in family[h] + [h] :: l
  }

  /** The lists the library keeps, by sentinel: the pool and every send queue. Each is a
      ring, and no link is in two of them. */
  ghost predicate Rings(family: map<Link, seq<Link>>)
    reads Links(family)
  {
    Separate(family) && forall h {:trigger RingOf(family, h)} :: h in family ==> RingOf(family, h)
  }

  ghost predicate RingOf(family: map<Link, seq<Link>>, h: Link)
    requires h in family
    reads Links(family)
  {
    h in Links(family) && (forall l :: l in family[h] ==> l in Links(family)) && Ring(h, family[h])
  }

  /** A link is at one place of one list. */
  lemma OneRing(family: map<Link, seq<Link>>, h: Link, i: nat, g: Link, j: nat)
    requires Rings(family) && h in family && g in family
    requires i < |family[h]| && j < |family[g]| && family[h][i] == family[g][j]
    ensures h == g && i == j
  {
    assert RingOf(family, h);
    var l := family[h][i];
    assert l in Footprint(h, family[h]) && l in Footprint(g, family[g]);
  }

  /** The family once element k of src is the first, or the last, of dst. */
  ghost function Moved(family: map<Link, seq<Link>>, src: Link, dst: Link, k: nat, first: bool): map<Link, seq<Link>>
    requires src in family && dst in family && k < |family[src]|
  {
    var elm := family[src][k];
    family[src := family[src][..k] + family[src][k + 1..]]
          [dst := if first then [elm] + family[dst] else family[dst] + [elm]]
  }

  lemma FootprintLess(head: Link, items: seq<Link>, k: nat)
    requires head !in items && Distinct(items) && k < |items|
    ensures Footprint(head, items[..k] + items[k + 1..]) == Footprint(head, items) - {items[k]}
  {
    var rest := items[..k] + items[k + 1..];
    assert items == items[..k] + [items[k]] + items[k + 1..];
    assert forall l :: l in items <==> l in rest || l == items[k];
    assert items[k] !in rest;
  }

  lemma LinksOf(family: map<Link, seq<Link>>, h: Link)
    requires h in family
    ensures h in Links(family) && forall l :: l in family[h] ==> l in Links(family)
  {
    assert h in family[h] + [h];
    forall l | l in family[h] ensures l in Links(family) {
      assert l in family[h] + [h];
    }
  }

  lemma MovedSeparate(family: map<Link, seq<Link>>, src: Link, dst: Link, k: nat, first: bool)
    requires Separate(family) && src in family && dst in family && src != dst && k < |family[src]|
    requires src !in family[src] && Distinct(family[src])
    ensures Separate(Moved(family, src, dst, k, first))
  {
    var family' := Moved(family, src, dst, k, first);
    var elm := family[src][k];
    FootprintLess(src, family[src], k);
    assert Footprint(dst, family'[dst]) == Footprint(dst, family[dst]) + {elm};
    forall h, g | h in family' && g in family' && h != g
      ensures Footprint(h, family'[h]) !! Footprint(g, family'[g])
    {
      assert Footprint(h, family[h]) !! Footprint(g, family[g]);
      assert h != src ==> Footprint(h, family[h]) !! Footprint(src, family[src]);
      assert g != src ==> Footprint(g, family[g]) !! Footprint(src, family[src]);
      assert elm in Footprint(src, family[src]);
    }
  }

  /** Out of one list, into another. */
  method Relink(elm: Link, dst: Link, first: bool, ghost src: Link, ghost from: seq<Link>, ghost k: nat, ghost to: seq<Link>)
    requires Ring(src, from) && Ring(dst, to) && Footprint(src, from) !! Footprint(dst, to)
    requires k < |from| && from[k] == elm
    modifies Footprint(src, from) + Footprint(dst, to)
    ensures Ring(src, from[..k] + from[k + 1..]) && Ring(dst, if first then [elm] + to else to + [elm])
  {
    FootprintLess(src, from, k);
    TakeAt(elm, src, from, k, dst, to);
    PutAt(dst, elm, to, first, src, from[..k] + from[k + 1..]);
  }

  /** What a chain's link goes through: out of one list, into another, first in the pool
      when it is freed, last in a send queue when it is sent. No link is lost, none ends up
      in two lists. */
  method Move(elm: Link, dst: Link, first: bool, ghost family: map<Link, seq<Link>>, ghost src: Link, ghost k: nat)
    requires Rings(family) && src in family && dst in family && src != dst
    requires k < |family[src]| && family[src][k] == elm
    modifies Footprint(src, family[src]) + Footprint(dst, family[dst])
    ensures Rings(Moved(family, src, dst, k, first))
  {
    ghost var from, to := family[src], family[dst];
    assert RingOf(family, src) && RingOf(family, dst);
    MovedSeparate(family, src, dst, k, first);
    Relink(elm, dst, first, src, from, k, to);
    ghost var family' := Moved(family, src, dst, k, first);
    forall h | h in family' ensures RingOf(family', h) {
      LinksOf(family', h);
      if h != src && h != dst {
        assert family'[h] == family[h] && old(RingOf(family, h));
        assert Footprint(h, family[h]) !! Footprint(src, from) && Footprint(h, family[h]) !! Footprint(dst, to);
        assert Ring(h, family[h]);
      }
    }
  }
}
