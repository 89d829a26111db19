/** 16-bit sequence numbers as the library computes with them, and the two
    arithmetics the protocol can be run in. */
module SeqNum {

  /** `Wrapped` is what the C code does: uint16_t fields and int16_t differences.
      `Unbounded` is the same protocol on integers that never wrap. */
  datatype Arith = Wrapped | Unbounded

  /** Conversion to uint16_t. */
  function Wrap16(x: int): (r: int)
    ensures 0 <= r < 0x1_0000
  {
    x % 0x1_0000
  }

  /** Conversion to int16_t (two's complement). */
  function Signed16(d: int): (r: int)
    ensures -0x8000 <= r < 0x8000
  {
    (d + 0x8000) % 0x1_0000 - 0x8000
  }

  /** Store x in a sequence number field. */
  function Norm(m: Arith, x: int): int {
    match m
    case Wrapped => Wrap16(x)
    case Unbounded => x
  }

  /** The difference a - b the code branches on. */
  function Delta(m: Arith, a: int, b: int): int {
    match m
    case Wrapped => Signed16(a - b)
    case Unbounded => a - b
  }

  /** Equality of wrapped numbers is equality of the numbers, exactly modulo 2^16. */
  lemma WrapEqual(a: int, b: int)
    ensures Wrap16(a) == Wrap16(b) <==> (a - b) % 0x1_0000 == 0
    ensures -0x1_0000 < a - b < 0x1_0000 ==> (Wrap16(a) == Wrap16(b) <==> a == b)
  {
    var qa, qb := a / 0x1_0000, b / 0x1_0000;
    assert a - b == 0x1_0000 * (qa - qb) + (Wrap16(a) - Wrap16(b));
  }

  /** The 16-bit difference is the true difference exactly inside the half window. */
  lemma SignedExact(a: int, b: int)
    ensures Signed16(Wrap16(a) - Wrap16(b)) == a - b <==> -0x8000 <= a - b < 0x8000
  {
    var qa, qb := a / 0x1_0000, b / 0x1_0000;
    var d := Wrap16(a) - Wrap16(b);
    assert a - b == 0x1_0000 * (qa - qb) + d;
    assert (a - b + 0x8000) % 0x1_0000 == (d + 0x8000) % 0x1_0000;
  }

  /** Counting on a wrapped field wraps the count. */
  lemma WrapStep(a: int, k: int)
    ensures Wrap16(Wrap16(a) + k) == Wrap16(a + k)
    ensures Wrap16(Wrap16(a)) == Wrap16(a)
  {
    var q := a / 0x1_0000;
    assert Wrap16(a) + k == (a + k) - 0x1_0000 * q;
  }

  /** Section 3.2 of RFC 1982, SERIAL_BITS = 16. */
  predicate SerialLess(i1: int, i2: int) {
    (i1 < i2 && i2 - i1 < 0x8000) || (i1 > i2 && i1 - i2 > 0x8000)
  }

  /** "Past" in the code is "less" in RFC 1982; for the antipodal pair, which the
      RFC leaves undefined, the code answers "past" both ways round. */
  lemma DeltaIsSerialOrder(a: int, b: int)
    requires 0 <= a < 0x1_0000 && 0 <= b < 0x1_0000
    ensures Delta(Wrapped, a, b) < 0 <==> SerialLess(a, b) || (a - b) % 0x1_0000 == 0x8000
    ensures Delta(Wrapped, a, b) > 0 <==> SerialLess(b, a)
  {
  }
}
