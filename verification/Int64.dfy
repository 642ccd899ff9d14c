// Go's int64: two's-complement wrap-around and division that truncates toward zero.
module Int64 {
  const TWO_63: int := 0x8000_0000_0000_0000
  const TWO_64: int := 0x1_0000_0000_0000_0000
  const MAX: int := TWO_63 - 1

  predicate InRange(x: int) {
    -TWO_63 <= x < TWO_63
  }

  /** The int64 that the machine keeps for the mathematical result `x`. */
  function Wrap(x: int): (r: int)
    ensures InRange(r)
    ensures InRange(x) ==> r == x
  {
    (x + TWO_63) % TWO_64 - TWO_63
  }

  /** Division by a positive constant as Go performs it: the quotient is rounded toward zero. */
  function QuoBps(a: int): int {
    if a >= 0 then a / 10000 else -((-a) / 10000)
  }

  /** The quotient is the whole number next to the exact one on the side of zero, for either sign. */
  lemma QuoBpsTruncates(a: int)
    ensures a >= 0 ==> 0 <= a - 10000 * QuoBps(a) < 10000
    ensures a <= 0 ==> -10000 < a - 10000 * QuoBps(a) <= 0
  {
  }

  /** Wrapping keeps the residue modulo 2^64. */
  lemma WrapIsCongruent(x: int) returns (k: int)
    ensures Wrap(x) == x + k * TWO_64
  {
    k := -((x + TWO_63) / TWO_64);
  }

  lemma CongruentWrapsEqual(x: int, k: int)
    ensures Wrap(x + k * TWO_64) == Wrap(x)
  {
    var a := x + TWO_63;
    ModPeriod(a, k);
    assert x + k * TWO_64 + TWO_63 == a + k * TWO_64;
  }

  lemma ModPeriod(a: int, k: int)
    ensures (a + k * TWO_64) % TWO_64 == a % TWO_64
  {
    var q, r := a / TWO_64, a % TWO_64;
    assert a + k * TWO_64 == (q + k) * TWO_64 + r;
    DivModUnique(a + k * TWO_64, q + k, r);
  }

  lemma DivModUnique(n: int, q: int, r: int)
    requires n == q * TWO_64 + r && 0 <= r < TWO_64
    ensures n % TWO_64 == r
  {
  }

  /** A running total may be wrapped at every addition or once at the end. */
  lemma WrapAbsorbs(a: int, b: int)
    ensures Wrap(Wrap(a) + b) == Wrap(a + b)
  {
    var k := WrapIsCongruent(a);
    CongruentWrapsEqual(a + b, k);
    assert Wrap(a) + b == (a + b) + k * TWO_64;
  }

  /** A wrapped difference, added back with wrap-around, leads to where it was measured. */
  lemma DifferenceLeadsBack(from: int, to: int)
    requires InRange(to)
    ensures Wrap(from + Wrap(to - from)) == to
  {
    WrapAbsorbs(to - from, from);
  }
}
