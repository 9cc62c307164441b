/**
 Money: rounding to cents, half away from zero, as `Round2` and `round2Money` do.

 Arithmetic is over the reals; NaN and the infinities are kept as values because the source
 guards against them. A stored amount is an integer number of cents.
 */
module Money {

  datatype Num = Fin(r: real) | NaN | PosInf | NegInf

  const LIMIT := 1000000000000000.0

  /** Half away from zero: int64(v+0.5) for v >= 0 and int64(v-0.5) otherwise, both truncating. */
  function HalfAway(v: real): int
  {
    if v >= 0.0 then (v + 0.5).Floor else -(-v + 0.5).Floor
  }

  predicate InRange(v: real) { -LIMIT < v < LIMIT }

  /** Round2 in cents: out-of-range input collapses to 0. */
  function Cents(v: real): int { if InRange(v) then HalfAway(v * 100.0) else 0 }

  function NumCents(v: Num): int { if v.Fin? then Cents(v.r) else 0 }

  function ToMoney(c: int): real { c as real / 100.0 }

  /** HalfAway(v) is the only integer within half a unit of v, the far one on a tie. */
  lemma HalfAwayBounds(v: real)
    ensures v >= 0.0 ==> v - 0.5 < HalfAway(v) as real <= v + 0.5
    ensures v < 0.0 ==> v - 0.5 <= HalfAway(v) as real < v + 0.5
  {
  }

  lemma HalfAwayOdd(v: real)
    ensures HalfAway(-v) == -HalfAway(v)
  {
  }

  lemma HalfAwayInt(n: int)
    ensures HalfAway(n as real) == n
  {
  }

  lemma HalfAwayMonotone(a: real, b: real)
    requires a <= b
    ensures HalfAway(a) <= HalfAway(b)
  {
  }

  /** No integer is nearer than HalfAway, and of two that are equally near it is the one farther from 0. */
  lemma HalfAwayNearest(v: real, n: int)
    ensures Dist(HalfAway(v), v) <= Dist(n, v)
    ensures n != HalfAway(v) && Dist(HalfAway(v), v) == Dist(n, v) ==>
              (v > 0.0 ==> n < HalfAway(v)) && (v < 0.0 ==> HalfAway(v) < n)
  {
    HalfAwayBounds(v);
    if n != HalfAway(v) {
      assert n <= HalfAway(v) - 1 || n >= HalfAway(v) + 1;
    }
  }

  function Dist(n: int, v: real): real { if n as real >= v then n as real - v else v - n as real }

  // ---- Round2 ----

  /** Amounts of 1e15 and beyond, in either direction, collapse to 0; any other one goes to its nearest cent. */
  lemma CentsNearest(v: real, n: int)
    ensures -1000000000000000.0 < v < 1000000000000000.0 ==> Dist(Cents(v), v * 100.0) <= Dist(n, v * 100.0)
    ensures !(-1000000000000000.0 < v < 1000000000000000.0) ==> Cents(v) == 0
    ensures NumCents(Fin(v)) == Cents(v) && NumCents(NaN) == NumCents(PosInf) == NumCents(NegInf) == 0
  {
    HalfAwayNearest(v * 100.0, n);
  }

  lemma CentsOdd(v: real)
    ensures Cents(-v) == -Cents(v)
  {
    HalfAwayOdd(v * 100.0);
    assert (-v) * 100.0 == -(v * 100.0);
  }

  lemma ToMoneyCents(c: int)
    ensures ToMoney(c) * 100.0 == c as real
  {
  }

  /** A whole number of cents in range is left as it is. */
  lemma CentsOfMoney(c: int)
    requires -100000000000000000 < c < 100000000000000000
    ensures Cents(ToMoney(c)) == c
  {
    ToMoneyCents(c);
    HalfAwayInt(c);
  }

  lemma CentsMonotone(a: real, b: real)
    requires a <= b && InRange(a) && InRange(b)
    ensures Cents(a) <= Cents(b)
  {
    HalfAwayMonotone(a * 100.0, b * 100.0);
  }
}
