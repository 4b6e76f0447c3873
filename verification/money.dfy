/**
  Fixed-point money. Amounts are integer cents (the NUMERIC(18, 2) columns);
  rates and percentages are integers scaled by `RateScale` (the NUMERIC(…, 4)
  columns). Every derived amount is rounded once, to whole cents, half away
  from zero.
*/
module Money {

  /** Four decimal places for rates and percentages. */
  const RateScale: int := 10000

  function Abs(x: int): int {
    if x < 0 then -x else x
  }

  /** The part of an amount the posting rules book only "when > 0". */
  function Pos(x: int): nat {
    if x > 0 then x else 0
  }

  /**
    The exact quotient n/d rounded to the nearest integer, halves away from
    zero: Round2(n, d) is `round(value, 2)` of a value that is n/d cents.
    The error n - q*d is at most half of d, and a half is rounded away
    from zero (up for a positive n, down for a negative one).
  */
  function Round2(n: int, d: int): (q: int)
    requires d > 0
    ensures -d <= 2 * (n - q * d) <= d
    ensures 2 * (n - q * d) == -d ==> n > 0
    ensures 2 * (n - q * d) == d ==> n < 0
  {
    if n < 0 then
      var q := RoundHalfUp(-n, d);
      assert -q * d == -(q * d);
      -q
    else
      RoundHalfUp(n, d)
  }

  /** Rounding of a non-negative quotient, halves upwards. */
  function RoundHalfUp(n: nat, d: int): (q: int)
    requires d > 0
    ensures -d <= 2 * (n - q * d) < d
  {
    var m := 2 * n + d;
    var q := m / (2 * d);
    var r := m % (2 * d);
    assert m == (2 * d) * q + r;
    assert (2 * d) * q == 2 * (q * d);
    q
  }

  /** An exact quotient is not rounded at all. */
  lemma Round2Exact(k: int, d: int)
    requires d > 0
    ensures Round2(k * d, d) == k
  {
    var q := Round2(k * d, d);
    var e := k - q;
    assert k * d - q * d == e * d;
    if e >= 1 {
      MulAtLeast(e, d);
    } else if e <= -1 {
      MulAtLeast(-e, d);
    }
  }

  lemma MulAtLeast(e: int, d: int)
    requires e >= 1 && d > 0
    ensures e * d >= d
  {
    assert e * d == d + (e - 1) * d;
  }
}
