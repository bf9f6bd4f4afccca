/** The integer arithmetic of the C source, where it differs from Dafny's. */
module CInt {

  /** `if (v > hi) v = hi; if (v < lo) v = lo;` -- for lo <= hi the two
      orders in which the source writes these tests agree. */
  function Clamp(x: int, lo: int, hi: int): (r: int)
    requires lo <= hi
    ensures lo <= r <= hi
    ensures lo <= x <= hi ==> r == x
    ensures x < lo ==> r == lo
    ensures x > hi ==> r == hi
  {
    if x > hi then hi else if x < lo then lo else x
  }

  /** C's `a / d` for a positive divisor: the quotient is truncated toward
      zero, so the remainder takes the sign of the dividend (Dafny's `/` is
      Euclidean and would round a negative quotient down instead). */
  function CDiv(a: int, d: int): (q: int)
    requires d > 0
    ensures a >= 0 ==> 0 <= a - d * q < d
    ensures a < 0 ==> -d < a - d * q <= 0
  {
    if a >= 0 then a / d else -((-a) / d)
  }

  /** The two postconditions of CDiv pin the quotient down: no other value
      satisfies them, so CDiv is C's division and not some other rounding. */
  lemma CDivUnique(a: int, d: int, q: int)
    requires d > 0
    requires a >= 0 ==> 0 <= a - d * q < d
    requires a < 0 ==> -d < a - d * q <= 0
    ensures q == CDiv(a, d)
  {
    var k := q - CDiv(a, d);
    assert d * k == d * q - d * CDiv(a, d);
    if k != 0 {
      MulAwayFromZero(d, k);
    }
  }

  /** A non-zero multiple of d is at least d away from zero. */
  lemma MulAwayFromZero(d: int, k: int)
    requires d > 0 && k != 0
    ensures d * k >= d || d * k <= -d
  {
  }
}
