/**
 * `Math.round` applied to a quotient of integers, computed exactly on the
 * rationals: the nearest integer, with halves rounded towards +infinity.
 */
module Rounding {

  /** `Math.round(p / q)` for a positive divisor. */
  function RoundDiv(p: int, q: int): (r: int)
    requires q > 0
    ensures -q < (2 * q) * r - 2 * p <= q
  {
    var r := (2 * p + q) / (2 * q);
    assert 2 * p + q == (2 * q) * r + (2 * p + q) % (2 * q);
    r
  }

  /** The nearest-integer condition determines the rounded value. */
  lemma RoundDivUnique(p: int, q: int, r: int)
    requires q > 0
    requires -q < (2 * q) * r - 2 * p <= q
    ensures r == RoundDiv(p, q)
  {
    var s := RoundDiv(p, q);
    if r < s {
      assert (2 * q) * r <= (2 * q) * (s - 1) by { MulMonotone(2 * q, r, s - 1); }
    } else if r > s {
      assert (2 * q) * s <= (2 * q) * (r - 1) by { MulMonotone(2 * q, s, r - 1); }
    }
  }

  lemma MulMonotone(k: int, a: int, b: int)
    requires k >= 0 && a <= b
    ensures k * a <= k * b
  {
    assert k * b - k * a == k * (b - a);
  }

  lemma MulSucc(n: int, x: int)
    ensures (n + 1) * x == n * x + x
  {
  }

  /** When `p / q` lies in `[lo, hi]`, so does its rounding. */
  lemma RoundDivBounds(p: int, q: int, lo: int, hi: int)
    requires q > 0
    requires q * lo <= p <= q * hi
    ensures lo <= RoundDiv(p, q) <= hi
  {
    var r := RoundDiv(p, q);
    if r < lo {
      MulMonotone(2 * q, r, lo - 1);
    }
    if r > hi {
      MulMonotone(2 * q, hi + 1, r);
    }
  }

  /** `total > 0 ? Math.round((part / total) * 100) : 0`. */
  function Percent(part: nat, total: nat): (r: int)
    ensures total == 0 ==> r == 0
    ensures part <= total ==> 0 <= r <= 100
    ensures total > 0 ==> -(total as int) < (2 * total) * r - 200 * part <= total
  {
    if total > 0 then
      var r := RoundDiv(100 * part, total);
      assert part <= total ==> 0 <= r <= 100 by {
        if part <= total {
          RoundDivBounds(100 * part, total, 0, 100);
        }
      }
      r
    else 0
  }
}
