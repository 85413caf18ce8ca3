/** Integer arithmetic shared by the backend and the pages. */
module Arith {

  /**
   * Division rounded towards negative infinity: Python's `a // b` on integers and
   * JavaScript's `Math.floor(a / b)` for a non-zero divisor. Dafny's own `/` is
   * Euclidean, which agrees with flooring only when the divisor is positive.
   */
  function FloorDiv(a: int, b: int): int
    requires b != 0
  {
    if b > 0 then a / b else (-a) / (-b)
  }

  /** `FloorDiv(a, b)` is the greatest integer `q` with `q * b <= a` (for `b > 0`), resp. `q * b >= a` (for `b < 0`). */
  lemma FloorDivSpec(a: int, b: int)
    requires b != 0
    ensures b > 0 ==> b * FloorDiv(a, b) <= a < b * FloorDiv(a, b) + b
    ensures b < 0 ==> b * FloorDiv(a, b) >= a > b * FloorDiv(a, b) + b
  {
    if b < 0 {
      var q := (-a) / (-b);
      assert (-b) * q <= -a < (-b) * q + (-b);
    }
  }

  /** Floor division of a non-negative amount by a positive quantity is non-negative. */
  lemma FloorDivNonNegative(a: int, b: int)
    requires a >= 0 && b > 0
    ensures FloorDiv(a, b) >= 0
  {
  }

  /** Division of naturals by the same positive divisor is monotone. */
  lemma {:induction false} DivMonotone(a: nat, b: nat, d: nat)
    requires a <= b && d > 0
    ensures a / d <= b / d
    decreases a
  {
    if a >= d {
      DivSubtract(a, d);
      DivSubtract(b, d);
      DivMonotone(a - d, b - d, d);
    }
  }

  /** Taking one divisor off the dividend takes one off the quotient. */
  lemma DivSubtract(x: nat, d: nat)
    requires x >= d > 0
    ensures (x - d) / d == x / d - 1
  {
    var q, r := (x - d) / d, (x - d) % d;
    assert x - d == q * d + r;
    assert (q + 1) * d == q * d + d;
    DivUnique(x, d, q + 1, r);
  }

  /** Euclidean division has a single quotient: any `q`, `r` with `x == q * d + r` and `0 <= r < d` are it. */
  lemma DivUnique(x: int, d: int, q: int, r: int)
    requires d > 0 && x == q * d + r && 0 <= r < d
    ensures x / d == q
  {
    var q', r' := x / d, x % d;
    assert x == q' * d + r' && 0 <= r' < d;
    assert (q - q') * d == r' - r;
    if q > q' {
      MulAtLeast(q - q', d);
    } else if q < q' {
      MulAtLeast(q' - q, d);
    }
  }

  /** A positive multiple of `d` is at least `d`. */
  lemma {:induction false} MulAtLeast(k: int, d: int)
    requires k >= 1 && d > 0
    ensures k * d >= d
    decreases k
  {
    if k > 1 {
      MulAtLeast(k - 1, d);
      assert k * d == (k - 1) * d + d;
    }
  }

  function Max(a: int, b: int): (m: int)
    ensures m >= a && m >= b && (m == a || m == b)
  {
    if a >= b then a else b
  }
}
