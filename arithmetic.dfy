/** Small facts of real and integer arithmetic that the solver does not find on its own. */
module Arithmetic {

  lemma ProductPositive(x: real, y: real)
    requires x > 0.0 && y > 0.0
    ensures x * y > 0.0
  {
  }

  /** Scaling by a non-negative `c` keeps a whole number within +/- `bound` within +/- `bound * c`. */
  lemma ScaledWithin(x: int, bound: int, c: real)
    ensures c >= 0.0 && -bound <= x <= bound ==> -(bound as real * c) <= c * x as real <= bound as real * c
  {
    if c >= 0.0 && -bound <= x <= bound {
      assert (bound - x) as real * c >= 0.0;
      assert (bound + x) as real * c >= 0.0;
    }
  }

  lemma MulLe(a: int, b: int, k: int)
    requires k >= 0 && a <= b
    ensures a * k <= b * k
  {
  }

  /** The remainder of c * k + r by k is r, for 0 <= r < k. */
  lemma ModOf(c: int, k: int, r: int)
    requires k > 0 && 0 <= r < k
    ensures (c * k + r) % k == r
  {
    var j := c * k + r;
    var q, m := j / k, j % k;
    assert j == q * k + m && 0 <= m < k;
    if q < c {
      MulLe(q, c - 1, k);
    } else if q > c {
      MulLe(c + 1, q, k);
    }
    assert q == c;
  }
}
