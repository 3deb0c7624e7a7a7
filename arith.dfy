/** Facts about integer multiplication and Euclidean division used by the grid layout and the partition. */
module Arith {
  lemma SmallMultiple(d: int, n: int)
    requires n > 0 && -n < d * n < n
    ensures d == 0
  {
  }

  /** Euclidean division is unique: `x = q * n + r` with `0 <= r < n` fixes quotient and remainder. */
  lemma DivModUnique(x: int, n: int, q: int, r: int)
    requires n > 0 && 0 <= r < n && x == q * n + r
    ensures x / n == q && x % n == r
  {
    var q', r' := x / n, x % n;
    assert x == q' * n + r';
    assert (q - q') * n == r' - r;
    SmallMultiple(q - q', n);
  }

  lemma MulLess(q: int, m: int, k: int)
    requires k > 0 && q * k < m * k
    ensures q < m
  {
    assert (m - q) * k > 0;
  }

  lemma MulLe(a: int, b: int, k: int)
    requires a <= b && k >= 0
    ensures a * k <= b * k
  {
    assert (b - a) * k >= 0;
  }
}
