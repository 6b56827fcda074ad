/** Facts about Euclidean division used by the reference and countdown models. */
module Arithmetic {

  /** A quotient and remainder that fit `x == m * q + r` with `0 <= r < m` are the ones `/` and `%` give. */
  lemma DivModUnique(x: int, m: int, q: int, r: int)
    requires m > 0 && 0 <= r < m && x == m * q + r
    ensures x / m == q && x % m == r
  {
    var q', r' := x / m, x % m;
    assert x == m * q' + r';
    if q' < q {
      assert m * q >= m * (q' + 1) by { MulMonotone(m, q' + 1, q); }
      assert false;
    } else if q < q' {
      assert m * q' >= m * (q + 1) by { MulMonotone(m, q + 1, q'); }
      assert false;
    }
  }

  lemma MulMonotone(m: int, a: int, b: int)
    requires m > 0 && a <= b
    ensures m * a <= m * b
  {
    assert m * b - m * a == m * (b - a);
  }
}
