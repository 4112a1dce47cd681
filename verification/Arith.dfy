/** Multiplication and division facts the solver needs to be told. */
module Arith {

  lemma MulLe(a: int, b: int, c: int)
    requires a <= b && c >= 0
    ensures a * c <= b * c
  {
    assert b * c - a * c == (b - a) * c;
  }

  lemma DivBounds(a: int, n: int)
    requires n > 0
    ensures (a / n) * n <= a < (a / n) * n + n
  {
    assert a == n * (a / n) + a % n;
  }

  /** Quotient and remainder are unique. */
  lemma DivIs(a: int, n: int, q: int, r: int)
    requires 0 <= r < n && a == q * n + r
    ensures a / n == q && a % n == r
  {
    var d := a / n;
    assert a == n * d + a % n && n * d == d * n;
    if d > q {
      MulLe(q + 1, d, n);
    } else if d < q {
      MulLe(d + 1, q, n);
    }
  }

  lemma DivBelow(a: int, n: int, m: int)
    requires 0 <= a < m * n && n > 0
    ensures 0 <= a / n < m
  {
    var d := a / n;
    assert a == n * d + a % n && n * d == d * n;
    if d >= m {
      MulLe(m, d, n);
    }
  }

  lemma ModDistinct(x: int, y: int, n: int)
    requires 0 < y - x < n
    ensures x % n != y % n
  {
    var qx, qy := x / n, y / n;
    assert x == n * qx + x % n && y == n * qy + y % n;
    if qy > qx + 1 {
      MulLe(qx + 2, qy, n);
    } else if qy < qx {
      MulLe(qy, qx - 1, n);
    }
  }

  lemma EvenProduct(a: int, b: int)
    requires b % 2 == 0
    ensures (a * b) % 2 == 0
  {
    assert a * b == 2 * (a * (b / 2)) by {
      assert b == 2 * (b / 2);
    }
  }
}
