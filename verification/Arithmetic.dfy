/** Facts about division and remainder that the solver does not find on its own. */
module Arithmetic {

  lemma DivUnique(a: int, q: int, r: int, m: int)
    requires m > 0 && 0 <= r < m && a == q * m + r
    ensures a % m == r && a / m == q
  {
    var d := q - a / m;
    assert d * m == a % m - r;
    assert d >= 1 ==> d * m >= m;
    assert d <= -1 ==> d * m <= -m;
  }

  /** Adding `d` leaves the remainder alone exactly when `d` is a multiple of `m`. */
  lemma ModSum(a: int, d: int, m: int)
    requires m > 0
    ensures (a + d) % m == a % m <==> d % m == 0
  {
    var r, f := a % m, d % m;
    assert a + d == (a / m + d / m) * m + (r + f);
    if r + f < m {
      DivUnique(a + d, a / m + d / m, r + f, m);
    } else {
      DivUnique(a + d, a / m + d / m + 1, r + f - m, m);
    }
  }

  lemma DivDiv(a: nat, m: nat, n: nat)
    requires m > 0 && n > 0
    ensures m * n > 0 && (a / m) / n == a / (m * n)
  {
    var q, r := a / m, a % m;
    var d, s := q / n, q % n;
    MulApart(0, n, m);
    MulApart(s, n, m);
    assert a == (n * d + s) * m + r;
    assert (n * d + s) * m == d * (m * n) + s * m;
    DivUnique(a, d, s * m + r, m * n);
  }

  lemma {:induction false} MulApart(i: nat, j: nat, m: nat)
    requires i < j
    ensures i * m + m <= j * m
    decreases j
  {
    if i + 1 < j { MulApart(i, j - 1, m); }
  }

  /** Fewer than m/stride steps of a stride cannot return to a multiple of m. */
  lemma NoWrap(d: nat, stride: nat, m: nat, span: int)
    requires d < span && stride > 0 && span * stride <= m && (d * stride) % m == 0
    ensures d == 0
  {
    MulApart(d, span, stride);
    var x := d * stride;
    DivUnique(x, 0, x, m);
    if d > 0 { MulApart(0, d, stride); }
  }
}
