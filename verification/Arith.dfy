/** Products of two variables, step by step. */
module Arith {
  /** A larger factor gives a larger product, by the difference of the factors. */
  lemma {:induction false} MulMore(a: nat, b: nat, m: nat)
    requires a <= b
    ensures b * m == a * m + (b - a) * m
    ensures a * m <= b * m
    decreases b - a
  {
    if a < b {
      MulMore(a, b - 1, m);
      assert b * m == (b - 1) * m + m;
      assert (b - a) * m == (b - 1 - a) * m + m;
    }
  }

  /** A number is its quotient times the divisor, plus the rest. */
  lemma DivMod(x: nat, m: nat)
    requires m > 0
    ensures x == x / m * m + x % m
    ensures x % m < m
  {
  }

  /** A number below `n` times `m` has a quotient below `n`. */
  lemma DivLess(x: nat, n: nat, m: nat)
    requires x < n * m && m > 0
    ensures x / m < n
  {
    DivMod(x, m);
    if x / m >= n { MulMore(n, x / m, m); }
  }

  /** Quotient and rest are unique. */
  lemma DivUnique(x: nat, m: nat, q: nat, r: nat)
    requires m > 0 && r < m && x == q * m + r
    ensures x / m == q && x % m == r
  {
    DivMod(x, m);
    var k := x / m;
    assert (k + 1) * m == k * m + m && (q + 1) * m == q * m + m;
    if k < q { MulMore(k + 1, q, m); } else if q < k { MulMore(q + 1, k, m); }
  }
}
