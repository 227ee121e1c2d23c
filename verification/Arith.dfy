/** Products and quotients, for the two places that count in mixed radix. */
module Arith {
  lemma ProductIsNat(a: nat, b: nat)
    ensures a * b >= 0
  {}

  lemma AtLeastOnce(a: nat, b: nat)
    requires a >= 1
    ensures a * b >= b
  {
    assert a * b - b == (a - 1) * b;
    ProductIsNat(a - 1, b);
  }

  lemma LessFactor(p: nat, n: nat, m: nat)
    requires p * m < n * m
    ensures p < n && m > 0
  {
    if p >= n {
      assert p * m - n * m == (p - n) * m;
      ProductIsNat(p - n, m);
    }
  }

  lemma LessTimes(a: nat, b: nat, m: nat)
    requires a < b && m > 0
    ensures a * m < b * m
  {
    assert b * m - a * m == (b - a) * m;
    AtLeastOnce(b - a, m);
  }

  // Quotient and remainder are determined by v = q * m + r.
  lemma Quotient(v: nat, m: nat, q: nat, r: nat)
    requires m > 0 && v == q * m + r && r < m
    ensures v / m == q && v % m == r
  {
    var p := v / m;
    assert v == p * m + v % m;
    if p > q {
      assert p * m - q * m == (p - q) * m;
      AtLeastOnce(p - q, m);
    } else if p < q {
      assert q * m - p * m == (q - p) * m;
      AtLeastOnce(q - p, m);
    }
  }

  // Position i of an n by m table: its row and column
  lemma InTable(n: nat, m: nat, i: nat)
    requires i < n * m
    ensures m > 0 && i / m < n && i % m < m && i == (i / m) * m + i % m
  {
    LessFactor(0, n, m);
    ProductIsNat(i / m, m);
    assert i == (i / m) * m + i % m;
    LessFactor(i / m, n, m);
  }

  lemma RowBound(a: nat, n: nat, m: nat, j: nat)
    requires a < n && j < m
    ensures a * m + j < n * m
  {
    assert n * m - a * m == (n - a) * m;
    AtLeastOnce(n - a, m);
  }

  // Dividing by a and then by b
  lemma DivDiv(v: nat, a: nat, b: nat)
    requires a > 0 && b > 0
    ensures b * a > 0 && v / (b * a) == v / a / b && v % (b * a) == (v / a % b) * a + v % a
  {
    var u := v / a;
    var x, y := u / b, u % b;
    AtLeastOnce(b, a);
    Split(u, b);
    Split(v, a);
    Spread(x, b, y, a);
    RowBound(y, b, a, v % a);
    ProductIsNat(y, a);
    Quotient(v, b * a, x, y * a + v % a);
  }

  lemma Split(v: nat, m: nat)
    requires m > 0
    ensures v / m >= 0 && v == (v / m) * m + v % m && v % m < m
  {}

  lemma Spread(x: nat, b: nat, y: nat, a: nat)
    ensures (x * b + y) * a == x * (b * a) + y * a
  {}
}
