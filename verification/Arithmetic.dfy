/** Division with a known remainder. */
module Arithmetic {

  lemma Scaled(d: nat, k: int)
    ensures k >= 1 ==> d * k >= d
    ensures k <= -1 ==> d * k + d <= 0
  {
    assert d * k == d * (k - 1) + d;
    if k >= 1 { assert d * (k - 1) >= 0; }
    if k <= -1 { assert d * (k + 1) <= 0; }
  }

  lemma Remainder(n: int, d: nat, q: int, r: int)
    requires d > 0 && n == d * q + r && 0 <= r < d
    ensures n % d == r
  {
    var k := q - n / d;
    assert d * k == n % d - r;
    Scaled(d, k);
  }

  lemma Quotient(n: int, d: nat, q: int, r: int)
    requires d > 0 && n == d * q + r && 0 <= r < d
    ensures n / d == q
  {
    Remainder(n, d, q, r);
    assert d * (n / d) == d * q;
  }
}
