module Arithmetic {

  lemma Quotient(n: nat, d: nat, q: nat, r: nat)
    requires d > 0 && n == q * d + r && r < d
    ensures n / d == q
  {
    var k := n / d;
    assert n == k * d + n % d;
    assert k < q ==> (k + 1) * d <= q * d;
    assert k > q ==> (q + 1) * d <= k * d;
  }

  lemma Division(n: nat, d: nat)
    requires d > 0
    ensures n == n / d * d + n % d && n % d < d
  {
  }

  lemma TwoRemainders(a: nat, b: nat, q: nat, r: nat, s: nat)
    requires r < b && s < a
    ensures (q * b + r) * a + s == q * (a * b) + (r * a + s) && r * a + s < a * b
  {
    assert (q * b + r) * a == q * b * a + r * a;
    assert q * b * a == q * (a * b);
    assert r * a <= (b - 1) * a == a * b - a;
  }

  lemma QuotientOfTwo(n: nat, a: nat, b: nat, m: nat, s: nat, q: nat, r: nat)
    requires n == m * a + s && s < a && m == q * b + r && r < b
    ensures a * b > 0 && n / (a * b) == q
  {
    TwoRemainders(a, b, q, r, s);
    Quotient(n, a * b, q, r * a + s);
  }

  /** Dividing by a product is dividing twice. */
  lemma DivideTwice(n: nat, a: nat, b: nat)
    requires a > 0 && b > 0
    ensures a * b > 0 && n / (a * b) == n / a / b
  {
    Division(n, a);
    Division(n / a, b);
    QuotientOfTwo(n, a, b, n / a, n % a, n / a / b, n / a % b);
  }
}
