/** Products, quotients and remainders. */
module Arithmetic {

  function Larger(x: int, y: int): int { if x < y then y else x }

  function Min(x: int, y: int): int { if x < y then x else y }

  lemma Times(a: nat, b: nat, d: nat)
    requires a <= b
    ensures a * d <= b * d
  {
  }

  /** Quotient and remainder are unique. */
  lemma DivModIs(v: nat, d: nat, q: nat, r: nat)
    requires d > 0 && v == d * q + r && r < d
    ensures v / d == q && v % d == r
  {
    var q', r' := v / d, v % d;
    assert v == d * q' + r';
    if q' < q {
      Times(q' + 1, q, d);
    } else if q < q' {
      Times(q + 1, q', d);
    }
  }

  lemma Exact(k: nat, d: nat, x: int)
    requires d > 0 && x == k * d
    ensures x / d == k && x % d == 0
  {
    DivModIs(x, d, k, 0);
  }

  lemma Quotient(n: nat, d: nat)
    requires d > 0 && n >= 2 * d
    ensures n / d >= 2 && (n / d) * d <= n
  {
    var q := n / d;
    assert n == q * d + n % d;
    assert q < 2 ==> q * d <= d;
  }
}
