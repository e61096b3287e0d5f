/** Rounding to the machine's alignment. */
module Alignment {
  import opened Arithmetic

  predicate IsAligned(x: nat, a: nat) {
    a > 0 && x % a == 0
  }

  lemma MultipleIsAligned(k: nat, a: nat)
    requires a > 0
    ensures IsAligned(k * a, a)
  {
    Exact(k, a, k * a);
  }

  lemma SumIsAligned(x: nat, y: nat, a: nat)
    requires IsAligned(x, a) && IsAligned(y, a)
    ensures IsAligned(x + y, a)
  {
    var p, q := x / a, y / a;
    assert x == p * a && y == q * a;
    assert x + y == (p + q) * a;
    MultipleIsAligned(p + q, a);
  }

  /** `RT_ALIGN`, for requests whose rounding does not overflow. */
  function Up(n: nat, a: nat): (r: nat)
    requires a > 0
    ensures n <= r < n + a && IsAligned(r, a)
  {
    var q := (n + a - 1) / a;
    MultipleIsAligned(q, a);
    assert n + a - 1 == q * a + (n + a - 1) % a;
    q * a
  }

  /** Within less than one step there is only one multiple. */
  lemma SameMultiple(x: nat, y: nat, a: nat)
    requires IsAligned(x, a) && IsAligned(y, a) && x <= y < x + a
    ensures x == y
  {
    var p, q := x / a, y / a;
    assert x == p * a && y == q * a;
    Steps(p, q, a);
    Steps(q, p, a);
  }

  lemma Steps(p: nat, q: nat, a: nat)
    ensures p < q ==> p * a + a <= q * a
  {
    if p < q {
      Times(p + 1, q, a);
    }
  }

  /** What is aligned already stays as it is. */
  lemma UpOfAligned(n: nat, a: nat)
    requires IsAligned(n, a)
    ensures Up(n, a) == n
  {
    hide Up;
    SameMultiple(n, Up(n, a), a);
  }

  lemma UpOfZero(n: nat, a: nat)
    requires a > 0
    ensures Up(n, a) == 0 <==> n == 0
  {
  }

  /** `RT_ALIGN_DOWN` */
  function Down(n: nat, a: nat): (r: nat)
    requires a > 0
    ensures r <= n < r + a && IsAligned(r, a)
  {
    MultipleIsAligned(n / a, a);
    assert n == n / a * a + n % a;
    n / a * a
  }
}
