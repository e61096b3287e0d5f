/** Tick arithmetic: 32-bit, wrapping, compared by the sign of a difference. */
module Ticks {
  const TICKS: nat := 0x1_0000_0000

  /** `RT_TICK_MAX / 2` */
  const HALF: nat := 0x7FFF_FFFF

  /** Unsigned subtraction. */
  function Minus(a: nat, b: nat): (r: nat)
    requires a < TICKS && b < TICKS
    ensures r < TICKS
  {
    if a >= b then a - b else a + TICKS - b
  }

  /** Unsigned addition. */
  function Plus(a: nat, b: nat): (r: nat)
    requires a < TICKS && b < TICKS
    ensures r < TICKS
  {
    if a + b < TICKS then a + b else a + b - TICKS
  }

  /** The test that ends a search: `x` is strictly later than `d`. */
  predicate Later(x: nat, d: nat)
    requires x < TICKS && d < TICKS
  {
    Minus(x, d) != 0 && Minus(x, d) < HALF
  }

  /** The test that a deadline has passed. */
  predicate Due(now: nat, d: nat)
    requires now < TICKS && d < TICKS
  {
    Minus(now, d) < HALF
  }

  /** `x` lies less than half the tick range after `base`. */
  predicate Near(base: nat, x: nat) {
    base < TICKS && x < TICKS && Minus(x, base) < HALF
  }

  /** Within half the range, comparing by differences is comparing distances from `base`. */
  lemma LaterIsFarther(base: nat, x: nat, y: nat)
    requires Near(base, x) && Near(base, y)
    ensures Later(x, y) <==> Minus(x, base) > Minus(y, base)
    ensures Due(x, y) <==> Minus(x, base) >= Minus(y, base)
  {
  }
}
