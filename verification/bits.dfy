/** Facts about sets of bits in a 32-bit word. */
module Bits {
  function And(a: bv32, b: bv32): bv32 { a & b }

  function Or(a: bv32, b: bv32): bv32 { a | b }

  function Drop(a: bv32, b: bv32): bv32 { a & !b }

  function Not(a: bv32): bv32 { !a }

  predicate Within(less: bv32, whole: bv32) { And(less, whole) == less }

  lemma AndCommutes(a: bv32, b: bv32)
    ensures And(a, b) == And(b, a)
  {
  }

  lemma AndWithin(a: bv32, b: bv32)
    ensures Within(And(a, b), a) && Within(And(a, b), b)
  {
    assert (a & b) & a == a & b;
    assert (a & b) & b == a & b;
  }

  lemma DropWithin(a: bv32, b: bv32)
    ensures Within(Drop(a, b), a) && Within(a, a)
  {
    assert (a & !b) & a == a & !b;
    assert a & a == a;
  }

  lemma WithinTrans(a: bv32, b: bv32, c: bv32)
    requires Within(a, b) && Within(b, c)
    ensures Within(a, c)
  {
    assert a & c == (a & b) & c;
    assert (a & b) & c == a & (b & c);
  }

  lemma NoneOfLess(b: bv32, less: bv32, whole: bv32)
    requires Within(less, whole) && And(b, whole) == 0
    ensures And(b, less) == 0
  {
    assert b & less == b & (less & whole);
    assert b & (less & whole) == (b & whole) & less;
  }

  /** Dropping only those bits that are set drops the same. */
  lemma DropWhatIsThere(a: bv32, b: bv32)
    ensures Drop(a, And(b, a)) == Drop(a, b)
  {
    assert a & !(b & a) == a & !b;
  }

  lemma DroppedIsGone(a: bv32, b: bv32)
    ensures And(And(a, b), Drop(a, b)) == 0
  {
    assert (a & b) & (a & !b) == 0;
  }

  /** Outside of what is dropped nothing changes, and of that nothing is left. */
  lemma DropIs(a: bv32, b: bv32)
    ensures And(Drop(a, b), Not(b)) == And(a, Not(b)) && And(Drop(a, b), b) == 0
  {
    assert (a & !b) & !b == a & !b;
    assert (a & !b) & b == 0;
  }

  lemma DropElsewhere(a: bv32, b: bv32, c: bv32)
    requires And(b, c) == 0
    ensures And(Drop(a, b), c) == And(a, c)
  {
    assert b & c == 0 ==> (a & !b) & c == a & c;
  }

  /** A set of flags has something in common with either part exactly if it has with both together. */
  lemma OrIs(a: bv32, b: bv32, c: bv32)
    ensures And(Or(a, b), c) == 0 <==> And(a, c) == 0 && And(b, c) == 0
    ensures Within(a, Or(a, b)) && Within(b, Or(a, b))
  {
    OrApart(a, b, c);
    assert a & (a | b) == a;
    assert b & (a | b) == b;
  }

  lemma OrApart(a: bv32, b: bv32, c: bv32)
    ensures And(Or(a, b), c) == 0 <==> And(a, c) == 0 && And(b, c) == 0
  {
    assert (a | b) & c == (a & c) | (b & c);
  }

  lemma GoneStaysGone(less: bv32, whole: bv32, b: bv32)
    requires Within(less, whole) && And(whole, b) == 0
    ensures And(less, b) == 0
  {
    assert less & b == (less & whole) & b;
    assert (less & whole) & b == less & (whole & b);
  }
}
