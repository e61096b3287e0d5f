/** Machine words as numbers: their bits, and C's bitwise operators defined bit by bit. */
module Words {
  import opened Arithmetic

  function Pow2(k: nat): (r: nat)
    ensures r > 0
  {
    if k == 0 then 1 else 2 * Pow2(k - 1)
  }

  predicate Bit(w: nat, i: nat) {
    if i == 0 then w % 2 == 1 else Bit(w / 2, i - 1)
  }

  function Or(a: nat, b: nat): nat
    decreases a + b
  {
    if a == 0 && b == 0 then 0 else (if a % 2 == 1 || b % 2 == 1 then 1 else 0) + 2 * Or(a / 2, b / 2)
  }

  function And(a: nat, b: nat): nat
    decreases a + b
  {
    if a == 0 && b == 0 then 0 else (if a % 2 == 1 && b % 2 == 1 then 1 else 0) + 2 * And(a / 2, b / 2)
  }

  function Xor(a: nat, b: nat): nat
    decreases a + b
  {
    if a == 0 && b == 0 then 0 else (if a % 2 != b % 2 then 1 else 0) + 2 * Xor(a / 2, b / 2)
  }

  /** `a & ~b` */
  function AndNot(a: nat, b: nat): nat
    decreases a
  {
    if a == 0 then 0 else (if a % 2 == 1 && b % 2 == 0 then 1 else 0) + 2 * AndNot(a / 2, b / 2)
  }

  lemma {:induction false} ZeroHasNoBits(i: nat)
    ensures !Bit(0, i)
  {
    if i > 0 { ZeroHasNoBits(i - 1); }
  }

  lemma {:induction false} OrBit(a: nat, b: nat, i: nat)
    ensures Bit(Or(a, b), i) <==> Bit(a, i) || Bit(b, i)
    decreases i
  {
    if a == 0 && b == 0 {
      ZeroHasNoBits(i);
    } else if i > 0 {
      OrBit(a / 2, b / 2, i - 1);
    }
  }

  lemma {:induction false} AndNotBit(a: nat, b: nat, i: nat)
    ensures Bit(AndNot(a, b), i) <==> Bit(a, i) && !Bit(b, i)
    decreases i
  {
    if a == 0 {
      ZeroHasNoBits(i);
    } else if i > 0 {
      AndNotBit(a / 2, b / 2, i - 1);
    }
  }

  lemma {:induction false} Pow2Bit(k: nat, i: nat)
    ensures Bit(Pow2(k), i) <==> i == k
    decreases k
  {
    if i > 0 {
      if k == 0 { ZeroHasNoBits(i - 1); } else { Pow2Bit(k - 1, i - 1); }
    }
  }

  /** A word is not zero exactly when it has a bit. */
  lemma {:induction false} SomeBit(w: nat)
    requires w > 0
    ensures Bit(w, Low(w))
    ensures forall j :: 0 <= j < Low(w) ==> !Bit(w, j)
  {
    if w % 2 == 0 {
      SomeBit(w / 2);
      forall j | 0 <= j < Low(w) ensures !Bit(w, j) {
        if j > 0 { assert !Bit(w / 2, j - 1); }
      }
    }
  }

  /** The number of zeros a word ends in. */
  function Low(w: nat): nat
    requires w > 0
  {
    if w % 2 == 1 then 0 else 1 + Low(w / 2)
  }

  /* Shifts by whole bytes */

  lemma HalveMod(v: nat, h: nat)
    requires h > 0
    ensures (v % (2 * h)) / 2 == (v / 2) % h && (v % (2 * h)) % 2 == v % 2 && v / (2 * h) == (v / 2) / h
  {
    var u, e := v / 2, v % 2;
    var a, b := u / h, u % h;
    assert u == h * a + b;
    assert v == (2 * h) * a + (2 * b + e);
    DivModIs(v, 2 * h, a, 2 * b + e);
  }

  /** The lowest bit is in the low `k` bits if these are not all zero, and otherwise above them. */
  lemma {:induction false} LowSplit(v: nat, k: nat)
    requires v > 0
    ensures v % Pow2(k) != 0 ==> Low(v) == Low(v % Pow2(k))
    ensures v % Pow2(k) == 0 ==> v / Pow2(k) > 0 && Low(v) == k + Low(v / Pow2(k))
    decreases k
  {
    if k == 0 {
      assert v % 1 == 0 && v / 1 == v;
    } else {
      var h := Pow2(k - 1);
      HalveMod(v, h);
      var r := v % (2 * h);
      assert r == 2 * (r / 2) + r % 2;
      if v % 2 == 0 {
        LowSplit(v / 2, k - 1);
      }
    }
  }

  /* The lowest bit alone */

  lemma {:induction false} AndSelf(v: nat)
    ensures And(v, v) == v && Xor(v, v) == 0
  {
    if v > 0 { AndSelf(v / 2); }
  }

  /** `v & (v - 1) ^ v` keeps exactly the lowest bit of `v`. */
  lemma {:induction false} LowestAlone(v: nat)
    requires v > 0
    ensures Xor(And(v, v - 1), v) == Pow2(Low(v))
  {
    hide And, Xor;
    var u := v / 2;
    if v % 2 == 1 {
      AndSelf(u);
      AndStep(v, v - 1, u, u);
      XorStep(2 * u, v, u, u);
    } else {
      LowestAlone(u);
      AndStep(v, v - 1, u, u - 1);
      XorStep(2 * And(u, u - 1), v, And(u, u - 1), u);
    }
  }

  lemma AndStep(a: nat, b: nat, u: nat, w: nat)
    requires a / 2 == u && b / 2 == w
    ensures And(a, b) == (if a % 2 == 1 && b % 2 == 1 then 1 else 0) + 2 * And(u, w)
  {
  }

  lemma XorStep(a: nat, b: nat, u: nat, w: nat)
    requires a / 2 == u && b / 2 == w
    ensures Xor(a, b) == (if a % 2 != b % 2 then 1 else 0) + 2 * Xor(u, w)
  {
  }
}
