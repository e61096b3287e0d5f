/** Both forms of `__rt_ffs`: by bytes through a table, and through the residues modulo 37. */
module Ffs {
  import opened Words

  /** What every form computes: one more than the number of trailing zeros, or zero. */
  function FirstSet(v: nat): nat {
    if v == 0 then 0 else Low(v) + 1
  }

  /* By bytes */

  /** The rows of the byte table differ only in their first entry. */
  const HEADS: seq<nat> := [0, 4, 5, 4, 6, 4, 5, 4, 7, 4, 5, 4, 6, 4, 5, 4]

  function Row(head: nat): (r: seq<nat>)
    ensures |r| == 16
  {
    [head, 0, 1, 0, 2, 0, 1, 0, 3, 0, 1, 0, 2, 0, 1, 0]
  }

  function Table(b: nat): nat
    requires b < 256
  {
    Row(HEADS[b / 16])[b % 16]
  }

  function ByBytes(v: nat): nat
    requires v < 0x1_0000_0000
  {
    if v == 0 then 0
    else if v % 256 != 0 then Table(v % 256) + 1
    else if v / 256 % 256 != 0 then Table(v / 256 % 256) + 9
    else if v / 65536 % 256 != 0 then Table(v / 65536 % 256) + 17
    else Table(v / 16777216 % 256) + 25
  }

  lemma RowIs(head: nat, c: nat)
    requires 0 < c < 16
    ensures Row(head)[c] == Low(c)
  {
  }

  lemma HeadIs(r: nat)
    requires 0 < r < 16
    ensures HEADS[r] == 4 + Low(r)
  {
  }

  lemma TableIs(b: nat)
    requires 0 < b < 256
    ensures Table(b) == Low(b)
  {
    assert Pow2(4) == 16;
    LowSplit(b, 4);
    if b % 16 != 0 { RowIs(HEADS[b / 16], b % 16); } else { HeadIs(b / 16); }
  }

  lemma ByteStep(v: nat)
    requires v > 0
    ensures v % 256 != 0 ==> Low(v) == Low(v % 256)
    ensures v % 256 == 0 ==> v / 256 > 0 && Low(v) == 8 + Low(v / 256)
  {
    assert Pow2(8) == 256;
    LowSplit(v, 8);
  }

  lemma ByBytesIs(v: nat)
    requires v < 0x1_0000_0000
    ensures ByBytes(v) == FirstSet(v)
  {
    hide Table, Low;
    if v > 0 {
      ByteStep(v);
      if v % 256 != 0 {
        TableIs(v % 256);
      } else {
        UpperBytes(v / 256);
        assert v / 65536 == v / 256 / 256 && v / 16777216 == v / 256 / 65536;
      }
    }
  }

  lemma UpperBytes(w: nat)
    requires 0 < w < 0x100_0000
    ensures Low(w) == if w % 256 != 0 then Table(w % 256)
                      else if w / 256 % 256 != 0 then Table(w / 256 % 256) + 8
                      else Table(w / 65536 % 256) + 16
  {
    hide Table, Low;
    ByteStep(w);
    if w % 256 != 0 {
      TableIs(w % 256);
    } else {
      var u := w / 256;
      ByteStep(u);
      assert w / 65536 == u / 256;
      if u % 256 != 0 { TableIs(u % 256); } else { TableIs(u / 256); }
    }
  }

  /* Modulo 37 */

  const RESIDUES: seq<nat> := [
    0, 1, 2, 27, 3, 24, 28, 32,
    4, 17, 25, 31, 29, 12, 32, 14,
    5, 8, 18, 32, 26, 23, 32, 16,
    30, 11, 13, 7, 32, 22, 15, 10,
    6, 21, 9, 20, 19]

  /** `value - 1`, wrapping at zero. */
  function Pred(v: nat): nat {
    if v == 0 then 0xFFFF_FFFF else v - 1
  }

  function Tiny(v: nat): nat {
    RESIDUES[Xor(And(v, Pred(v)), v) % 37]
  }

  /** Multiplying by 16 moves four places on. */
  lemma Sixteen(k: nat)
    ensures Pow2(k + 4) == 16 * Pow2(k)
  {
    assert Pow2(k + 4) == 2 * Pow2(k + 3) && Pow2(k + 3) == 2 * Pow2(k + 2) && Pow2(k + 2) == 2 * Pow2(k + 1);
  }

  /** The residues of the powers of two modulo 37. */
  function Power(k: nat): nat
    requires k < 32
  {
    [1, 2, 4, 8, 16, 32, 27, 17,
     34, 31, 25, 13, 26, 15, 30, 23,
     9, 18, 36, 35, 33, 29, 21, 5,
     10, 20, 3, 6, 12, 24, 11, 22][k]
  }

  predicate InTable(k: nat)
    requires k < 32
  {
    Power(k) < 37 && RESIDUES[Power(k)] == k + 1 && (k > 0 ==> Power(k) == 2 * Power(k - 1) % 37)
  }

  lemma AllInTable(k: nat)
    requires k < 32
    ensures InTable(k)
  {
    if k < 8 { InTable0(k); } else if k < 16 { InTable8(k); } else if k < 24 { InTable16(k); } else { InTable24(k); }
  }

  lemma InTable0(k: nat)
    requires k < 8
    ensures InTable(k)
  {
  }

  lemma InTable8(k: nat)
    requires 8 <= k < 16
    ensures InTable(k)
  {
  }

  lemma InTable16(k: nat)
    requires 16 <= k < 24
    ensures InTable(k)
  {
  }

  lemma InTable24(k: nat)
    requires 24 <= k < 32
    ensures InTable(k)
  {
  }

  lemma {:induction false} PowersAre(k: nat)
    requires k < 32
    ensures Pow2(k) % 37 == Power(k)
  {
    hide Power;
    AllInTable(k);
    if k > 0 {
      PowersAre(k - 1);
      DoubleMod(Pow2(k - 1));
    } else {
      PowerZero();
    }
  }

  lemma PowerZero()
    ensures Power(0) == 1
  {
  }

  lemma DoubleMod(p: nat)
    ensures 2 * p % 37 == 2 * (p % 37) % 37
  {
    assert p == 37 * (p / 37) + p % 37;
  }

  lemma ResidueTable(k: nat)
    requires k < 32
    ensures RESIDUES[Pow2(k) % 37] == k + 1
  {
    hide Power;
    PowersAre(k);
    AllInTable(k);
  }

  lemma {:induction false} LowBounded(v: nat, k: nat)
    requires 0 < v < Pow2(k)
    ensures Low(v) < k
  {
    if v % 2 == 0 { LowBounded(v / 2, k - 1); }
  }

  lemma {:induction false} Word()
    ensures Pow2(32) == 0x1_0000_0000
  {
    assert Pow2(4) == 16;
    Sixteen(4);
    Sixteen(8);
    Sixteen(12);
    Sixteen(16);
    Sixteen(20);
    Sixteen(24);
    Sixteen(28);
  }

  lemma TinyIs(v: nat)
    requires v < 0x1_0000_0000
    ensures Tiny(v) == FirstSet(v)
  {
    if v == 0 {
      ZeroAnd(0xFFFF_FFFF);
    } else {
      LowestAlone(v);
      Word();
      LowBounded(v, 32);
      ResidueTable(Low(v));
    }
  }

  lemma {:induction false} ZeroAnd(b: nat)
    ensures And(0, b) == 0 && Xor(0, 0) == 0
    decreases b
  {
    if b > 0 { ZeroAnd(b / 2); }
  }

  /** Both forms return the position of the least set bit, counted from one, and zero for zero. */
  lemma FormsAgree(v: nat)
    requires v < 0x1_0000_0000
    ensures ByBytes(v) == Tiny(v)
    ensures Tiny(v) == 0 <==> v == 0
    ensures v != 0 ==> Tiny(v) > 0 && Bit(v, Tiny(v) - 1) && forall i :: 0 <= i < Tiny(v) - 1 ==> !Bit(v, i)
  {
    ByBytesIs(v);
    TinyIs(v);
    if v > 0 { SomeBit(v); }
  }
}
