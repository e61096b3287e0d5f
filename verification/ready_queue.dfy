/**
 The ready queue: a list of threads for every priority, and a bitmap that says
 which lists are not empty, in one level for up to 32 priorities and in two
 levels above that.
 */
module ReadyQueue {
  import opened Common
  import opened Sequences
  import opened Words
  import opened Ffs

  /** `rt_thread_priority_table`, `rt_thread_ready_priority_group` and `rt_thread_ready_table`. */
  datatype Queue = Queue(table: seq<seq<Tid>>, group: nat, ready: seq<nat>)

  /** More than 32 priorities need the second level. */
  predicate TwoLevels(q: Queue) {
    |q.table| > 32
  }

  function SetIn(w: nat, i: nat): nat {
    Or(w, Pow2(i))
  }

  function ClearIn(w: nat, i: nat): nat {
    AndNot(w, Pow2(i))
  }

  lemma SetInBit(w: nat, i: nat, j: nat)
    ensures Bit(SetIn(w, i), j) <==> Bit(w, j) || j == i
  {
    OrBit(w, Pow2(i), j);
    Pow2Bit(i, j);
  }

  lemma ClearInBit(w: nat, i: nat, j: nat)
    ensures Bit(ClearIn(w, i), j) <==> Bit(w, j) && j != i
  {
    AndNotBit(w, Pow2(i), j);
    Pow2Bit(i, j);
  }

  /** `rt_schedule_insert_thread`, the list part: at the tail, and the bits set. */
  function Insert(q: Queue, t: Tid, p: nat): Queue
    requires p < |q.table| && (TwoLevels(q) ==> p / 8 < |q.ready|)
  {
    var u := q.(table := q.table[p := q.table[p] + [t]]);
    if TwoLevels(q) then
      u.(ready := q.ready[p / 8 := SetIn(q.ready[p / 8], p % 8)], group := SetIn(q.group, p / 8))
    else
      u.(group := SetIn(q.group, p))
  }

  /** `rt_schedule_remove_thread`: unlinked, and the bits cleared if the list is now empty. */
  function Remove(q: Queue, t: Tid, p: nat): Queue
    requires p < |q.table| && (TwoLevels(q) ==> p / 8 < |q.ready|)
  {
    var u := q.(table := q.table[p := Without(q.table[p], t)]);
    if u.table[p] != [] then u
    else if TwoLevels(q) then
      var w := ClearIn(q.ready[p / 8], p % 8);
      u.(ready := q.ready[p / 8 := w], group := if w == 0 then ClearIn(q.group, p / 8) else q.group)
    else
      u.(group := ClearIn(q.group, p))
  }

  /** `_scheduler_get_highest_priority_thread`, the priority. */
  function Highest(q: Queue): int
    requires q.group < 0x1_0000_0000 && forall i :: 0 <= i < |q.ready| ==> q.ready[i] < 256
  {
    if TwoLevels(q) then
      var number := ByBytes(q.group) - 1;
      if 0 <= number < |q.ready| then number * 8 + ByBytes(q.ready[number]) - 1 else -1
    else
      ByBytes(q.group) - 1
  }

  /* The index agrees with the lists */

  ghost predicate Sized(q: Queue) {
    && 0 < |q.table| <= 256 && q.group < 0x1_0000_0000
    && (TwoLevels(q) ==> |q.ready| == 32)
    && forall i :: 0 <= i < |q.ready| ==> q.ready[i] < 256
  }

  ghost predicate OneLevelOk(q: Queue) {
    forall i: nat :: Bit(q.group, i) <==> i < |q.table| && q.table[i] != []
  }

  ghost predicate GroupOk(q: Queue) {
    forall n: nat :: Bit(q.group, n) <==> n < |q.ready| && q.ready[n] != 0
  }

  /** Bit `i` of byte `n` stands for priority `8n + i`. */
  ghost predicate ByteOk(q: Queue, n: nat)
    requires n < |q.ready|
  {
    forall i: nat :: Bit(q.ready[n], i) <==> i < 8 && 8 * n + i < |q.table| && q.table[8 * n + i] != []
  }

  /** The bits are set exactly for the lists that are not empty. */
  ghost predicate IndexOk(q: Queue) {
    Sized(q) && if TwoLevels(q) then GroupOk(q) && forall n :: 0 <= n < |q.ready| ==> ByteOk(q, n) else OneLevelOk(q)
  }

  lemma {:induction false} BoundedByBits(w: nat, k: nat)
    requires forall i: nat :: Bit(w, i) ==> i < k
    ensures w < Pow2(k)
    decreases k
  {
    if k == 0 {
      if w > 0 { SomeBit(w); }
    } else {
      forall i: nat | Bit(w / 2, i) ensures i < k - 1 {
        assert Bit(w, i + 1);
      }
      BoundedByBits(w / 2, k - 1);
    }
  }

  lemma ByteBound(w: nat)
    requires forall i: nat :: Bit(w, i) ==> i < 8
    ensures w < 256
  {
    BoundedByBits(w, 8);
    assert Pow2(8) == 256;
  }

  lemma WordBound(w: nat)
    requires forall i: nat :: Bit(w, i) ==> i < 32
    ensures w < 0x1_0000_0000
  {
    BoundedByBits(w, 32);
    Word();
  }

  lemma NoBitsZero(w: nat)
    ensures w == 0 <==> forall i: nat :: !Bit(w, i)
  {
    hide Bit;
    if w == 0 {
      forall i: nat ensures !Bit(w, i) { ZeroHasNoBits(i); }
    } else {
      SomeBit(w);
      var k: nat := Low(w);
      assert Bit(w, k);
    }
  }

  lemma RoomFor(q: Queue, p: nat)
    requires Sized(q) && p < |q.table|
    ensures TwoLevels(q) ==> p / 8 < |q.ready|
  {
  }

  /** Where the lists agree, the bits still do. */
  lemma OneLevelStep(q: Queue, u: Queue, p: nat)
    requires OneLevelOk(q) && !TwoLevels(q) && p < |q.table| == |u.table|
    requires forall i :: 0 <= i < |q.table| && i != p ==> u.table[i] == q.table[i]
    requires u.group == if u.table[p] != [] then SetIn(q.group, p) else ClearIn(q.group, p)
    ensures OneLevelOk(u) && u.group < 0x1_0000_0000
  {
    hide Bit;
    forall i: nat ensures Bit(u.group, i) <==> i < |u.table| && u.table[i] != [] {
      SetInBit(q.group, p, i);
      ClearInBit(q.group, p, i);
    }
    forall i: nat | Bit(u.group, i) ensures i < 32 {}
    WordBound(u.group);
  }

  lemma ByteStep(q: Queue, u: Queue, p: nat)
    requires p < |q.table| == |u.table| && p / 8 < |q.ready| == |u.ready| && ByteOk(q, p / 8)
    requires forall i :: 0 <= i < |q.table| && i != p ==> u.table[i] == q.table[i]
    requires u.ready[p / 8] == if u.table[p] != [] then SetIn(q.ready[p / 8], p % 8) else ClearIn(q.ready[p / 8], p % 8)
    ensures ByteOk(u, p / 8) && u.ready[p / 8] < 256
  {
    hide Bit, SetIn, ClearIn;
    var n := p / 8;
    forall i: nat ensures Bit(u.ready[n], i) <==> i < 8 && 8 * n + i < |u.table| && u.table[8 * n + i] != [] {
      SetInBit(q.ready[n], p % 8, i);
      ClearInBit(q.ready[n], p % 8, i);
      assert Bit(q.ready[n], i) <==> i < 8 && 8 * n + i < |q.table| && q.table[8 * n + i] != [];
      assert 8 * n + i == p <==> i == p % 8;
    }
    forall i: nat | Bit(u.ready[n], i) ensures i < 8 {}
    ByteBound(u.ready[n]);
  }

  lemma GroupStep(q: Queue, u: Queue, n: nat)
    requires GroupOk(q) && |q.ready| == |u.ready| == 32 && n < 32 && u.ready == q.ready[n := u.ready[n]]
    requires u.group == if u.ready[n] != 0 then SetIn(q.group, n) else ClearIn(q.group, n)
    ensures GroupOk(u) && u.group < 0x1_0000_0000
  {
    hide Bit, SetIn, ClearIn;
    forall i: nat ensures Bit(u.group, i) <==> i < |u.ready| && u.ready[i] != 0 {
      SetInBit(q.group, n, i);
      ClearInBit(q.group, n, i);
    }
    forall i: nat | Bit(u.group, i) ensures i < 32 {}
    WordBound(u.group);
  }

  /** Setting a bit that is set, or clearing one that is clear, changes no bit. */
  lemma {:induction false} SetAgain(w: nat, i: nat)
    requires Bit(w, i)
    ensures SetIn(w, i) == w
    decreases i
  {
    assert Pow2(i) % 2 == if i == 0 then 1 else 0;
    if i == 0 {
      OrZero(w / 2);
    } else {
      SetAgain(w / 2, i - 1);
      assert w > 0 by { if w == 0 { ZeroHasNoBits(i); } }
    }
  }

  lemma {:induction false} OrZero(w: nat)
    ensures Or(w, 0) == w
  {
    if w > 0 { OrZero(w / 2); }
  }

  lemma OtherBytes(q: Queue, u: Queue, p: nat, n: nat)
    requires p < |q.table| == |u.table| && n < |q.ready| == |u.ready| && n != p / 8 && ByteOk(q, n) && u.ready[n] == q.ready[n]
    requires forall i :: 0 <= i < |q.table| && i != p ==> u.table[i] == q.table[i]
    ensures ByteOk(u, n)
  {
    hide Bit;
    forall i: nat ensures Bit(u.ready[n], i) <==> i < 8 && 8 * n + i < |u.table| && u.table[8 * n + i] != [] {
      assert Bit(q.ready[n], i) <==> i < 8 && 8 * n + i < |q.table| && q.table[8 * n + i] != [];
      assert i < 8 ==> 8 * n + i != p;
    }
  }

  lemma TwoLevelStep(q: Queue, u: Queue, p: nat)
    requires IndexOk(q) && TwoLevels(q) && p < |q.table| == |u.table| && p / 8 < 32 == |u.ready|
    requires forall i :: 0 <= i < |q.table| && i != p ==> u.table[i] == q.table[i]
    requires u.ready == q.ready[p / 8 := if u.table[p] != [] then SetIn(q.ready[p / 8], p % 8) else ClearIn(q.ready[p / 8], p % 8)]
    requires u.group == if u.ready[p / 8] != 0 then SetIn(q.group, p / 8) else ClearIn(q.group, p / 8)
    ensures IndexOk(u)
  {
    hide Bit, SetIn, ClearIn, ByteOk, GroupOk;
    ByteStep(q, u, p);
    GroupStep(q, u, p / 8);
    forall n | 0 <= n < |u.ready| ensures ByteOk(u, n) && u.ready[n] < 256 {
      if n != p / 8 { OtherBytes(q, u, p, n); }
    }
  }

  lemma InsertKeepsIndex(q: Queue, t: Tid, p: nat)
    requires IndexOk(q) && p < |q.table|
    ensures TwoLevels(q) ==> p / 8 < |q.ready|
    ensures IndexOk(Insert(q, t, p))
  {
    hide Bit, SetIn, ClearIn, ByteOk, GroupOk, OneLevelOk;
    RoomFor(q, p);
    var u := Insert(q, t, p);
    if TwoLevels(q) {
      NotZero(q, p);
      TwoLevelStep(q, u, p);
    } else {
      OneLevelStep(q, u, p);
    }
  }

  lemma NotZero(q: Queue, p: nat)
    requires p / 8 < |q.ready|
    ensures SetIn(q.ready[p / 8], p % 8) != 0
  {
    hide SetIn;
    SetInBit(q.ready[p / 8], p % 8, p % 8);
    NoBitsZero(SetIn(q.ready[p / 8], p % 8));
  }

  lemma RemoveKeepsIndex(q: Queue, t: Tid, p: nat)
    requires IndexOk(q) && p < |q.table|
    ensures TwoLevels(q) ==> p / 8 < |q.ready|
    ensures IndexOk(Remove(q, t, p))
  {
    hide Bit, SetIn, ClearIn, ByteOk, GroupOk, OneLevelOk, Without;
    RoomFor(q, p);
    var u := Remove(q, t, p);
    if TwoLevels(q) {
      AlreadySet(q, p);
      ClearNothing(p % 8);
      TwoLevelStep(q, u, p);
    } else {
      OneLevelSet(q, p);
      OneLevelStep(q, u, p);
    }
  }

  lemma ClearNothing(i: nat)
    ensures ClearIn(0, i) == 0
  {
  }

  lemma OneLevelSet(q: Queue, p: nat)
    requires OneLevelOk(q) && p < |q.table|
    ensures q.table[p] != [] ==> SetIn(q.group, p) == q.group
  {
    if q.table[p] != [] { SetAgain(q.group, p); }
  }

  /** A list that is not empty has its bits set on both levels, and so does a byte that is not zero. */
  lemma AlreadySet(q: Queue, p: nat)
    requires IndexOk(q) && TwoLevels(q) && p < |q.table| && p / 8 < |q.ready|
    ensures q.table[p] != [] ==> SetIn(q.ready[p / 8], p % 8) == q.ready[p / 8] && q.ready[p / 8] != 0
    ensures q.ready[p / 8] != 0 ==> SetIn(q.group, p / 8) == q.group
  {
    hide SetIn, Bit;
    var n := p / 8;
    assert ByteOk(q, n);
    assert 8 * n + p % 8 == p;
    if q.table[p] != [] {
      assert Bit(q.ready[n], p % 8);
      SetAgain(q.ready[n], p % 8);
      NoBitsZero(q.ready[n]);
    }
    if q.ready[n] != 0 {
      assert Bit(q.group, n);
      SetAgain(q.group, n);
    }
  }

  /* The most urgent list */

  ghost predicate LeastNonEmpty(q: Queue, p: int) {
    0 <= p < |q.table| && q.table[p] != [] && forall i :: 0 <= i < p ==> q.table[i] == []
  }

  lemma OneLevelHighest(q: Queue)
    requires Sized(q) && OneLevelOk(q) && q.group != 0
    ensures LeastNonEmpty(q, ByBytes(q.group) - 1)
  {
    hide Bit;
    FormsAgree(q.group);
    var p: nat := ByBytes(q.group) - 1;
    assert Bit(q.group, p);
    forall i | 0 <= i < p ensures q.table[i] == [] {
      assert !Bit(q.group, i);
    }
  }

  lemma TwoLevelHighest(q: Queue)
    requires IndexOk(q) && TwoLevels(q) && q.group != 0
    ensures LeastNonEmpty(q, Highest(q))
  {
    hide Bit, ByBytes, Tiny;
    FormsAgree(q.group);
    var n: nat := ByBytes(q.group) - 1;
    assert Bit(q.group, n);
    assert ByteOk(q, n);
    FormsAgree(q.ready[n]);
    var i: nat := ByBytes(q.ready[n]) - 1;
    assert Bit(q.ready[n], i);
    var p := 8 * n + i;
    forall j | 0 <= j < p ensures q.table[j] == [] {
      if j / 8 == n {
        assert !Bit(q.ready[n], j % 8);
        assert 8 * n + j % 8 == j;
      } else {
        EmptyBelow(q, j);
      }
    }
  }

  /** The bitmap names the most urgent list that is not empty, and is zero when all are. */
  lemma HighestIs(q: Queue)
    requires IndexOk(q)
    ensures q.group != 0 ==> LeastNonEmpty(q, Highest(q))
    ensures q.group == 0 <==> forall i :: 0 <= i < |q.table| ==> q.table[i] == []
  {
    hide Bit, ByteOk, GroupOk, OneLevelOk, ByBytes;
    if q.group != 0 {
      if TwoLevels(q) { TwoLevelHighest(q); } else { OneLevelHighest(q); }
    } else {
      AllEmpty(q);
    }
  }

  lemma AllEmpty(q: Queue)
    requires IndexOk(q) && q.group == 0
    ensures forall i :: 0 <= i < |q.table| ==> q.table[i] == []
  {
    hide Bit;
    NoBitsZero(q.group);
    forall i | 0 <= i < |q.table| ensures q.table[i] == [] {
      if TwoLevels(q) {
        EmptyBelow(q, i);
      } else {
        assert !Bit(q.group, i);
      }
    }
  }

  lemma EmptyBelow(q: Queue, j: nat)
    requires IndexOk(q) && TwoLevels(q) && j < |q.table| && !Bit(q.group, j / 8)
    ensures q.table[j] == []
  {
    hide Bit;
    var m := j / 8;
    assert q.ready[m] == 0;
    assert ByteOk(q, m);
    NoBitsZero(q.ready[m]);
    assert 8 * m + j % 8 == j;
    assert !Bit(q.ready[m], j % 8);
  }
}
