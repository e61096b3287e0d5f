/**
 Address-ordered block lists that tile a heap: what `mem.c` and `memheap.c` keep
 in headers in front of every block. A block runs from its header to the next
 one; three primitive edits are enough for every operation of both allocators.
 */
module Tiling {
  import opened Alignment
  import opened Common

  datatype Blk = Blk(at: nat, next: nat, used: bool)

  ghost predicate Tiled(b: seq<Blk>, hdr: nat, end: nat) {
    && |b| > 0 && b[0].at == 0 && b[|b| - 1].next == end
    && (forall i :: 0 <= i < |b| ==> b[i].at + hdr <= b[i].next)
    && (forall i, j :: 0 <= i && j == i + 1 && j < |b| ==> b[i].next == b[j].at)
  }

  /** No two neighbours are both free. */
  ghost predicate Coalesced(b: seq<Blk>) {
    forall i, j :: 0 <= i && j == i + 1 && j < |b| ==> b[i].used || b[j].used
  }

  ghost predicate CoalescedExceptAt(b: seq<Blk>, k: int) {
    forall i, j :: 0 <= i && j == i + 1 && j < |b| && i != k && j != k ==> b[i].used || b[j].used
  }

  ghost predicate Aligned(b: seq<Blk>, align: nat) {
    forall i :: 0 <= i < |b| ==> IsAligned(b[i].at, align)
  }

  function Payload(k: Blk, hdr: nat): int {
    k.next - k.at - hdr
  }

  /** The byte at `a` belongs to the user of some used block. */
  ghost predicate Live(b: seq<Blk>, hdr: nat, a: nat) {
    exists j :: 0 <= j < |b| && InPayload(b[j], hdr, a)
  }

  predicate InPayload(k: Blk, hdr: nat, a: nat) {
    k.used && k.at + hdr <= a < k.next
  }

  function Flag(b: seq<Blk>, i: nat, used: bool): seq<Blk>
    requires i < |b|
  {
    b[i := b[i].(used := used)]
  }

  /** Block `i` ends at `cut`; what is left of it becomes a free block. */
  function Split(b: seq<Blk>, i: nat, cut: nat, used: bool): seq<Blk>
    requires i < |b|
  {
    b[..i] + [Blk(b[i].at, cut, used), Blk(cut, b[i].next, false)] + b[i + 1..]
  }

  /** Block `i` swallows its right neighbour. */
  function Join(b: seq<Blk>, i: nat): seq<Blk>
    requires i + 1 < |b|
  {
    b[..i] + [Blk(b[i].at, b[i + 1].next, b[i].used)] + b[i + 2..]
  }

  lemma SplitAt(b: seq<Blk>, i: nat, cut: nat, used: bool)
    requires i < |b|
    ensures var s := Split(b, i, cut, used);
            && |s| == |b| + 1
            && forall k {:trigger s[k]} :: 0 <= k < |s| ==>
                 s[k] == if k < i then b[k]
                         else if k == i then Blk(b[i].at, cut, used)
                         else if k == i + 1 then Blk(cut, b[i].next, false)
                         else b[k - 1]
  {
  }

  lemma JoinAt(b: seq<Blk>, i: nat)
    requires i + 1 < |b|
    ensures var s := Join(b, i);
            && |s| == |b| - 1
            && forall k {:trigger s[k]} :: 0 <= k < |s| ==>
                 s[k] == if k < i then b[k]
                         else if k == i then Blk(b[i].at, b[i + 1].next, b[i].used)
                         else b[k + 1]
  {
  }

  lemma FlagTiled(b: seq<Blk>, hdr: nat, end: nat, i: nat, used: bool)
    requires Tiled(b, hdr, end) && i < |b|
    ensures Tiled(Flag(b, i, used), hdr, end)
  {
  }

  lemma SplitTiled(b: seq<Blk>, hdr: nat, end: nat, i: nat, cut: nat, used: bool)
    requires Tiled(b, hdr, end) && i < |b| && b[i].at + hdr <= cut && cut + hdr <= b[i].next
    ensures Tiled(Split(b, i, cut, used), hdr, end)
  {
    SplitAt(b, i, cut, used);
  }

  lemma SplitAligned(b: seq<Blk>, i: nat, cut: nat, used: bool, align: nat)
    requires Aligned(b, align) && i < |b| && IsAligned(cut, align)
    ensures Aligned(Split(b, i, cut, used), align)
  {
    hide IsAligned;
    SplitAt(b, i, cut, used);
  }

  lemma JoinAligned(b: seq<Blk>, i: nat, align: nat)
    requires Aligned(b, align) && i + 1 < |b|
    ensures Aligned(Join(b, i), align)
  {
    hide IsAligned;
    JoinAt(b, i);
  }

  lemma JoinTiled(b: seq<Blk>, hdr: nat, end: nat, i: nat)
    requires Tiled(b, hdr, end) && i + 1 < |b|
    ensures Tiled(Join(b, i), hdr, end)
  {
    JoinAt(b, i);
    assert b[i].next == b[i + 1].at;
  }

  lemma {:induction false} Ordered(b: seq<Blk>, hdr: nat, end: nat, i: nat, j: nat)
    requires Tiled(b, hdr, end) && i < j < |b|
    ensures b[i].next <= b[j].at
    decreases j
  {
    assert b[j - 1].next == b[j].at;
    if i < j - 1 {
      Ordered(b, hdr, end, i, j - 1);
    }
  }

  lemma OrderedAll(b: seq<Blk>, hdr: nat, end: nat)
    requires Tiled(b, hdr, end)
    ensures forall i, j :: 0 <= i < j < |b| ==> b[i].next <= b[j].at
    ensures forall i :: 0 <= i < |b| ==> b[i].next <= end
  {
    forall i, j | 0 <= i < j < |b| ensures b[i].next <= b[j].at {
      Ordered(b, hdr, end, i, j);
    }
    forall i | 0 <= i < |b| ensures b[i].next <= end {
      if i < |b| - 1 {
        Ordered(b, hdr, end, i, |b| - 1);
      }
    }
  }

  lemma BelowEnd(b: seq<Blk>, hdr: nat, end: nat, i: nat)
    requires Tiled(b, hdr, end) && i < |b|
    ensures b[i].next <= end && (i < |b| - 1 ==> b[i].next + hdr <= end)
  {
    if i < |b| - 1 {
      Ordered(b, hdr, end, i, |b| - 1);
    }
  }

  /** The payloads of different used blocks are disjoint. */
  lemma PayloadsAreDisjoint(b: seq<Blk>, hdr: nat, end: nat, i: nat, j: nat, a: nat)
    requires Tiled(b, hdr, end) && i < |b| && j < |b|
    requires b[i].at + hdr <= a < b[i].next && b[j].at + hdr <= a < b[j].next
    ensures i == j
  {
    OrderedAll(b, hdr, end);
  }

  /** Header bytes are nobody's payload. */
  lemma HeadersAreDead(b: seq<Blk>, hdr: nat, end: nat, k: nat, a: nat)
    requires Tiled(b, hdr, end)
    requires (k < |b| && b[k].at <= a < b[k].at + hdr) || a >= end
    ensures !Live(b, hdr, a)
  {
    OrderedAll(b, hdr, end);
  }

  /** Bytes inside a free block are nobody's payload. */
  lemma FreeBytesAreDead(b: seq<Blk>, hdr: nat, end: nat, k: nat, a: nat)
    requires Tiled(b, hdr, end) && k < |b| && !b[k].used && b[k].at <= a < b[k].next
    ensures !Live(b, hdr, a)
  {
    OrderedAll(b, hdr, end);
  }

  /* Sums over the blocks */

  function Total(b: seq<Blk>, w: Blk -> int): int {
    if b == [] then 0 else w(b[0]) + Total(b[1..], w)
  }

  lemma {:induction false} TotalConcat(a: seq<Blk>, b: seq<Blk>, w: Blk -> int)
    ensures Total(a + b, w) == Total(a, w) + Total(b, w)
  {
    if a == [] {
      assert a + b == b;
    } else {
      TotalConcat(a[1..], b, w);
      assert (a + b)[1..] == a[1..] + b;
    }
  }

  lemma TotalReplace(b: seq<Blk>, i: nat, j: nat, mid: seq<Blk>, w: Blk -> int)
    requires i <= j <= |b|
    ensures Total(b[..i] + mid + b[j..], w) == Total(b, w) - Total(b[i..j], w) + Total(mid, w)
  {
    assert b == b[..i] + b[i..j] + b[j..];
    TotalConcat(b[..i] + b[i..j], b[j..], w);
    TotalConcat(b[..i], b[i..j], w);
    TotalConcat(b[..i] + mid, b[j..], w);
    TotalConcat(b[..i], mid, w);
  }

  lemma TotalSmall(x: Blk, y: Blk, w: Blk -> int)
    ensures Total([x], w) == w(x) && Total([x, y], w) == w(x) + w(y)
  {
    assert [x, y][1..] == [y];
    assert Total([y], w) == w(y);
  }

  lemma SplitTotal(b: seq<Blk>, i: nat, cut: nat, used: bool, w: Blk -> int)
    requires i < |b|
    ensures Total(Split(b, i, cut, used), w)
         == Total(b, w) - w(b[i]) + w(Blk(b[i].at, cut, used)) + w(Blk(cut, b[i].next, false))
  {
    var x, y := Blk(b[i].at, cut, used), Blk(cut, b[i].next, false);
    hide Total;
    TotalReplace(b, i, i + 1, [x, y], w);
    assert b[i..i + 1] == [b[i]];
    TotalSmall(b[i], b[i], w);
    TotalSmall(x, y, w);
  }

  lemma JoinTotal(b: seq<Blk>, i: nat, w: Blk -> int)
    requires i + 1 < |b|
    ensures Total(Join(b, i), w)
         == Total(b, w) - w(b[i]) - w(b[i + 1]) + w(Blk(b[i].at, b[i + 1].next, b[i].used))
  {
    var x, y := b[i], b[i + 1];
    var z := Blk(x.at, y.next, x.used);
    hide Total;
    TotalReplace(b, i, i + 2, [z], w);
    assert b[i..i + 2] == [x, y];
    TotalSmall(z, z, w);
    TotalSmall(x, y, w);
  }

  lemma FlagTotal(b: seq<Blk>, i: nat, used: bool, w: Blk -> int)
    requires i < |b|
    ensures Total(Flag(b, i, used), w) == Total(b, w) - w(b[i]) + w(b[i].(used := used))
  {
    var z := b[i].(used := used);
    TotalReplace(b, i, i + 1, [z], w);
    FlagIsSplice(b, i, used);
    TotalSmall(z, z, w);
    TotalSmall(b[i], z, w);
  }

  lemma FlagIsSplice(b: seq<Blk>, i: nat, used: bool)
    requires i < |b|
    ensures Flag(b, i, used) == b[..i] + [b[i].(used := used)] + b[i + 1..] && b[i..i + 1] == [b[i]]
  {
  }

  /* Coalescing */

  lemma SplitCoalesced(b: seq<Blk>, i: nat, cut: nat)
    requires i < |b|
    requires Coalesced(b)
    ensures CoalescedExceptAt(Split(b, i, cut, true), i + 1)
    ensures !b[i].used ==> Coalesced(Split(b, i, cut, true))
  {
    SplitAt(b, i, cut, true);
    var s := Split(b, i, cut, true);
    forall k, m | 0 <= k && m == k + 1 && m < |s| && k != i + 1 ensures s[k].used || s[m].used {
      if k > i + 1 {
        assert b[k - 1].used || b[k].used;
      } else if k < i {
        assert b[k].used || b[k + 1].used;
      }
    }
    if !b[i].used && i + 1 < |b| {
      assert b[i].used || b[i + 1].used;
    }
  }

  lemma JoinCoalesced(b: seq<Blk>, i: nat)
    requires i + 1 < |b| && !b[i].used && !b[i + 1].used
    requires CoalescedExceptAt(b, i) || CoalescedExceptAt(b, i + 1)
    ensures CoalescedExceptAt(Join(b, i), i)
    ensures (i > 0 ==> b[i - 1].used) && (i + 2 < |b| ==> b[i + 2].used) ==> Coalesced(Join(b, i))
  {
    JoinAt(b, i);
    var s := Join(b, i);
    forall k, m | 0 <= k && m == k + 1 && m < |s| && k != i && m != i ensures s[k].used || s[m].used {
      if k > i {
        assert b[k + 1].used || b[k + 2].used;
      } else {
        assert b[k].used || b[m].used;
      }
    }
  }

  /* What each edit does to the set of live bytes */

  lemma LiveFlag(b: seq<Blk>, hdr: nat, i: nat, used: bool, a: nat)
    requires i < |b| && Live(b, hdr, a) && !InPayload(b[i], hdr, a)
    ensures Live(Flag(b, i, used), hdr, a)
  {
    var j :| 0 <= j < |b| && InPayload(b[j], hdr, a);
    assert Flag(b, i, used)[j] == b[j];
  }

  lemma LiveSplit(b: seq<Blk>, hdr: nat, i: nat, cut: nat, used: bool, a: nat)
    requires i < |b| && Live(b, hdr, a) && !InPayload(b[i], hdr, a)
    ensures Live(Split(b, i, cut, used), hdr, a)
  {
    SplitAt(b, i, cut, used);
    var j :| 0 <= j < |b| && InPayload(b[j], hdr, a);
    assert Split(b, i, cut, used)[if j < i then j else j + 1] == b[j];
  }

  lemma LiveJoin(b: seq<Blk>, hdr: nat, i: nat, a: nat)
    requires i + 1 < |b| && !b[i].used && !b[i + 1].used
    ensures Live(Join(b, i), hdr, a) <==> Live(b, hdr, a)
  {
    JoinAt(b, i);
    var s := Join(b, i);
    if Live(b, hdr, a) {
      var j :| 0 <= j < |b| && InPayload(b[j], hdr, a);
      assert s[if j < i then j else j - 1] == b[j];
    }
    if Live(s, hdr, a) {
      var j :| 0 <= j < |s| && InPayload(s[j], hdr, a);
      assert b[if j < i then j else j + 1] == s[j];
    }
  }

  /** A freshly freed block merges with its free neighbours, first forward, then backward. */
  function Plug(b: seq<Blk>, i: nat): seq<Blk>
    requires i < |b|
  {
    var f := if i + 1 < |b| && !b[i + 1].used then Join(b, i) else b;
    if i > 0 && !f[i - 1].used then Join(f, i - 1) else f
  }

  lemma PlugCoalesced(b: seq<Blk>, i: nat)
    requires i < |b| && !b[i].used && CoalescedExceptAt(b, i)
    ensures Coalesced(Plug(b, i))
  {
    var f := b;
    if i + 1 < |b| && !b[i + 1].used {
      if i + 2 < |b| {
        assert b[i + 1].used || b[i + 2].used;
      }
      JoinAt(b, i);
      JoinCoalesced(b, i);
      f := Join(b, i);
    }
    if i > 0 && !f[i - 1].used {
      if i > 1 {
        assert b[i - 2].used || b[i - 1].used;
      }
      JoinCoalesced(f, i - 1);
    }
  }

  lemma PlugLive(b: seq<Blk>, hdr: nat, i: nat, a: nat)
    requires i < |b| && !b[i].used
    ensures Live(Plug(b, i), hdr, a) <==> Live(b, hdr, a)
  {
    var f := b;
    if i + 1 < |b| && !b[i + 1].used {
      LiveJoin(b, hdr, i, a);
      JoinAt(b, i);
      f := Join(b, i);
    }
    if i > 0 && !f[i - 1].used {
      LiveJoin(f, hdr, i - 1, a);
    }
  }

  /* Which blocks are in use */

  ghost function Owned(b: seq<Blk>): set<Blk> {
    set k | k in b && k.used
  }

  lemma FlagOwned(b: seq<Blk>, hdr: nat, end: nat, i: nat, used: bool)
    requires Tiled(b, hdr, end) && hdr > 0 && i < |b|
    ensures Owned(Flag(b, i, used)) == if used then Owned(b) - {b[i]} + {b[i].(used := true)} else Owned(b) - {b[i]}
  {
    OrderedAll(b, hdr, end);
    var s := Flag(b, i, used);
    forall k ensures k in Owned(s) <==> (k in Owned(b) && k != b[i]) || (used && k == b[i].(used := true)) {
      if k in s && k.used {
        var j :| 0 <= j < |s| && s[j] == k;
        assert j != i ==> k == b[j];
      }
      if k in b && k.used && k != b[i] {
        var j :| 0 <= j < |b| && b[j] == k;
        assert s[j] == k;
      }
      assert s[i] in s;
    }
  }

  lemma SplitOwned(b: seq<Blk>, hdr: nat, end: nat, i: nat, cut: nat)
    requires Tiled(b, hdr, end) && hdr > 0 && i < |b|
    ensures Owned(Split(b, i, cut, true)) == Owned(b) - {b[i]} + {Blk(b[i].at, cut, true)}
  {
    forall k ensures k in Owned(Split(b, i, cut, true)) <==> (k in Owned(b) && k != b[i]) || k == Blk(b[i].at, cut, true) {
      SplitOwnedAt(b, hdr, end, i, cut, k);
    }
  }

  lemma SplitOwnedAt(b: seq<Blk>, hdr: nat, end: nat, i: nat, cut: nat, k: Blk)
    requires Tiled(b, hdr, end) && hdr > 0 && i < |b|
    ensures k in Owned(Split(b, i, cut, true)) <==> (k in Owned(b) && k != b[i]) || k == Blk(b[i].at, cut, true)
  {
    hide Split, Tiled;
    SplitAt(b, i, cut, true);
    var s := Split(b, i, cut, true);
    if k in s && k.used {
      var j :| 0 <= j < |s| && s[j] == k;
      if j != i {
        var m := if j < i then j else j - 1;
        assert k == b[m];
        DistinctPlaces(b, hdr, end, m, i);
      }
    }
    if k in b && k.used && k != b[i] {
      var j :| 0 <= j < |b| && b[j] == k;
      assert s[if j < i then j else j + 1] == k;
    }
    assert s[i] in s;
  }

  lemma DistinctPlaces(b: seq<Blk>, hdr: nat, end: nat, i: nat, j: nat)
    requires Tiled(b, hdr, end) && hdr > 0 && i < |b| && j < |b| && i != j
    ensures b[i].at != b[j].at
  {
    OrderedAll(b, hdr, end);
  }

  lemma JoinOwned(b: seq<Blk>, i: nat)
    requires i + 1 < |b| && !b[i].used && !b[i + 1].used
    ensures Owned(Join(b, i)) == Owned(b)
  {
    JoinAt(b, i);
    var s := Join(b, i);
    forall k ensures k in Owned(s) <==> k in Owned(b) {
      if k in s && k.used {
        var j :| 0 <= j < |s| && s[j] == k;
        assert k == b[if j < i then j else j + 1];
      }
      if k in b && k.used {
        var j :| 0 <= j < |b| && b[j] == k;
        assert s[if j < i then j else j - 1] == k;
      }
    }
  }

  lemma PlugOwned(b: seq<Blk>, i: nat)
    requires i < |b| && !b[i].used
    ensures Owned(Plug(b, i)) == Owned(b)
  {
    var f := b;
    if i + 1 < |b| && !b[i + 1].used {
      JoinOwned(b, i);
      JoinAt(b, i);
      f := Join(b, i);
    }
    if i > 0 && !f[i - 1].used {
      JoinOwned(f, i - 1);
    }
  }

  lemma OwnedAt(b: seq<Blk>, i: nat)
    requires i < |b| && b[i].used
    ensures Owned(b) == Owned(b) - {b[i]} + {b[i]} && b[i] !in Owned(b) - {b[i]}
  {
    assert b[i] in b;
  }

  lemma NewIsNotOwned(b: seq<Blk>, hdr: nat, end: nat, i: nat, k: Blk)
    requires Tiled(b, hdr, end) && hdr > 0 && i < |b| && !b[i].used && k.at == b[i].at
    ensures k !in Owned(b)
  {
    hide Tiled;
    if k in Owned(b) {
      var j :| 0 <= j < |b| && b[j] == k;
      if j != i { DistinctPlaces(b, hdr, end, i, j); }
    }
  }

  lemma ResizedIsNew(b: seq<Blk>, hdr: nat, end: nat, i: nat, k: Blk)
    requires Tiled(b, hdr, end) && hdr > 0 && i < |b| && k.at == b[i].at
    ensures k !in Owned(b) - {b[i]}
  {
    hide Tiled;
    if k in Owned(b) - {b[i]} {
      var j :| 0 <= j < |b| && b[j] == k;
      DistinctPlaces(b, hdr, end, i, j);
    }
  }

  /** Every byte in use under `b` is the same in both memories. */
  ghost predicate Same(d: seq<Byte>, e: seq<Byte>, b: seq<Blk>, hdr: nat) {
    |d| == |e| && forall a :: 0 <= a < |d| && Live(b, hdr, a) ==> d[a] == e[a]
  }
}
