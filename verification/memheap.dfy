/**
 The memheap allocator of `memheap.c`, on blocks: an address-ordered block ring,
 a second ring through the free blocks, first fit in the order of that second
 ring, and running totals of the free space.
 */
module MemHeap {
  import opened Alignment
  import opened Arithmetic
  import opened HeapBytes
  import opened HeapShape
  import opened Sequences
  import opened Tiling

  /** `RT_MEMHEAP_MINIALLOC` */
  const MINI: nat := 12

  /** `RT_ALIGN_SIZE` and `RT_MEMHEAP_SIZE` of one build. */
  datatype Config = Config(align: nat, hdr: nat) {
    predicate Valid() { align > 0 && hdr > 0 }
  }

  /** Blocks in address order, free blocks in ring order, `available_size` and `max_used_size`. */
  datatype Heap = Heap(b: seq<Blk>, f: seq<nat>, avail: int, peak: int)

  function FreePayload(hdr: nat): Blk -> int {
    (k: Blk) => if k.used then 0 else Payload(k, hdr)
  }

  ghost predicate IsFree(b: seq<Blk>, x: nat) {
    exists i :: 0 <= i < |b| && b[i].at == x && !b[i].used
  }

  /** The free ring holds exactly the free blocks, once each. */
  ghost predicate RingMatches(b: seq<Blk>, f: seq<nat>) {
    Distinct(f) && forall x :: x in f <==> IsFree(b, x)
  }

  /** `pool_size` is the heap up to its tail header, plus that header. */
  ghost predicate Good(h: Heap, c: Config, end: nat) {
    && c.Valid()
    && Tiled(h.b, c.hdr, end) && Coalesced(h.b)
    && RingMatches(h.b, h.f)
    && h.avail == Total(h.b, FreePayload(c.hdr))
    && end + c.hdr - h.avail <= h.peak
  }

  function Index(b: seq<Blk>, x: nat): (r: nat)
    ensures r <= |b| && (r < |b| ==> b[r].at == x) && forall j :: 0 <= j < r ==> b[j].at != x
  {
    if b == [] || b[0].at == x then 0
    else
      assert forall j :: 0 < j < |b| ==> b[j] == b[1..][j - 1];
      1 + Index(b[1..], x)
  }

  predicate Fits(b: seq<Blk>, hdr: nat, x: nat, size: nat) {
    var i := Index(b, x);
    i < |b| && Payload(b[i], hdr) >= size
  }

  /** The first block in ring order with room for `size`, or the length of the ring. */
  function Search(b: seq<Blk>, f: seq<nat>, hdr: nat, size: nat): (r: nat)
    ensures r <= |f| && (r < |f| ==> Fits(b, hdr, f[r], size))
    ensures forall k :: 0 <= k < r ==> !Fits(b, hdr, f[k], size)
  {
    if f == [] || Fits(b, hdr, f[0], size) then 0
    else
      assert forall j :: 0 < j < |f| ==> f[j] == f[1..][j - 1];
      1 + Search(b, f[1..], hdr, size)
  }

  function Rounded(n: nat, c: Config): nat
    requires c.Valid()
  {
    var size := Up(n, c.align);
    if size < MINI then MINI else size
  }

  function Mark(h: Heap, c: Config, end: nat): Heap {
    h.(peak := if end + c.hdr - h.avail > h.peak then end + c.hdr - h.avail else h.peak)
  }

  /** Takes free block `i`, cutting off the rest when it can stand on its own. */
  function Take(h: Heap, i: nat, size: nat, c: Config, end: nat): Heap
    requires i < |h.b|
  {
    var k := h.b[i];
    var cut := k.at + c.hdr + size;
    if Payload(k, c.hdr) >= size + c.hdr + MINI then
      Mark(h.(b := Split(h.b, i, cut, true), f := [cut] + Without(h.f, k.at), avail := h.avail - size - c.hdr), c, end)
    else
      Mark(h.(b := Flag(h.b, i, true), f := Without(h.f, k.at), avail := h.avail - Payload(k, c.hdr)), c, end)
  }

  function Alloc(h: Heap, n: nat, c: Config, end: nat): (Heap, Ptr)
    requires c.Valid()
  {
    var size := Rounded(n, c);
    var k := Search(h.b, h.f, c.hdr, size);
    if size >= h.avail || k == |h.f| then (h, Null)
    else (Take(h, Index(h.b, h.f[k]), size, c, end), At(h.f[k] + c.hdr))
  }

  /** The block becomes part of a free left neighbour, which is on the ring already. */
  function MergeLeft(h: Heap, i: nat, c: Config): Heap
    requires 0 < i < |h.b|
  {
    h.(b := Join(h.b, i - 1), avail := h.avail + c.hdr)
  }

  /** The block swallows a free right neighbour, which leaves the ring. */
  function MergeRight(h: Heap, i: nat, c: Config): Heap
    requires i + 1 < |h.b|
  {
    h.(b := Join(h.b, i), f := Without(h.f, h.b[i + 1].at), avail := h.avail + c.hdr)
  }

  function Free(h: Heap, i: nat, c: Config): Heap
    requires i < |h.b|
  {
    var left := i > 0 && !h.b[i - 1].used;
    var h0 := h.(b := Flag(h.b, i, false), avail := h.avail + Payload(h.b[i], c.hdr));
    var j := if left then i - 1 else i;
    var h1 := if left then MergeLeft(h0, i, c) else h0;
    var h2 := if j + 1 < |h1.b| && !h1.b[j + 1].used then MergeRight(h1, j, c) else h1;
    if left then h2 else h2.(f := [h.b[i].at] + h2.f)
  }

  /** Room for growing in place: the right neighbour is free and would keep more than `MINI` bytes. */
  predicate Grows(b: seq<Blk>, i: nat, size: nat, hdr: nat)
    requires i < |b|
  {
    && size > Payload(b[i], hdr)
    && i + 1 < |b| && !b[i + 1].used
    && Payload(b[i + 1], hdr) + Payload(b[i], hdr) > size + MINI
  }

  function Grow(h: Heap, i: nat, size: nat, c: Config, end: nat): Heap
    requires i + 1 < |h.b|
  {
    var cut := h.b[i].at + c.hdr + size;
    Mark(h.(b := Split(Join(h.b, i), i, cut, true),
            f := [cut] + Without(h.f, h.b[i + 1].at),
            avail := h.avail - (size - Payload(h.b[i], c.hdr))), c, end)
  }

  predicate Shrinks(b: seq<Blk>, i: nat, size: nat, hdr: nat)
    requires i < |b|
  {
    size + hdr + MINI < Payload(b[i], hdr)
  }

  function Shrink(h: Heap, i: nat, size: nat, c: Config): Heap
    requires i < |h.b|
  {
    var cut := h.b[i].at + c.hdr + size;
    var s := Split(h.b, i, cut, true);
    if i + 1 < |h.b| && !h.b[i + 1].used then
      h.(b := Join(s, i + 1), f := [cut] + Without(h.f, h.b[i + 1].at),
         avail := h.avail - Payload(h.b[i + 1], c.hdr) + (h.b[i + 1].next - cut - c.hdr))
    else
      h.(b := s, f := [cut] + h.f, avail := h.avail + (h.b[i].next - cut - c.hdr))
  }

  /** `p` is null, or the pointer to used block `i`. */
  predicate Names(h: Heap, p: Ptr, i: nat, c: Config) {
    p.At? ==> i < |h.b| && h.b[i].used && p.offset == h.b[i].at + c.hdr
  }

  /** The block an allocation takes: the first in ring order that fits. */
  function Chosen(h: Heap, size: nat, c: Config): (j: nat)
    ensures j <= |h.b|
  {
    var k := Search(h.b, h.f, c.hdr, size);
    if k < |h.f| then Index(h.b, h.f[k]) else |h.b|
  }

  /** The moving half of `rt_memheap_realloc`: take a new block, then free the old one. */
  function Move(h: Heap, i: nat, size: nat, c: Config, end: nat): (Heap, Ptr)
    requires c.Valid()
  {
    var want := Rounded(size, c);
    var j := Chosen(h, want, c);
    if want >= h.avail || j == |h.b| then (h, Null)
    else
      var t := Take(h, j, want, c, end);
      var m := MovedTo(h.b, t.b, i, j);
      (if m < |t.b| then Free(t, m, c) else t, At(h.b[j].at + c.hdr))
  }

  /** `rt_memheap_realloc` */
  function Realloc(h: Heap, p: Ptr, i: nat, n: nat, c: Config, end: nat): (Heap, Ptr)
    requires c.Valid() && Names(h, p, i, c)
  {
    var size := Rounded(n, c);
    if n == 0 then (if p.At? then Free(h, i, c) else h, Null)
    else if p.Null? then Alloc(h, size, c, end)
    else if size > Payload(h.b[i], c.hdr) then
      if Grows(h.b, i, size, c.hdr) then (Grow(h, i, size, c, end), p) else Move(h, i, size, c, end)
    else if Shrinks(h.b, i, size, c.hdr) then (Shrink(h, i, size, c), p)
    else (h, p)
  }

  /* Which blocks are free after each edit */

  lemma FreeIndex(b: seq<Blk>, hdr: nat, end: nat, i: nat, x: nat)
    requires Tiled(b, hdr, end) && hdr > 0 && i < |b| && b[i].at == x
    ensures IsFree(b, x) <==> !b[i].used
    ensures Index(b, x) == i
  {
    OrderedAll(b, hdr, end);
  }

  lemma FlagFree(b: seq<Blk>, hdr: nat, end: nat, i: nat, used: bool)
    requires Tiled(b, hdr, end) && hdr > 0 && i < |b|
    ensures forall x :: IsFree(Flag(b, i, used), x) <==> (if x == b[i].at then !used else IsFree(b, x))
  {
    var s := Flag(b, i, used);
    FlagTiled(b, hdr, end, i, used);
    FreeIndex(s, hdr, end, i, b[i].at);
    forall x | x != b[i].at ensures IsFree(s, x) <==> IsFree(b, x) {
      if IsFree(s, x) { var j :| 0 <= j < |s| && s[j].at == x && !s[j].used; assert b[j] == s[j]; }
      if IsFree(b, x) { var j :| 0 <= j < |b| && b[j].at == x && !b[j].used; assert b[j] == s[j]; }
    }
  }

  lemma SplitFreeAt(b: seq<Blk>, i: nat, cut: nat, x: nat)
    requires i < |b| && x != b[i].at && x != cut
    ensures IsFree(Split(b, i, cut, true), x) <==> IsFree(b, x)
  {
    SplitAt(b, i, cut, true);
    var s := Split(b, i, cut, true);
    if IsFree(s, x) {
      var j :| 0 <= j < |s| && s[j].at == x && !s[j].used;
      assert b[if j < i then j else j - 1] == s[j];
    }
    if IsFree(b, x) {
      var j :| 0 <= j < |b| && b[j].at == x && !b[j].used;
      assert s[if j < i then j else j + 1] == b[j];
    }
  }

  lemma SplitFree(b: seq<Blk>, hdr: nat, end: nat, i: nat, cut: nat)
    requires Tiled(b, hdr, end) && hdr > 0 && i < |b| && b[i].at + hdr <= cut && cut + hdr <= b[i].next
    ensures forall x :: IsFree(Split(b, i, cut, true), x) <==> x == cut || (x != b[i].at && IsFree(b, x))
  {
    hide Tiled, Split, IsFree;
    SplitAt(b, i, cut, true);
    SplitTiled(b, hdr, end, i, cut, true);
    var s := Split(b, i, cut, true);
    FreeIndex(s, hdr, end, i, b[i].at);
    FreeIndex(s, hdr, end, i + 1, cut);
    forall x | x != b[i].at && x != cut ensures IsFree(s, x) <==> IsFree(b, x) {
      SplitFreeAt(b, i, cut, x);
    }
  }

  lemma JoinFreeAt(b: seq<Blk>, hdr: nat, end: nat, i: nat, x: nat)
    requires Tiled(b, hdr, end) && hdr > 0 && i + 1 < |b|
    ensures IsFree(Join(b, i), x) <==> x != b[i + 1].at && IsFree(b, x)
  {
    hide Tiled;
    JoinAt(b, i);
    var s := Join(b, i);
    if IsFree(s, x) {
      var j :| 0 <= j < |s| && s[j].at == x && !s[j].used;
      var m := if j <= i then j else j + 1;
      assert b[m].at == x && !b[m].used;
      DistinctPlaces(b, hdr, end, m, i + 1);
    }
    if x != b[i + 1].at && IsFree(b, x) {
      var j :| 0 <= j < |b| && b[j].at == x && !b[j].used;
      var m := if j <= i then j else j - 1;
      assert s[m].at == x && !s[m].used;
    }
  }

  lemma JoinFree(b: seq<Blk>, hdr: nat, end: nat, i: nat)
    requires Tiled(b, hdr, end) && hdr > 0 && i + 1 < |b|
    ensures forall x :: IsFree(Join(b, i), x) <==> x != b[i + 1].at && IsFree(b, x)
  {
    forall x ensures IsFree(Join(b, i), x) <==> x != b[i + 1].at && IsFree(b, x) {
      JoinFreeAt(b, hdr, end, i, x);
    }
  }

  /* The ring after each edit */

  lemma WithoutIs(f: seq<nat>, x: nat)
    requires Distinct(f)
    ensures Distinct(Without(f, x)) && forall y :: y in Without(f, x) <==> y in f && y != x
  {
    WithoutKeepsDistinct(f, x);
  }

  lemma PushIs(f: seq<nat>, x: nat)
    requires Distinct(f) && x !in f
    ensures Distinct([x] + f) && forall y :: y in [x] + f <==> y == x || y in f
  {
    ConcatDistinct([x], f);
  }

  /* Every operation keeps the heap good */

  lemma CutIsNew(b: seq<Blk>, f: seq<nat>, hdr: nat, end: nat, i: nat, cut: nat)
    requires Tiled(b, hdr, end) && hdr > 0 && RingMatches(b, f) && i < |b| && b[i].at < cut < b[i].next
    ensures cut !in f
  {
    if IsFree(b, cut) {
      var j :| 0 <= j < |b| && b[j].at == cut && !b[j].used;
      OrderedAll(b, hdr, end);
    }
  }

  lemma TakeGood(h: Heap, i: nat, size: nat, c: Config, end: nat)
    requires Good(h, c, end) && i < |h.b| && !h.b[i].used && Payload(h.b[i], c.hdr) >= size >= MINI
    ensures Good(Take(h, i, size, c, end), c, end)
  {
    hide Tiled, Total, IsFree, Distinct, Without, Coalesced;
    var k, w := h.b[i], FreePayload(c.hdr);
    var cut := k.at + c.hdr + size;
    WithoutIs(h.f, k.at);
    FreeIndex(h.b, c.hdr, end, i, k.at);
    if Payload(k, c.hdr) >= size + c.hdr + MINI {
      SplitTiled(h.b, c.hdr, end, i, cut, true);
      SplitTotal(h.b, i, cut, true, w);
      SplitFree(h.b, c.hdr, end, i, cut);
      SplitCoalesced(h.b, i, cut);
      CutIsNew(h.b, h.f, c.hdr, end, i, cut);
      PushIs(Without(h.f, k.at), cut);
    } else {
      FlagTiled(h.b, c.hdr, end, i, true);
      FlagTotal(h.b, i, true, w);
      FlagFree(h.b, c.hdr, end, i, true);
      FlagCoalesced(h.b, i);
    }
  }

  lemma FlagCoalesced(b: seq<Blk>, i: nat)
    requires i < |b| && Coalesced(b)
    ensures Coalesced(Flag(b, i, true)) && CoalescedExceptAt(Flag(b, i, false), i)
  {
  }

  /** The ring lacks block `y`, which is free but not yet linked. */
  ghost predicate RingLacks(b: seq<Blk>, f: seq<nat>, y: nat) {
    Distinct(f) && forall x :: x in f <==> IsFree(b, x) && x != y
  }

  lemma MergeRightRing(b: seq<Blk>, f: seq<nat>, hdr: nat, end: nat, i: nat, y: nat)
    requires Tiled(b, hdr, end) && hdr > 0 && i + 1 < |b|
    ensures RingLacks(b, f, y) ==> RingLacks(Join(b, i), Without(f, b[i + 1].at), y)
    ensures RingMatches(b, f) ==> RingMatches(Join(b, i), Without(f, b[i + 1].at))
  {
    hide Tiled, IsFree;
    JoinFree(b, hdr, end, i);
    if Distinct(f) {
      WithoutIs(f, b[i + 1].at);
    }
  }

  lemma JoinAvail(b: seq<Blk>, i: nat, hdr: nat, end: nat)
    requires Tiled(b, hdr, end) && i + 1 < |b| && !b[i].used && !b[i + 1].used
    ensures Total(Join(b, i), FreePayload(hdr)) == Total(b, FreePayload(hdr)) + hdr
  {
    JoinTotal(b, i, FreePayload(hdr));
    assert b[i].next == b[i + 1].at;
  }

  /** Freeing as far as the left neighbour goes. */
  ghost predicate HalfFreed(h: Heap, j: nat, left: bool, at: nat, c: Config, end: nat) {
    && Tiled(h.b, c.hdr, end) && j < |h.b| && !h.b[j].used && CoalescedExceptAt(h.b, j)
    && (j > 0 ==> h.b[j - 1].used)
    && h.avail == Total(h.b, FreePayload(c.hdr))
    && (if left then RingMatches(h.b, h.f) else h.b[j].at == at && RingLacks(h.b, h.f, at))
  }

  lemma FreeLeft(h: Heap, i: nat, c: Config, end: nat)
    requires Good(h, c, end) && i < |h.b| && h.b[i].used
    ensures var left := i > 0 && !h.b[i - 1].used;
            var h0 := h.(b := Flag(h.b, i, false), avail := h.avail + Payload(h.b[i], c.hdr));
            HalfFreed(if left then MergeLeft(h0, i, c) else h0, if left then i - 1 else i, left, h.b[i].at, c, end)
  {
    hide Tiled, Total, IsFree, Distinct;
    var h0 := h.(b := Flag(h.b, i, false), avail := h.avail + Payload(h.b[i], c.hdr));
    FlagTiled(h.b, c.hdr, end, i, false);
    FlagTotal(h.b, i, false, FreePayload(c.hdr));
    FlagFree(h.b, c.hdr, end, i, false);
    FlagCoalesced(h.b, i);
    FreeIndex(h.b, c.hdr, end, i, h.b[i].at);
    if i > 0 && !h.b[i - 1].used {
      if i > 1 {
        assert h.b[i - 2].used;
      }
      JoinTiled(h0.b, c.hdr, end, i - 1);
      JoinAvail(h0.b, i - 1, c.hdr, end);
      JoinAt(h0.b, i - 1);
      JoinCoalesced(h0.b, i - 1);
      JoinFree(h0.b, c.hdr, end, i - 1);
    }
  }

  lemma FreeRight(h: Heap, j: nat, left: bool, at: nat, c: Config, end: nat)
    requires c.Valid() && HalfFreed(h, j, left, at, c, end)
    ensures var r := if j + 1 < |h.b| && !h.b[j + 1].used then MergeRight(h, j, c) else h;
            var g := if left then r else r.(f := [at] + r.f);
            && Tiled(g.b, c.hdr, end) && Coalesced(g.b) && RingMatches(g.b, g.f)
            && g.avail == Total(g.b, FreePayload(c.hdr))
  {
    hide Tiled, Total, IsFree, Distinct, Without;
    FreeIndex(h.b, c.hdr, end, j, h.b[j].at);
    if j + 1 < |h.b| && !h.b[j + 1].used {
      if j + 2 < |h.b| {
        assert h.b[j + 1].used || h.b[j + 2].used;
      }
      JoinTiled(h.b, c.hdr, end, j);
      JoinAvail(h.b, j, c.hdr, end);
      JoinCoalesced(h.b, j);
      MergeRightRing(h.b, h.f, c.hdr, end, j, at);
      if !left {
        JoinAt(h.b, j);
        FreeIndex(Join(h.b, j), c.hdr, end, j, at);
        PushIs(Without(h.f, h.b[j + 1].at), at);
      }
    } else if !left {
      PushIs(h.f, at);
    }
  }

  lemma FreeGood(h: Heap, i: nat, c: Config, end: nat)
    requires Good(h, c, end) && i < |h.b| && h.b[i].used
    ensures Good(Free(h, i, c), c, end)
  {
    hide Tiled, Total, RingMatches, RingLacks, Coalesced, CoalescedExceptAt, HalfFreed;
    var left := i > 0 && !h.b[i - 1].used;
    var h0 := h.(b := Flag(h.b, i, false), avail := h.avail + Payload(h.b[i], c.hdr));
    FreeLeft(h, i, c, end);
    FreeRight(if left then MergeLeft(h0, i, c) else h0, if left then i - 1 else i, left, h.b[i].at, c, end);
    PayloadNatural(h.b, c.hdr, end, i);
  }

  lemma PayloadNatural(b: seq<Blk>, hdr: nat, end: nat, i: nat)
    requires Tiled(b, hdr, end) && i < |b|
    ensures Payload(b[i], hdr) >= 0
  {
  }

  lemma GrowGood(h: Heap, i: nat, size: nat, c: Config, end: nat)
    requires Good(h, c, end) && i < |h.b| && h.b[i].used && Grows(h.b, i, size, c.hdr)
    ensures Good(Grow(h, i, size, c, end), c, end)
  {
    hide Tiled, Total, IsFree, Distinct, Without, Coalesced, CoalescedExceptAt;
    var k, n, w := h.b[i], h.b[i + 1], FreePayload(c.hdr);
    var cut := k.at + c.hdr + size;
    var s := Join(h.b, i);
    JoinAt(h.b, i);
    JoinTiled(h.b, c.hdr, end, i);
    Adjacent(h.b, c.hdr, end, i);
    SplitTiled(s, c.hdr, end, i, cut, true);
    JoinTotal(h.b, i, w);
    SplitTotal(s, i, cut, true, w);
    JoinFree(h.b, c.hdr, end, i);
    SplitFree(s, c.hdr, end, i, cut);
    FreeIndex(h.b, c.hdr, end, i, k.at);
    MergeRightRing(h.b, h.f, c.hdr, end, i, 0);
    CutIsNew(s, Without(h.f, n.at), c.hdr, end, i, cut);
    PushIs(Without(h.f, n.at), cut);
    GrowCoalesced(h.b, i, cut);
  }

  lemma Adjacent(b: seq<Blk>, hdr: nat, end: nat, i: nat)
    requires Tiled(b, hdr, end) && i + 1 < |b|
    ensures b[i].next == b[i + 1].at
  {
  }

  lemma GrowCoalesced(b: seq<Blk>, i: nat, cut: nat)
    requires i + 1 < |b| && b[i].used && !b[i + 1].used && Coalesced(b)
    ensures Coalesced(Split(Join(b, i), i, cut, true))
  {
    JoinAt(b, i);
    SplitAt(Join(b, i), i, cut, true);
    var s := Split(Join(b, i), i, cut, true);
    assert |s| == |b|;
    forall k, m | 0 <= k && m == k + 1 && m < |s| ensures s[k].used || s[m].used {
      assert b[k].used || b[m].used;
      assert s[k].used == b[k].used && s[m].used == b[m].used;
    }
  }

  lemma ShrinkGood(h: Heap, i: nat, size: nat, c: Config, end: nat)
    requires Good(h, c, end) && i < |h.b| && h.b[i].used && Shrinks(h.b, i, size, c.hdr)
    ensures Good(Shrink(h, i, size, c), c, end)
  {
    hide Tiled, Total, IsFree, Distinct, Without;
    var k, w := h.b[i], FreePayload(c.hdr);
    var cut := k.at + c.hdr + size;
    var s := Split(h.b, i, cut, true);
    SplitAt(h.b, i, cut, true);
    SplitTiled(h.b, c.hdr, end, i, cut, true);
    SplitTotal(h.b, i, cut, true, w);
    SplitFree(h.b, c.hdr, end, i, cut);
    SplitCoalesced(h.b, i, cut);
    FreeIndex(h.b, c.hdr, end, i, k.at);
    FreeIndex(s, c.hdr, end, i + 1, cut);
    CutIsNew(h.b, h.f, c.hdr, end, i, cut);
    if i + 1 < |h.b| && !h.b[i + 1].used {
      ShrinkMerge(h, i, size, c, end);
    } else {
      PushIs(h.f, cut);
      ShrinkAlone(h.b, i, cut);
    }
  }

  lemma ShrinkAlone(b: seq<Blk>, i: nat, cut: nat)
    requires i < |b| && Coalesced(b) && (i + 1 < |b| ==> b[i + 1].used)
    ensures Coalesced(Split(b, i, cut, true))
  {
    SplitCoalesced(b, i, cut);
    SplitAt(b, i, cut, true);
    var s := Split(b, i, cut, true);
    forall k, m | 0 <= k && m == k + 1 && m < |s| ensures s[k].used || s[m].used {
      if k != i + 1 && m != i + 1 {
      } else if k == i + 1 {
        assert s[m] == b[i + 1];
      }
    }
  }

  lemma ShrinkMergeRing(b: seq<Blk>, f: seq<nat>, hdr: nat, end: nat, i: nat, cut: nat)
    requires Tiled(b, hdr, end) && hdr > 0 && RingMatches(b, f) && i + 1 < |b| && b[i].used && !b[i + 1].used
    requires b[i].at + hdr <= cut && cut + hdr <= b[i].next
    requires i + 2 < |Split(b, i, cut, true)|
    ensures RingMatches(Join(Split(b, i, cut, true), i + 1), [cut] + Without(f, b[i + 1].at))
  {
    hide Tiled, IsFree, Split, Join, Distinct, Without;
    var s, n := Split(b, i, cut, true), b[i + 1];
    SplitAt(b, i, cut, true);
    SplitTiled(b, hdr, end, i, cut, true);
    SplitFree(b, hdr, end, i, cut);
    FreeIndex(b, hdr, end, i, b[i].at);
    CutIsNew(b, f, hdr, end, i, cut);
    MergeRightRing(s, f, hdr, end, i + 1, cut);
    DistinctPlaces(s, hdr, end, i + 1, i + 2);
    JoinFree(s, hdr, end, i + 1);
    WithoutIs(f, n.at);
    PushIs(Without(f, n.at), cut);
  }

  lemma ShrinkMergeBlocks(b: seq<Blk>, hdr: nat, end: nat, i: nat, cut: nat)
    requires Tiled(b, hdr, end) && Coalesced(b) && i + 1 < |b| && b[i].used && !b[i + 1].used
    requires b[i].at + hdr <= cut && cut + hdr <= b[i].next
    ensures var s := Split(b, i, cut, true);
            && |s| == |b| + 1
            && Tiled(Join(s, i + 1), hdr, end) && Coalesced(Join(s, i + 1))
            && Total(Join(s, i + 1), FreePayload(hdr))
               == Total(b, FreePayload(hdr)) - Payload(b[i + 1], hdr) + (b[i + 1].next - cut - hdr)
  {
    if i + 2 < |b| {
      assert b[i + 1].used || b[i + 2].used;
    }
    hide Tiled, Total, Coalesced, CoalescedExceptAt, Split, Join;
    var s := Split(b, i, cut, true);
    SplitAt(b, i, cut, true);
    SplitTiled(b, hdr, end, i, cut, true);
    SplitTotal(b, i, cut, true, FreePayload(hdr));
    SplitCoalesced(b, i, cut);
    Adjacent(b, hdr, end, i);
    JoinTiled(s, hdr, end, i + 1);
    JoinAvail(s, i + 1, hdr, end);
    JoinCoalesced(s, i + 1);
  }

  lemma ShrinkMerge(h: Heap, i: nat, size: nat, c: Config, end: nat)
    requires Good(h, c, end) && i < |h.b| && h.b[i].used && Shrinks(h.b, i, size, c.hdr)
    requires i + 1 < |h.b| && !h.b[i + 1].used
    ensures Good(Shrink(h, i, size, c), c, end)
  {
    hide Tiled, Total, RingMatches, Without, Coalesced, Split, Join;
    var cut := h.b[i].at + c.hdr + size;
    ShrinkMergeBlocks(h.b, c.hdr, end, i, cut);
    ShrinkMergeRing(h.b, h.f, c.hdr, end, i, cut);
    Adjacent(h.b, c.hdr, end, i);
  }

  /* Moving */

  lemma ChosenFits(h: Heap, size: nat, c: Config, end: nat)
    requires Good(h, c, end)
    ensures var j, k := Chosen(h, size, c), Search(h.b, h.f, c.hdr, size);
            && (k == |h.f| <==> j == |h.b|)
            && (k < |h.f| ==> j < |h.b| && !h.b[j].used && Payload(h.b[j], c.hdr) >= size && h.b[j].at == h.f[k])
  {
    hide Tiled, Coalesced, Total, IsFree;
    var k := Search(h.b, h.f, c.hdr, size);
    if k < |h.f| {
      var j := Index(h.b, h.f[k]);
      assert h.f[k] in h.f;
      FreeIndex(h.b, c.hdr, end, j, h.f[k]);
    }
  }

  lemma AllocIs(h: Heap, n: nat, c: Config, end: nat)
    requires Good(h, c, end)
    ensures var want := Rounded(n, c); var j := Chosen(h, want, c);
            Alloc(h, n, c, end) == if want >= h.avail || j == |h.b| then (h, Null)
                                   else (Take(h, j, want, c, end), At(h.b[j].at + c.hdr))
  {
    hide Take;
    ChosenFits(h, Rounded(n, c), c, end);
  }

  lemma TakeTakes(h: Heap, j: nat, size: nat, c: Config, end: nat)
    requires j < |h.b| && !h.b[j].used && Payload(h.b[j], c.hdr) >= size
    ensures var t := Take(h, j, size, c, end).b;
            Taken(h.b, t, j, h.b[j].at + c.hdr + size) && j < |t| && Payload(t[j], c.hdr) >= size
  {
    SplitAt(h.b, j, h.b[j].at + c.hdr + size, true);
  }

  /** Where the old block stands once the new one is taken. */
  lemma MoveIs(h: Heap, i: nat, size: nat, c: Config, end: nat)
    requires Good(h, c, end) && i < |h.b| && h.b[i].used
    ensures var want := Rounded(size, c); var j := Chosen(h, want, c);
            want < h.avail && j < |h.b| ==>
              && !h.b[j].used && Payload(h.b[j], c.hdr) >= want
              && var t := Take(h, j, want, c, end);
                 var m := MovedTo(h.b, t.b, i, j);
                 m < |t.b| && t.b[m] == h.b[i] && m != j && j < |t.b|
                 && Move(h, i, size, c, end) == (Free(t, m, c), At(h.b[j].at + c.hdr))
  {
    hide Take, Free, Taken, MovedTo;
    var want := Rounded(size, c);
    var j := Chosen(h, want, c);
    ChosenFits(h, want, c, end);
    if want < h.avail && j < |h.b| {
      TakeTakes(h, j, want, c, end);
      TakenIndex(h.b, Take(h, j, want, c, end).b, j, h.b[j].at + c.hdr + want, i);
    }
  }

  lemma AllocGood(h: Heap, n: nat, c: Config, end: nat)
    requires Good(h, c, end)
    ensures var g := Alloc(h, n, c, end).0; Good(g, c, end) && g.peak == Larger(h.peak, UsedSize(g, c, end))
  {
    hide Tiled, Coalesced, Total, RingMatches, Split, Without;
    AllocIs(h, n, c, end);
    ChosenFits(h, Rounded(n, c), c, end);
    var size := Rounded(n, c);
    var j := Chosen(h, size, c);
    if size < h.avail && j < |h.b| {
      TakeGood(h, j, size, c, end);
    }
  }

  lemma MoveGood(h: Heap, i: nat, size: nat, c: Config, end: nat)
    requires Good(h, c, end) && i < |h.b| && h.b[i].used
    ensures Good(Move(h, i, size, c, end).0, c, end)
  {
    hide Tiled, Coalesced, Total, RingMatches, Take, Free, MovedTo;
    var want := Rounded(size, c);
    var j := Chosen(h, want, c);
    ChosenFits(h, want, c, end);
    MoveIs(h, i, size, c, end);
    if want < h.avail && j < |h.b| {
      TakeGood(h, j, want, c, end);
      var t := Take(h, j, want, c, end);
      FreeGood(t, MovedTo(h.b, t.b, i, j), c, end);
    }
  }

  /* Runs */

  datatype Action = DoAlloc(n: nat) | DoFree(i: nat) | DoRealloc(p: Ptr, i: nat, n: nat)

  ghost predicate Enabled(h: Heap, a: Action, c: Config) {
    match a
    case DoAlloc(_) => true
    case DoFree(i) => i < |h.b| && h.b[i].used
    case DoRealloc(p, i, _) => Names(h, p, i, c)
  }

  ghost function Step(h: Heap, a: Action, c: Config, end: nat): Heap
    requires c.Valid() && Enabled(h, a, c)
  {
    match a
    case DoAlloc(n) => Alloc(h, n, c, end).0
    case DoFree(i) => Free(h, i, c)
    case DoRealloc(p, i, n) => Realloc(h, p, i, n, c, end).0
  }

  function UsedSize(h: Heap, c: Config, end: nat): int { end + c.hdr - h.avail }

  /** The most that is in use at any moment of a step: a moving realloc holds both blocks for a while. */
  ghost function Top(h: Heap, a: Action, c: Config, end: nat): int
    requires c.Valid() && Enabled(h, a, c)
  {
    var after := UsedSize(Step(h, a, c, end), c, end);
    match a
    case DoRealloc(p, i, n) =>
      var r := Realloc(h, p, i, n, c, end).1;
      if p.At? && r.At? && r != p then UsedSize(Alloc(h, Rounded(n, c), c, end).0, c, end) else after
    case _ => after
  }

  lemma ReallocGood(h: Heap, p: Ptr, i: nat, n: nat, c: Config, end: nat)
    requires Good(h, c, end) && Names(h, p, i, c)
    ensures Good(Realloc(h, p, i, n, c, end).0, c, end)
  {
    hide Tiled, Coalesced, Total, RingMatches, Alloc, Free, Grow, Shrink, Move;
    var size := Rounded(n, c);
    if n == 0 {
      if p.At? { FreeGood(h, i, c, end); }
    } else if p.Null? {
      AllocGood(h, size, c, end);
    } else if Grows(h.b, i, size, c.hdr) {
      GrowGood(h, i, size, c, end);
    } else if size > Payload(h.b[i], c.hdr) {
      MoveGood(h, i, size, c, end);
    } else if Shrinks(h.b, i, size, c.hdr) {
      ShrinkGood(h, i, size, c, end);
    }
  }

  lemma {:induction false} FreeAvail(h: Heap, i: nat, c: Config, end: nat)
    requires Good(h, c, end) && i < |h.b|
    ensures Free(h, i, c).avail >= h.avail && Free(h, i, c).peak == h.peak
  {
    PayloadNatural(h.b, c.hdr, end, i);
  }

  /** A moved block is a different one, and between its two halves the heap holds both. */
  lemma MoveTop(h: Heap, i: nat, size: nat, c: Config, end: nat)
    requires Good(h, c, end) && i < |h.b| && h.b[i].used
    ensures var (g, r) := Move(h, i, size, c, end);
            && (r.Null? ==> g == h)
            && (r.At? ==>
                 && r.offset != h.b[i].at + c.hdr
                 && g.peak == Larger(h.peak, UsedSize(Alloc(h, size, c, end).0, c, end))
                 && UsedSize(g, c, end) <= UsedSize(Alloc(h, size, c, end).0, c, end))
  {
    hide Tiled, Coalesced, Total, RingMatches, Take, Free, MovedTo;
    var want := Rounded(size, c);
    var j := Chosen(h, want, c);
    MoveIs(h, i, size, c, end);
    AllocIs(h, size, c, end);
    ChosenFits(h, want, c, end);
    if want < h.avail && j < |h.b| {
      DistinctPlaces(h.b, c.hdr, end, i, j);
      AllocGood(h, size, c, end);
      var t := Take(h, j, want, c, end);
      FreeAvail(t, MovedTo(h.b, t.b, i, j), c, end);
    }
  }

  lemma ReallocTop(h: Heap, p: Ptr, i: nat, n: nat, c: Config, end: nat)
    requires Good(h, c, end) && Names(h, p, i, c)
    ensures var a := DoRealloc(p, i, n);
            && UsedSize(Step(h, a, c, end), c, end) <= Top(h, a, c, end)
            && Step(h, a, c, end).peak == Larger(h.peak, Top(h, a, c, end))
  {
    hide Tiled, Coalesced, Total, RingMatches, Alloc, Free, Move, Split, Join, Without;
    var size := Rounded(n, c);
    if p.Null? {
      AllocGood(h, size, c, end);
    } else {
      FreeAvail(h, i, c, end);
      MoveTop(h, i, size, c, end);
      ShrinkAvail(h, i, size, c, end);
    }
  }

  lemma ShrinkAvail(h: Heap, i: nat, size: nat, c: Config, end: nat)
    requires Good(h, c, end) && i < |h.b| && h.b[i].used
    ensures Shrinks(h.b, i, size, c.hdr) ==> Shrink(h, i, size, c).avail >= h.avail && Shrink(h, i, size, c).peak == h.peak
  {
    if i + 1 < |h.b| {
      Adjacent(h.b, c.hdr, end, i);
    }
  }

  lemma StepGood(h: Heap, a: Action, c: Config, end: nat)
    requires Good(h, c, end) && Enabled(h, a, c)
    ensures Good(Step(h, a, c, end), c, end) && UsedSize(Step(h, a, c, end), c, end) <= Top(h, a, c, end)
    ensures Step(h, a, c, end).peak == Larger(h.peak, Top(h, a, c, end))
  {
    hide Tiled, Coalesced, Total, RingMatches, Alloc, Free, Move, Grow, Shrink;
    match a
    case DoAlloc(n) => AllocGood(h, n, c, end);
    case DoFree(i) => FreeGood(h, i, c, end); FreeAvail(h, i, c, end);
    case DoRealloc(p, i, n) =>
      ReallocGood(h, p, i, n, c, end);
      ReallocTop(h, p, i, n, c, end);
  }

  ghost predicate Legal(h: Heap, run: seq<Action>, c: Config, end: nat)
    requires c.Valid()
    decreases |run|
  {
    run == [] || (Enabled(h, run[0], c) && Legal(Step(h, run[0], c, end), run[1..], c, end))
  }

  ghost function After(h: Heap, run: seq<Action>, c: Config, end: nat): Heap
    requires c.Valid() && Legal(h, run, c, end)
    decreases |run|
  {
    if run == [] then h else After(Step(h, run[0], c, end), run[1..], c, end)
  }

  /** The most that was ever in use along the run, headers included, and inside its steps too. */
  ghost function HighWater(h: Heap, run: seq<Action>, c: Config, end: nat): int
    requires c.Valid() && Legal(h, run, c, end)
    decreases |run|
  {
    var here := UsedSize(h, c, end);
    if run == [] then here
    else Larger(here, Larger(Top(h, run[0], c, end), HighWater(Step(h, run[0], c, end), run[1..], c, end)))
  }

  lemma {:induction false} EveryRunIsGood(h: Heap, run: seq<Action>, c: Config, end: nat)
    requires Good(h, c, end) && Legal(h, run, c, end)
    ensures Good(After(h, run, c, end), c, end)
    ensures After(h, run, c, end).peak == Larger(h.peak, HighWater(h, run, c, end))
    decreases |run|
  {
    hide Tiled, Coalesced, Total, RingMatches, Step, Top, Enabled;
    if run != [] {
      StepGood(h, run[0], c, end);
      EveryRunIsGood(Step(h, run[0], c, end), run[1..], c, end);
    }
  }

  /* What an allocation returns */

  lemma {:induction false} TotalAtLeast(b: seq<Blk>, hdr: nat, i: nat)
    requires i < |b| && forall k :: 0 <= k < |b| ==> Payload(b[k], hdr) >= 0
    ensures Total(b, FreePayload(hdr)) >= FreePayload(hdr)(b[i])
    decreases |b|
  {
    assert forall k :: 0 < k < |b| ==> b[k] == b[1..][k - 1];
    if i > 0 {
      TotalAtLeast(b[1..], hdr, i - 1);
    } else {
      TotalNatural(b[1..], hdr);
    }
  }

  lemma {:induction false} TotalNatural(b: seq<Blk>, hdr: nat)
    requires forall k :: 0 <= k < |b| ==> Payload(b[k], hdr) >= 0
    ensures Total(b, FreePayload(hdr)) >= 0
    decreases |b|
  {
    if b != [] {
      assert forall k :: 0 < k < |b| ==> b[k] == b[1..][k - 1];
      TotalNatural(b[1..], hdr);
    }
  }

  ghost predicate SomeFits(h: Heap, hdr: nat, size: nat) {
    exists k :: 0 <= k < |h.f| && Fits(h.b, hdr, h.f[k], size)
  }

  /**
   An allocation fails although a free block has room exactly when the request
   equals everything that is available; otherwise it fails only for want of a
   block, and takes the first that fits in ring order.
   */
  lemma AllocFailsExactlyWhen(h: Heap, n: nat, c: Config, end: nat)
    requires Good(h, c, end)
    ensures var size := Rounded(n, c);
            var (g, p) := Alloc(h, n, c, end);
            && (p.Null? && SomeFits(h, c.hdr, size) <==> size == h.avail && SomeFits(h, c.hdr, size))
            && (p.Null? ==> g == h)
            && (p.At? ==> SomeFits(h, c.hdr, size) && p.offset - c.hdr in h.f && Rounded(n, c) >= n)
  {
    var size := Rounded(n, c);
    if SomeFits(h, c.hdr, size) {
      var k :| 0 <= k < |h.f| && Fits(h.b, c.hdr, h.f[k], size);
      var i := Index(h.b, h.f[k]);
      assert h.f[k] in h.f;
      FreeIndex(h.b, c.hdr, end, i, h.f[k]);
      TotalAtLeast(h.b, c.hdr, i);
    }
  }

  /** A fresh heap refuses its own capacity and grants anything smaller that leaves it whole. */
  lemma FreshHeapRefusesItsCapacity(c: Config, end: nat)
    requires c.Valid() && end >= c.hdr + MINI && IsAligned(end - c.hdr, c.align)
    ensures var h := Heap([Blk(0, end, false)], [0], end - c.hdr, 2 * c.hdr);
            Good(h, c, end) && Fits(h.b, c.hdr, 0, end - c.hdr) && Alloc(h, end - c.hdr, c, end).1.Null?
  {
    var h := Heap([Blk(0, end, false)], [0], end - c.hdr, 2 * c.hdr);
    TotalSmall(h.b[0], h.b[0], FreePayload(c.hdr));
    assert h.b[0].at == 0;
    assert forall x :: IsFree(h.b, x) <==> x == 0;
  }

  /* What a reallocation leaves behind */

  /** Merging left first gives the same blocks as merging right first. */
  lemma FreeBlocksAre(h: Heap, i: nat, c: Config)
    requires i < |h.b|
    ensures Free(h, i, c).b == Plug(Flag(h.b, i, false), i)
  {
    var g := Flag(h.b, i, false);
    if i > 0 && !g[i - 1].used {
      JoinAt(g, i - 1);
      if i + 1 < |g| && !g[i + 1].used {
        JoinAt(g, i);
        assert Join(Join(g, i - 1), i - 1) == Join(Join(g, i), i - 1);
      }
    }
  }

  lemma FreeOwned(h: Heap, i: nat, c: Config, end: nat)
    requires Good(h, c, end) && i < |h.b| && h.b[i].used
    ensures Owned(Free(h, i, c).b) == Owned(h.b) - {h.b[i]}
  {
    hide Tiled, Coalesced, Total, RingMatches, Plug, Free;
    FreeBlocksAre(h, i, c);
    FlagOwned(h.b, c.hdr, end, i, false);
    PlugOwned(Flag(h.b, i, false), i);
  }

  lemma TakeOwned(h: Heap, i: nat, size: nat, c: Config, end: nat)
    requires Good(h, c, end) && i < |h.b| && !h.b[i].used && Payload(h.b[i], c.hdr) >= size
    ensures var t := Take(h, i, size, c, end);
            i < |t.b| && t.b[i].used && t.b[i].at == h.b[i].at && Payload(t.b[i], c.hdr) >= size
            && Owned(t.b) == Owned(h.b) + {t.b[i]} && t.b[i] !in Owned(h.b)
            && Payload(t.b[i], c.hdr) == if Payload(h.b[i], c.hdr) >= size + c.hdr + MINI then size else Payload(h.b[i], c.hdr)
  {
    hide Tiled, Coalesced, Total, RingMatches, Without;
    var cut := h.b[i].at + c.hdr + size;
    SplitAt(h.b, i, cut, true);
    SplitOwned(h.b, c.hdr, end, i, cut);
    FlagOwned(h.b, c.hdr, end, i, true);
    NewIsNotOwned(h.b, c.hdr, end, i, Take(h, i, size, c, end).b[i]);
  }

  lemma ShrinkOwned(h: Heap, i: nat, size: nat, c: Config, end: nat)
    requires Good(h, c, end) && i < |h.b| && h.b[i].used
    ensures Owned(Shrink(h, i, size, c).b) == Owned(h.b) - {h.b[i]} + {Blk(h.b[i].at, h.b[i].at + c.hdr + size, true)}
  {
    hide Tiled, Coalesced, Total, RingMatches, Split, Join, Without;
    var cut := h.b[i].at + c.hdr + size;
    SplitAt(h.b, i, cut, true);
    SplitOwned(h.b, c.hdr, end, i, cut);
    if i + 1 < |h.b| && !h.b[i + 1].used {
      JoinOwned(Split(h.b, i, cut, true), i + 1);
    }
  }

  lemma JoinUsedOwned(b: seq<Blk>, hdr: nat, end: nat, i: nat)
    requires Tiled(b, hdr, end) && hdr > 0 && i + 1 < |b| && b[i].used && !b[i + 1].used
    ensures Owned(Join(b, i)) == Owned(b) - {b[i]} + {Blk(b[i].at, b[i + 1].next, true)}
  {
    hide Tiled, Join;
    JoinAt(b, i);
    var s := Join(b, i);
    forall k ensures k in Owned(s) <==> (k in Owned(b) && k != b[i]) || k == Blk(b[i].at, b[i + 1].next, true) {
      if k in s && k.used {
        var j :| 0 <= j < |s| && s[j] == k;
        if j != i {
          var m := if j < i then j else j + 1;
          assert k == b[m];
          DistinctPlaces(b, hdr, end, m, i);
        }
      }
      if k in b && k.used && k != b[i] {
        var j :| 0 <= j < |b| && b[j] == k;
        assert s[if j < i then j else j - 1] == k;
      }
      assert s[i] in s;
    }
  }

  lemma GrowOwned(h: Heap, i: nat, size: nat, c: Config, end: nat)
    requires Good(h, c, end) && i < |h.b| && h.b[i].used && Grows(h.b, i, size, c.hdr)
    ensures Owned(Grow(h, i, size, c, end).b) == Owned(h.b) - {h.b[i]} + {Blk(h.b[i].at, h.b[i].at + c.hdr + size, true)}
  {
    hide Tiled, Coalesced, Total, RingMatches, Split, Join, Without;
    var cut, s := h.b[i].at + c.hdr + size, Join(h.b, i);
    JoinAt(h.b, i);
    JoinTiled(h.b, c.hdr, end, i);
    JoinUsedOwned(h.b, c.hdr, end, i);
    SplitOwned(s, c.hdr, end, i, cut);
    ResizedIsNew(h.b, c.hdr, end, i, s[i]);
  }

  /** `k` has taken the place of block `i`, at `r`, with room for `n` bytes; every other block in use is as it was. */
  ghost predicate Replaced(h: Heap, g: Heap, i: nat, k: Blk, r: Ptr, n: nat, c: Config) {
    && i < |h.b| && r.At? && k.used && r.offset == k.at + c.hdr && Payload(k, c.hdr) >= n
    && Owned(g.b) == Owned(h.b) - {h.b[i]} + {k} && k !in Owned(h.b) - {h.b[i]}
  }

  /** A block of the wanted size, or with less beyond it than a block of its own would need. */
  predicate Tight(k: Blk, want: nat, c: Config) {
    want <= Payload(k, c.hdr) < want + c.hdr + MINI
  }

  lemma MoveReplaces(h: Heap, i: nat, size: nat, c: Config, end: nat)
    requires Good(h, c, end) && i < |h.b| && h.b[i].used && Move(h, i, size, c, end).1.At?
    ensures var (g, r) := Move(h, i, size, c, end);
            exists k :: Replaced(h, g, i, k, r, size, c) && k.at != h.b[i].at && Tight(k, Rounded(size, c), c)
  {
    hide Tiled, Coalesced, Total, RingMatches, Take, Free, MovedTo;
    var want := Rounded(size, c);
    var j := Chosen(h, want, c);
    ChosenFits(h, want, c, end);
    MoveIs(h, i, size, c, end);
    TakeOwned(h, j, want, c, end);
    TakeGood(h, j, want, c, end);
    var t := Take(h, j, want, c, end);
    FreeOwned(t, MovedTo(h.b, t.b, i, j), c, end);
    DistinctPlaces(h.b, c.hdr, end, i, j);
    var (g, r) := Move(h, i, size, c, end);
    assert h.b[i] in h.b;
    assert Replaced(h, g, i, t.b[j], r, size, c);
  }

  /** A new block is called for: there is no old one, or it is too small and cannot grow. */
  predicate NeedsBlock(h: Heap, p: Ptr, i: nat, size: nat, c: Config)
    requires Names(h, p, i, c)
  {
    p.Null? || (size > Payload(h.b[i], c.hdr) && !Grows(h.b, i, size, c.hdr))
  }

  /** The request is all that is available, or more, or no free block has room for it. */
  ghost predicate Refuses(h: Heap, size: nat, c: Config)
    requires c.Valid()
  {
    Rounded(size, c) >= h.avail || !SomeFits(h, c.hdr, Rounded(size, c))
  }

  lemma AllocNull(h: Heap, size: nat, c: Config, end: nat)
    requires Good(h, c, end)
    ensures Alloc(h, size, c, end).1.Null? <==> Refuses(h, size, c)
    ensures Alloc(h, size, c, end).1.Null? ==> Alloc(h, size, c, end).0 == h
    ensures forall i: nat :: Move(h, i, size, c, end).1.Null? <==> Refuses(h, size, c)
    ensures forall i: nat :: Move(h, i, size, c, end).1.Null? ==> Move(h, i, size, c, end).0 == h
  {
    hide Take, Free;
    var want := Rounded(size, c);
    ChosenFits(h, want, c, end);
    var k := Search(h.b, h.f, c.hdr, want);
    if SomeFits(h, c.hdr, want) {
      var m :| 0 <= m < |h.f| && Fits(h.b, c.hdr, h.f[m], want);
      assert k <= m;
    }
  }

  /** What requests are rounded to. */
  lemma RoundedIs(n: nat, c: Config)
    requires c.Valid()
    ensures var r := Rounded(n, c); n <= r && MINI <= r && (r == MINI || (IsAligned(r, c.align) && r < n + c.align))
  {
  }

  /**
   `k` has been taken out of the free block `i`, which no block in front of it in
   the ring could have stood in for: all of `i`, or just the wanted size if the
   rest can stand on its own and is now first in the ring. All other blocks, used
   and free, are where they were.
   */
  ghost predicate Took(h: Heap, g: Heap, p: Ptr, i: nat, k: Blk, want: nat, c: Config) {
    && i < |h.b| && !h.b[i].used && k.used && k.at == h.b[i].at && Tight(k, want, c) && p == At(k.at + c.hdr)
    && (if Payload(h.b[i], c.hdr) >= want + c.hdr + MINI then Payload(k, c.hdr) == want else k.next == h.b[i].next)
    && k !in Owned(h.b) && Owned(g.b) == Owned(h.b) + {k}
    && Vacant(g.b) == Vacant(h.b) - {h.b[i]} + (if k.next < h.b[i].next then {Blk(k.next, h.b[i].next, false)} else {})
    && g.f == (if k.next < h.b[i].next then [k.next] else []) + Without(h.f, k.at)
    && (exists r :: 0 <= r < |h.f| && h.f[r] == k.at && forall q :: 0 <= q < r ==> !Fits(h.b, c.hdr, h.f[q], want))
    && h.avail - g.avail == Payload(k, c.hdr) + (if k.next < h.b[i].next then c.hdr else 0)
  }

  lemma TakeTook(h: Heap, i: nat, want: nat, c: Config, end: nat, r: nat)
    requires Good(h, c, end) && i < |h.b| && !h.b[i].used && Payload(h.b[i], c.hdr) >= want && MINI <= want
    requires r < |h.f| && h.f[r] == h.b[i].at && forall q :: 0 <= q < r ==> !Fits(h.b, c.hdr, h.f[q], want)
    ensures var g := Take(h, i, want, c, end); i < |g.b| && Took(h, g, At(h.b[i].at + c.hdr), i, g.b[i], want, c)
  {
    hide Tiled, Coalesced, Total, RingMatches, Fits, Without;
    TakeOwned(h, i, want, c, end);
    SplitVacant(h.b, c.hdr, end, i, h.b[i].at + c.hdr + want);
    TakenVacant(h.b, c.hdr, end, i);
    SplitAt(h.b, i, h.b[i].at + c.hdr + want, true);
  }

  /** An allocation takes the first block of the ring that fits, and of it no more than it must. */
  lemma AllocTakesLittle(h: Heap, n: nat, c: Config, end: nat)
    requires Good(h, c, end) && Alloc(h, n, c, end).1.At?
    ensures var (g, p) := Alloc(h, n, c, end);
            var want := Rounded(n, c);
            (exists i: nat, k :: Took(h, g, p, i, k, want, c)) && h.avail - g.avail < want + c.hdr + MINI
  {
    hide Tiled, Coalesced, Total, RingMatches, Take, Took, Fits;
    var want := Rounded(n, c);
    var j := Chosen(h, want, c);
    AllocIs(h, n, c, end);
    ChosenFits(h, want, c, end);
    var g := Take(h, j, want, c, end);
    TakeTook(h, j, want, c, end, Search(h.b, h.f, c.hdr, want));
    assert Alloc(h, n, c, end) == (g, At(h.b[j].at + c.hdr));
    TookLittle(h, g, At(h.b[j].at + c.hdr), j, g.b[j], want, c);
  }

  lemma TookLittle(h: Heap, g: Heap, p: Ptr, i: nat, k: Blk, want: nat, c: Config)
    requires Took(h, g, p, i, k, want, c)
    ensures h.avail - g.avail < want + c.hdr + MINI
  {
  }

  /** The free ring after a release: the block comes first, unless it joins a free one below; one above leaves the ring. */
  lemma FreeRing(h: Heap, i: nat, c: Config)
    requires i < |h.b|
    ensures var below, above := i > 0 && !h.b[i - 1].used, i + 1 < |h.b| && !h.b[i + 1].used;
            Free(h, i, c).f == (if below then [] else [h.b[i].at]) + (if above then Without(h.f, h.b[i + 1].at) else h.f)
  {
    hide Without;
    var g := Flag(h.b, i, false);
    if i > 0 && !g[i - 1].used {
      JoinAt(g, i - 1);
    }
  }

  /**
   Realloc keeps a block where it is exactly if it is large enough or the next one
   is free and has enough to give; then the block is cut to the wanted size, but
   for a rest too small to stand on its own. A block that moves is taken as by an
   allocation.
   */
  lemma ReallocIsTight(h: Heap, i: nat, n: nat, c: Config, end: nat)
    requires Good(h, c, end) && i < |h.b| && h.b[i].used && n > 0
    ensures var p, size, had := At(h.b[i].at + c.hdr), Rounded(n, c), Payload(h.b[i], c.hdr);
            var (g, r) := Realloc(h, p, i, n, c, end);
            var above := i + 1 < |h.b| && !h.b[i + 1].used && had + Payload(h.b[i + 1], c.hdr) > size + MINI;
            && (r == p <==> size <= had || above)
            && (r == p ==> exists k :: Replaced(h, g, i, k, r, n, c) && k.at == h.b[i].at
                            && Payload(k, c.hdr) == if size > had || had > size + c.hdr + MINI then size else had)
            && (r.At? && r != p ==> exists k :: Replaced(h, g, i, k, r, n, c) && Tight(k, Rounded(size, c), c))
  {
    hide Tiled, Coalesced, Total, RingMatches, Alloc, Move, Free, Grow, Shrink, Refuses, Rounded, Owned;
    var p, size, had := At(h.b[i].at + c.hdr), Rounded(n, c), Payload(h.b[i], c.hdr);
    var (g, r) := Realloc(h, p, i, n, c, end);
    var k := Blk(h.b[i].at, h.b[i].at + c.hdr + size, true);
    RoundedIs(n, c);
    ResizedIsNew(h.b, c.hdr, end, i, k);
    OwnedAt(h.b, i);
    if Grows(h.b, i, size, c.hdr) {
      GrowOwned(h, i, size, c, end);
      assert Replaced(h, g, i, k, r, n, c);
    } else if size > had {
      if r.At? {
        MoveReplaces(h, i, size, c, end);
        var m :| Replaced(h, g, i, m, r, size, c) && m.at != h.b[i].at && Tight(m, Rounded(size, c), c);
        assert Replaced(h, g, i, m, r, n, c);
      }
    } else if Shrinks(h.b, i, size, c.hdr) {
      ShrinkOwned(h, i, size, c, end);
      assert Replaced(h, g, i, k, r, n, c);
    } else {
      assert Replaced(h, g, i, h.b[i], r, n, c);
    }
  }

  /**
   Realloc fails exactly for size zero, or when it needs a block and the request
   is refused one. A failure changes nothing, except that size zero frees; a
   success replaces one block and leaves every other one in place.
   */
  lemma ReallocReplaces(h: Heap, p: Ptr, i: nat, n: nat, c: Config, end: nat)
    requires Good(h, c, end) && Names(h, p, i, c)
    ensures var (g, r) := Realloc(h, p, i, n, c, end);
            var size := Rounded(n, c);
            && (r.Null? <==> n == 0 || (NeedsBlock(h, p, i, size, c) && Refuses(h, size, c)))
            && (r.Null? && !(n == 0 && p.At?) ==> g == h)
            && (n == 0 && p.At? ==> Owned(g.b) == Owned(h.b) - {h.b[i]})
            && (p.At? && r.At? ==> exists k :: Replaced(h, g, i, k, r, n, c))
  {
    hide Tiled, Coalesced, Total, RingMatches, Alloc, Move, Free, Grow, Shrink, Refuses;
    var (g, r) := Realloc(h, p, i, n, c, end);
    var size := Rounded(n, c);
    AllocNull(h, size, c, end);
    if p.At? {
      var k := Blk(h.b[i].at, h.b[i].at + c.hdr + size, true);
      assert h.b[i] in h.b;
      ResizedIsNew(h.b, c.hdr, end, i, k);
      if n == 0 {
        FreeOwned(h, i, c, end);
      } else if Grows(h.b, i, size, c.hdr) {
        GrowOwned(h, i, size, c, end);
        assert Replaced(h, g, i, k, r, n, c);
      } else if size > Payload(h.b[i], c.hdr) {
        if r.At? {
          MoveReplaces(h, i, size, c, end);
          var m :| Replaced(h, g, i, m, r, size, c);
          assert Replaced(h, g, i, m, r, n, c);
        }
      } else if Shrinks(h.b, i, size, c.hdr) {
        ShrinkOwned(h, i, size, c, end);
        assert Replaced(h, g, i, k, r, n, c);
      } else {
        assert Replaced(h, g, i, h.b[i], r, n, c);
      }
    }
  }

  /* Undoing */

  lemma InPlace(b: seq<Blk>, hdr: nat, end: nat, m: nat, k: Blk)
    requires Tiled(b, hdr, end) && hdr > 0 && m < |b| && k in b && k.at == b[m].at
    ensures b[m] == k
  {
    var j :| 0 <= j < |b| && b[j] == k;
    if j != m {
      DistinctPlaces(b, hdr, end, j, m);
    }
  }

  /** Freeing what was just allocated gives back the blocks and what was available. */
  lemma AllocThenFree(h: Heap, n: nat, m: nat, c: Config, end: nat)
    requires Good(h, c, end)
    requires var (g, p) := Alloc(h, n, c, end); p.At? && m < |g.b| && g.b[m].used && p.offset == g.b[m].at + c.hdr
    ensures var e := Free(Alloc(h, n, c, end).0, m, c); e.b == h.b && e.avail == h.avail
  {
    hide Tiled, Coalesced, Total, RingMatches, Alloc, Free;
    var (g, p) := Alloc(h, n, c, end);
    var want := Rounded(n, c);
    AllocTakesLittle(h, n, c, end);
    var i: nat, k :| Took(h, g, p, i, k, want, c);
    AllocGood(h, n, c, end);
    assert k in Owned(g.b);
    InPlace(g.b, c.hdr, end, m, k);
    FreeOwned(g, m, c, end);
    FreeGood(g, m, c, end);
    SameOwnedSameBlocks(Free(g, m, c).b, h.b, c.hdr, end);
  }

  /** Freeing a block that was reallocated leaves the heap as freeing it at once would have. */
  lemma ReallocThenFree(h: Heap, i: nat, n: nat, m: nat, c: Config, end: nat)
    requires Good(h, c, end) && i < |h.b| && h.b[i].used && n > 0
    requires var (g, r) := Realloc(h, At(h.b[i].at + c.hdr), i, n, c, end);
             r.At? && m < |g.b| && g.b[m].used && r.offset == g.b[m].at + c.hdr
    ensures var (d, e) := (Free(h, i, c), Free(Realloc(h, At(h.b[i].at + c.hdr), i, n, c, end).0, m, c));
            e.b == d.b && e.avail == d.avail
  {
    hide Tiled, Coalesced, Total, RingMatches, Realloc, Free;
    var (g, r) := Realloc(h, At(h.b[i].at + c.hdr), i, n, c, end);
    ReallocReplaces(h, At(h.b[i].at + c.hdr), i, n, c, end);
    var k :| Replaced(h, g, i, k, r, n, c);
    ReallocGood(h, At(h.b[i].at + c.hdr), i, n, c, end);
    assert k in Owned(g.b);
    InPlace(g.b, c.hdr, end, m, k);
    FreeOwned(g, m, c, end);
    FreeOwned(h, i, c, end);
    FreeGood(g, m, c, end);
    FreeGood(h, i, c, end);
    SameOwnedSameBlocks(Free(g, m, c).b, Free(h, i, c).b, c.hdr, end);
  }
}
