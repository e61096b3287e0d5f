/**
 The small-memory heap of `mem.c`: headers in front of every block, linked by
 offset, with first-fit allocation from a cached lowest free block.
 */
module SmallMem {
  import opened Alignment
  import opened Arithmetic
  import opened HeapBytes
  import opened HeapShape
  import opened Tiling

  /** `RT_ALIGN_SIZE`, `SIZEOF_STRUCT_MEM` and `MIN_SIZE` of one build. */
  datatype Config = Config(align: nat, hdr: nat, min: nat) {
    predicate Valid() { align > 0 && hdr > 0 && IsAligned(hdr, align) && min > 0 }

    /** `MIN_SIZE_ALIGNED` */
    function MinAligned(): nat
      requires align > 0
    {
      Up(min, align)
    }
  }

  /* The heap as a sequence of blocks */

  predicate Fits(k: Blk, hdr: nat, size: nat) {
    !k.used && Payload(k, hdr) >= size
  }

  /** The lowest free block with room for `size`, or the number of blocks. */
  function Search(b: seq<Blk>, hdr: nat, size: nat): (r: nat)
    ensures r <= |b| && (r < |b| ==> Fits(b[r], hdr, size))
    ensures forall i :: 0 <= i < r ==> !Fits(b[i], hdr, size)
  {
    if b == [] || Fits(b[0], hdr, size) then 0
    else
      assert forall i :: 0 < i < |b| ==> b[i] == b[1..][i - 1];
      1 + Search(b[1..], hdr, size)
  }

  /** The lowest free block, or the number of blocks. */
  function FirstFree(b: seq<Blk>): (r: nat)
    ensures r <= |b| && (r < |b| ==> !b[r].used)
    ensures forall i :: 0 <= i < r ==> b[i].used
  {
    if b == [] || !b[0].used then 0
    else
      assert forall i :: 0 < i < |b| ==> b[i] == b[1..][i - 1];
      1 + FirstFree(b[1..])
  }

  function Offset(b: seq<Blk>, i: nat, end: nat): nat
    requires i <= |b|
  {
    if i < |b| then b[i].at else end
  }

  function UsedExtent(k: Blk): int { if k.used then k.next - k.at else 0 }

  datatype Heap = Heap(b: seq<Blk>, used: int, max: int)

  ghost predicate Good(h: Heap, c: Config, end: nat) {
    && c.Valid()
    && Tiled(h.b, c.hdr, end) && Aligned(h.b, c.align) && Coalesced(h.b)
    && h.used == Total(h.b, UsedExtent) && h.used <= h.max
  }

  function Take(h: Heap, i: nat, size: nat, c: Config): (r: Heap)
    requires i < |h.b| && c.Valid()
  {
    var k := h.b[i];
    var split := Payload(k, c.hdr) >= size + c.hdr + c.MinAligned();
    var used := h.used + if split then size + c.hdr else k.next - k.at;
    Heap(if split then Split(h.b, i, k.at + c.hdr + size, true) else Flag(h.b, i, true),
         used, if h.max < used then used else h.max)
  }

  /** The size a request is rounded to, or 0 when it is refused outright. */
  function Rounded(n: nat, c: Config, msa: int): nat
    requires c.Valid()
  {
    var size := Up(n, c.align);
    if n == 0 || size > msa then 0 else if size < c.MinAligned() then c.MinAligned() else size
  }

  function Alloc(h: Heap, n: nat, c: Config, end: nat): (Heap, Ptr)
    requires c.Valid()
  {
    var size := Rounded(n, c, end - c.hdr);
    var i := Search(h.b, c.hdr, size);
    if size == 0 || i == |h.b| then (h, Null) else (Take(h, i, size, c), At(h.b[i].at + c.hdr))
  }

  function Free(h: Heap, i: nat): Heap
    requires i < |h.b|
  {
    Heap(Plug(Flag(h.b, i, false), i), h.used - (h.b[i].next - h.b[i].at), h.max)
  }

  predicate Shrinks(k: Blk, size: nat, c: Config) {
    size + c.hdr + c.min < Payload(k, c.hdr)
  }

  /** The in-place half of `rt_smem_realloc`. */
  function Shrink(h: Heap, i: nat, size: nat, c: Config): Heap
    requires i < |h.b|
  {
    Heap(Plug(Split(h.b, i, h.b[i].at + c.hdr + size, true), i + 1), h.used - (Payload(h.b[i], c.hdr) - size), h.max)
  }

  /** `p` is null, or the pointer to used block `i`. */
  predicate Names(h: Heap, p: Ptr, i: nat, c: Config) {
    p.At? ==> i < |h.b| && h.b[i].used && p.offset == h.b[i].at + c.hdr
  }

  /** The moving half of `rt_smem_realloc`: take a new block, then free the old one. */
  function Move(h: Heap, i: nat, size: nat, c: Config, end: nat): (Heap, Ptr)
    requires c.Valid() && i < |h.b| && h.b[i].used
  {
    var want := Rounded(size, c, end - c.hdr);
    var j := Search(h.b, c.hdr, want);
    if want == 0 || j == |h.b| then (h, Null)
    else
      var t := Take(h, j, want, c);
      TakeTakes(h, j, want, c);
      TakenIndex(h.b, t.b, j, h.b[j].at + c.hdr + want, i);
      (Free(t, MovedTo(h.b, t.b, i, j)), At(h.b[j].at + c.hdr))
  }

  /** `rt_smem_realloc` */
  function Realloc(h: Heap, p: Ptr, i: nat, n: nat, c: Config, end: nat): (Heap, Ptr)
    requires c.Valid() && Names(h, p, i, c)
  {
    var size := Up(n, c.align);
    if size > end - c.hdr then (h, Null)
    else if size == 0 then (if p.At? then Free(h, i) else h, Null)
    else if p.Null? then Alloc(h, size, c, end)
    else if Payload(h.b[i], c.hdr) == size then (h, p)
    else if Shrinks(h.b[i], size, c) then (Shrink(h, i, size, c), p)
    else Move(h, i, size, c, end)
  }

  lemma TakeTakes(h: Heap, j: nat, size: nat, c: Config)
    requires c.Valid() && j < |h.b| && Fits(h.b[j], c.hdr, size)
    ensures var t := Take(h, j, size, c).b;
            Taken(h.b, t, j, h.b[j].at + c.hdr + size) && j < |t| && Payload(t[j], c.hdr) >= size
  {
    SplitAt(h.b, j, h.b[j].at + c.hdr + size, true);
  }

  lemma SplitGood(b: seq<Blk>, i: nat, size: nat, c: Config, end: nat)
    requires c.Valid() && Tiled(b, c.hdr, end) && Aligned(b, c.align) && i < |b|
    requires Payload(b[i], c.hdr) >= size + c.hdr && IsAligned(size, c.align)
    ensures var s := Split(b, i, b[i].at + c.hdr + size, true);
            && Tiled(s, c.hdr, end) && Aligned(s, c.align)
            && Total(s, UsedExtent) == Total(b, UsedExtent) - UsedExtent(b[i]) + c.hdr + size
  {
    hide IsAligned, Tiled, Total, Split;
    var cut := b[i].at + c.hdr + size;
    SplitTiled(b, c.hdr, end, i, cut, true);
    SplitTotal(b, i, cut, true, UsedExtent);
    SumIsAligned(b[i].at, c.hdr, c.align);
    SumIsAligned(b[i].at + c.hdr, size, c.align);
    SplitAligned(b, i, cut, true, c.align);
  }

  lemma TakeGood(h: Heap, i: nat, size: nat, c: Config, end: nat)
    requires Good(h, c, end) && i < |h.b| && Fits(h.b[i], c.hdr, size) && size > 0 && IsAligned(size, c.align)
    ensures Good(Take(h, i, size, c), c, end)
  {
    hide IsAligned, Tiled, Total;
    if Payload(h.b[i], c.hdr) >= size + c.hdr + c.MinAligned() {
      SplitGood(h.b, i, size, c, end);
      SplitCoalesced(h.b, i, h.b[i].at + c.hdr + size);
    } else {
      FlagTiled(h.b, c.hdr, end, i, true);
      FlagTotal(h.b, i, true, UsedExtent);
    }
  }

  /** One merge of two free neighbours. */
  lemma JoinGood(b: seq<Blk>, i: nat, hdr: nat, align: nat, end: nat)
    requires Tiled(b, hdr, end) && Aligned(b, align) && i + 1 < |b| && !b[i].used && !b[i + 1].used
    ensures Tiled(Join(b, i), hdr, end) && Aligned(Join(b, i), align)
    ensures Total(Join(b, i), UsedExtent) == Total(b, UsedExtent)
  {
    JoinTiled(b, hdr, end, i);
    JoinTotal(b, i, UsedExtent);
    JoinAligned(b, i, align);
  }

  lemma PlugGood(b: seq<Blk>, i: nat, hdr: nat, align: nat, end: nat)
    requires Tiled(b, hdr, end) && Aligned(b, align)
    requires i < |b| && !b[i].used && CoalescedExceptAt(b, i)
    ensures Tiled(Plug(b, i), hdr, end) && Aligned(Plug(b, i), align) && Coalesced(Plug(b, i))
    ensures Total(Plug(b, i), UsedExtent) == Total(b, UsedExtent)
  {
    hide Tiled, Aligned, Coalesced, CoalescedExceptAt, Total;
    PlugCoalesced(b, i);
    var f := b;
    if i + 1 < |b| && !b[i + 1].used {
      JoinGood(b, i, hdr, align, end);
      f := Join(b, i);
    }
    if i > 0 && !f[i - 1].used {
      JoinGood(f, i - 1, hdr, align, end);
    }
  }

  lemma FreeGood(h: Heap, i: nat, c: Config, end: nat)
    requires Good(h, c, end) && i < |h.b| && h.b[i].used
    ensures Good(Free(h, i), c, end)
  {
    FlagTiled(h.b, c.hdr, end, i, false);
    FlagTotal(h.b, i, false, UsedExtent);
    PlugGood(Flag(h.b, i, false), i, c.hdr, c.align, end);
  }

  lemma ShrinkGood(h: Heap, i: nat, size: nat, c: Config, end: nat)
    requires Good(h, c, end) && i < |h.b| && h.b[i].used && Shrinks(h.b[i], size, c) && IsAligned(size, c.align)
    ensures Good(Shrink(h, i, size, c), c, end)
  {
    hide IsAligned, Tiled, Total, Aligned, Coalesced, CoalescedExceptAt;
    var cut := h.b[i].at + c.hdr + size;
    SplitGood(h.b, i, size, c, end);
    SplitCoalesced(h.b, i, cut);
    SplitAt(h.b, i, cut, true);
    PlugGood(Split(h.b, i, cut, true), i + 1, c.hdr, c.align, end);
  }

  lemma RoundedIsAligned(n: nat, c: Config, msa: int)
    requires c.Valid()
    ensures IsAligned(Rounded(n, c, msa), c.align)
    ensures Rounded(n, c, msa) != 0 ==> n <= Rounded(n, c, msa)
  {
    MultipleIsAligned(0, c.align);
  }

  lemma MoveGood(h: Heap, i: nat, size: nat, c: Config, end: nat)
    requires Good(h, c, end) && i < |h.b| && h.b[i].used
    ensures Good(Move(h, i, size, c, end).0, c, end)
  {
    hide Tiled, Aligned, Coalesced, Total, IsAligned, Take, Free, Taken;
    var want := Rounded(size, c, end - c.hdr);
    var j := Search(h.b, c.hdr, want);
    if want != 0 && j < |h.b| {
      RoundedIsAligned(size, c, end - c.hdr);
      TakeGood(h, j, want, c, end);
      TakeTakes(h, j, want, c);
      var t := Take(h, j, want, c);
      TakenIndex(h.b, t.b, j, h.b[j].at + c.hdr + want, i);
      FreeGood(t, MovedTo(h.b, t.b, i, j), c, end);
    }
  }

  /* Runs */

  datatype Action = DoAlloc(n: nat) | DoFree(i: nat) | DoRealloc(p: Ptr, i: nat, n: nat)

  ghost predicate Enabled(h: Heap, a: Action, c: Config) {
    match a
    case DoAlloc(_) => true
    case DoFree(i) => i < |h.b| && h.b[i].used
    case DoRealloc(p, i, _) => Names(h, p, i, c)
  }

  ghost function Step(h: Heap, a: Action, c: Config, end: nat): Heap
    requires c.Valid() && Enabled(h, a, c)
  {
    match a
    case DoAlloc(n) => Alloc(h, n, c, end).0
    case DoFree(i) => Free(h, i)
    case DoRealloc(p, i, n) => Realloc(h, p, i, n, c, end).0
  }

  /** The most that is in use at any moment of a step: a moving realloc holds both blocks for a while. */
  ghost function Top(h: Heap, a: Action, c: Config, end: nat): int
    requires c.Valid() && Enabled(h, a, c)
  {
    var after := Step(h, a, c, end).used;
    match a
    case DoRealloc(p, i, n) =>
      var (g, r) := Realloc(h, p, i, n, c, end);
      if p.At? && r.At? && r != p then Alloc(h, Up(n, c.align), c, end).0.used else after
    case _ => after
  }

  lemma AllocGood(h: Heap, n: nat, c: Config, end: nat)
    requires Good(h, c, end)
    ensures var g := Alloc(h, n, c, end).0; Good(g, c, end) && g.max == if h.max < g.used then g.used else h.max
  {
    hide IsAligned, Tiled, Total, Aligned, Coalesced;
    var size := Rounded(n, c, end - c.hdr);
    var i := Search(h.b, c.hdr, size);
    if size != 0 && i < |h.b| {
      RoundedIsAligned(n, c, end - c.hdr);
      TakeGood(h, i, size, c, end);
    }
  }

  lemma ReallocGood(h: Heap, p: Ptr, i: nat, n: nat, c: Config, end: nat)
    requires Good(h, c, end) && Names(h, p, i, c)
    ensures Good(Realloc(h, p, i, n, c, end).0, c, end)
  {
    hide Tiled, Aligned, Coalesced, Total, IsAligned, Alloc, Free, Shrink, Move;
    var size := Up(n, c.align);
    if size == 0 <= end - c.hdr && p.At? {
      FreeGood(h, i, c, end);
    } else if 0 < size <= end - c.hdr {
      if p.Null? {
        AllocGood(h, size, c, end);
      } else if Shrinks(h.b[i], size, c) {
        ShrinkGood(h, i, size, c, end);
      } else {
        MoveGood(h, i, size, c, end);
      }
    }
  }

  /** A moved block is a different one, and between its two halves the heap holds both. */
  lemma MoveTop(h: Heap, i: nat, size: nat, c: Config, end: nat)
    requires Good(h, c, end) && i < |h.b| && h.b[i].used
    ensures var (g, r) := Move(h, i, size, c, end);
            && (r.Null? ==> g == h)
            && (r.At? ==>
                 && r.offset != h.b[i].at + c.hdr
                 && g.max == (var u := Alloc(h, size, c, end).0.used; if h.max < u then u else h.max)
                 && g.used <= Alloc(h, size, c, end).0.used)
  {
    hide IsAligned, Total, Aligned, Coalesced;
    var want := Rounded(size, c, end - c.hdr);
    var j := Search(h.b, c.hdr, want);
    if want != 0 && j < |h.b| {
      DistinctPlaces(h.b, c.hdr, end, i, j);
      AllocGood(h, size, c, end);
      TakeTakes(h, j, want, c);
      TakenIndex(h.b, Take(h, j, want, c).b, j, h.b[j].at + c.hdr + want, i);
    }
  }

  lemma StepGood(h: Heap, a: Action, c: Config, end: nat)
    requires Good(h, c, end) && Enabled(h, a, c)
    ensures Good(Step(h, a, c, end), c, end) && Step(h, a, c, end).used <= Top(h, a, c, end)
    ensures Step(h, a, c, end).max == if h.max < Top(h, a, c, end) then Top(h, a, c, end) else h.max
  {
    hide Tiled, Aligned, Coalesced, Total, Alloc, Move, IsAligned;
    match a
    case DoAlloc(n) => AllocGood(h, n, c, end);
    case DoFree(i) => FreeGood(h, i, c, end); ExtentNatural(h, i, c, end);
    case DoRealloc(p, i, n) =>
      ReallocGood(h, p, i, n, c, end);
      ReallocTop(h, p, i, n, c, end);
  }

  lemma ExtentNatural(h: Heap, i: nat, c: Config, end: nat)
    requires Good(h, c, end) && i < |h.b|
    ensures h.b[i].next - h.b[i].at >= c.hdr > 0
  {
  }

  lemma ReallocTop(h: Heap, p: Ptr, i: nat, n: nat, c: Config, end: nat)
    requires Good(h, c, end) && Names(h, p, i, c)
    ensures var a := DoRealloc(p, i, n);
            && Step(h, a, c, end).used <= Top(h, a, c, end)
            && Step(h, a, c, end).max == if h.max < Top(h, a, c, end) then Top(h, a, c, end) else h.max
  {
    hide Tiled, Aligned, Coalesced, Total, Alloc, Move, IsAligned;
    var size := Up(n, c.align);
    if p.At? {
      ExtentNatural(h, i, c, end);
      MoveTop(h, i, size, c, end);
    } else {
      AllocGood(h, size, c, end);
    }
  }

  ghost predicate Legal(h: Heap, run: seq<Action>, c: Config, end: nat)
    requires c.Valid()
    decreases |run|
  {
    run == [] || (Enabled(h, run[0], c) && Legal(Step(h, run[0], c, end), run[1..], c, end))
  }

  ghost function After(h: Heap, run: seq<Action>, c: Config, end: nat): Heap
    requires c.Valid() && Legal(h, run, c, end)
    decreases |run|
  {
    if run == [] then h else After(Step(h, run[0], c, end), run[1..], c, end)
  }

  /** The largest value `used` takes anywhere along the run, inside its steps too. */
  ghost function Peak(h: Heap, run: seq<Action>, c: Config, end: nat): int
    requires c.Valid() && Legal(h, run, c, end)
    decreases |run|
  {
    if run == [] then h.used
    else
      var rest := Larger(Top(h, run[0], c, end), Peak(Step(h, run[0], c, end), run[1..], c, end));
      Larger(h.used, rest)
  }

  /** In every run of alloc, free and realloc the blocks tile the heap, neighbours are never both free, and the statistics are exact. */
  lemma {:induction false} EveryRunIsGood(h: Heap, run: seq<Action>, c: Config, end: nat)
    requires Good(h, c, end) && Legal(h, run, c, end)
    ensures Good(After(h, run, c, end), c, end)
    ensures After(h, run, c, end).max == Larger(h.max, Peak(h, run, c, end))
    decreases |run|
  {
    hide Tiled, Aligned, Coalesced, Total, Step, Top, Enabled;
    if run != [] {
      StepGood(h, run[0], c, end);
      EveryRunIsGood(Step(h, run[0], c, end), run[1..], c, end);
    }
  }

  /* What a reallocation leaves behind */

  lemma TakeOwned(h: Heap, i: nat, size: nat, c: Config, end: nat)
    requires Good(h, c, end) && i < |h.b| && Fits(h.b[i], c.hdr, size)
    ensures var t := Take(h, i, size, c);
            i < |t.b| && t.b[i].used && t.b[i].at == h.b[i].at && Payload(t.b[i], c.hdr) >= size
            && Owned(t.b) == Owned(h.b) + {t.b[i]} && t.b[i] !in Owned(h.b)
            && Payload(t.b[i], c.hdr) == if Payload(h.b[i], c.hdr) >= size + c.hdr + c.MinAligned() then size else Payload(h.b[i], c.hdr)
  {
    hide Tiled, Aligned, Coalesced, Total;
    var cut := h.b[i].at + c.hdr + size;
    SplitAt(h.b, i, cut, true);
    SplitOwned(h.b, c.hdr, end, i, cut);
    FlagOwned(h.b, c.hdr, end, i, true);
    NewIsNotOwned(h.b, c.hdr, end, i, Take(h, i, size, c).b[i]);
  }

  lemma FreeOwned(h: Heap, i: nat, c: Config, end: nat)
    requires Good(h, c, end) && i < |h.b| && h.b[i].used
    ensures Owned(Free(h, i).b) == Owned(h.b) - {h.b[i]}
  {
    hide Tiled, Aligned, Coalesced, Total, Plug;
    FlagOwned(h.b, c.hdr, end, i, false);
    PlugOwned(Flag(h.b, i, false), i);
  }

  lemma ShrinkOwned(h: Heap, i: nat, size: nat, c: Config, end: nat)
    requires Good(h, c, end) && i < |h.b| && h.b[i].used
    ensures Owned(Shrink(h, i, size, c).b) == Owned(h.b) - {h.b[i]} + {Blk(h.b[i].at, h.b[i].at + c.hdr + size, true)}
  {
    hide Tiled, Aligned, Coalesced, Total, Plug, Split;
    var cut := h.b[i].at + c.hdr + size;
    SplitAt(h.b, i, cut, true);
    SplitOwned(h.b, c.hdr, end, i, cut);
    PlugOwned(Split(h.b, i, cut, true), i + 1);
  }

  /** `k` has taken the place of block `i`, at `r`, with room for `n` bytes; every other block in use is as it was. */
  ghost predicate Replaced(h: Heap, g: Heap, i: nat, k: Blk, r: Ptr, n: nat, c: Config) {
    && i < |h.b| && r.At? && k.used && r.offset == k.at + c.hdr && Payload(k, c.hdr) >= n
    && Owned(g.b) == Owned(h.b) - {h.b[i]} + {k} && k !in Owned(h.b) - {h.b[i]}
  }

  /** A block of the wanted size, or with less beyond it than a block of its own would need. */
  predicate Tight(k: Blk, want: nat, c: Config)
    requires c.Valid()
  {
    want <= Payload(k, c.hdr) < want + c.hdr + c.MinAligned()
  }

  lemma MoveReplaces(h: Heap, i: nat, size: nat, c: Config, end: nat)
    requires Good(h, c, end) && i < |h.b| && h.b[i].used && Move(h, i, size, c, end).1.At?
    ensures var (g, r) := Move(h, i, size, c, end);
            exists k :: Replaced(h, g, i, k, r, size, c) && k.at != h.b[i].at && Tight(k, Rounded(size, c, end - c.hdr), c)
  {
    hide Tiled, Aligned, Coalesced, Total, Take, Free, IsAligned, Taken;
    var want := Rounded(size, c, end - c.hdr);
    var j := Search(h.b, c.hdr, want);
    var t := Take(h, j, want, c);
    RoundedIsAligned(size, c, end - c.hdr);
    TakeTakes(h, j, want, c);
    TakenIndex(h.b, t.b, j, h.b[j].at + c.hdr + want, i);
    TakeOwned(h, j, want, c, end);
    TakeGood(h, j, want, c, end);
    FreeOwned(t, MovedTo(h.b, t.b, i, j), c, end);
    DistinctPlaces(h.b, c.hdr, end, i, j);
    var (g, r) := Move(h, i, size, c, end);
    assert h.b[i] in h.b;
    assert Replaced(h, g, i, t.b[j], r, size, c);
  }

  /** A new block is called for: there is no old one, or it neither has the size nor can be cut to it. */
  predicate NeedsBlock(h: Heap, p: Ptr, i: nat, size: nat, c: Config)
    requires Names(h, p, i, c)
  {
    p.Null? || (Payload(h.b[i], c.hdr) != size && !Shrinks(h.b[i], size, c))
  }

  predicate NoneFits(h: Heap, size: nat, c: Config, end: nat)
    requires c.Valid()
  {
    forall j :: 0 <= j < |h.b| ==> !Fits(h.b[j], c.hdr, Rounded(size, c, end - c.hdr))
  }

  lemma EndIsFar(h: Heap, c: Config, end: nat)
    requires Good(h, c, end)
    ensures end >= c.hdr
  {
    BelowEnd(h.b, c.hdr, end, 0);
  }

  /**
   Realloc fails exactly for a size beyond the heap, for size zero, or when it
   needs a block and none fits. A failure changes nothing, except that size zero
   frees; a success replaces one block and leaves every other one in place.
   */
  lemma ReallocReplaces(h: Heap, p: Ptr, i: nat, n: nat, c: Config, end: nat)
    requires Good(h, c, end) && Names(h, p, i, c)
    ensures var (g, r) := Realloc(h, p, i, n, c, end);
            var size := Up(n, c.align);
            && (r.Null? <==> n == 0 || size > end - c.hdr || (NeedsBlock(h, p, i, size, c) && NoneFits(h, size, c, end)))
            && (r.Null? && !(n == 0 && p.At?) ==> g == h)
            && (n == 0 && p.At? ==> Owned(g.b) == Owned(h.b) - {h.b[i]})
            && (p.At? && r.At? ==> exists k :: Replaced(h, g, i, k, r, n, c))
  {
    hide Tiled, Aligned, Coalesced, Total, IsAligned, Move, Free, Shrink, Up;
    var (g, r) := Realloc(h, p, i, n, c, end);
    var size := Up(n, c.align);
    UpOfZero(n, c.align);
    UpOfAligned(size, c.align);
    EndIsFar(h, c, end);
    if 0 < size <= end - c.hdr && p.At? {
      ExtentNatural(h, i, c, end);
      if Payload(h.b[i], c.hdr) == size {
        assert h.b[i] in h.b;
        assert Replaced(h, g, i, h.b[i], r, n, c);
      } else if Shrinks(h.b[i], size, c) {
        ShrinkOwned(h, i, size, c, end);
        ResizedIsNew(h.b, c.hdr, end, i, Blk(h.b[i].at, h.b[i].at + c.hdr + size, true));
        assert Replaced(h, g, i, Blk(h.b[i].at, h.b[i].at + c.hdr + size, true), r, n, c);
      } else {
        MoveNull(h, i, size, c, end);
        if r.At? {
          MoveReplaces(h, i, size, c, end);
          var k :| Replaced(h, g, i, k, r, size, c);
          assert Replaced(h, g, i, k, r, n, c);
        }
      }
    } else if size == 0 && p.At? {
      FreeOwned(h, i, c, end);
    }
  }

  lemma MoveNull(h: Heap, i: nat, size: nat, c: Config, end: nat)
    requires c.Valid() && i < |h.b| && h.b[i].used && 0 < size <= end - c.hdr && Up(size, c.align) == size
    ensures var (g, r) := Move(h, i, size, c, end);
            && (r.Null? <==> NoneFits(h, size, c, end))
            && (r.Null? ==> g == h)
  {
    hide Take, Free, Taken;
    var want := Rounded(size, c, end - c.hdr);
    var j := Search(h.b, c.hdr, want);
    if j < |h.b| {
      TakeTakes(h, j, want, c);
      TakenIndex(h.b, Take(h, j, want, c).b, j, h.b[j].at + c.hdr + want, i);
    }
  }

  /** First fit, in both directions: null exactly when no free block has room for the rounded request. */
  lemma AllocIsFirstFit(h: Heap, n: nat, c: Config, end: nat)
    requires Good(h, c, end)
    ensures var size := Rounded(n, c, end - c.hdr);
            var (h', p) := Alloc(h, n, c, end);
            && (p.Null? <==> size == 0 || forall i :: 0 <= i < |h.b| ==> !Fits(h.b[i], c.hdr, size))
            && (p.Null? ==> h' == h)
            && (p.At? ==> exists i :: 0 <= i < |h.b| && i < |h'.b| && p.offset == h.b[i].at + c.hdr
                           && Fits(h.b[i], c.hdr, size)
                           && (forall k :: 0 <= k < i ==> !Fits(h.b[k], c.hdr, size))
                           && h'.b[i].used && h'.b[i].at == h.b[i].at
                           && Payload(h'.b[i], c.hdr) >= n && IsAligned(p.offset, c.align))
  {
    var size := Rounded(n, c, end - c.hdr);
    var i := Search(h.b, c.hdr, size);
    if size != 0 && i < |h.b| {
      var k := h.b[i];
      SplitAt(h.b, i, k.at + c.hdr + size, true);
      SumIsAligned(k.at, c.hdr, c.align);
      assert Take(h, i, size, c).b[i].used && Payload(Take(h, i, size, c).b[i], c.hdr) >= size;
    }
  }

  /** What requests are rounded to, unless they are refused. */
  lemma RoundedIs(n: nat, c: Config, msa: int)
    requires c.Valid()
    ensures var r := Rounded(n, c, msa);
            && (r == 0 <==> n == 0 || Up(n, c.align) > msa)
            && (r != 0 ==> n <= r && c.min <= r && IsAligned(r, c.align) && (r < n + c.align || r < c.min + c.align))
  {
  }

  /**
   `k` has been taken out of the free block `i`, the lowest one that fits: all of
   it, or just the wanted size if the rest can stand on its own. All other blocks,
   used and free, are where they were.
   */
  ghost predicate Took(h: Heap, g: Heap, p: Ptr, i: nat, k: Blk, want: nat, c: Config)
    requires c.Valid()
  {
    && i < |h.b| && !h.b[i].used && k.used && k.at == h.b[i].at && Tight(k, want, c) && p == At(k.at + c.hdr)
    && (if Payload(h.b[i], c.hdr) >= want + c.hdr + c.MinAligned() then Payload(k, c.hdr) == want else k.next == h.b[i].next)
    && k !in Owned(h.b) && Owned(g.b) == Owned(h.b) + {k}
    && Vacant(g.b) == Vacant(h.b) - {h.b[i]} + (if k.next < h.b[i].next then {Blk(k.next, h.b[i].next, false)} else {})
    && (forall j :: 0 <= j < i ==> !Fits(h.b[j], c.hdr, want))
    && g.used - h.used == k.next - k.at
  }

  /** An allocation takes the lowest block that fits, and of it no more than it must. */
  lemma AllocTakesLittle(h: Heap, n: nat, c: Config, end: nat)
    requires Good(h, c, end) && Alloc(h, n, c, end).1.At?
    ensures var (g, p) := Alloc(h, n, c, end);
            var want := Rounded(n, c, end - c.hdr);
            (exists i: nat, k :: Took(h, g, p, i, k, want, c)) && g.used - h.used < want + 2 * c.hdr + c.MinAligned()
  {
    hide Tiled, Aligned, Coalesced, Total, Took, Take, Fits;
    var want := Rounded(n, c, end - c.hdr);
    var i := Search(h.b, c.hdr, want);
    TakeTook(h, i, want, c, end);
    var g := Take(h, i, want, c);
    TookLittle(h, g, At(h.b[i].at + c.hdr), i, g.b[i], want, c);
  }

  lemma TakeTook(h: Heap, i: nat, want: nat, c: Config, end: nat)
    requires Good(h, c, end) && i < |h.b| && Fits(h.b[i], c.hdr, want) && forall j :: 0 <= j < i ==> !Fits(h.b[j], c.hdr, want)
    ensures var g := Take(h, i, want, c); i < |g.b| && Took(h, g, At(h.b[i].at + c.hdr), i, g.b[i], want, c)
  {
    hide Tiled, Aligned, Coalesced, Total, Owned, Vacant, IsAligned, Split;
    MinIsPositive(c);
    TakeOwned(h, i, want, c, end);
    SplitVacant(h.b, c.hdr, end, i, h.b[i].at + c.hdr + want);
    TakenVacant(h.b, c.hdr, end, i);
    SplitAt(h.b, i, h.b[i].at + c.hdr + want, true);
  }

  lemma MinIsPositive(c: Config)
    requires c.Valid()
    ensures c.MinAligned() > 0
  {
  }

  lemma TookLittle(h: Heap, g: Heap, p: Ptr, i: nat, k: Blk, want: nat, c: Config)
    requires c.Valid() && Took(h, g, p, i, k, want, c)
    ensures g.used - h.used < want + 2 * c.hdr + c.MinAligned()
  {
  }

  /**
   Realloc keeps a block where it is exactly if it has the size already or so much
   more that the rest can stand on its own, and then it has just the size. A block
   that moves is taken as by an allocation.
   */
  lemma ReallocIsTight(h: Heap, i: nat, n: nat, c: Config, end: nat)
    requires Good(h, c, end) && i < |h.b| && h.b[i].used && 0 < n && Up(n, c.align) <= end - c.hdr
    ensures var p, size, had := At(h.b[i].at + c.hdr), Up(n, c.align), Payload(h.b[i], c.hdr);
            var (g, r) := Realloc(h, p, i, n, c, end);
            && (r == p <==> size == had || size + c.hdr + c.min < had)
            && (r == p ==> exists k :: Replaced(h, g, i, k, r, n, c) && k.at == h.b[i].at && Payload(k, c.hdr) == size)
            && (r.At? && r != p ==>
                  exists k :: Replaced(h, g, i, k, r, n, c) && Tight(k, Rounded(size, c, end - c.hdr), c))
  {
    hide Tiled, Aligned, Coalesced, Total, IsAligned, Move, Free, Shrink, Up, Owned;
    var p, size, had := At(h.b[i].at + c.hdr), Up(n, c.align), Payload(h.b[i], c.hdr);
    var (g, r) := Realloc(h, p, i, n, c, end);
    UpOfZero(n, c.align);
    OwnedAt(h.b, i);
    if had == size {
      assert Replaced(h, g, i, h.b[i], r, n, c);
    } else if Shrinks(h.b[i], size, c) {
      var k := Blk(h.b[i].at, h.b[i].at + c.hdr + size, true);
      ShrinkOwned(h, i, size, c, end);
      ResizedIsNew(h.b, c.hdr, end, i, k);
      assert Replaced(h, g, i, k, r, n, c);
    } else if r.At? {
      MoveReplaces(h, i, size, c, end);
      var k :| Replaced(h, g, i, k, r, size, c) && k.at != h.b[i].at && Tight(k, Rounded(size, c, end - c.hdr), c);
      assert Replaced(h, g, i, k, r, n, c);
    }
  }

  /** Freeing what was just allocated by splitting gives back the same blocks. */
  lemma AllocThenFree(h: Heap, i: nat, size: nat, c: Config, end: nat)
    requires Good(h, c, end) && i < |h.b| && Fits(h.b[i], c.hdr, size) && size > 0
    ensures Free(Take(h, i, size, c), i).b == h.b && Free(Take(h, i, size, c), i).used == h.used
  {
    var t := Take(h, i, size, c);
    var k := h.b[i];
    if i > 0 {
      assert h.b[i - 1].used;
    }
    if Payload(k, c.hdr) >= size + c.hdr + c.MinAligned() {
      SplitAt(h.b, i, k.at + c.hdr + size, true);
      var f := Flag(t.b, i, false);
      JoinAt(f, i);
      assert Join(f, i) == h.b;
    } else {
      if i + 1 < |h.b| {
        assert h.b[i].used || h.b[i + 1].used;
      }
      assert Flag(t.b, i, false) == h.b;
    }
  }

  /** Freeing a block that was reallocated leaves the heap as freeing it at once would have. */
  lemma ReallocThenFree(h: Heap, i: nat, n: nat, m: nat, c: Config, end: nat)
    requires Good(h, c, end) && i < |h.b| && h.b[i].used && n > 0
    requires var (g, r) := Realloc(h, At(h.b[i].at + c.hdr), i, n, c, end);
             r.At? && m < |g.b| && g.b[m].used && r.offset == g.b[m].at + c.hdr
    ensures var (d, e) := (Free(h, i), Free(Realloc(h, At(h.b[i].at + c.hdr), i, n, c, end).0, m));
            e.b == d.b && e.used == d.used
  {
    hide Tiled, Aligned, Coalesced, Total, Realloc, Free;
    var (g, r) := Realloc(h, At(h.b[i].at + c.hdr), i, n, c, end);
    ReallocReplaces(h, At(h.b[i].at + c.hdr), i, n, c, end);
    var k :| Replaced(h, g, i, k, r, n, c);
    ReallocGood(h, At(h.b[i].at + c.hdr), i, n, c, end);
    assert k in Owned(g.b);
    var j :| 0 <= j < |g.b| && g.b[j] == k;
    if j != m {
      DistinctPlaces(g.b, c.hdr, end, j, m);
    }
    FreeOwned(g, m, c, end);
    FreeOwned(h, i, c, end);
    FreeGood(g, m, c, end);
    FreeGood(h, i, c, end);
    SameOwnedSameBlocks(Free(g, m).b, Free(h, i).b, c.hdr, end);
  }

  /* Headers */

  datatype Item = Item(used: bool, next: nat, prev: nat)

  function Before(b: seq<Blk>, i: nat): nat
    requires i < |b|
  {
    if i == 0 then 0 else b[i - 1].at
  }

  ghost predicate Described(item: map<nat, Item>, b: seq<Blk>, i: nat)
    requires i < |b|
  {
    b[i].at in item && item[b[i].at] == Item(b[i].used, b[i].next, Before(b, i))
  }

  /** The headers describe the blocks; only `prev` of the end marker is not kept up to date. */
  ghost predicate Linked(item: map<nat, Item>, b: seq<Blk>, end: nat) {
    && (forall i :: 0 <= i < |b| ==> Described(item, b, i))
    && end in item && item[end].used && item[end].next == end
  }

  function FlagItems(item: map<nat, Item>, at: nat, used: bool): map<nat, Item>
    requires at in item
  {
    item[at := item[at].(used := used)]
  }

  function SplitItems(item: map<nat, Item>, at: nat, cut: nat, end: nat): map<nat, Item>
    requires at in item && item[at].next in item
  {
    var next := item[at].next;
    var m := item[cut := Item(false, next, at)];
    var n := m[at := Item(item[at].used, cut, item[at].prev)];
    if next != end then n[next := item[next].(prev := cut)] else n
  }

  function JoinItems(item: map<nat, Item>, at: nat): map<nat, Item>
    requires at in item && item[at].next in item && item[item[at].next].next in item
  {
    var gone := item[at].next;
    var next := item[gone].next;
    var m := item[gone := item[gone].(used := false)];
    var n := m[at := item[at].(next := next)];
    n[next := item[next].(prev := at)]
  }

  lemma FlagLinked(item: map<nat, Item>, b: seq<Blk>, hdr: nat, end: nat, i: nat, used: bool)
    requires hdr > 0 && Tiled(b, hdr, end) && Linked(item, b, end) && i < |b|
    ensures b[i].at in item && Linked(FlagItems(item, b[i].at, used), Flag(b, i, used), end)
  {
    OrderedAll(b, hdr, end);
    assert Described(item, b, i);
    var s, m := Flag(b, i, used), FlagItems(item, b[i].at, used);
    forall k | 0 <= k < |s| ensures Described(m, s, k) {
      assert Described(item, b, k);
    }
  }

  lemma NextIsHeader(item: map<nat, Item>, b: seq<Blk>, hdr: nat, end: nat, i: nat)
    requires Tiled(b, hdr, end) && Linked(item, b, end) && i < |b|
    ensures b[i].at in item && item[b[i].at] == Item(b[i].used, b[i].next, Before(b, i)) && b[i].next in item
    ensures b[i].next == Offset(b, i + 1, end) && b[i].at + hdr <= b[i].next
  {
    assert Described(item, b, i);
    assert i + 1 < |b| ==> Described(item, b, i + 1) && b[i].next == b[i + 1].at;
  }

  lemma SplitDescribes(item: map<nat, Item>, b: seq<Blk>, hdr: nat, end: nat, i: nat, cut: nat, k: nat)
    requires hdr > 0 && Tiled(b, hdr, end) && Linked(item, b, end) && i < |b| && k <= |b|
    requires b[i].at + hdr <= cut && cut + hdr <= b[i].next
    requires b[i].at in item && item[b[i].at].next == b[i].next && b[i].next in item
    requires |Split(b, i, cut, b[i].used)| == |b| + 1
    ensures Described(SplitItems(item, b[i].at, cut, end), Split(b, i, cut, b[i].used), k)
  {
    hide Tiled, Linked, Split;
    SplitAt(b, i, cut, b[i].used);
    NextIsHeader(item, b, hdr, end, i);
    BelowEnd(b, hdr, end, i);
    var s := Split(b, i, cut, b[i].used);
    if k < i {
      Ordered(b, hdr, end, k, i);
      NextIsHeader(item, b, hdr, end, k);
      assert s[k] == b[k] && (k > 0 ==> s[k - 1] == b[k - 1]);
    } else if k > i + 1 {
      BelowEnd(b, hdr, end, k - 1);
      NextIsHeader(item, b, hdr, end, k - 1);
      Ordered(b, hdr, end, i, k - 1);
      if k > i + 2 {
        NextIsHeader(item, b, hdr, end, i + 1);
        Ordered(b, hdr, end, i + 1, k - 1);
      }
    }
  }

  lemma SplitLinked(item: map<nat, Item>, b: seq<Blk>, hdr: nat, end: nat, i: nat, cut: nat)
    requires hdr > 0 && Tiled(b, hdr, end) && Linked(item, b, end) && i < |b|
    requires b[i].at + hdr <= cut && cut + hdr <= b[i].next
    ensures b[i].at in item && item[b[i].at].next == b[i].next && b[i].next in item
    ensures Linked(SplitItems(item, b[i].at, cut, end), Split(b, i, cut, b[i].used), end)
  {
    OrderedAll(b, hdr, end);
    SplitAt(b, i, cut, b[i].used);
    NextIsHeader(item, b, hdr, end, i);
    var s, m := Split(b, i, cut, b[i].used), SplitItems(item, b[i].at, cut, end);
    forall k | 0 <= k < |s| ensures Described(m, s, k) {
      SplitDescribes(item, b, hdr, end, i, cut, k);
    }
  }

  lemma JoinDescribes(item: map<nat, Item>, b: seq<Blk>, hdr: nat, end: nat, i: nat, k: nat)
    requires hdr > 0 && Tiled(b, hdr, end) && Linked(item, b, end) && i + 1 < |b| && k < |b| - 1
    requires b[i].at in item && item[b[i].at].next == b[i + 1].at && b[i + 1].at in item
    requires item[b[i + 1].at].next == b[i + 1].next && b[i + 1].next in item
    requires |Join(b, i)| == |b| - 1
    ensures Described(JoinItems(item, b[i].at), Join(b, i), k)
  {
    hide Tiled, Linked, Join;
    JoinAt(b, i);
    NextIsHeader(item, b, hdr, end, i);
    NextIsHeader(item, b, hdr, end, i + 1);
    var s := Join(b, i);
    if k < i {
      Ordered(b, hdr, end, k, i);
      Ordered(b, hdr, end, k, i + 1);
      NextIsHeader(item, b, hdr, end, k);
      assert s[k] == b[k] && (k > 0 ==> s[k - 1] == b[k - 1]);
    } else if k > i {
      BelowEnd(b, hdr, end, k + 1);
      NextIsHeader(item, b, hdr, end, k + 1);
      Ordered(b, hdr, end, i, k + 1);
      Ordered(b, hdr, end, i + 1, k + 1);
      if k > i + 1 {
        NextIsHeader(item, b, hdr, end, i + 2);
        Ordered(b, hdr, end, i + 2, k + 1);
      }
    } else {
      BelowEnd(b, hdr, end, i + 1);
      assert i > 0 ==> s[i - 1] == b[i - 1];
    }
  }

  lemma JoinLinked(item: map<nat, Item>, b: seq<Blk>, hdr: nat, end: nat, i: nat)
    requires hdr > 0 && Tiled(b, hdr, end) && Linked(item, b, end) && i + 1 < |b|
    ensures b[i].at in item && item[b[i].at].next == b[i + 1].at && b[i + 1].at in item
    ensures item[b[i + 1].at].next == b[i + 1].next && b[i + 1].next in item
    ensures Linked(JoinItems(item, b[i].at), Join(b, i), end)
  {
    OrderedAll(b, hdr, end);
    JoinAt(b, i);
    NextIsHeader(item, b, hdr, end, i);
    NextIsHeader(item, b, hdr, end, i + 1);
    var s, m := Join(b, i), JoinItems(item, b[i].at);
    forall k | 0 <= k < |s| ensures Described(m, s, k) {
      JoinDescribes(item, b, hdr, end, i, k);
    }
  }
}
