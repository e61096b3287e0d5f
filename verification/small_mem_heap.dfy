/**
 The small-memory heap as it sits in memory: headers and payload bytes updated
 in place, one header at a time. Every method is tied to the block-level
 functions of `SmallMem`.
 */
module SmallMemHeap {
  import opened Alignment
  import opened Arithmetic
  import opened Common
  import opened HeapBytes
  import opened SmallMem
  import opened Tiling

  lemma FirstFreeIs(b: seq<Blk>, r: nat)
    requires r <= |b| && (r < |b| ==> !b[r].used) && forall i :: 0 <= i < r ==> b[i].used
    ensures FirstFree(b) == r
  {
    var f := FirstFree(b);
  }

  /** Merging a free block into a free left neighbour does not move the lowest free offset. */
  lemma FirstFreeJoin(b: seq<Blk>, i: nat, end: nat)
    requires i + 1 < |b| && !b[i].used
    ensures FirstFree(b) <= i && Offset(Join(b, i), FirstFree(Join(b, i)), end) == Offset(b, FirstFree(b), end)
  {
    JoinAt(b, i);
    FirstFreeIs(Join(b, i), FirstFree(b));
  }

  class SmallHeap {
    const c: Config
    const end: nat
    const data: array<Byte>
    var item: map<nat, Item>
    var lfree: nat
    var used: int
    var max: int
    ghost var b: seq<Blk>

    ghost function H(): Heap
      reads this
    {
      Heap(b, used, max)
    }

    ghost predicate Shaped()
      reads this
    {
      c.Valid() && data.Length == end + c.hdr && Tiled(b, c.hdr, end) && Linked(item, b, end)
    }

    ghost predicate LowestFree()
      reads this
    {
      lfree == Offset(b, FirstFree(b), end)
    }

    ghost predicate Valid()
      reads this
    {
      Shaped() && LowestFree() && Good(H(), c, end)
    }

    /** `rt_smem_init` over `size` aligned bytes between two headers. */
    constructor (c: Config, size: nat)
      requires c.Valid() && IsAligned(size, c.align)
      ensures Valid() && fresh(data) && this.c == c && end == size + c.hdr
      ensures H() == Heap([Blk(0, end, false)], 0, 0)
    {
      this.c := c;
      end := size + c.hdr;
      data := new Byte[size + 2 * c.hdr](_ => 0);
      item := map[0 := Item(false, size + c.hdr, 0), size + c.hdr := Item(true, size + c.hdr, size + c.hdr)];
      lfree, used, max := 0, 0, 0;
      b := [Blk(0, size + c.hdr, false)];
      new;
      InitGood(c, size);
    }

    method SetItem(o: nat, it: Item)
      requires o + c.hdr <= data.Length
      modifies `item, data
      ensures item == old(item)[o := it]
      ensures SameOutside(old(data[..]), data[..], o, c.hdr)
    {
      item := item[o := it];
      for k := 0 to c.hdr
        invariant SameOutside(old(data[..]), data[..], o, c.hdr)
        modifies data
      {
        data[o + k] := 0;
      }
    }

    method FlagBlock(at: nat, u: bool, ghost i: nat)
      requires Shaped() && i < |b| && at == b[i].at
      modifies `item, `b, data
      ensures Shaped() && b == Flag(old(b), i, u) && Same(old(data[..]), data[..], b, c.hdr)
    {
      hide Tiled, Linked, SameOutside, Same;
      FlagLinked(item, b, c.hdr, end, i, u);
      FlagTiled(b, c.hdr, end, i, u);
      NextIsHeader(item, b, c.hdr, end, i);
      BelowEnd(b, c.hdr, end, i);
      b := Flag(b, i, u);
      SetItem(at, item[at].(used := u));
      HeaderWriteIsSafe(old(data[..]), data[..], at, b, c.hdr, end, i);
    }

    /** Builds a free block at `cut` and links it in behind the block at `at`. */
    method CutBlock(at: nat, cut: nat, ghost i: nat)
      requires Shaped() && i < |b| && at == b[i].at && at + c.hdr <= cut && cut + c.hdr <= b[i].next
      modifies `item, `b, data
      ensures Shaped() && b == Split(old(b), i, cut, old(b)[i].used) && Same(old(data[..]), data[..], b, c.hdr)
    {
      hide Tiled, Linked, SameOutside, Same, Split;
      SplitLinked(item, b, c.hdr, end, i, cut);
      SplitTiled(b, c.hdr, end, i, cut, b[i].used);
      SplitAt(b, i, cut, b[i].used);
      NextIsHeader(item, b, c.hdr, end, i);
      BelowEnd(b, c.hdr, end, i);
      b := Split(b, i, cut, b[i].used);
      var mem := item[at];
      var next := mem.next;
      SetItem(cut, Item(false, next, at));
      ghost var d1 := data[..];
      HeaderWriteIsSafe(old(data[..]), d1, cut, b, c.hdr, end, i + 1);
      SetItem(at, Item(mem.used, cut, mem.prev));
      ghost var d2 := data[..];
      HeaderWriteIsSafe(d1, d2, at, b, c.hdr, end, i);
      SameTrans(old(data[..]), d1, d2, b, c.hdr);
      if next != end {
        SetItem(next, item[next].(prev := cut));
        HeaderWriteIsSafe(d2, data[..], next, b, c.hdr, end, i + 2);
        SameTrans(old(data[..]), d2, data[..], b, c.hdr);
      }
    }

    /** The free block at `at` swallows its free right neighbour. */
    method JoinBlocks(at: nat, ghost i: nat)
      requires Shaped() && i + 1 < |b| && at == b[i].at && !b[i].used && !b[i + 1].used
      modifies `item, `b, data
      ensures Shaped() && b == Join(old(b), i) && Same(old(data[..]), data[..], b, c.hdr)
    {
      hide Tiled, Linked, SameOutside, Same, Join;
      JoinLinked(item, b, c.hdr, end, i);
      JoinTiled(b, c.hdr, end, i);
      JoinAt(b, i);
      NextIsHeader(item, b, c.hdr, end, i);
      NextIsHeader(item, b, c.hdr, end, i + 1);
      BelowEnd(b, c.hdr, end, i + 1);
      b := Join(b, i);
      var mem := item[at];
      var gone := mem.next;
      var next := item[gone].next;
      SetItem(gone, item[gone].(used := false));
      ghost var d1 := data[..];
      HeaderWriteIsSafe(old(data[..]), d1, gone, b, c.hdr, end, i);
      SetItem(at, mem.(next := next));
      ghost var d2 := data[..];
      HeaderWriteIsSafe(d1, d2, at, b, c.hdr, end, i);
      SameTrans(old(data[..]), d1, d2, b, c.hdr);
      SetItem(next, item[next].(prev := at));
      HeaderWriteIsSafe(d2, data[..], next, b, c.hdr, end, i + 1);
      SameTrans(old(data[..]), d2, data[..], b, c.hdr);
    }

    method PlugForward(mem: nat, ghost i: nat)
      requires Shaped() && LowestFree() && i < |b| && mem == b[i].at && !b[i].used
      modifies `item, `b, `lfree, data
      ensures Shaped() && LowestFree() && Same(old(data[..]), data[..], b, c.hdr)
      ensures b == if i + 1 < |old(b)| && !old(b)[i + 1].used then Join(old(b), i) else old(b)
    {
      hide Tiled, Linked;
      NextIsHeader(item, b, c.hdr, end, i);
      BelowEnd(b, c.hdr, end, i);
      var nmem := item[mem].next;
      if i + 1 < |b| {
        NextIsHeader(item, b, c.hdr, end, i + 1);
      }
      if mem != nmem && !item[nmem].used && nmem != end {
        ghost var lowest := lfree;
        if lfree == nmem {
          lfree := mem;
        }
        FirstFreeJoin(b, i, end);
        assert lfree == lowest by { DistinctPlaces(b, c.hdr, end, FirstFree(b), i + 1); }
        JoinBlocks(mem, i);
      }
    }

    method PlugBackward(mem: nat, ghost i: nat)
      requires Shaped() && LowestFree() && i < |b| && mem == b[i].at && !b[i].used
      modifies `item, `b, `lfree, data
      ensures Shaped() && LowestFree() && Same(old(data[..]), data[..], b, c.hdr)
      ensures b == if i > 0 && !old(b)[i - 1].used then Join(old(b), i - 1) else old(b)
    {
      hide Tiled, Linked;
      NextIsHeader(item, b, c.hdr, end, i);
      var pmem := item[mem].prev;
      if i > 0 {
        NextIsHeader(item, b, c.hdr, end, i - 1);
        DistinctPlaces(b, c.hdr, end, i - 1, i);
      } else {
        FirstIsZero(b, c.hdr, end);
      }
      if pmem != mem && !item[pmem].used {
        ghost var lowest := lfree;
        if lfree == mem {
          lfree := pmem;
        }
        FirstFreeJoin(b, i - 1, end);
        assert lfree == lowest by { DistinctPlaces(b, c.hdr, end, FirstFree(b), i); }
        JoinBlocks(pmem, i - 1);
      }
    }

    /** `plug_holes` */
    method PlugHoles(mem: nat, ghost i: nat)
      requires Shaped() && LowestFree() && i < |b| && mem == b[i].at && !b[i].used
      modifies `item, `b, `lfree, data
      ensures Shaped() && LowestFree() && b == Plug(old(b), i) && Same(old(data[..]), data[..], b, c.hdr)
    {
      hide Tiled, Linked, Same;
      if i + 1 < |b| {
        JoinAt(b, i);
      }
      PlugForward(mem, i);
      ghost var f, d := b, data[..];
      PlugBackward(mem, i);
      if i > 0 && !f[i - 1].used {
        JoinKeepsSame(old(data[..]), d, data[..], f, c.hdr, i - 1);
      } else {
        SameTrans(old(data[..]), d, data[..], f, c.hdr);
      }
    }

    /** `rt_smem_free`: nobody else's bytes change. */
    method Free(p: nat, ghost i: nat)
      requires Valid() && i < |b| && b[i].used && p == b[i].at + c.hdr
      modifies this, data
      ensures Valid() && H() == SmallMem.Free(old(H()), i)
      ensures Same(old(data[..]), data[..], Flag(old(b), i, false), c.hdr)
    {
      hide Tiled, Linked, Same;
      var mem := p - c.hdr;
      NextIsHeader(item, b, c.hdr, end, i);
      FreeGood(H(), i, c, end);
      FirstFreeFlag(b, i, c.hdr, end);
      FlagBlock(mem, false, i);
      NextIsHeader(item, b, c.hdr, end, i);
      ghost var d := data[..];
      if mem < lfree {
        lfree := mem;
      }
      used := used - (item[mem].next - mem);
      PlugHoles(mem, i);
      FreeKeepsOthers(old(data[..]), d, data[..], old(b), c.hdr, i);
    }

    /** `rt_smem_alloc`, wherever it returns at all. */
    method Alloc(n: nat) returns (p: Ptr)
      requires Valid() && Returns(n, c, end)
      modifies this, data
      ensures Valid() && (H(), p) == SmallMem.Alloc(old(H()), n, c, end)
      ensures Same(old(data[..]), data[..], old(b), c.hdr)
    {
      hide Tiled, Linked, Same, IsAligned, Good, Up, Take, Search, FirstFree;
      SameRefl(data[..], b, c.hdr);
      if n == 0 {
        return Null;
      }
      var size := Up(n, c.align);
      if size > end - c.hdr {
        return Null;
      }
      if size < c.MinAligned() {
        size := c.MinAligned();
      }
      ghost var i;
      p, i := FindFit(size);
      if p.At? {
        TakeBlock(p.offset, size, i);
        p := At(p.offset + c.hdr);
      }
    }

    /** The scan from the lowest free block; its bound never cuts off a block that fits. */
    method FindFit(size: nat) returns (p: Ptr, ghost i: nat)
      requires Valid() && 0 < size <= end - c.hdr
      ensures i == Search(b, c.hdr, size)
      ensures p == if i == |b| then Null else At(b[i].at)
    {
      hide Tiled, Linked, Good;
      var ptr := lfree;
      i := FirstFree(b);
      while ptr <= end - c.hdr - size
        invariant i <= |b| && ptr == Offset(b, i, end)
        invariant forall k :: 0 <= k < i ==> !Fits(b[k], c.hdr, size)
        decreases |b| - i
      {
        NextIsHeader(item, b, c.hdr, end, i);
        if !item[ptr].used && item[ptr].next - (ptr + c.hdr) >= size {
          SearchIs(b, c.hdr, size, i);
          return At(ptr), i;
        }
        ptr := item[ptr].next;
        i := i + 1;
      }
      PastTheBound(b, c.hdr, end, i, size);
      SearchIs(b, c.hdr, size, |b|);
      p, i := Null, |b|;
    }

    method ShrinkBlock(mem: nat, size: nat, ghost i: nat)
      requires Valid() && i < |b| && b[i].used && mem == b[i].at && Shrinks(b[i], size, c) && IsAligned(size, c.align)
      modifies this, data
      ensures Valid() && H() == Shrink(old(H()), i, size, c)
      ensures Same(old(data[..]), data[..], b, c.hdr)
    {
      hide Tiled, Linked, Same, IsAligned, Good, Split, Plug, Up, FirstFree;
      var cut := mem + c.hdr + size;
      NextIsHeader(item, b, c.hdr, end, i);
      ShrinkGood(H(), i, size, c, end);
      FirstFreeSplit(b, i, cut, c.hdr, end);
      used := used - (item[mem].next - mem - c.hdr - size);
      SplitAt(b, i, cut, true);
      CutBlock(mem, cut, i);
      if cut < lfree {
        lfree := cut;
      }
      ghost var s, d := b, data[..];
      PlugHoles(cut, i + 1);
      PlugKeepsSame(old(data[..]), d, data[..], s, c.hdr, i + 1);
    }

    method CopyBytes(src: nat, dst: nat, n: nat)
      requires src + n <= data.Length && dst + n <= data.Length && (src + n <= dst || dst + n <= src)
      modifies data
      ensures SameOutside(old(data[..]), data[..], dst, n) && Copied(old(data[..]), data[..], src, dst, n)
    {
      for k := 0 to n
        invariant SameOutside(old(data[..]), data[..], dst, n) && Copied(old(data[..]), data[..], src, dst, k)
      {
        data[dst + k] := data[src + k];
      }
    }

    /** The moving half of `rt_smem_realloc`. */
    method Move(p: nat, size: nat, ghost i: nat) returns (r: Ptr)
      requires Valid() && Returns(size, c, end) && Owns(b, i, c.hdr, p) && size > 0
      modifies this, data
      ensures Valid() && (H(), r) == SmallMem.Move(old(H()), i, size, c, end)
      ensures r.Null? ==> Same(old(data[..]), data[..], old(b), c.hdr)
      ensures r.At? ==> Copied(old(data[..]), data[..], p, r.offset, Min(Payload(old(b)[i], c.hdr), size))
      ensures r.At? ==> Same(old(data[..]), data[..], Flag(old(b), i, false), c.hdr)
    {
      hide Tiled, Linked, Same, IsAligned, Good, Up, Take, MovedTo, Taken, Search, FirstFree, Copied, Flag, SmallMem.Free;
      ghost var h, d := H(), data[..];
      NextIsHeader(item, b, c.hdr, end, i);
      var oldSize := item[p - c.hdr].next - p;
      r := Alloc(size);
      if r.At? {
        ghost var want := Rounded(size, c, end - c.hdr);
        ghost var j := Search(h.b, c.hdr, want);
        TakeTakes(h, j, want, c);
        TakenIndex(h.b, b, j, h.b[j].at + c.hdr + want, i);
        Transfer(p, r.offset, if oldSize < size then oldSize else size, h.b, d, i, j, h.b[j].at + c.hdr + want);
      }
    }

    /** Copies the old block into the freshly taken block `j` and frees the old one. */
    method Transfer(p: nat, dst: nat, n: nat, ghost was: seq<Blk>, ghost d: seq<Byte>, ghost i: nat, ghost j: nat, ghost cut: nat)
      requires Valid() && Owns(was, i, c.hdr, p) && Taken(was, b, j, cut)
      requires j < |b| && b[j].used && dst == b[j].at + c.hdr
      requires var m := MovedTo(was, b, i, j); m < |b| && b[m] == was[i] && m != j
      requires n <= Payload(was[i], c.hdr) && n <= Payload(b[j], c.hdr) && Same(d, data[..], was, c.hdr)
      modifies this, data
      ensures Valid() && H() == SmallMem.Free(old(H()), MovedTo(was, old(b), i, j))
      ensures Copied(d, data[..], p, dst, n) && Same(d, data[..], Flag(was, i, false), c.hdr)
    {
      hide Tiled, Linked, Same, IsAligned, Good, Up, Taken, SameOutside, Copied, MovedTo, Plug;
      ghost var t, d1, m := b, data[..], MovedTo(was, b, i, j);
      BelowEnd(t, c.hdr, end, j);
      BelowEnd(t, c.hdr, end, m);
      DisjointBlocks(t, c.hdr, end, m, j);
      CopyBytes(p, dst, n);
      ghost var d2 := data[..];
      CopyIsSafe(d1, d2, t, c.hdr, end, j, n);
      Free(p, m);
      MoveKeepsOthers(d, d1, d2, data[..], was, t, i, j, cut, c.hdr);
      MoveCopies(d, d1, d2, data[..], was, i, t, m, j, c.hdr, n);
    }

    /** `rt_smem_realloc`: grow, shrink, free, allocate, or do nothing. */
    method Realloc(p: Ptr, n: nat, ghost i: nat) returns (r: Ptr)
      requires Valid() && Names(H(), p, i, c) && (NeedsBlock(H(), p, i, Up(n, c.align), c) ==> Returns(n, c, end))
      modifies this, data
      ensures Valid() && (H(), r) == SmallMem.Realloc(old(H()), p, i, n, c, end)
      ensures p.At? ==> Same(old(data[..]), data[..], Flag(old(b), i, false), c.hdr)
      ensures p.Null? || (n > 0 && r.Null?) ==> Same(old(data[..]), data[..], old(b), c.hdr)
      ensures p.At? && r.At? ==>
                Copied(old(data[..]), data[..], p.offset, r.offset, Min(Payload(old(b)[i], c.hdr), n))
    {
      hide Tiled, Linked, Same, IsAligned, Good, Copied, Up, SmallMem.Free, SmallMem.Alloc, SmallMem.Move, Shrink, Live;
      var size := Up(n, c.align);
      UpOfZero(n, c.align);
      UpOfAligned(size, c.align);
      SameRefl(data[..], b, c.hdr);
      if p.At? {
        SameRefl(data[..], Flag(b, i, false), c.hdr);
      }
      if size > end - c.hdr {
        return Null;
      } else if size == 0 {
        if p.At? {
          Free(p.offset, i);
        }
        return Null;
      }
      if p.Null? {
        r := Alloc(size);
        return;
      }
      r := Resize(p, size, n, i);
    }

    /** A live block is brought to `size` bytes. */
    method Resize(p: Ptr, size: nat, ghost n: nat, ghost i: nat) returns (r: Ptr)
      requires Valid() && p.At? && Names(H(), p, i, c) && (NeedsBlock(H(), p, i, size, c) ==> Returns(size, c, end))
      requires 0 < n <= size <= end - c.hdr && IsAligned(size, c.align) && size == Up(n, c.align)
      modifies this, data
      ensures Valid() && (H(), r) == SmallMem.Realloc(old(H()), p, i, n, c, end)
      ensures Same(old(data[..]), data[..], Flag(old(b), i, false), c.hdr)
      ensures r.Null? ==> Same(old(data[..]), data[..], old(b), c.hdr)
      ensures r.At? ==> Copied(old(data[..]), data[..], p.offset, r.offset, Min(Payload(old(b)[i], c.hdr), n))
    {
      hide Tiled, Linked, Same, IsAligned, Good, Copied, Up, SmallMem.Free, SmallMem.Alloc, SmallMem.Move, Shrink, Live;
      var mem := p.offset - c.hdr;
      NextIsHeader(item, b, c.hdr, end, i);
      BelowEnd(b, c.hdr, end, i);
      var oldSize := item[mem].next - mem - c.hdr;
      ghost var h, d := H(), data[..];
      if oldSize == size {
        SameRefl(d, Flag(b, i, false), c.hdr);
        CopiedRefl(d, p.offset, Min(oldSize, n));
        return p;
      }
      if size + c.hdr + c.min < oldSize {
        ShrinkBlock(mem, size, i);
        ShrinkResult(d, data[..], h, i, size, c, end);
        CopiedLess(d, data[..], p.offset, p.offset, size, Min(oldSize, n));
        return p;
      }
      r := Move(p.offset, size, i);
      if r.At? {
        CopiedLess(d, data[..], p.offset, r.offset, Min(oldSize, size), Min(oldSize, n));
      } else {
        SameFewer(d, data[..], h.b, i, c.hdr);
      }
    }

    /** Marks block `i` used, cutting off the rest when that leaves room for another block. */
    method TakeBlock(mem: nat, size: nat, ghost i: nat)
      requires Valid() && i < |b| && mem == b[i].at && Fits(b[i], c.hdr, size) && size > 0 && IsAligned(size, c.align)
      modifies this, data
      ensures Valid() && H() == Take(old(H()), i, size, c)
      ensures Same(old(data[..]), data[..], old(b), c.hdr)
    {
      hide Tiled, Linked, Same, IsAligned, Good;
      NextIsHeader(item, b, c.hdr, end, i);
      TakeGood(H(), i, size, c, end);
      TakeLive(H(), i, size, c, end);
      ghost var h := H();
      ghost var d := data[..];
      if item[mem].next - (mem + c.hdr) >= size + c.hdr + c.MinAligned() {
        CutBlock(mem, mem + c.hdr + size, i);
        used := used + size + c.hdr;
        SplitAt(h.b, i, mem + c.hdr + size, false);
        d := data[..];
      } else {
        used := used + (item[mem].next - mem);
      }
      if max < used {
        max := used;
      }
      assert i < |b| && b[i].at == mem;
      FlagBlock(mem, true, i);
      assert b == Take(h, i, size, c).b;
      TakeKeepsOthers(old(data[..]), d, data[..], h, i, size, c, end);
      if mem == lfree {
        SameOffset(h.b, c.hdr, end, i, FirstFree(h.b));
        AdvanceLowest(i);
      } else {
        LowestUnmoved(h, i, size, c, end);
      }
    }

    method AdvanceLowest(ghost i: nat)
      requires Shaped() && i < |b| && lfree == b[i].at && b[i].used && forall k :: 0 <= k < i ==> b[k].used
      modifies `lfree
      ensures LowestFree()
    {
      hide Tiled, Linked;
      ghost var k := i;
      NextIsHeader(item, b, c.hdr, end, i);
      EndIsUsed(item, b, end);
      BelowEnd(b, c.hdr, end, i);
      while item[lfree].used && lfree != end
        invariant k <= |b| && lfree == Offset(b, k, end) && lfree in item
        invariant k < |b| ==> item[lfree].used == b[k].used && lfree != end
        invariant forall m :: 0 <= m < k ==> b[m].used
        decreases |b| - k
      {
        NextIsHeader(item, b, c.hdr, end, k);
        lfree := item[lfree].next;
        k := k + 1;
        if k < |b| {
          NextIsHeader(item, b, c.hdr, end, k);
          BelowEnd(b, c.hdr, end, k);
        }
      }
      FirstFreeIs(b, k);
    }
  }

  /** No block from `i` on can hold `size` once the scan has passed its bound. */
  lemma PastTheBound(b: seq<Blk>, hdr: nat, end: nat, i: nat, size: nat)
    requires Tiled(b, hdr, end) && i <= |b| && size > 0 && Offset(b, i, end) + size > end - hdr
    ensures forall k :: i <= k < |b| ==> !Fits(b[k], hdr, size)
  {
    OrderedAll(b, hdr, end);
  }

  lemma SearchIs(b: seq<Blk>, hdr: nat, size: nat, r: nat)
    requires r <= |b| && (r < |b| ==> Fits(b[r], hdr, size)) && forall i :: 0 <= i < r ==> !Fits(b[i], hdr, size)
    ensures Search(b, hdr, size) == r
  {
    var f := Search(b, hdr, size);
  }

  lemma InitGood(c: Config, size: nat)
    requires c.Valid() && IsAligned(size, c.align)
    ensures var b, end := [Blk(0, size + c.hdr, false)], size + c.hdr;
            && Good(Heap(b, 0, 0), c, end) && FirstFree(b) == 0
            && Linked(map[0 := Item(false, end, 0), end := Item(true, end, end)], b, end)
  {
    var b := [Blk(0, size + c.hdr, false)];
    TotalSmall(b[0], b[0], UsedExtent);
    assert b[0].at == 0;
  }

  lemma FirstIsZero(b: seq<Blk>, hdr: nat, end: nat)
    requires Tiled(b, hdr, end)
    ensures b[0].at == 0
  {
  }

  /* Realloc */

  lemma ShrinkShape(h: Heap, i: nat, size: nat, c: Config)
    requires i < |h.b| && h.b[i].used
    ensures var t := Shrink(h, i, size, c).b;
            i < |t| && t[i] == Blk(h.b[i].at, h.b[i].at + c.hdr + size, true)
  {
    var cut := h.b[i].at + c.hdr + size;
    var s := Split(h.b, i, cut, true);
    SplitAt(h.b, i, cut, true);
    if i + 2 < |s| {
      JoinAt(s, i + 1);
    }
  }

  lemma ShrinkLive(h: Heap, i: nat, size: nat, c: Config, a: nat)
    requires i < |h.b| && Live(Flag(h.b, i, false), c.hdr, a)
    ensures Live(Shrink(h, i, size, c).b, c.hdr, a)
  {
    var cut, f := h.b[i].at + c.hdr + size, Flag(h.b, i, false);
    var s := Split(h.b, i, cut, true);
    SplitAt(h.b, i, cut, true);
    PlugLive(s, c.hdr, i + 1, a);
    var q :| 0 <= q < |f| && InPayload(f[q], c.hdr, a);
    assert s[if q < i then q else q + 1] == h.b[q];
  }

  lemma ShrinkResult(d: seq<Byte>, e: seq<Byte>, h: Heap, i: nat, size: nat, c: Config, end: nat)
    requires Tiled(h.b, c.hdr, end) && |d| == end + c.hdr
    requires i < |h.b| && h.b[i].used && Shrinks(h.b[i], size, c)
    requires Same(d, e, Shrink(h, i, size, c).b, c.hdr)
    ensures var t := Shrink(h, i, size, c).b;
            i < |t| && t[i] == Blk(h.b[i].at, h.b[i].at + c.hdr + size, true)
    ensures Copied(d, e, h.b[i].at + c.hdr, h.b[i].at + c.hdr, size)
    ensures Same(d, e, Flag(h.b, i, false), c.hdr)
  {
    hide Shrink, Tiled;
    ShrinkShape(h, i, size, c);
    BelowEnd(h.b, c.hdr, end, i);
    PayloadIsSame(d, e, Shrink(h, i, size, c).b, i, c.hdr, size);
    forall a | 0 <= a < |d| && Live(Flag(h.b, i, false), c.hdr, a) ensures d[a] == e[a] {
      ShrinkLive(h, i, size, c, a);
    }
  }

  lemma FirstFreeSplit(b: seq<Blk>, i: nat, cut: nat, hdr: nat, end: nat)
    requires Tiled(b, hdr, end) && i < |b| && b[i].used && b[i].at + hdr <= cut && cut + hdr <= b[i].next
    ensures var s, low := Split(b, i, cut, true), Offset(b, FirstFree(b), end);
            Offset(s, FirstFree(s), end) == if cut < low then cut else low
  {
    SplitAt(b, i, cut, true);
    OrderedAll(b, hdr, end);
    var r, s := FirstFree(b), Split(b, i, cut, true);
    FirstFreeIs(s, if i < r then i + 1 else r);
  }

  lemma EndIsUsed(item: map<nat, Item>, b: seq<Blk>, end: nat)
    requires Linked(item, b, end)
    ensures end in item && item[end].used
  {
  }

  lemma FirstFreeFlag(b: seq<Blk>, i: nat, hdr: nat, end: nat)
    requires Tiled(b, hdr, end) && hdr > 0 && i < |b| && b[i].used
    ensures var f := Flag(b, i, false);
            Offset(f, FirstFree(f), end) == if b[i].at < Offset(b, FirstFree(b), end) then b[i].at else Offset(b, FirstFree(b), end)
  {
    var f, r := Flag(b, i, false), FirstFree(b);
    OrderedAll(b, hdr, end);
    FirstFreeIs(f, if i < r then i else r);
  }

  /** Nothing a user could see is lost when a free block is taken. */
  lemma TakeLive(h: Heap, i: nat, size: nat, c: Config, end: nat)
    requires c.Valid() && i < |h.b| && !h.b[i].used
    ensures forall a :: Live(h.b, c.hdr, a) ==> Live(Take(h, i, size, c).b, c.hdr, a)
  {
    forall a | Live(h.b, c.hdr, a) ensures Live(Take(h, i, size, c).b, c.hdr, a) {
      LiveSplit(h.b, c.hdr, i, h.b[i].at + c.hdr + size, true, a);
      LiveFlag(h.b, c.hdr, i, true, a);
    }
  }

  lemma TakeKeepsOthers(d: seq<Byte>, e: seq<Byte>, f: seq<Byte>, h: Heap, i: nat, size: nat, c: Config, end: nat)
    requires c.Valid() && i < |h.b| && !h.b[i].used
    requires var cut := h.b[i].at + c.hdr + size;
             d == e || Same(d, e, Split(h.b, i, cut, false), c.hdr)
    requires Same(e, f, Take(h, i, size, c).b, c.hdr)
    ensures Same(d, f, h.b, c.hdr)
  {
    TakeLive(h, i, size, c, end);
    forall a | 0 <= a < |d| && Live(h.b, c.hdr, a) ensures d[a] == f[a] {
      LiveSplit(h.b, c.hdr, i, h.b[i].at + c.hdr + size, false, a);
    }
  }

  lemma LowestUnmoved(h: Heap, i: nat, size: nat, c: Config, end: nat)
    requires c.Valid() && Tiled(h.b, c.hdr, end) && i < |h.b| && !h.b[i].used
    requires h.b[i].at != Offset(h.b, FirstFree(h.b), end)
    ensures var t := Take(h, i, size, c).b; Offset(t, FirstFree(t), end) == Offset(h.b, FirstFree(h.b), end)
  {
    SplitAt(h.b, i, h.b[i].at + c.hdr + size, true);
    FirstFreeIs(Take(h, i, size, c).b, FirstFree(h.b));
  }

  lemma FreeKeepsOthers(d: seq<Byte>, e: seq<Byte>, f: seq<Byte>, b: seq<Blk>, hdr: nat, i: nat)
    requires i < |b| && Same(d, e, Flag(b, i, false), hdr) && Same(e, f, Plug(Flag(b, i, false), i), hdr)
    ensures Same(d, f, Flag(b, i, false), hdr)
  {
    var g := Flag(b, i, false);
    forall a | 0 <= a < |d| && Live(g, hdr, a) ensures d[a] == f[a] {
      PlugLive(g, hdr, i, a);
    }
  }

  lemma PlugKeepsSame(d: seq<Byte>, e: seq<Byte>, f: seq<Byte>, b: seq<Blk>, hdr: nat, i: nat)
    requires i < |b| && !b[i].used && Same(d, e, b, hdr) && Same(e, f, Plug(b, i), hdr)
    ensures Same(d, f, Plug(b, i), hdr)
  {
    forall a | 0 <= a < |d| && Live(Plug(b, i), hdr, a) ensures d[a] == f[a] {
      PlugLive(b, hdr, i, a);
    }
  }

  lemma JoinKeepsSame(d: seq<Byte>, e: seq<Byte>, f: seq<Byte>, b: seq<Blk>, hdr: nat, i: nat)
    requires i + 1 < |b| && !b[i].used && !b[i + 1].used
    requires Same(d, e, b, hdr) && Same(e, f, Join(b, i), hdr)
    ensures Same(d, f, Join(b, i), hdr)
  {
    forall a | 0 <= a < |d| && Live(Join(b, i), hdr, a) ensures d[a] == f[a] {
      LiveJoin(b, hdr, i, a);
    }
  }

  lemma SameOffset(b: seq<Blk>, hdr: nat, end: nat, i: nat, j: nat)
    requires Tiled(b, hdr, end) && hdr > 0 && i < |b| && j <= |b| && b[i].at == Offset(b, j, end)
    ensures i == j
  {
    OrderedAll(b, hdr, end);
  }

  /* A heap smaller than one minimal block */

  /** The scan is not reached, or its bound does not wrap. */
  predicate Returns(n: nat, c: Config, end: nat)
    requires c.Valid()
  {
    n == 0 || Up(n, c.align) > end - c.hdr || end - c.hdr >= c.MinAligned()
  }

  const WORD: nat := 0x1_0000_0000

  /** The scan's bound as the machine computes it. */
  function Bound(msa: nat, size: nat): int {
    (msa - size) % WORD
  }

  /** Where the scan stands after `k` steps from `p`. */
  function Walk(item: map<nat, Item>, p: nat, k: nat): nat {
    if k == 0 then p
    else
      var q := Walk(item, p, k - 1);
      if q in item then item[q].next else q
  }

  /** At `p` the loop neither stops nor finds a block. */
  predicate KeepsGoing(item: map<nat, Item>, p: nat, size: nat, c: Config, msa: nat) {
    p in item && p <= Bound(msa, size) && (item[p].used || item[p].next - (p + c.hdr) < size)
  }

  /**
   Raising the request to the minimal block size after it passed the size check
   makes the bound wrap around: the scan runs into the end marker, whose `next`
   is itself, and stays there. So an allocation comes back exactly when the heap
   can hold one minimal block or the request is refused before the scan.
   */
  lemma {:induction false} TinyHeapScansForever(item: map<nat, Item>, b: seq<Blk>, c: Config, end: nat, n: nat, j: nat, k: nat)
    requires c.Valid() && Tiled(b, c.hdr, end) && Linked(item, b, end) && j <= |b|
    requires !Returns(n, c, end) && c.MinAligned() + c.hdr <= WORD
    ensures Rounded(n, c, end - c.hdr) == c.MinAligned()
    ensures KeepsGoing(item, Walk(item, Offset(b, j, end), k), c.MinAligned(), c, end - c.hdr)
    ensures exists m :: 0 <= m <= |b| && Walk(item, Offset(b, j, end), k) == Offset(b, m, end)
  {
    var p := Offset(b, j, end);
    var m := j;
    if k > 0 {
      TinyHeapScansForever(item, b, c, end, n, j, k - 1);
      var q :| 0 <= q <= |b| && Walk(item, p, k - 1) == Offset(b, q, end);
      m := if q < |b| then q + 1 else q;
      if q < |b| {
        NextIsHeader(item, b, c.hdr, end, q);
      }
      assert Walk(item, p, k) == Offset(b, m, end);
    }
    if m < |b| {
      NextIsHeader(item, b, c.hdr, end, m);
      BelowEnd(b, c.hdr, end, m);
    }
    BoundWraps(end - c.hdr, c.MinAligned());
  }

  lemma BoundWraps(msa: nat, size: nat)
    requires msa < size <= WORD
    ensures Bound(msa, size) == WORD + msa - size
  {
  }
}
