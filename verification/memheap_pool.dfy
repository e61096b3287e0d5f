/**
 A memheap as it sits in memory: headers, both rings and payload bytes updated
 in place, field by field, and tied to the block-level functions of `MemHeap`.
 */
module MemHeapPool {
  import opened Alignment
  import opened Arithmetic
  import opened Common
  import opened HeapBytes
  import opened MemHeap
  import opened MemHeapLinks
  import opened Sequences
  import opened Tiling

  ghost predicate IsHeader(b: seq<Blk>, x: nat) {
    exists k :: 0 <= k < |b| && b[k].at == x
  }

  /** Everything on the free ring, except perhaps `x`, is a block of its own. */
  ghost predicate Anchored(b: seq<Blk>, f: seq<nat>, x: int) {
    forall y :: y in f && y != x ==> IsHeader(b, y)
  }

  lemma HeaderIsSafe(d: seq<Byte>, e: seq<Byte>, x: nat, b: seq<Blk>, hdr: nat, end: nat)
    requires Tiled(b, hdr, end) && SameOutside(d, e, x, hdr) && (IsHeader(b, x) || x >= end)
    ensures Same(d, e, b, hdr)
  {
    if x >= end {
      HeaderWriteIsSafe(d, e, x, b, hdr, end, 0);
    } else {
      var k :| 0 <= k < |b| && b[k].at == x;
      HeaderWriteIsSafe(d, e, x, b, hdr, end, k);
    }
  }

  lemma RingIsAnchored(b: seq<Blk>, f: seq<nat>, x: int)
    requires RingMatches(b, f)
    ensures Anchored(b, f, x)
  {
  }

  lemma SplitAnchored(b: seq<Blk>, f: seq<nat>, x: int, i: nat, cut: nat, used: bool)
    requires i < |b| && Anchored(b, f, x)
    ensures Anchored(Split(b, i, cut, used), f, x) && IsHeader(Split(b, i, cut, used), cut)
  {
    SplitAt(b, i, cut, used);
    var s := Split(b, i, cut, used);
    assert s[i + 1].at == cut;
    forall y | y in f && y != x ensures IsHeader(s, y) {
      var k :| 0 <= k < |b| && b[k].at == y;
      assert s[if k <= i then k else k + 1].at == y;
    }
  }

  lemma JoinAnchored(b: seq<Blk>, f: seq<nat>, i: nat)
    requires i + 1 < |b| && Anchored(b, f, b[i + 1].at)
    ensures Anchored(Join(b, i), f, b[i + 1].at) && IsHeader(Join(b, i), b[i].at)
  {
    JoinAt(b, i);
    var s := Join(b, i);
    assert s[i].at == b[i].at;
    forall y | y in f && y != b[i + 1].at ensures IsHeader(s, y) {
      var k :| 0 <= k < |b| && b[k].at == y;
      assert s[if k <= i then k else k - 1].at == y;
    }
  }

  class Pool {
    const c: Config
    const end: nat
    const data: array<Byte>
    var link: map<nat, Link>
    var ring: map<int, Hook>
    var avail: int
    var maxUsed: int
    ghost var b: seq<Blk>
    ghost var f: seq<nat>

    ghost function H(): Heap
      reads this
    {
      Heap(b, f, avail, maxUsed)
    }

    ghost predicate Shaped()
      reads this
    {
      c.Valid() && data.Length == end + c.hdr && Tiled(b, c.hdr, end) && Linked(link, b, end)
    }

    ghost predicate Strung()
      reads this
    {
      Distinct(f) && Ring(ring, f)
    }

    ghost predicate Valid()
      reads this
    {
      Shaped() && Strung() && Good(H(), c, end)
    }

    method SetLink(o: nat, l: Link)
      requires o + c.hdr <= data.Length
      modifies `link, data
      ensures link == old(link)[o := l] && SameOutside(old(data[..]), data[..], o, c.hdr)
    {
      link := link[o := l];
      Scribble(o);
    }

    /** A hook of a free block lies in its header; the list header's lies in the heap object. */
    method SetHook(o: int, h: Hook)
      requires o + c.hdr <= data.Length && (o == FREE || o >= 0)
      modifies `ring, data
      ensures ring == old(ring)[o := h]
      ensures o == FREE ==> data[..] == old(data[..])
      ensures o >= 0 ==> SameOutside(old(data[..]), data[..], o, c.hdr)
    {
      ring := ring[o := h];
      if o != FREE {
        Scribble(o);
      }
    }

    method Scribble(o: nat)
      requires o + c.hdr <= data.Length
      modifies data
      ensures SameOutside(old(data[..]), data[..], o, c.hdr)
    {
      for k := 0 to c.hdr
        invariant SameOutside(old(data[..]), data[..], o, c.hdr)
      {
        data[o + k] := 0;
      }
    }

    method FlagBlock(at: nat, u: bool, ghost i: nat)
      requires Shaped() && i < |b| && at == b[i].at
      modifies `link, `b, data
      ensures Shaped() && b == Flag(old(b), i, u) && Same(old(data[..]), data[..], b, c.hdr)
    {
      hide Tiled, Linked, SameOutside, Same;
      FlagLinked(link, b, c.hdr, end, i, u);
      FlagTiled(b, c.hdr, end, i, u);
      HeaderAt(link, b, c.hdr, end, i);
      b := Flag(b, i, u);
      SetLink(at, link[at].(used := u));
      HeaderWriteIsSafe(old(data[..]), data[..], at, b, c.hdr, end, i);
    }

    /** Builds a free block at `cut` and links it in behind the block at `at`. */
    method CutBlock(at: nat, cut: nat, ghost i: nat)
      requires Shaped() && i < |b| && at == b[i].at && at + c.hdr <= cut && cut + c.hdr <= b[i].next
      modifies `link, `b, data
      ensures Shaped() && b == Split(old(b), i, cut, old(b)[i].used) && Same(old(data[..]), data[..], b, c.hdr)
    {
      hide Tiled, Linked, SameOutside, Same, Split;
      SplitLinked(link, b, c.hdr, end, i, cut);
      SplitTiled(b, c.hdr, end, i, cut, b[i].used);
      SplitAt(b, i, cut, b[i].used);
      HeaderAt(link, b, c.hdr, end, i);
      b := Split(b, i, cut, b[i].used);
      var next := link[at].next;
      SetLink(cut, Link(false, next, at));
      ghost var d1 := data[..];
      HeaderWriteIsSafe(old(data[..]), d1, cut, b, c.hdr, end, i + 1);
      SetLink(next, link[next].(prev := cut));
      ghost var d2 := data[..];
      HeaderWriteIsSafe(d1, d2, next, b, c.hdr, end, i + 2);
      SameTrans(old(data[..]), d1, d2, b, c.hdr);
      SetLink(at, link[at].(next := cut));
      HeaderWriteIsSafe(d2, data[..], at, b, c.hdr, end, i);
      SameTrans(old(data[..]), d2, data[..], b, c.hdr);
    }

    /** The block at `at` swallows its right neighbour. */
    method JoinBlocks(at: nat, ghost i: nat)
      requires Shaped() && i + 1 < |b| && at == b[i].at
      modifies `link, `b, data
      ensures Shaped() && b == Join(old(b), i) && Same(old(data[..]), data[..], b, c.hdr)
    {
      hide Tiled, Linked, SameOutside, Same, Join;
      JoinLinked(link, b, c.hdr, end, i);
      JoinTiled(b, c.hdr, end, i);
      JoinAt(b, i);
      HeaderAt(link, b, c.hdr, end, i);
      HeaderAt(link, b, c.hdr, end, i + 1);
      b := Join(b, i);
      var next := link[link[at].next].next;
      SetLink(at, link[at].(next := next));
      ghost var d1 := data[..];
      HeaderWriteIsSafe(old(data[..]), d1, at, b, c.hdr, end, i);
      SetLink(next, link[next].(prev := at));
      HeaderWriteIsSafe(d1, data[..], next, b, c.hdr, end, i + 1);
      SameTrans(old(data[..]), d1, data[..], b, c.hdr);
    }

    /** Takes `x` off the free ring. */
    method Unhook(x: nat)
      requires Shaped() && Strung() && x in f && Anchored(b, f, x)
      modifies `ring, `f, data
      ensures Strung() && f == Without(old(f), x) && Same(old(data[..]), data[..], b, c.hdr)
    {
      hide Tiled, Linked, Ring, Distinct, Without, SameOutside, Same, Anchored, IsHeader, Stop;
      ghost var j :| 0 <= j < |f| && f[j] == x;
      RingRemove(ring, f, j);
      WithoutKeepsDistinct(f, x);
      NeighboursAre(b, f, j, c.hdr, end);
      var n, p := ring[x].next, ring[x].prev;
      SetHook(n, ring[n].(prev := p));
      ghost var d1 := data[..];
      if n != FREE {
        HeaderIsSafe(old(data[..]), d1, n, b, c.hdr, end);
      } else {
        SameRefl(d1, b, c.hdr);
      }
      SetHook(p, ring[p].(next := n));
      if p != FREE {
        HeaderIsSafe(d1, data[..], p, b, c.hdr, end);
      } else {
        SameRefl(d1, b, c.hdr);
      }
      SameTrans(old(data[..]), d1, data[..], b, c.hdr);
      f := Without(f, x);
    }

    /** Links `x` in right behind the list header. */
    method HookFirst(x: nat)
      requires Shaped() && Strung() && x !in f && IsHeader(b, x) && Anchored(b, f, FREE)
      modifies `ring, `f, data
      ensures Strung() && f == [x] + old(f) && Same(old(data[..]), data[..], b, c.hdr)
    {
      hide Tiled, Linked, Ring, Distinct, SameOutside, Same, Anchored, IsHeader, Stop;
      RingPush(ring, f, x);
      PushIs(f, x);
      FirstIs(b, f, x, c.hdr, end);
      var n := ring[FREE].next;
      SetHook(x, Hook(n, FREE));
      ghost var d1 := data[..];
      HeaderIsSafe(old(data[..]), d1, x, b, c.hdr, end);
      SetHook(n, ring[n].(prev := x));
      ghost var d2 := data[..];
      if n != FREE {
        HeaderIsSafe(d1, d2, n, b, c.hdr, end);
      } else {
        SameRefl(d1, b, c.hdr);
      }
      SameTrans(old(data[..]), d1, d2, b, c.hdr);
      SetHook(FREE, ring[FREE].(next := x));
      f := [x] + f;
    }

    /** `rt_memheap_init` over a pool with room for its two headers. */
    constructor (c: Config, size: nat)
      requires c.Valid() && Down(size, c.align) >= 2 * c.hdr
      ensures Valid() && fresh(data) && this.c == c && end + c.hdr == Down(size, c.align)
      ensures H() == Heap([Blk(0, end, false)], [0], end - c.hdr, 2 * c.hdr)
    {
      this.c := c;
      var pool := Down(size, c.align);
      end := pool - c.hdr;
      data := new Byte[pool](_ => 0);
      avail := pool - 2 * c.hdr;
      maxUsed := 2 * c.hdr;
      link := map[0 := Link(false, pool - c.hdr, pool - c.hdr), pool - c.hdr := Link(true, 0, 0)];
      ring := map[FREE := Hook(0, 0), 0 := Hook(FREE, FREE)];
      b, f := [Blk(0, pool - c.hdr, false)], [0];
      new;
      InitGood(c, pool - c.hdr);
    }

    method Record()
      modifies `maxUsed
      ensures H() == Mark(old(H()), c, end)
    {
      if end + c.hdr - avail > maxUsed {
        maxUsed := end + c.hdr - avail;
      }
    }

    /** Takes the first `size` bytes of the free block at `x`; the rest becomes a free block. */
    method TakeCut(x: nat, size: nat, ghost i: nat)
      requires Valid() && i < |b| && x == b[i].at && !b[i].used && Payload(b[i], c.hdr) >= size + c.hdr + MINI
      modifies this, data
      ensures Shaped() && Strung() && H() == Take(old(H()), i, size, c, end)
      ensures Same(old(data[..]), data[..], old(b), c.hdr)
    {
      hide Tiled, Linked, Ring, Distinct, Same, Without, Anchored, IsHeader, Split, Good, Flag;
      ghost var h, d, cut := H(), data[..], x + c.hdr + size;
      TakeFacts(h, i, cut, c, end);
      CutBlock(x, x + c.hdr + size, i);
      ghost var d1 := data[..];
      Unhook(x);
      SameTrans(d, d1, data[..], b, c.hdr);
      ghost var d2 := data[..];
      HookFirst(x + c.hdr + size);
      SameTrans(d, d2, data[..], b, c.hdr);
      ghost var d3 := data[..];
      FlagBlock(x, true, i);
      SplitTakeSame(d, d3, data[..], h.b, i, cut, c.hdr);
      avail := avail - size - c.hdr;
      Record();
    }

    /** Takes the whole free block at `x`. */
    method TakeWhole(x: nat, ghost size: nat, ghost i: nat)
      requires Valid() && i < |b| && x == b[i].at && !b[i].used && size <= Payload(b[i], c.hdr) < size + c.hdr + MINI
      modifies this, data
      ensures Shaped() && Strung() && H() == Take(old(H()), i, size, c, end)
      ensures Same(old(data[..]), data[..], old(b), c.hdr)
    {
      hide Tiled, Linked, Ring, Distinct, Same, Without, Anchored, IsHeader, Good, Flag;
      ghost var h, d := H(), data[..];
      TakeFacts(h, i, x, c, end);
      HeaderAt(link, b, c.hdr, end, i);
      avail := avail - (link[x].next - x - c.hdr);
      Record();
      Unhook(x);
      ghost var d1 := data[..];
      FlagBlock(x, true, i);
      FlagTakeSame(d, d1, data[..], h.b, i, c.hdr);
    }

    method TakeBlock(x: nat, size: nat, ghost i: nat)
      requires Valid() && i < |b| && x == b[i].at && !b[i].used && Payload(b[i], c.hdr) >= size >= MINI
      modifies this, data
      ensures Valid() && H() == Take(old(H()), i, size, c, end)
      ensures Same(old(data[..]), data[..], old(b), c.hdr)
    {
      hide Tiled, Linked, Ring, Distinct, Same, Good, Take;
      TakeGood(H(), i, size, c, end);
      HeaderAt(link, b, c.hdr, end, i);
      if link[x].next - x - c.hdr >= size + c.hdr + MINI {
        TakeCut(x, size, i);
      } else {
        TakeWhole(x, size, i);
      }
    }

    /** `rt_memheap_alloc` */
    method Alloc(n: nat) returns (p: Ptr)
      requires Valid()
      modifies this, data
      ensures Valid() && (H(), p) == MemHeap.Alloc(old(H()), n, c, end)
      ensures Same(old(data[..]), data[..], old(b), c.hdr)
    {
      hide Tiled, Linked, Ring, Distinct, Same, Good, RingMatches, Up, Take, Search;
      var size := Up(n, c.align);
      if size < MINI {
        size := MINI;
      }
      SameRefl(data[..], b, c.hdr);
      if size < avail {
        ghost var k;
        p, k := FindFit(size);
        if p.At? {
          TakeBlock(p.offset, size, Index(b, f[k]));
          p := At(p.offset + c.hdr);
        }
      } else {
        p := Null;
      }
    }

    /** The walk along the free ring. */
    method FindFit(size: nat) returns (p: Ptr, ghost k: nat)
      requires Valid() && size > 0
      ensures k == Search(b, f, c.hdr, size)
      ensures p == if k == |f| then Null else At(f[k])
      ensures k < |f| ==> var i := Index(b, f[k]); i < |b| && !b[i].used && b[i].at == f[k] && Payload(b[i], c.hdr) >= size
    {
      hide Tiled, Linked, Good, Ring, Distinct, Search, Index;
      k := 0;
      RingStart(ring, f);
      var header := ring[FREE].next;
      var freeSize := 0;
      while header != FREE && freeSize < size
        invariant k <= |f| && header == Stop(f, k + 1)
        invariant forall m :: 0 <= m < k ==> !Fits(b, c.hdr, f[m], size)
        invariant freeSize < size || (k < |f| && Fits(b, c.hdr, f[k], size))
        decreases |f| - k, size - freeSize
      {
        FreeBlockAt(H(), k, c, end);
        HeaderAt(link, b, c.hdr, end, Index(b, f[k]));
        freeSize := link[header].next - header - c.hdr;
        if freeSize < size {
          RingNext(ring, f, k);
          header := ring[header].next;
          k := k + 1;
        }
      }
      SearchIs(b, f, c.hdr, size, if header != FREE then k else |f|);
      if header != FREE {
        FreeBlockAt(H(), k, c, end);
        p := At(header);
      } else {
        p, k := Null, |f|;
      }
    }

    /** `rt_memheap_free` */
    method Free(p: nat, ghost i: nat)
      requires Valid() && Owns(b, i, c.hdr, p)
      modifies this, data
      ensures Valid() && H() == MemHeap.Free(old(H()), i, c)
      ensures Same(old(data[..]), data[..], Flag(old(b), i, false), c.hdr)
    {
      hide Tiled, Linked, Ring, Distinct, Same, Good, HalfFreed, Live;
      FreeGood(H(), i, c, end);
      ghost var g, d := Flag(b, i, false), data[..];
      ghost var j;
      var header, insert;
      header, insert, j := MergeBefore(p - c.hdr, i);
      MergeAfter(header, insert, j, g, d, p - c.hdr);
    }

    /** The left half of a free. */
    method MergeBefore(at: nat, ghost i: nat) returns (header: nat, insert: bool, ghost j: nat)
      requires Valid() && i < |b| && b[i].used && at == b[i].at
      modifies `link, `b, `avail, data
      ensures Shaped() && j < |b| && header == b[j].at && HalfFreed(H(), j, !insert, at, c, end)
      ensures insert == !(i > 0 && !old(b)[i - 1].used) && j == (if insert then i else i - 1)
      ensures var h := old(H());
              var h0 := h.(b := Flag(h.b, i, false), avail := h.avail + Payload(h.b[i], c.hdr));
              H() == if insert then h0 else MergeLeft(h0, i, c)
      ensures insert ==> header == at
      ensures var g := Flag(old(b), i, false);
              Same(old(data[..]), data[..], g, c.hdr) && forall a :: Live(b, c.hdr, a) <==> Live(g, c.hdr, a)
    {
      hide Tiled, Linked, Ring, Distinct, Same, Good, HalfFreed, Live, Join;
      FreeLeft(H(), i, c, end);
      ghost var g, d := Flag(b, i, false), data[..];
      HeaderAt(link, b, c.hdr, end, i);
      avail := avail + (link[at].next - at - c.hdr);
      FlagBlock(at, false, i);
      HeaderAt(link, b, c.hdr, end, i);
      if i > 0 {
        HeaderAt(link, b, c.hdr, end, i - 1);
      }
      header, insert, j := at, true, i;
      var prev := link[at].prev;
      if !link[prev].used {
        avail := avail + c.hdr;
        ghost var d1 := data[..];
        JoinAt(b, i - 1);
        JoinBlocks(prev, i - 1);
        JoinSame(d, d1, data[..], g, i - 1, g, c.hdr);
        header, insert, j := prev, false, i - 1;
      }
    }

    /** The right half of a free: the next block, then the ring. */
    method MergeAfter(header: nat, insert: bool, ghost j: nat, ghost g: seq<Blk>, ghost d: seq<Byte>, ghost at: nat)
      requires Shaped() && Strung() && j < |b| && header == b[j].at && HalfFreed(H(), j, !insert, at, c, end)
      requires insert ==> header == at
      requires Same(d, data[..], g, c.hdr) && forall a :: Live(b, c.hdr, a) <==> Live(g, c.hdr, a)
      modifies this, data
      ensures Shaped() && Strung()
      ensures var h := old(H());
              var r := if j + 1 < |h.b| && !h.b[j + 1].used then MergeRight(h, j, c) else h;
              H() == if insert then r.(f := [at] + r.f) else r
      ensures Same(d, data[..], g, c.hdr)
    {
      hide Tiled, Linked, Ring, Distinct, Same, Anchored, IsHeader, Without, HalfFreed, Live, Join;
      HalfFreedFacts(H(), j, !insert, at, c, end);
      HeaderAt(link, b, c.hdr, end, j);
      if j + 1 < |b| {
        HeaderAt(link, b, c.hdr, end, j + 1);
      }
      var next := link[header].next;
      if !link[next].used {
        avail := avail + c.hdr;
        AbsorbNext(header, next, j, g, d);
      }
      if insert {
        ghost var d3 := data[..];
        HookFirst(header);
        SameVia(d, d3, data[..], b, g, c.hdr);
      }
    }

    /** The free block at `header` swallows the free block at `next`, which leaves the ring. */
    method AbsorbNext(header: nat, next: nat, ghost j: nat, ghost g: seq<Blk>, ghost d: seq<Byte>)
      requires Shaped() && Strung() && j + 1 < |b| && header == b[j].at && next == b[j + 1].at
      requires !b[j].used && !b[j + 1].used && next in f && Anchored(b, f, next)
      requires Same(d, data[..], g, c.hdr) && forall a :: Live(b, c.hdr, a) <==> Live(g, c.hdr, a)
      modifies `link, `ring, `b, `f, data
      ensures Shaped() && Strung() && b == Join(old(b), j) && f == Without(old(f), next)
      ensures Same(d, data[..], g, c.hdr) && forall a :: Live(b, c.hdr, a) <==> Live(g, c.hdr, a)
      ensures Anchored(b, f, FREE) && IsHeader(b, header)
    {
      hide Tiled, Linked, Ring, Distinct, Same, Anchored, IsHeader, Without, Live, Join;
      JoinAnchored(b, f, j);
      AnchoredWithout(Join(b, j), f, next);
      ghost var was, d1 := b, data[..];
      JoinBlocks(header, j);
      JoinSame(d, d1, data[..], was, j, g, c.hdr);
      ghost var d2 := data[..];
      Unhook(next);
      SameVia(d, d2, data[..], b, g, c.hdr);
    }
  
    /** The block at `at` grows into its free right neighbour, whose header moves up. */
    method GrowBlock(at: nat, size: nat, ghost i: nat)
      requires Valid() && i < |b| && b[i].used && at == b[i].at && Grows(b, i, size, c.hdr)
      modifies this, data
      ensures Valid() && H() == Grow(old(H()), i, size, c, end)
      ensures Same(old(data[..]), data[..], old(b), c.hdr)
    {
      hide Tiled, Linked, Ring, Distinct, Same, Without, Anchored, IsHeader, Good, Split, Join, Live;
      ghost var h, d, cut := H(), data[..], at + c.hdr + size;
      GrowGood(h, i, size, c, end);
      GrowFacts(h, i, size, c, end);
      HeaderAt(link, b, c.hdr, end, i);
      HeaderAt(link, b, c.hdr, end, i + 1);
      avail := avail - (size - (link[at].next - at - c.hdr));
      Record();
      var next := link[at].next;
      Unhook(next);
      ghost var d1 := data[..];
      JoinBlocks(at, i);
      SameWithin(d, d1, data[..], h.b, b, c.hdr);
      ghost var d2 := data[..];
      CutBlock(at, at + c.hdr + size, i);
      SameWithin(d, d2, data[..], h.b, b, c.hdr);
      ghost var d3 := data[..];
      HookFirst(at + c.hdr + size);
      SameWithin(d, d3, data[..], h.b, b, c.hdr);
    }

    /** The block at `at` gives up its tail, which merges with a free right neighbour. */
    method ShrinkBlock(at: nat, size: nat, ghost i: nat)
      requires Valid() && i < |b| && b[i].used && at == b[i].at && Shrinks(b, i, size, c.hdr)
      modifies this, data
      ensures Valid() && H() == Shrink(old(H()), i, size, c)
      ensures Same(old(data[..]), data[..], Split(old(b), i, at + c.hdr + size, true), c.hdr)
    {
      hide Tiled, Linked, Ring, Distinct, Same, Without, Anchored, IsHeader, Good, Split, Join, Live;
      ghost var h, d, cut := H(), data[..], at + c.hdr + size;
      ShrinkGood(h, i, size, c, end);
      ShrinkFacts(h, i, cut, c, end);
      HeaderAt(link, b, c.hdr, end, i);
      if i + 1 < |b| {
        HeaderAt(link, b, c.hdr, end, i + 1);
      }
      SplitAt(b, i, cut, true);
      CutBlock(at, at + c.hdr + size, i);
      ghost var g := b;
      HeaderAt(link, b, c.hdr, end, i + 1);
      if i + 2 < |b| {
        HeaderAt(link, b, c.hdr, end, i + 2);
      }
      var split := at + c.hdr + size;
      var next := link[split].next;
      if !link[next].used {
        avail := avail - (link[next].next - next - c.hdr);
        JoinAt(b, i + 1);
        AbsorbNext(split, next, i + 1, g, d);
        HeaderAt(link, b, c.hdr, end, i + 1);
      }
      ghost var d1 := data[..];
      HookFirst(split);
      SameVia(d, d1, data[..], b, g, c.hdr);
      avail := avail + (link[split].next - split - c.hdr);
    }

    method CopyBytes(src: nat, dst: nat, n: nat)
      requires src + n <= data.Length && dst + n <= data.Length && (src + n <= dst || dst + n <= src)
      modifies data
      ensures SameOutside(old(data[..]), data[..], dst, n) && Copied(old(data[..]), data[..], src, dst, n)
    {
      for k := 0 to n
        invariant SameOutside(old(data[..]), data[..], dst, n) && Copied(old(data[..]), data[..], src, dst, k)
      {
        data[dst + k] := data[src + k];
      }
    }

    /** The moving half of `rt_memheap_realloc`. */
    method Move(p: nat, size: nat, ghost i: nat) returns (r: Ptr)
      requires Valid() && Owns(b, i, c.hdr, p) && size >= MINI
      modifies this, data
      ensures Valid() && (H(), r) == MemHeap.Move(old(H()), i, size, c, end)
      ensures r.Null? ==> Same(old(data[..]), data[..], old(b), c.hdr)
      ensures r.At? ==> Copied(old(data[..]), data[..], p, r.offset, Min(Payload(old(b)[i], c.hdr), size))
      ensures r.At? ==> Same(old(data[..]), data[..], Flag(old(b), i, false), c.hdr)
    {
      hide Tiled, Linked, Ring, Distinct, Same, Total, Coalesced, RingMatches, Up, Take, MovedTo, Taken, Search, Copied, Flag, Chosen, MemHeap.Free;
      ghost var h, d := H(), data[..];
      HeaderAt(link, b, c.hdr, end, i);
      var oldSize := link[p - c.hdr].next - p;
      MoveIs(h, i, size, c, end);
      AllocIs(h, size, c, end);
      r := Alloc(size);
      if r.At? {
        ghost var want := Rounded(size, c);
        ghost var j := Chosen(h, want, c);
        TakeTakes(h, j, want, c, end);
        TakenIndex(h.b, b, j, h.b[j].at + c.hdr + want, i);
        Transfer(p, r.offset, if oldSize < size then oldSize else size, h.b, d, i, j, h.b[j].at + c.hdr + want);
      }
    }

    /** Copies the old block into the freshly taken block `j` and frees the old one. */
    method Transfer(p: nat, dst: nat, n: nat, ghost was: seq<Blk>, ghost d: seq<Byte>, ghost i: nat, ghost j: nat, ghost cut: nat)
      requires Valid() && Owns(was, i, c.hdr, p) && Taken(was, b, j, cut)
      requires j < |b| && b[j].used && dst == b[j].at + c.hdr
      requires var m := MovedTo(was, b, i, j); m < |b| && b[m] == was[i] && m != j
      requires n <= Payload(was[i], c.hdr) && n <= Payload(b[j], c.hdr) && Same(d, data[..], was, c.hdr)
      modifies this, data
      ensures Valid() && H() == MemHeap.Free(old(H()), MovedTo(was, old(b), i, j), c)
      ensures Copied(d, data[..], p, dst, n) && Same(d, data[..], Flag(was, i, false), c.hdr)
    {
      hide Tiled, Linked, Ring, Distinct, Same, Good, Taken, SameOutside, Copied, MovedTo, Plug, MemHeap.Free;
      ghost var t, d1, m := b, data[..], MovedTo(was, b, i, j);
      BelowEnd(t, c.hdr, end, j);
      BelowEnd(t, c.hdr, end, m);
      DisjointBlocks(t, c.hdr, end, m, j);
      CopyBytes(p, dst, n);
      ghost var d2 := data[..];
      CopyIsSafe(d1, d2, t, c.hdr, end, j, n);
      Free(p, m);
      MoveKeepsOthers(d, d1, d2, data[..], was, t, i, j, cut, c.hdr);
      MoveCopies(d, d1, d2, data[..], was, i, t, m, j, c.hdr, n);
    }

    /** `rt_memheap_realloc`: free, allocate, stay, shrink, grow in place, or move. */
    method Realloc(p: Ptr, n: nat, ghost i: nat) returns (r: Ptr)
      requires Valid() && Names(H(), p, i, c)
      modifies this, data
      ensures Valid() && (H(), r) == MemHeap.Realloc(old(H()), p, i, n, c, end)
      ensures p.At? ==> Same(old(data[..]), data[..], Flag(old(b), i, false), c.hdr)
      ensures p.Null? || (n > 0 && r.Null?) ==> Same(old(data[..]), data[..], old(b), c.hdr)
      ensures p.At? && r.At? ==>
                Copied(old(data[..]), data[..], p.offset, r.offset, Min(Payload(old(b)[i], c.hdr), n))
    {
      hide Tiled, Linked, Ring, Distinct, Same, Good, Up, Copied, MemHeap.Free, MemHeap.Alloc, MemHeap.Move, Shrink, Grow, Split, Flag;
      if n == 0 {
        SameRefl(data[..], b, c.hdr);
        if p.At? {
          Free(p.offset, i);
        }
        return Null;
      }
      var size := Up(n, c.align);
      if size < MINI {
        size := MINI;
      }
      if p.Null? {
        r := Alloc(size);
        return;
      }
      r := Resize(p.offset, size, n, i);
    }

    /** A live block is brought to `size` bytes, in place if that is possible. */
    method Resize(p: nat, size: nat, ghost n: nat, ghost i: nat) returns (r: Ptr)
      requires Valid() && Names(H(), At(p), i, c) && n > 0 && size == Rounded(n, c)
      modifies this, data
      ensures Valid() && (H(), r) == MemHeap.Realloc(old(H()), At(p), i, n, c, end)
      ensures Same(old(data[..]), data[..], Flag(old(b), i, false), c.hdr)
      ensures r.Null? ==> Same(old(data[..]), data[..], old(b), c.hdr)
      ensures r.At? ==> Copied(old(data[..]), data[..], p, r.offset, Min(Payload(old(b)[i], c.hdr), n))
    {
      hide Tiled, Linked, Ring, Distinct, Same, Good, Copied, Shrink, Grow, Split, Flag, MemHeap.Move, MemHeap.Free, Up, Live;
      var mem := p - c.hdr;
      HeaderAt(link, b, c.hdr, end, i);
      var oldSize := link[mem].next - mem - c.hdr;
      ghost var h, d := H(), data[..];
      if size > oldSize {
        r := Enlarge(p, size, oldSize, i);
        if r.At? {
          CopiedLess(d, data[..], p, r.offset, oldSize, Min(oldSize, n));
        }
        return;
      }
      if size + c.hdr + MINI >= oldSize {
        SameRefl(data[..], Flag(b, i, false), c.hdr);
        CopiedRefl(data[..], p, Min(oldSize, n));
        return At(p);
      }
      ShrinkBlock(mem, size, i);
      ShrinkResult(d, data[..], h, i, size, c, end);
      CopiedLess(d, data[..], p, p, size, Min(oldSize, n));
      return At(p);
    }

    /** Grows into the next block, or moves. */
    method Enlarge(p: nat, size: nat, oldSize: nat, ghost i: nat) returns (r: Ptr)
      requires Valid() && Owns(b, i, c.hdr, p) && oldSize == Payload(b[i], c.hdr) && oldSize < size && size >= MINI
      modifies this, data
      ensures Valid() && (H(), r) == if Grows(old(b), i, size, c.hdr) then (Grow(old(H()), i, size, c, end), At(p))
                                     else MemHeap.Move(old(H()), i, size, c, end)
      ensures Same(old(data[..]), data[..], Flag(old(b), i, false), c.hdr)
      ensures r.Null? ==> Same(old(data[..]), data[..], old(b), c.hdr)
      ensures r.At? ==> Copied(old(data[..]), data[..], p, r.offset, oldSize)
    {
      hide Tiled, Linked, Ring, Distinct, Same, Good, Copied, Grow, Split, Flag, MemHeap.Move, MemHeap.Free, Up, Live;
      var mem := p - c.hdr;
      HeaderAt(link, b, c.hdr, end, i);
      if i + 1 < |b| {
        HeaderAt(link, b, c.hdr, end, i + 1);
      }
      ghost var h, d := H(), data[..];
      var next := link[mem].next;
      if !link[next].used && (link[next].next - next - c.hdr) + oldSize > size + MINI {
        GrowBlock(mem, size, i);
        GrowResult(d, data[..], h, i, size, c, end);
        return At(p);
      }
      r := Move(p, size, i);
      if r.Null? {
        SameFewer(d, data[..], h.b, i, c.hdr);
      }
    }
  }

  /** Fewer live bytes than `b` knows of are certainly unchanged. */
  lemma SameWithin(d: seq<Byte>, e: seq<Byte>, f: seq<Byte>, g: seq<Blk>, b: seq<Blk>, hdr: nat)
    requires Same(d, e, g, hdr) && Same(e, f, b, hdr) && forall a :: Live(g, hdr, a) ==> Live(b, hdr, a)
    ensures Same(d, f, g, hdr)
  {
  }

  lemma GrowLive(b: seq<Blk>, hdr: nat, end: nat, i: nat, cut: nat, a: nat)
    requires Tiled(b, hdr, end) && i + 1 < |b| && b[i].used && !b[i + 1].used && b[i].next <= cut && Live(b, hdr, a)
    ensures Live(Join(b, i), hdr, a) && Live(Split(Join(b, i), i, cut, true), hdr, a)
  {
    JoinAt(b, i);
    SplitAt(Join(b, i), i, cut, true);
    Adjacent(b, hdr, end, i);
    var s, t := Join(b, i), Split(Join(b, i), i, cut, true);
    var j :| 0 <= j < |b| && InPayload(b[j], hdr, a);
    assert InPayload(s[if j <= i then j else j - 1], hdr, a);
    assert t[if j <= i then j else j].used;
    assert InPayload(t[j], hdr, a);
  }

  lemma GrowFacts(h: Heap, i: nat, size: nat, c: Config, end: nat)
    requires Good(h, c, end) && i < |h.b| && h.b[i].used && Grows(h.b, i, size, c.hdr)
    ensures var x, s, cut := h.b[i + 1].at, Join(h.b, i), h.b[i].at + c.hdr + size;
            && x in h.f && Anchored(h.b, h.f, x)
            && i < |s| && s[i] == Blk(h.b[i].at, h.b[i + 1].next, true)
            && cut + c.hdr <= s[i].next && cut !in Without(h.f, x)
            && IsHeader(Split(s, i, cut, true), cut) && Anchored(Split(s, i, cut, true), Without(h.f, x), FREE)
            && (forall a :: Live(h.b, c.hdr, a) ==> Live(s, c.hdr, a) && Live(Split(s, i, cut, true), c.hdr, a))
  {
    hide Tiled, Distinct, IsFree, Coalesced, Total, Split, Join, Live, Without, IsHeader, Anchored;
    var x, s, cut := h.b[i + 1].at, Join(h.b, i), h.b[i].at + c.hdr + size;
    JoinAt(h.b, i);
    JoinTiled(h.b, c.hdr, end, i);
    Adjacent(h.b, c.hdr, end, i);
    RingIsAnchored(h.b, h.f, x);
    FreeIndex(h.b, c.hdr, end, i + 1, x);
    JoinAnchored(h.b, h.f, i);
    SplitAnchored(s, h.f, x, i, cut, true);
    AnchoredWithout(Split(s, i, cut, true), h.f, x);
    MergeRightRing(h.b, h.f, c.hdr, end, i, 0);
    CutIsNew(s, Without(h.f, x), c.hdr, end, i, cut);
    forall a | Live(h.b, c.hdr, a) ensures Live(s, c.hdr, a) && Live(Split(s, i, cut, true), c.hdr, a) {
      GrowLive(h.b, c.hdr, end, i, cut, a);
    }
  }

  lemma ShrinkFacts(h: Heap, i: nat, cut: nat, c: Config, end: nat)
    requires Good(h, c, end) && i < |h.b| && h.b[i].used && h.b[i].at < cut < h.b[i].next
    ensures var s := Split(h.b, i, cut, true);
            && cut !in h.f && IsHeader(s, cut) && (forall x: int :: Anchored(s, h.f, x)) && (forall x :: cut !in Without(h.f, x))
    ensures i + 1 < |h.b| && !h.b[i + 1].used ==> h.b[i + 1].at in h.f
  {
    CutIsNew(h.b, h.f, c.hdr, end, i, cut);
    RingIsAnchored(h.b, h.f, FREE);
    SplitAnchored(h.b, h.f, FREE, i, cut, true);
    if i + 1 < |h.b| {
      FreeIndex(h.b, c.hdr, end, i + 1, h.b[i + 1].at);
    }
  }

  lemma GrowResult(d: seq<Byte>, e: seq<Byte>, h: Heap, i: nat, size: nat, c: Config, end: nat)
    requires Tiled(h.b, c.hdr, end) && |d| == end + c.hdr && i < |h.b| && h.b[i].used && Grows(h.b, i, size, c.hdr)
    requires Same(d, e, h.b, c.hdr)
    ensures var t := Grow(h, i, size, c, end).b;
            i < |t| && t[i] == Blk(h.b[i].at, h.b[i].at + c.hdr + size, true)
    ensures Copied(d, e, h.b[i].at + c.hdr, h.b[i].at + c.hdr, Payload(h.b[i], c.hdr))
    ensures Same(d, e, Flag(h.b, i, false), c.hdr)
  {
    JoinAt(h.b, i);
    SplitAt(Join(h.b, i), i, h.b[i].at + c.hdr + size, true);
    BelowEnd(h.b, c.hdr, end, i);
    PayloadIsSame(d, e, h.b, i, c.hdr, Payload(h.b[i], c.hdr));
    forall a | 0 <= a < |d| && Live(Flag(h.b, i, false), c.hdr, a) ensures d[a] == e[a] {
      var q :| 0 <= q < |h.b| && InPayload(Flag(h.b, i, false)[q], c.hdr, a);
      assert InPayload(h.b[q], c.hdr, a);
    }
  }

  lemma ShrinkResult(d: seq<Byte>, e: seq<Byte>, h: Heap, i: nat, size: nat, c: Config, end: nat)
    requires Tiled(h.b, c.hdr, end) && |d| == end + c.hdr && i < |h.b| && h.b[i].used && Shrinks(h.b, i, size, c.hdr)
    requires Same(d, e, Split(h.b, i, h.b[i].at + c.hdr + size, true), c.hdr)
    ensures var t := Shrink(h, i, size, c).b;
            i < |t| && t[i] == Blk(h.b[i].at, h.b[i].at + c.hdr + size, true)
    ensures Copied(d, e, h.b[i].at + c.hdr, h.b[i].at + c.hdr, size)
    ensures Same(d, e, Flag(h.b, i, false), c.hdr)
  {
    hide Tiled, Same, Copied, Split, Join, Flag;
    var cut := h.b[i].at + c.hdr + size;
    var s := Split(h.b, i, cut, true);
    SplitAt(h.b, i, cut, true);
    if i + 1 < |h.b| {
      JoinAt(s, i + 1);
    }
    BelowEnd(h.b, c.hdr, end, i);
    PayloadIsSame(d, e, s, i, c.hdr, size);
    CutLeavesOthers(d, e, h.b, i, cut, c.hdr);
  }

  lemma CutLeavesOthers(d: seq<Byte>, e: seq<Byte>, b: seq<Blk>, i: nat, cut: nat, hdr: nat)
    requires i < |b| && Same(d, e, Split(b, i, cut, true), hdr)
    ensures Same(d, e, Flag(b, i, false), hdr)
  {
    hide Split;
    var s := Split(b, i, cut, true);
    SplitAt(b, i, cut, true);
    forall a | 0 <= a < |d| && Live(Flag(b, i, false), hdr, a) ensures d[a] == e[a] {
      var q :| 0 <= q < |b| && InPayload(Flag(b, i, false)[q], hdr, a);
      assert s[if q < i then q else q + 1] == b[q];
    }
  }

  lemma HalfFreedFacts(h: Heap, j: nat, left: bool, at: nat, c: Config, end: nat)
    requires c.Valid() && HalfFreed(h, j, left, at, c, end)
    ensures !h.b[j].used && IsHeader(h.b, h.b[j].at)
    ensures forall x: int :: Anchored(h.b, h.f, x)
    ensures !left ==> at !in h.f
    ensures forall x :: Distinct(h.f) && (at !in h.f ==> at !in Without(h.f, x))
    ensures j + 1 < |h.b| && !h.b[j + 1].used ==> h.b[j + 1].at in h.f
  {
    if j + 1 < |h.b| && !h.b[j + 1].used {
      FreeIndex(h.b, c.hdr, end, j + 1, h.b[j + 1].at);
      DistinctPlaces(h.b, c.hdr, end, j, j + 1);
    }
  }

  lemma AnchoredWithout(b: seq<Blk>, f: seq<nat>, x: nat)
    requires Anchored(b, f, x) && Distinct(f)
    ensures Anchored(b, Without(f, x), FREE)
  {
    WithoutIs(f, x);
  }

  /** Same bytes in use, whichever of two equally live block lists says so. */
  lemma SameVia(d: seq<Byte>, e: seq<Byte>, f: seq<Byte>, b: seq<Blk>, g: seq<Blk>, hdr: nat)
    requires Same(d, e, g, hdr) && Same(e, f, b, hdr) && forall a :: Live(b, hdr, a) <==> Live(g, hdr, a)
    ensures Same(d, f, g, hdr)
  {
  }

  lemma JoinSame(d: seq<Byte>, e: seq<Byte>, f: seq<Byte>, b: seq<Blk>, i: nat, g: seq<Blk>, hdr: nat)
    requires i + 1 < |b| && !b[i].used && !b[i + 1].used
    requires Same(d, e, g, hdr) && Same(e, f, Join(b, i), hdr) && forall a :: Live(b, hdr, a) <==> Live(g, hdr, a)
    ensures Same(d, f, g, hdr) && forall a :: Live(Join(b, i), hdr, a) <==> Live(g, hdr, a)
  {
    forall a ensures Live(Join(b, i), hdr, a) <==> Live(g, hdr, a) {
      LiveJoin(b, hdr, i, a);
    }
  }

  lemma TakeFacts(h: Heap, i: nat, cut: nat, c: Config, end: nat)
    requires Good(h, c, end) && i < |h.b| && !h.b[i].used && h.b[i].at <= cut < h.b[i].next
    ensures var x, s := h.b[i].at, Split(h.b, i, cut, false);
            && x in h.f && Anchored(h.b, h.f, x)
            && Anchored(s, h.f, x) && IsHeader(s, cut) && Anchored(s, Without(h.f, x), FREE)
            && i < |s| && s[i].at == x && Flag(s, i, true) == Split(h.b, i, cut, true)
            && (x < cut ==> cut !in Without(h.f, x))
  {
    var x := h.b[i].at;
    RingIsAnchored(h.b, h.f, x);
    FreeIndex(h.b, c.hdr, end, i, x);
    SplitAnchored(h.b, h.f, x, i, cut, false);
    if x < cut {
      TakeNew(h, i, cut, c, end);
    }
    SplitFlagAt(h.b, i, cut);
    AnchoredWithout(Split(h.b, i, cut, false), h.f, x);
  }

  lemma TakeNew(h: Heap, i: nat, cut: nat, c: Config, end: nat)
    requires Good(h, c, end) && i < |h.b| && h.b[i].at < cut < h.b[i].next
    ensures cut !in Without(h.f, h.b[i].at)
  {
    CutIsNew(h.b, h.f, c.hdr, end, i, cut);
  }

  lemma SplitFlagAt(b: seq<Blk>, i: nat, cut: nat)
    requires i < |b|
    ensures i < |Split(b, i, cut, false)| && Split(b, i, cut, false)[i].at == b[i].at
    ensures Flag(Split(b, i, cut, false), i, true) == Split(b, i, cut, true)
  {
    SplitAt(b, i, cut, false);
    SplitAt(b, i, cut, true);
  }

  lemma SplitTakeSame(d: seq<Byte>, e: seq<Byte>, f: seq<Byte>, b: seq<Blk>, i: nat, cut: nat, hdr: nat)
    requires i < |b| && !b[i].used && Same(d, e, Split(b, i, cut, false), hdr) && Same(e, f, Split(b, i, cut, true), hdr)
    ensures Same(d, f, b, hdr)
  {
    forall a | 0 <= a < |d| && Live(b, hdr, a) ensures d[a] == f[a] {
      LiveSplit(b, hdr, i, cut, false, a);
      LiveSplit(b, hdr, i, cut, true, a);
    }
  }

  lemma FlagTakeSame(d: seq<Byte>, e: seq<Byte>, f: seq<Byte>, b: seq<Blk>, i: nat, hdr: nat)
    requires i < |b| && !b[i].used && Same(d, e, b, hdr) && Same(e, f, Flag(b, i, true), hdr)
    ensures Same(d, f, b, hdr)
  {
    forall a | 0 <= a < |d| && Live(b, hdr, a) ensures d[a] == f[a] {
      LiveFlag(b, hdr, i, true, a);
    }
  }

  lemma RingStart(ring: map<int, Hook>, f: seq<nat>)
    requires Ring(ring, f)
    ensures FREE in ring && ring[FREE].next == Stop(f, 1)
  {
    assert Hooked(ring, f, 0);
  }

  lemma RingNext(ring: map<int, Hook>, f: seq<nat>, k: nat)
    requires Ring(ring, f) && k < |f|
    ensures f[k] in ring && ring[f[k]].next == Stop(f, k + 2)
  {
    assert Hooked(ring, f, k + 1);
  }

  lemma FreeBlockAt(h: Heap, k: nat, c: Config, end: nat)
    requires Good(h, c, end) && k < |h.f|
    ensures var i := Index(h.b, h.f[k]); i < |h.b| && !h.b[i].used && h.b[i].at == h.f[k]
  {
    assert h.f[k] in h.f;
    var i :| 0 <= i < |h.b| && h.b[i].at == h.f[k] && !h.b[i].used;
    FreeIndex(h.b, c.hdr, end, i, h.f[k]);
  }

  lemma SearchIs(b: seq<Blk>, f: seq<nat>, hdr: nat, size: nat, r: nat)
    requires r <= |f| && (r < |f| ==> Fits(b, hdr, f[r], size)) && forall k :: 0 <= k < r ==> !Fits(b, hdr, f[k], size)
    ensures Search(b, f, hdr, size) == r
  {
    var k := Search(b, f, hdr, size);
  }

  lemma InitGood(c: Config, end: nat)
    requires c.Valid() && end >= c.hdr
    ensures var b, f := [Blk(0, end, false)], [0];
            && Good(Heap(b, f, end - c.hdr, 2 * c.hdr), c, end) && Distinct(f)
            && Linked(map[0 := Link(false, end, end), end := Link(true, 0, 0)], b, end)
            && Ring(map[FREE := Hook(0, 0), 0 := Hook(FREE, FREE)], f)
  {
    var b := [Blk(0, end, false)];
    TotalSmall(b[0], b[0], FreePayload(c.hdr));
    assert b[0].at == 0;
    assert forall x :: IsFree(b, x) <==> x == 0;
  }

  lemma NeighboursAre(b: seq<Blk>, f: seq<nat>, j: nat, hdr: nat, end: nat)
    requires Tiled(b, hdr, end) && Distinct(f) && j < |f| && Anchored(b, f, f[j])
    ensures var n, p := Stop(f, j + 2), Stop(f, j);
            && (n != FREE ==> n >= 0 && n + hdr <= end && IsHeader(b, n))
            && (p != FREE ==> p >= 0 && p + hdr <= end && IsHeader(b, p))
  {
    OrderedAll(b, hdr, end);
    if j + 1 < |f| {
      assert f[j + 1] in f && IsHeader(b, f[j + 1]);
    }
    if j > 0 {
      assert f[j - 1] in f && IsHeader(b, f[j - 1]);
    }
  }

  lemma FirstIs(b: seq<Blk>, f: seq<nat>, x: nat, hdr: nat, end: nat)
    requires Tiled(b, hdr, end) && Anchored(b, f, FREE) && IsHeader(b, x)
    ensures x + hdr <= end
    ensures var n := Stop(f, 1); n != FREE ==> n >= 0 && n + hdr <= end && IsHeader(b, n)
  {
    OrderedAll(b, hdr, end);
    if f != [] {
      assert f[0] in f;
    }
  }
}
