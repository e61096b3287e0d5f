/**
 Where slab blocks lie: every live pointer leads back through the page
 descriptors to its own zone or run, live blocks do not overlap, and the
 allocator's own records lie outside all of them.
 */
module SlabAddresses {
  import opened Alignment
  import opened Arithmetic
  import opened Sequences
  import opened SlabPages
  import opened SlabSizes
  import opened SlabZones
  import opened SlabFree

  /** The bytes of a live block. */
  ghost predicate InBlock(s: Slab, p: Ptr, b: nat, c: Config) {
    && p in s.live && (p.Chunk? ==> p.zone in s.zones)
    && Address(s, p, c) <= b < Address(s, p, c) + s.live[p]
  }

  lemma ZoneBytes(c: Config)
    ensures c.ZoneSize() == Bytes(c.zonePages, c)
  {
  }

  lemma PageOf(b: nat, z: nat, n: nat, c: Config)
    requires c.page > 0 && Bytes(z, c) <= b < Bytes(z, c) + Bytes(n, c)
    ensures z <= b / c.page < z + n
  {
    var q := b / c.page;
    assert b == q * c.page + b % c.page;
    if q < z {
      Times(q + 1, z, c.page);
    }
    if q >= z + n {
      Times(z + n, q, c.page);
    }
  }

  lemma ChunkEnds(zn: Zone, k: nat, n: nat)
    requires k < n
    ensures zn.off <= zn.At(k) && zn.At(k) + zn.chunk <= zn.At(n)
  {
    Times(k + 1, n, zn.chunk);
  }

  /** A chunk's bytes lie behind the header of its zone and before the zone's end. */
  lemma ChunkWithinZone(s: Slab, z: nat, k: nat, b: nat, c: Config)
    requires Sound(s, c) && InBlock(s, Chunk(z, k), b, c)
    ensures z in s.zones && Bytes(z, c) + c.hdr <= b < Bytes(z, c) + c.ZoneSize()
    ensures Bytes(z, c) + s.zones[z].At(k) <= b < Bytes(z, c) + s.zones[z].At(k) + s.zones[z].chunk
  {
    hide PagesOk, PlacesOk, StatsOk, Zone.At, Bytes;
    ChunkIs(s, z, k, c);
    var zn := s.zones[z];
    ChunkEnds(zn, k, zn.nmax);
  }

  /** Every byte of a live block lies on a page that belongs to the block's zone or run. */
  lemma OwnerOfByte(s: Slab, p: Ptr, b: nat, c: Config)
    requires Sound(s, c) && InBlock(s, p, b, c)
    ensures b / c.page in s.own && s.own[b / c.page] == if p.Chunk? then InZone(p.zone) else InLarge(p.first)
    ensures p.Chunk? ==> p.zone <= b / c.page && b / c.page in s.usage && s.usage[b / c.page] == Small(b / c.page - p.zone)
  {
    hide PagesOk, ListsOk, ZonesOk, StatsOk, Bytes, Zone.At;
    match p
    case Chunk(z, k) =>
      ChunkWithinZone(s, z, k, b, c);
      ZoneBytes(c);
      PageOf(b, z, c.zonePages, c);
      assert Laid(s, z, c.zonePages, InZone(z));
    case Big(first, count) =>
      LargeIs(s, first, count, c);
      PageOf(b, first, count, c);
  }

  /** What `rt_slab_free` and `rt_slab_realloc` read from an address. */
  datatype Home = NoHome | LargeHome(first: nat, pages: nat) | ZoneHome(z: nat, number: nat)

  function HomeOf(zones: map<nat, Zone>, usage: map<nat, Usage>, addr: nat, c: Config): Home
    requires c.page > 0
  {
    var page := addr / c.page;
    if page !in usage then NoHome
    else match usage[page]
      case Unset => NoHome
      case LargeRun(k) => LargeHome(page, k)
      case Small(offset) =>
        if offset > page || page - offset !in zones then NoHome
        else
          var z := page - offset;
          var zn := zones[z];
          if zn.chunk == 0 || addr - Bytes(z, c) < zn.off then NoHome
          else ZoneHome(z, zn.NumberAt(addr - Bytes(z, c)))
  }

  function PtrOf(h: Home): Ptr
    requires !h.NoHome?
  {
    if h.LargeHome? then Big(h.first, h.pages) else Chunk(h.z, h.number)
  }

  /** The descriptors lead from a live pointer back to its own zone and chunk, or to its own run. */
  lemma PointerLeadsHome(s: Slab, p: Ptr, c: Config)
    requires Sound(s, c) && p in s.live
    ensures p.Chunk? ==> p.zone in s.zones
    ensures var h := HomeOf(s.zones, s.usage, Address(s, p, c), c); !h.NoHome? && PtrOf(h) == p
  {
    hide PagesOk, ListsOk, StatsOk, PlacesOk, ZonesOk, LiveOk, Bytes, Zone.At, Zone.NumberAt, ZoneOk;
    match p
    case Big(first, k) =>
      LargeIs(s, first, k, c);
      FirstOfRun(first, c);
    case Chunk(z, k) =>
      ChunkIs(s, z, k, c);
      ChunkIsPositive(s, z, c);
      OwnerOfByte(s, p, Address(s, p, c), c);
      NumberOfChunk(s.zones[z], k);
  }

  lemma ChunkIsPositive(s: Slab, z: nat, c: Config)
    requires ZonesOk(s, c) && z in s.zones
    ensures s.zones[z].chunk > 0
  {
    assert ZoneOk(s.zones[z], z, s.live, c);
  }

  lemma NumberOfChunk(zn: Zone, k: nat)
    requires zn.chunk > 0
    ensures zn.At(k) >= zn.off && zn.NumberAt(zn.At(k)) == k
  {
    Exact(k, zn.chunk, zn.At(k) - zn.off);
  }

  lemma FirstOfRun(first: nat, c: Config)
    requires c.page > 0
    ensures Bytes(first, c) / c.page == first
  {
    Exact(first, c.page, Bytes(first, c));
  }

  /** Live blocks do not overlap. */
  lemma LiveBlocksDisjoint(s: Slab, p: Ptr, q: Ptr, b: nat, c: Config)
    requires Sound(s, c) && InBlock(s, p, b, c) && InBlock(s, q, b, c)
    ensures p == q
  {
    hide PagesOk, PlacesOk, ListsOk, StatsOk, ZonesOk, Bytes, Zone.At;
    OwnerOfByte(s, p, b, c);
    OwnerOfByte(s, q, b, c);
    if p.Big? {
      LargeIs(s, p.first, p.count, c);
      LargeIs(s, q.first, q.count, c);
    } else {
      ChunkWithinZone(s, p.zone, p.number, b, c);
      ChunkWithinZone(s, q.zone, q.number, b, c);
      var zn := s.zones[p.zone];
      SameChunk(p.number, q.number, zn, b - Bytes(p.zone, c));
    }
  }

  lemma SameChunk(j: nat, k: nat, zn: Zone, x: int)
    requires zn.At(j) <= x < zn.At(j) + zn.chunk && zn.At(k) <= x < zn.At(k) + zn.chunk
    ensures j == k
  {
    if j < k {
      ChunkEnds(zn, j, k);
    }
    if k < j {
      ChunkEnds(zn, k, j);
    }
  }

  /**
   The allocator's own records: free pages (which carry the page list), the
   descriptor table, zones in reserve, zone headers, and chunks not handed out.
   */
  ghost predicate Bookkeeping(s: Slab, b: nat, c: Config)
    requires c.page > 0
  {
    b / c.page in s.own &&
    match s.own[b / c.page]
    case Nobody => true
    case InTable => true
    case InSpare(_) => true
    case InLarge(_) => false
    case InZone(z) => z in s.zones && (b < Bytes(z, c) + c.hdr || FreeByte(s, z, b, c))
  }

  ghost predicate FreeByte(s: Slab, z: nat, b: nat, c: Config)
    requires z in s.zones
  {
    exists k: nat :: Chunk(z, k) !in s.live &&
      Bytes(z, c) + s.zones[z].At(k) <= b < Bytes(z, c) + s.zones[z].At(k) + s.zones[z].chunk
  }

  lemma BookkeepingIsApart(s: Slab, p: Ptr, b: nat, c: Config)
    requires Sound(s, c) && InBlock(s, p, b, c)
    ensures !Bookkeeping(s, b, c)
  {
    hide PagesOk, PlacesOk, ListsOk, StatsOk, ZonesOk, LiveOk, Bytes, Zone.At;
    OwnerOfByte(s, p, b, c);
    if p.Chunk? {
      var z: nat := p.zone;
      ChunkWithinZone(s, z, p.number, b, c);
      if FreeByte(s, z, b, c) {
        var zn := s.zones[z];
        var k: nat :| Chunk(z, k) !in s.live && Bytes(z, c) + zn.At(k) <= b < Bytes(z, c) + zn.At(k) + zn.chunk;
        SameChunk(p.number, k, zn, b - Bytes(z, c));
      }
    }
  }

  /* Alignment */

  lemma ShiftedAligned(x: nat, y: nat, a: nat)
    requires IsAligned(y, a)
    ensures IsAligned(x + y, a) <==> IsAligned(x, a)
  {
    if IsAligned(x, a) {
      SumIsAligned(x, y, a);
    }
    if IsAligned(x + y, a) {
      var p, q := (x + y) / a, y / a;
      assert x + y == p * a && y == q * a;
      if p < q { Steps(p, q, a); }
      assert x == (p - q) * a;
      MultipleIsAligned(p - q, a);
    }
  }

  /**
   A chunk is a multiple of its alignment, its own size for a power of two and
   eight otherwise, exactly if its zone is: for sizes up to a page that is always
   so, and beyond it is a matter of where the zone came to lie. A run of pages
   starts on a page.
   */
  lemma WhereBlocksAlign(s: Slab, p: Ptr, c: Config)
    requires Sound(s, c) && p in s.live
    ensures p.Big? ==> IsAligned(Address(s, p, c), c.page)
    ensures p.Chunk? ==> p.zone in s.zones
    ensures p.Chunk? ==>
              var a := ChunkAlign(s.zones[p.zone].chunk);
              && (IsAligned(Address(s, p, c), a) <==> IsAligned(Bytes(p.zone, c), a))
              && (IsAligned(c.page, a) ==> IsAligned(Address(s, p, c), a))
  {
    hide PagesOk, PlacesOk, StatsOk, ListsOk, IsAligned, Bytes, FirstChunk, SizeOfZone, Zone.At, ChunkAlign;
    match p
    case Big(first, k) => PageAligned(first, c, c.page);
    case Chunk(z, k) =>
      ChunkIs(s, z, k, c);
      var zn := s.zones[z];
      var a := ChunkAlign(zn.chunk);
      ChunkAtAligned(zn, k, c);
      ShiftedAligned(Bytes(z, c), zn.At(k), a);
      if IsAligned(c.page, a) {
        PageAligned(z, c, a);
      }
  }

  lemma PageAligned(z: nat, c: Config, a: nat)
    requires IsAligned(c.page, a)
    ensures IsAligned(Bytes(z, c), a)
  {
    var q := c.page / a;
    assert c.page == q * a;
    assert z * c.page == (z * q) * a;
    MultipleIsAligned(z * q, a);
  }

  lemma ChunkAtAligned(zn: Zone, k: nat, c: Config)
    requires zn.off == FirstChunk(zn.chunk, c) && zn.index < NZONES && SizeOfZone(zn.index) == zn.chunk
    ensures IsAligned(zn.At(k), ChunkAlign(zn.chunk))
  {
    hide IsAligned;
    var a := ChunkAlign(zn.chunk);
    ChunkIsMultiple(zn.index);
    ProductAligned(k, zn.chunk, a);
    SumIsAligned(zn.off, k * zn.chunk, a);
  }

  lemma ChunkIsMultiple(i: nat)
    requires i < NZONES
    ensures IsAligned(SizeOfZone(i), ChunkAlign(SizeOfZone(i)))
  {
    if PowerOfTwo(SizeOfZone(i)) {
      MultipleIsAligned(1, SizeOfZone(i));
    }
  }

  lemma ProductAligned(k: nat, x: nat, a: nat)
    requires IsAligned(x, a)
    ensures IsAligned(k * x, a)
  {
    var q := x / a;
    assert x == q * a;
    assert k * x == (k * q) * a;
    MultipleIsAligned(k * q, a);
  }
}
