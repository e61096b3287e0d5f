/**
 The slab allocator's own writes: page-list nodes go into free pages, descriptors
 into their table, headers in front of zones, and links into free chunks. None
 of them falls on a byte of a live block.
 */
module SlabBytes {
  import opened Alignment
  import opened Arithmetic
  import opened Common
  import opened Sequences
  import opened SlabPages
  import opened SlabSizes
  import opened SlabZones
  import opened SlabFree
  import opened SlabAddresses
  import HeapBytes

  /** Every byte of a live block is the same in both memories. */
  ghost predicate Keeps(s: Slab, d: seq<Byte>, e: seq<Byte>, c: Config) {
    |d| == |e| && forall r, b: nat :: InBlock(s, r, b, c) && b < |d| ==> d[b] == e[b]
  }

  lemma KeepsRefl(s: Slab, d: seq<Byte>, c: Config)
    ensures Keeps(s, d, d, c)
  {
  }

  lemma KeepsTrans(s: Slab, d: seq<Byte>, e: seq<Byte>, f: seq<Byte>, c: Config)
    requires Keeps(s, d, e, c) && Keeps(s, e, f, c)
    ensures Keeps(s, d, f, c)
  {
    hide InBlock;
  }

  /** Writes to records of the allocator's own are safe. */
  lemma BookkeepingKeeps(s: Slab, d: seq<Byte>, e: seq<Byte>, c: Config)
    requires Sound(s, c) && |d| == |e|
    requires forall x: nat :: x < |d| && d[x] != e[x] ==> Bookkeeping(s, x, c)
    ensures Keeps(s, d, e, c)
  {
    hide Sound, Bookkeeping, InBlock;
    forall r, b: nat | InBlock(s, r, b, c) && b < |d| ensures d[b] == e[b] {
      BookkeepingIsApart(s, r, b, c);
    }
  }

  /** Page-list nodes lie in free pages. */
  lemma NodesKeep(s: Slab, d: seq<Byte>, e: seq<Byte>, c: Config)
    requires Sound(s, c) && OnlyOn(d, e, s.runs, c.page)
    ensures Keeps(s, d, e, c)
  {
    hide PlacesOk, ListsOk, ZonesOk, LiveOk, StatsOk, Canonical, HasPage, InBlock, Keeps;
    BookkeepingKeeps(s, d, e, c);
  }

  /** The pages of zone `z`. */
  ghost predicate Zoned(s: Slab, z: nat) {
    z in s.zones || z in s.spare
  }

  lemma ZonePages(s: Slab, z: nat, c: Config)
    requires Sound(s, c) && Zoned(s, z)
    ensures z + c.zonePages <= c.npages && Bytes(z, c) + c.ZoneSize() <= Bytes(c.npages, c)
    ensures forall p :: z <= p < z + c.zonePages ==> p in s.own && (s.own[p] == InSpare(z) || (z in s.zones && s.own[p] == InZone(z)))
  {
    hide ListsOk, ZonesOk, LiveOk, StatsOk, Canonical, HasPage, Bytes;
    assert z in s.zones ==> Laid(s, z, c.zonePages, InZone(z));
    assert z in s.spare ==> Laid(s, z, c.zonePages, InSpare(z));
    assert s.own[z + c.zonePages - 1] in {InSpare(z), InZone(z)};
    ZoneBytes(c);
    BytesEnd(z, c.zonePages, c.npages, c);
  }

  lemma BytesEnd(z: nat, n: nat, m: nat, c: Config)
    requires z + n <= m
    ensures Bytes(z, c) + Bytes(n, c) <= Bytes(m, c)
  {
    Times(z + n, m, c.page);
  }

  /** A zone's header, whether the zone is in use or in reserve. */
  lemma HeaderKeeps(s: Slab, d: seq<Byte>, e: seq<Byte>, z: nat, c: Config)
    requires Sound(s, c) && Zoned(s, z) && HeapBytes.SameOutside(d, e, Bytes(z, c), c.hdr)
    ensures Keeps(s, d, e, c)
  {
    hide PagesOk, PlacesOk, ListsOk, ZonesOk, LiveOk, StatsOk, InBlock, Keeps, Bytes;
    ZonePages(s, z, c);
    forall x: nat | x < |d| && d[x] != e[x] ensures Bookkeeping(s, x, c) {
      ZoneBytes(c);
      PageOf(x, z, c.zonePages, c);
    }
    BookkeepingKeeps(s, d, e, c);
  }

  /** The header of a zone that is about to be made of free pages. */
  lemma NewHeaderKeeps(s: Slab, d: seq<Byte>, e: seq<Byte>, z: nat, c: Config)
    requires Sound(s, c) && HeapBytes.SameOutside(d, e, Bytes(z, c), c.hdr)
    requires forall p: nat :: z <= p < z + c.zonePages ==> p in s.own && s.own[p] == Nobody
    ensures Keeps(s, d, e, c)
  {
    hide PagesOk, PlacesOk, ListsOk, ZonesOk, LiveOk, StatsOk, InBlock, Keeps, Bytes;
    forall x: nat | x < |d| && d[x] != e[x] ensures Bookkeeping(s, x, c) {
      ZoneBytes(c);
      PageOf(x, z, c.zonePages, c);
    }
    BookkeepingKeeps(s, d, e, c);
  }

  /** The link in a chunk that is not live. */
  lemma LinkKeeps(s: Slab, d: seq<Byte>, e: seq<Byte>, z: nat, k: nat, c: Config)
    requires Sound(s, c) && z in s.zones && k < s.zones[z].nmax && Chunk(z, k) !in s.live && c.word <= s.zones[z].chunk
    requires HeapBytes.SameOutside(d, e, Bytes(z, c) + s.zones[z].At(k), c.word)
    ensures Keeps(s, d, e, c)
  {
    hide PagesOk, PlacesOk, ListsOk, LiveOk, StatsOk, InBlock, Keeps, Bytes, Zone.At;
    ZonePages(s, z, c);
    var zn := s.zones[z];
    assert ZoneOk(zn, z, s.live, c);
    ChunkEnds(zn, k, zn.nmax);
    forall x: nat | x < |d| && d[x] != e[x] ensures Bookkeeping(s, x, c) {
      ZoneBytes(c);
      PageOf(x, z, c.zonePages, c);
      assert FreeByte(s, z, x, c);
    }
    BookkeepingKeeps(s, d, e, c);
  }

  /* The descriptor table */

  /** The first pages are the descriptors' for good. */
  ghost predicate TableOk(s: Slab, c: Config)
    requires c.page > 0
  {
    forall p: nat :: p < TablePages(c) ==> p in s.own && s.own[p] == InTable
  }

  lemma UsageInTable(p: nat, x: nat, c: Config)
    requires c.page > 0 && p < c.npages && USAGE * p <= x < USAGE * p + USAGE
    ensures x / c.page < TablePages(c)
  {
    var u := Up(USAGE * c.npages, c.page);
    var q, r := u / c.page, x / c.page;
    assert u == q * c.page && x == r * c.page + x % c.page;
    if r >= q {
      Times(q, r, c.page);
    }
  }

  lemma UsageKeeps(s: Slab, d: seq<Byte>, e: seq<Byte>, p: nat, c: Config)
    requires Sound(s, c) && TableOk(s, c) && p < c.npages && HeapBytes.SameOutside(d, e, USAGE * p, USAGE)
    ensures Keeps(s, d, e, c)
  {
    hide PagesOk, PlacesOk, ListsOk, ZonesOk, LiveOk, StatsOk, InBlock, Keeps, TablePages;
    forall x: nat | x < |d| && d[x] != e[x] ensures Bookkeeping(s, x, c) {
      UsageInTable(p, x, c);
    }
    BookkeepingKeeps(s, d, e, c);
  }

  lemma ClaimKeepsTable(s: Slab, t: Slab, first: nat, n: nat, o: Owner, c: Config)
    requires c.page > 0 && TableOk(s, c) && t.own == Claim(s.own, first, n, o)
    requires forall p: nat :: first <= p < first + n ==> p in s.own && s.own[p] != InTable
    ensures TableOk(t, c)
  {
    hide TablePages;
  }

  lemma AllocKeepsTable(s: Slab, n: nat, c: Config)
    requires Inv(s, c) && TableOk(s, c)
    ensures TableOk(Alloc(s, n, c).0, c)
  {
    hide PagesOk, PlacesOk, ZonesOk, LiveOk, StatsOk, FreshZone, ZoneIndex, ChunkSize, AllocRuns, FirstChunk, TablePages, PagesFor, Claim, Laid;
    var t := Alloc(s, n, c).0;
    if n >= c.limit {
      var k := PagesFor(n, c);
      if AllocRuns(s.runs, k).1.Pages? {
        TakenPagesWereFree(s, k, c);
        ClaimKeepsTable(s, t, AllocRuns(s.runs, k).1.first, k, InLarge(AllocRuns(s.runs, k).1.first), c);
      }
    } else if n > 0 {
      FreshZoneFits(n, c);
      if s.lists[ZoneIndex(n)] != [] {
        FreeChunkExists(s, ZoneIndex(n), c);
      } else if s.spare != [] {
        SparePages(s, c);
        ClaimKeepsTable(s, t, s.spare[0], c.zonePages, InZone(s.spare[0]), c);
      } else if AllocRuns(s.runs, c.zonePages).1.Pages? {
        TakenPagesWereFree(s, c.zonePages, c);
        var z := AllocRuns(s.runs, c.zonePages).1.first;
        ClaimKeepsTable(s, t, z, c.zonePages, InZone(z), c);
      }
    }
  }

  lemma SparePages(s: Slab, c: Config)
    requires PlacesOk(s, c) && s.spare != []
    ensures forall p: nat :: s.spare[0] <= p < s.spare[0] + c.zonePages ==> p in s.own && s.own[p] == InSpare(s.spare[0])
  {
    assert Laid(s, s.spare[0], c.zonePages, InSpare(s.spare[0]));
  }

  lemma FreeKeepsTable(s: Slab, p: Ptr, c: Config)
    requires Inv(s, c) && p in s.live && TableOk(s, c)
    ensures TableOk(Free(s, p, c), c)
  {
    hide PagesOk, PlacesOk, ListsOk, ZonesOk, LiveOk, StatsOk, FreeRuns, Without, TablePages, Claim, Laid, Bytes, Retire, ReleaseSpare, FreeChunk;
    match p
    case Big(first, k) =>
      LargeIs(s, first, k, c);
      ClaimKeepsTable(s, Free(s, p, c), first, k, Nobody, c);
    case Chunk(z, k) =>
      ChunkIs(s, z, k, c);
      var t := FreeChunk(s, z, k);
      FreeChunkKeepsSound(s, z, k, c);
      FreeChunkFrame(s, z, k);
      RetireKeepsTable(t, z, c);
  }

  lemma FreeChunkFrame(s: Slab, z: nat, k: nat)
    requires z in s.zones && s.zones[z].index < |s.lists|
    ensures var t := FreeChunk(s, z, k);
            t.own == s.own && z in t.zones && t.zones[z].index == s.zones[z].index && |t.lists| == |s.lists|
  {
  }

  lemma RetireKeepsTable(s: Slab, z: nat, c: Config)
    requires Sound(s, c) && TableOk(s, c) && z in s.zones && s.zones[z].index < |s.lists|
    ensures var t := Retire(s, z, c); TableOk(t, c) && t.spare != [] && TableOk(ReleaseSpare(t, c), c)
  {
    hide PagesOk, ListsOk, ZonesOk, LiveOk, StatsOk, FreeRuns, Without, TablePages, Claim;
    var t := Retire(s, z, c);
    assert Laid(s, z, c.zonePages, InZone(z));
    ClaimKeepsTable(s, t, z, c.zonePages, InSpare(z), c);
    ClaimKeepsTable(t, ReleaseSpare(t, c), z, c.zonePages, Nobody, c);
  }

  lemma FreshTable(c: Config)
    requires c.Valid() && c.page >= USAGE && c.npages > 0
    ensures TableOk(Fresh(c), c)
  {
    hide TablePages;
    TableFits(c);
  }
}
