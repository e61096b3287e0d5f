/**
 The slab allocator wastes nothing it need not: no page is ever lost, a zone holds
 as many chunks as fit, at most one empty zone stands by in each list, and a
 block is the least the allocator can hand out for the request.
 */
module SlabEconomy {
  import opened Alignment
  import opened Arithmetic
  import opened Sequences
  import opened SlabPages
  import opened SlabSizes
  import opened SlabZones
  import opened SlabFree
  import opened SlabBytes

  /* Sizes */

  /** No list has chunks that would do and are smaller. */
  lemma ChunkSizeIsLeast(n: nat, i: nat)
    requires 0 < n < 16384 && n <= SizeOfZone(i)
    ensures ChunkSize(n) <= SizeOfZone(i)
  {
    ZonesAndSizesAgree(n);
    var z := ZoneIndex(n);
    if i < z {
      BelowIsTooSmall(n);
      if i < z - 1 {
        SizesIncrease(i, z - 1);
      }
    } else if z < i {
      SizesIncrease(z, i);
    }
  }

  lemma BelowIsTooSmall(n: nat)
    requires 0 < n < 16384 && ZoneIndex(n) > 0
    ensures SizeOfZone(ZoneIndex(n) - 1) < n
  {
  }

  /** What a request is charged: the least chunk that holds it, or the pages it needs and not one more. */
  lemma ChargeIsLeast(n: nat, c: Config)
    requires c.Valid() && n > 0
    ensures var size := SizeFor(n, c);
            && n <= size
            && (n >= c.limit ==> size < n + c.page && size % c.page == 0)
            && (n < c.limit ==> forall i: nat :: n <= SizeOfZone(i) ==> size <= SizeOfZone(i))
  {
    hide ChunkSize, SizeOfZone, Up;
    if n >= c.limit {
      LargeEnough(n, c);
      var u := Up(n, c.page);
      assert u == u / c.page * c.page;
      MultipleIsAligned(u / c.page, c.page);
    } else {
      ChunkRoundsUp(n);
      forall i: nat | n <= SizeOfZone(i) ensures ChunkSize(n) <= SizeOfZone(i) {
        ChunkSizeIsLeast(n, i);
      }
    }
  }

  /** A reallocated block stays exactly if it is a chunk of the size already, and otherwise is charged as a new one. */
  lemma ReallocCharges(s: Slab, p: Ptr, n: nat, c: Config)
    requires Inv(s, c) && p in s.live && n > 0
    ensures var (t, q) := Realloc(s, Got(p), n, c);
            && (q == Got(p) <==> p.Chunk? && s.live[p] == ChunkSize(n))
            && (q.Got? ==> q.p in t.live && t.live[q.p] == if q.p == p then s.live[p] else SizeFor(NewSize(p, n), c))
  {
    hide PagesOk, PlacesOk, ListsOk, ZonesOk, StatsOk, ChunkSize, Exhausted, Alloc, Free, PtrOk;
    if p.Chunk? {
      SizeOfLive(s, p, c);
    }
    if !SameSize(s, p, n) {
      var (t, q) := Alloc(s, NewSize(p, n), c);
      AllocKeepsInv(s, NewSize(p, n), c);
      if q.Got? {
        FreeKeepsInv(t, p, c);
      }
    }
  }

  /* No page is lost */

  /** The page is free, or what it was given away for is still there. */
  ghost predicate BackedAt(s: Slab, p: nat, c: Config)
    requires c.page > 0
  {
    p in s.own ==>
      match s.own[p]
      case Nobody => true
      case InTable => p < TablePages(c)
      case InZone(z) => z in s.zones && z <= p < z + c.zonePages
      case InSpare(z) => z in s.spare && z <= p < z + c.zonePages
      case InLarge(f) => exists k :: Big(f, k) in s.live && f <= p < f + k
  }

  ghost predicate Backed(s: Slab, c: Config)
    requires c.page > 0
  {
    forall p: nat :: BackedAt(s, p, c)
  }

  lemma AllocLargeBacks(s: Slab, n: nat, p: nat, c: Config)
    requires c.Valid() && PagesOk(s, c) && BackedAt(s, p, c)
    ensures BackedAt(AllocLarge(s, n, c).0, p, c)
  {
    hide PagesFor, AllocRuns, TablePages, Bytes, PagesOk;
    var (t, r) := AllocLarge(s, n, c);
    if r.Got? {
      TakenPagesWereFree(s, PagesFor(n, c), c);
      assert forall f, k :: Big(f, k) in s.live ==> Big(f, k) in t.live;
      assert Big(r.p.first, r.p.count) in t.live;
    }
  }

  lemma FromZoneBacks(s: Slab, i: nat, p: nat, c: Config)
    requires c.page > 0 && CanGive(s, i) && BackedAt(s, p, c)
    ensures BackedAt(FromZone(s, i).0, p, c)
  {
    hide TablePages;
    var t := FromZone(s, i).0;
    assert forall f, k :: Big(f, k) in s.live ==> Big(f, k) in t.live;
  }

  lemma NewZoneBacks(s: Slab, i: nat, size: nat, p: nat, c: Config)
    requires c.Valid() && PagesOk(s, c) && i < |s.lists| && size > 0 && c.ZoneSize() >= FirstChunk(size, c) && BackedAt(s, p, c)
    ensures BackedAt(NewZone(s, i, size, c).0, p, c)
  {
    hide AllocRuns, TablePages, PagesOk, FreshZone, FirstChunk, Describe;
    var t := NewZone(s, i, size, c).0;
    assert forall f, k :: Big(f, k) in s.live ==> Big(f, k) in t.live;
  }

  lemma AllocBacks(s: Slab, n: nat, c: Config)
    requires Inv(s, c) && Backed(s, c)
    ensures Backed(Alloc(s, n, c).0, c)
  {
    hide PagesOk, PlacesOk, ZonesOk, LiveOk, StatsOk, ZoneIndex, ChunkSize, FirstChunk, ZoneOk, BackedAt, AllocLarge, FromZone, NewZone;
    forall p: nat ensures BackedAt(Alloc(s, n, c).0, p, c) {
      assert BackedAt(s, p, c);
      if n >= c.limit {
        AllocLargeBacks(s, n, p, c);
      } else if n > 0 {
        FreshZoneFits(n, c);
        if s.lists[ZoneIndex(n)] != [] {
          FreeChunkExists(s, ZoneIndex(n), c);
          FromZoneBacks(s, ZoneIndex(n), p, c);
        } else {
          NewZoneBacks(s, ZoneIndex(n), ChunkSize(n), p, c);
        }
      }
    }
  }

  lemma FreeLargeBacks(s: Slab, first: nat, k: nat, p: nat, c: Config)
    requires c.page > 0 && LiveOk(s, c) && Big(first, k) in s.live && BackedAt(s, p, c)
    ensures BackedAt(FreeLarge(s, first, k, c), p, c)
  {
    hide FreeRuns, TablePages, LiveOk;
    LargeIs(s, first, k, c);
    if p in s.own && s.own[p].InLarge? {
      var f := s.own[p].first;
      var n :| Big(f, n) in s.live && f <= p < f + n;
      LargeIs(s, f, n, c);
      assert f != first ==> Big(f, n) in FreeLarge(s, first, k, c).live;
    }
  }

  lemma FreeChunkBacks(s: Slab, z: nat, k: nat, p: nat, c: Config)
    requires c.page > 0 && z in s.zones && s.zones[z].index < |s.lists| && BackedAt(s, p, c)
    ensures BackedAt(FreeChunk(s, z, k), p, c)
  {
    hide TablePages;
    assert forall f, n :: Big(f, n) in s.live ==> Big(f, n) in FreeChunk(s, z, k).live;
  }

  lemma RetireBacks(s: Slab, z: nat, p: nat, c: Config)
    requires c.page > 0 && z in s.zones && s.zones[z].index < |s.lists| && BackedAt(s, p, c)
    ensures BackedAt(Retire(s, z, c), p, c)
  {
    hide TablePages, Without;
  }

  lemma ReleaseBacks(s: Slab, p: nat, c: Config)
    requires c.page > 0 && s.spare != [] && BackedAt(s, p, c)
    ensures BackedAt(ReleaseSpare(s, c), p, c)
  {
    hide TablePages, FreeRuns, Describe;
  }

  lemma FreeSmallBacks(s: Slab, z: nat, k: nat, p: nat, c: Config)
    requires c.page > 0 && z in s.zones && s.zones[z].index < |s.lists| && BackedAt(s, p, c)
    ensures BackedAt(FreeSmall(s, z, k, c), p, c)
  {
    hide BackedAt, Claim, Without, FreeRuns, Describe;
    FreeChunkBacks(s, z, k, p, c);
    var t := FreeChunk(s, z, k);
    RetireBacks(t, z, p, c);
    ReleaseBacks(Retire(t, z, c), p, c);
  }

  lemma FreeBacks(s: Slab, q: Ptr, c: Config)
    requires Inv(s, c) && q in s.live && Backed(s, c)
    ensures Backed(Free(s, q, c), c)
  {
    hide PagesOk, PlacesOk, ListsOk, ZonesOk, LiveOk, StatsOk, ZoneOk, BackedAt, FreeLarge, FreeSmall;
    forall p: nat ensures BackedAt(Free(s, q, c), p, c) {
      assert BackedAt(s, p, c);
      match q
      case Big(first, k) => FreeLargeBacks(s, first, k, p, c);
      case Chunk(z, k) =>
        ChunkIs(s, z, k, c);
        FreeSmallBacks(s, z, k, p, c);
    }
  }

  /* Zones */

  predicate IsEmpty(zn: Zone) { zn.nfree == zn.nmax }

  /** One more chunk would not fit. */
  predicate Crammed(zn: Zone, c: Config) {
    zn.At(zn.nmax + 1) > c.ZoneSize()
  }

  /** Of the zones of one size, at most one is empty; and every zone is full to the brim with chunks. */
  ghost predicate Thrifty(s: Slab, c: Config) {
    && (forall y, z :: y in s.zones && z in s.zones && y != z && s.zones[y].index == s.zones[z].index ==>
          !IsEmpty(s.zones[y]) || !IsEmpty(s.zones[z]))
    && (forall z :: z in s.zones ==> Crammed(s.zones[z], c))
  }

  lemma FreshIsCrammed(i: nat, size: nat, c: Config)
    requires size > 0 && c.ZoneSize() >= FirstChunk(size, c)
    ensures Crammed(FreshZone(i, size, c), c)
  {
    hide FirstChunk;
    var room := c.ZoneSize() - FirstChunk(size, c);
    assert room == room / size * size + room % size;
    assert (room / size + 1) * size == room / size * size + size;
  }

  lemma FromZoneThrifty(s: Slab, i: nat, c: Config)
    requires Thrifty(s, c) && CanGive(s, i) && s.zones[s.lists[i][0]].nfree <= s.zones[s.lists[i][0]].nmax
    ensures Thrifty(FromZone(s, i).0, c)
  {
  }

  lemma OpenThrifty(s: Slab, t: Slab, z: nat, zn: Zone, c: Config)
    requires Thrifty(s, c) && t.zones == s.zones[z := zn] && !IsEmpty(zn) && Crammed(zn, c)
    ensures Thrifty(t, c)
  {
    hide Crammed;
  }

  lemma SameThrifty(s: Slab, t: Slab, c: Config)
    requires Thrifty(s, c) && t.zones == s.zones
    ensures Thrifty(t, c)
  {
  }

  /** An allocation leaves a zone with fewer free chunks, or opens one that is in use at once. */
  lemma AllocThrifty(s: Slab, n: nat, c: Config)
    requires Inv(s, c) && Thrifty(s, c)
    ensures Thrifty(Alloc(s, n, c).0, c)
  {
    hide PagesOk, PlacesOk, LiveOk, StatsOk, ZoneIndex, ChunkSize, FirstChunk, FreshZone, AllocRuns, Claim, Describe, PagesFor, Thrifty, FromZone, SizeOfZone, Zone.At;
    var t := Alloc(s, n, c).0;
    if n == 0 || n >= c.limit {
      SameThrifty(s, t, c);
    } else {
      FreshZoneFits(n, c);
      var i, size := ZoneIndex(n), ChunkSize(n);
      if s.lists[i] != [] {
        FreeChunkExists(s, i, c);
        assert ZoneOk(s.zones[s.lists[i][0]], s.lists[i][0], s.live, c);
        FreeAtMost(s, s.lists[i][0], c);
        FromZoneThrifty(s, i, c);
      } else {
        FreshIsCrammed(i, size, c);
        FreshInUse(i, size, c);
        var z := if s.spare != [] then s.spare[0] else if AllocRuns(s.runs, c.zonePages).1.Pages? then AllocRuns(s.runs, c.zonePages).1.first else 0;
        if Alloc(s, n, c).1.Got? {
          OpenThrifty(s, t, z, FreshZone(i, size, c), c);
        } else {
          SameThrifty(s, t, c);
        }
      }
    }
  }

  lemma FreeAtMost(s: Slab, z: nat, c: Config)
    requires ZonesOk(s, c) && z in s.zones
    ensures s.zones[z].nfree <= s.zones[z].nmax
  {
    var zn := s.zones[z];
    assert ZoneOk(zn, z, s.live, c);
    DistinctSize(zn.free);
    assert Elements(zn.free) <= Upto(zn.uindex + 1);
    NoMore(Elements(zn.free), Upto(zn.uindex + 1));
  }

  lemma NoMore(a: set<nat>, b: set<nat>)
    requires a <= b
    ensures |a| <= |b|
  {
    assert b == a + (b - a);
  }

  lemma FreshInUse(i: nat, size: nat, c: Config)
    requires size > 0 && c.ZoneSize() >= FirstChunk(size, c) && ZoneOk(FreshZone(i, size, c), 0, map[Chunk(0, 0) := size], c)
    ensures !IsEmpty(FreshZone(i, size, c))
  {
  }

  /** Which zone a release closes: one that is empty now, if another zone of its size has a free chunk. */
  lemma WhenZonesClose(s: Slab, z: nat, k: nat, c: Config)
    requires Inv(s, c) && Chunk(z, k) in s.live
    ensures z in s.zones && s.zones[z].index < |s.lists|
    ensures var t := FreeSmall(s, z, k, c);
            var closes := s.zones[z].nfree + 1 == s.zones[z].nmax && exists y :: y != z && Listed(s, y, s.zones[z].index);
            && t.zones.Keys == (if closes then s.zones.Keys - {z} else s.zones.Keys)
            && (forall y :: y in t.zones && y != z ==> t.zones[y] == s.zones[y])
            && (z in t.zones ==> t.zones[z] == s.zones[z].(free := [k] + s.zones[z].free, nfree := s.zones[z].nfree + 1))
            && t.spare == (if closes && |s.spare| < SPARE_MAX then [z] + s.spare else s.spare)
  {
    hide PagesOk, PlacesOk, LiveOk, StatsOk, ZonesOk, FreeRuns, Claim, Describe, Without, ZoneOk;
    ChunkIs(s, z, k, c);
    ListLength(s, z, k, c);
  }

  lemma ListLength(s: Slab, z: nat, k: nat, c: Config)
    requires Inv(s, c) && Chunk(z, k) in s.live && z in s.zones && s.zones[z].index < |s.lists|
    ensures var t := FreeChunk(s, z, k);
            |t.lists[s.zones[z].index]| > 1 <==> exists y :: y != z && Listed(s, y, s.zones[z].index)
  {
    hide PagesOk, PlacesOk, LiveOk, StatsOk, ZonesOk;
    FreeChunkKeepsLists(s, z, k);
    var t, i := FreeChunk(s, z, k), s.zones[z].index;
    var q := t.lists[i];
    assert z in q <==> Listed(t, z, i);
    if |q| > 1 {
      var y := if q[0] == z then q[1] else q[0];
      assert y in q && Listed(t, y, i);
      assert y != z && Listed(s, y, i);
    }
    if y :| y != z && Listed(s, y, i) {
      assert Listed(t, y, i) && y in q;
      var j :| 0 <= j < |q| && q[j] == y;
      var m :| 0 <= m < |q| && q[m] == z;
    }
  }

  lemma FreeThrifty(s: Slab, q: Ptr, c: Config)
    requires Inv(s, c) && q in s.live && Thrifty(s, c)
    ensures Thrifty(Free(s, q, c), c)
  {
    hide PagesOk, PlacesOk, LiveOk, StatsOk, FreeRuns, Claim, ListsOk, FreeSmall, SizeOfZone, FirstChunk;
    if q.Chunk? {
      var z, t := q.zone, Free(s, q, c);
      ChunkIs(s, z, q.number, c);
      WhenZonesClose(s, z, q.number, c);
      forall y | y in t.zones && y != z && z in t.zones && t.zones[y].index == t.zones[z].index
        ensures !IsEmpty(t.zones[y]) || !IsEmpty(t.zones[z]) {
        assert ZoneOk(s.zones[y], y, s.live, c);
        assert IsEmpty(t.zones[z]) ==> !Listed(s, y, s.zones[z].index);
      }
    }
  }

  /** A zone is opened only when no zone of the size has a free chunk, and from the pages only when there is no reserve. */
  lemma WhenZonesOpen(s: Slab, n: nat, c: Config)
    requires Inv(s, c) && 0 < n < c.limit
    ensures var t := Alloc(s, n, c).0;
            && (t.zones.Keys != s.zones.Keys ==> forall z :: z in s.zones && s.zones[z].chunk == ChunkSize(n) ==> s.zones[z].nfree == 0)
            && (t.runs != s.runs ==> s.spare == [])
  {
    hide PagesOk, PlacesOk, LiveOk, StatsOk, ZoneIndex, ChunkSize, FirstChunk, FreshZone, AllocRuns, Claim, Describe, SizeOfZone;
    FreshZoneFits(n, c);
    ZonesAndSizesAgree(n);
    if s.lists[ZoneIndex(n)] != [] {
      FreeChunkExists(s, ZoneIndex(n), c);
    } else {
      forall z | z in s.zones && s.zones[z].chunk == ChunkSize(n) ensures s.zones[z].nfree == 0 {
        assert ZoneOk(s.zones[z], z, s.live, c);
        SameList(s.zones[z].index, ZoneIndex(n));
        assert z in s.lists[ZoneIndex(n)] <==> Listed(s, z, ZoneIndex(n));
      }
    }
  }

  lemma SameList(i: nat, j: nat)
    requires SizeOfZone(i) == SizeOfZone(j)
    ensures i == j
  {
    if i < j {
      SizesIncrease(i, j);
    } else if j < i {
      SizesIncrease(j, i);
    }
  }

  /* Every run */

  ghost predicate Tidy(s: Slab, c: Config)
    requires c.page > 0
  {
    Backed(s, c) && TableOk(s, c) && Thrifty(s, c)
  }

  lemma AllocTidy(s: Slab, n: nat, c: Config)
    requires Inv(s, c) && Tidy(s, c)
    ensures Tidy(Alloc(s, n, c).0, c)
  {
    hide Alloc, Sound, Backed, TableOk, Thrifty;
    AllocBacks(s, n, c);
    AllocKeepsTable(s, n, c);
    AllocThrifty(s, n, c);
  }

  lemma FreeTidy(s: Slab, p: Ptr, c: Config)
    requires Inv(s, c) && p in s.live && Tidy(s, c)
    ensures Tidy(Free(s, p, c), c)
  {
    hide Free, Sound, Backed, TableOk, Thrifty;
    FreeBacks(s, p, c);
    FreeKeepsTable(s, p, c);
    FreeThrifty(s, p, c);
  }

  lemma StepTidy(s: Slab, a: Action, c: Config)
    requires Inv(s, c) && Enabled(s, a) && Tidy(s, c)
    ensures Tidy(Step(s, a, c), c)
  {
    hide Inv, Alloc, Free, Tidy, SameSize, NewSize;
    match a
    case Take(n) => AllocTidy(s, n, c);
    case Give(p) => FreeTidy(s, p, c);
    case Resize(r, n) =>
      if r.Null? {
        AllocTidy(s, n, c);
      } else if n == 0 {
        FreeTidy(s, r.p, c);
      } else {
        var m := NewSize(r.p, n);
        AllocKeepsInv(s, m, c);
        AllocTidy(s, m, c);
        if Alloc(s, m, c).1.Got? {
          FreeTidy(Alloc(s, m, c).0, r.p, c);
        }
      }
  }

  /** In every run every page is accounted for, and no list has two empty zones. */
  lemma {:induction false} EveryRunIsTidy(s: Slab, run: seq<Action>, c: Config)
    requires Inv(s, c) && Tidy(s, c) && Legal(s, run, c)
    ensures Tidy(After(s, run, c), c)
    decreases |run|
  {
    hide Sound, Tidy, Step, Enabled;
    if run != [] {
      StepKeepsInv(s, run[0], c);
      StepTidy(s, run[0], c);
      EveryRunIsTidy(Step(s, run[0], c), run[1..], c);
    }
  }

  lemma FreshIsTidy(c: Config)
    requires c.Valid() && c.page >= USAGE && c.npages > 0
    ensures Tidy(Fresh(c), c)
  {
    hide TablePages, AllocRuns, Describe;
    FreshTable(c);
  }

  /** The page is the descriptors', a zone's, in reserve, or in a live run of pages. */
  ghost predicate InUse(s: Slab, p: nat, c: Config)
    requires c.page > 0
  {
    || p < TablePages(c)
    || (exists z :: (z in s.zones || z in s.spare) && z <= p < z + c.zonePages)
    || (exists f: nat, k: nat :: Big(f, k) in s.live && f <= p < f + k)
  }

  /** A page is free exactly if nothing has it. */
  lemma FreeExactly(s: Slab, p: nat, c: Config)
    requires Sound(s, c) && Tidy(s, c) && p < c.npages
    ensures HasPage(s.runs, p) <==> !InUse(s, p, c)
  {
    hide ListsOk, ZonesOk, LiveOk, StatsOk, TablePages, Thrifty, Canonical, HasPage;
    assert BackedAt(s, p, c);
    if z :| (z in s.zones || z in s.spare) && z <= p < z + c.zonePages {
      assert z in s.zones ==> Laid(s, z, c.zonePages, InZone(z));
      assert z in s.spare ==> Laid(s, z, c.zonePages, InSpare(z));
    }
    if f: nat, k: nat :| Big(f, k) in s.live && f <= p < f + k {
      LargeIs(s, f, k, c);
    }
  }
}
