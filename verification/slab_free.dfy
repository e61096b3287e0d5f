/**
 Releasing slab memory: a chunk goes back to its zone, an empty zone into
 reserve, and a zone too many back to the pages. Then every run of the
 allocator.
 */
module SlabFree {
  import opened Alignment
  import opened Arithmetic
  import opened Sequences
  import opened SlabPages
  import opened SlabSizes
  import opened SlabZones

  /* One chunk */

  lemma ChunkIs(s: Slab, z: nat, k: nat, c: Config)
    requires ListsOk(s) && ZonesOk(s, c) && LiveOk(s, c) && Chunk(z, k) in s.live
    ensures z in s.zones && s.zones[z].index < |s.lists| && ZoneOk(s.zones[z], z, s.live, c)
    ensures k <= s.zones[z].uindex && k !in s.zones[z].free && s.live[Chunk(z, k)] == s.zones[z].chunk
  {
    assert PtrOk(s, Chunk(z, k), s.live[Chunk(z, k)], c);
    assert ZoneOk(s.zones[z], z, s.live, c);
  }

  lemma FreeChunkKeepsZones(s: Slab, z: nat, k: nat, c: Config)
    requires ListsOk(s) && ZonesOk(s, c) && LiveOk(s, c) && Chunk(z, k) in s.live
    requires z in s.zones && s.zones[z].index < |s.lists|
    ensures ZonesOk(FreeChunk(s, z, k), c) && LiveOk(FreeChunk(s, z, k), c)
  {
    hide SizeOfZone;
    ChunkIs(s, z, k, c);
    var t := FreeChunk(s, z, k);
    ConcatDistinct([k], s.zones[z].free);
    forall y | y in t.zones ensures ZoneOk(t.zones[y], y, t.live, c) {
      assert ZoneOk(s.zones[y], y, s.live, c);
    }
    forall p | p in t.live ensures PtrOk(t, p, t.live[p], c) {
      assert PtrOk(s, p, s.live[p], c);
    }
  }

  lemma FreeChunkKeepsLists(s: Slab, z: nat, k: nat)
    requires ListsOk(s) && z in s.zones && s.zones[z].index < |s.lists|
    ensures ListsOk(FreeChunk(s, z, k))
  {
    var i, t := s.zones[z].index, FreeChunk(s, z, k);
    assert z in s.lists[i] <==> Listed(s, z, i);
    if s.zones[z].nfree == 0 {
      ConcatDistinct([z], s.lists[i]);
    }
    forall j, y | 0 <= j < NZONES ensures y in t.lists[j] <==> Listed(t, y, j) {
      assert y in s.lists[j] <==> Listed(s, y, j);
    }
  }

  lemma FreeChunkKeepsSound(s: Slab, z: nat, k: nat, c: Config)
    requires Sound(s, c) && Chunk(z, k) in s.live && z in s.zones && s.zones[z].index < |s.lists|
    ensures Sound(FreeChunk(s, z, k), c)
  {
    hide PagesOk, PlacesOk, ListsOk, ZonesOk, LiveOk, Sum, ZoneOk, SameZonePages;
    var t := FreeChunk(s, z, k);
    ChunkIs(s, z, k, c);
    PagesFrame(s, t, c);
    SameEverything(s, t);
    PlacesFrame(s, t, c);
    FreeChunkKeepsLists(s, z, k);
    FreeChunkKeepsZones(s, z, k, c);
    SumWithout(s.live, Chunk(z, k));
  }

  /* Empty zones */

  /** A zone whose count says it is empty holds no live chunk. */
  lemma EmptyHoldsNothing(zn: Zone, z: nat, live: map<Ptr, nat>, k: nat, c: Config)
    requires ZoneOk(zn, z, live, c) && zn.nfree == zn.nmax && k <= zn.uindex
    ensures Chunk(z, k) !in live
  {
    DistinctSize(zn.free);
    var all := Upto(zn.uindex + 1);
    var free := Elements(zn.free);
    assert free <= all;
    SubsetOfSameSize(free, all);
    assert k in all;
  }

  lemma SubsetOfSameSize<T>(a: set<T>, b: set<T>)
    requires a <= b && |a| == |b|
    ensures a == b
  {
    assert b == a + (b - a);
  }

  ghost predicate Empty(s: Slab, z: nat) {
    z in s.zones && s.zones[z].index < |s.lists| && forall k: nat :: Chunk(z, k) !in s.live
  }

  lemma EmptyZone(s: Slab, z: nat, c: Config)
    requires ZonesOk(s, c) && LiveOk(s, c) && ListsOk(s) && z in s.zones && s.zones[z].nfree == s.zones[z].nmax
    ensures Empty(s, z)
  {
    assert ZoneOk(s.zones[z], z, s.live, c);
    forall k: nat ensures Chunk(z, k) !in s.live {
      assert Chunk(z, k) in s.live ==> PtrOk(s, Chunk(z, k), s.live[Chunk(z, k)], c);
      if k <= s.zones[z].uindex {
        EmptyHoldsNothing(s.zones[z], z, s.live, k, c);
      }
    }
  }

  lemma RetireKeepsSound(s: Slab, z: nat, c: Config)
    requires Sound(s, c) && Empty(s, z)
    ensures Sound(Retire(s, z, c), c)
  {
    hide PagesOk, PlacesOk, ListsOk, ZonesOk, LiveOk, Sum, ZoneOk, SameZonePages, Laid;
    var t := Retire(s, z, c);
    RetireKeepsPages(s, z, c);
    RetireKeepsPlaces(s, z, c);
    RetireKeepsLists(s, z, c);
    RetireKeepsZones(s, z, c);
    RetireKeepsLive(s, z, c);
  }

  lemma RetireKeepsPages(s: Slab, z: nat, c: Config)
    requires PagesOk(s, c) && PlacesOk(s, c) && Empty(s, z)
    ensures PagesOk(Retire(s, z, c), c)
  {
    hide Canonical, HasPage, Without;
    assert Laid(s, z, c.zonePages, InZone(z));
    var t := Retire(s, z, c);
    forall p: nat ensures p in t.own <==> p in s.own {
      assert z <= p < z + c.zonePages ==> p in s.own;
    }
    forall p: nat ensures HasPage(t.runs, p) <==> p in t.own && t.own[p] == Nobody {
      assert z <= p < z + c.zonePages ==> p in s.own && s.own[p] == InZone(z);
    }
  }

  lemma RetireKeepsPlaces(s: Slab, z: nat, c: Config)
    requires c.Valid() && PlacesOk(s, c) && Empty(s, z)
    ensures PlacesOk(Retire(s, z, c), c)
  {
    hide Without;
    var t := Retire(s, z, c);
    assert Laid(s, z, c.zonePages, InZone(z));
    assert s.own[z] == InZone(z);
    assert z in s.spare ==> Laid(s, z, c.zonePages, InSpare(z));
    ConcatDistinct([z], s.spare);
    forall y | y in t.zones ensures Laid(t, y, c.zonePages, InZone(y)) {
      OtherLaid(s, t, y, InZone(y), z, c);
    }
    forall y | y in t.spare ensures Laid(t, y, c.zonePages, InSpare(y)) {
      if y != z {
        OtherLaid(s, t, y, InSpare(y), z, c);
      }
    }
  }

  lemma RetireKeepsLists(s: Slab, z: nat, c: Config)
    requires ListsOk(s) && Empty(s, z)
    ensures ListsOk(Retire(s, z, c))
  {
    var i, t := s.zones[z].index, Retire(s, z, c);
    WithoutKeepsDistinct(s.lists[i], z);
    forall j, y | 0 <= j < NZONES ensures y in t.lists[j] <==> Listed(t, y, j) {
      assert y in s.lists[j] <==> Listed(s, y, j);
    }
  }

  lemma RetireKeepsZones(s: Slab, z: nat, c: Config)
    requires ZonesOk(s, c) && Empty(s, z)
    ensures ZonesOk(Retire(s, z, c), c)
  {
    hide ZoneOk;
    var t := Retire(s, z, c);
    forall y | y in t.zones ensures ZoneOk(t.zones[y], y, t.live, c) {
      assert ZoneOk(s.zones[y], y, s.live, c);
    }
  }

  lemma RetireKeepsLive(s: Slab, z: nat, c: Config)
    requires PlacesOk(s, c) && LiveOk(s, c) && Empty(s, z)
    ensures LiveOk(Retire(s, z, c), c)
  {
    hide SameLargePages, Without;
    var t := Retire(s, z, c);
    assert Laid(s, z, c.zonePages, InZone(z));
    ReclaimFrames(s, t, z, c.zonePages);
    forall p | p in t.live ensures PtrOk(t, p, t.live[p], c) {
      assert PtrOk(s, p, s.live[p], c);
      if p.Big? {
        BigFrame(s, t, p, s.live[p], c, Nobody);
      }
    }
  }

  /* Back to the pages */

  lemma ReleaseKeepsSound(s: Slab, c: Config)
    requires Sound(s, c) && s.spare != []
    ensures Sound(ReleaseSpare(s, c), c)
  {
    hide PagesOk, PlacesOk, ListsOk, ZonesOk, LiveOk, Sum, ZoneOk, SameZonePages, SameLargePages, Laid;
    var z, t := s.spare[0], ReleaseSpare(s, c);
    var u := s.(spare := s.spare[1..]);
    SpareIsAside(s, c);
    ReleaseKeepsPages(u, z, c);
    PagesFrame(u.(runs := t.runs, own := t.own), t, c);
    ReleaseKeepsPlaces(u, t, z, c);
    ListsFrame(u, t);
    ZonesFrame(u, t, c);
    ReleaseFrames(u, t, z, c);
    LiveFrame(u, t, c);
  }

  lemma ReleaseKeepsPages(s: Slab, z: nat, c: Config)
    requires c.Valid() && PagesOk(s, c) && Laid(s, z, c.zonePages, InSpare(z))
    ensures PagesOk(s.(runs := FreeRuns(s.runs, z, c.zonePages), own := Claim(s.own, z, c.zonePages, Nobody)), c)
  {
    hide PagesOk;
    ReturnKeepsPages(s, z, c.zonePages, c);
  }

  lemma ReleaseFrames(s: Slab, t: Slab, z: nat, c: Config)
    requires Laid(s, z, c.zonePages, InSpare(z)) && t.own == Claim(s.own, z, c.zonePages, Nobody)
    requires t.usage == Describe(s.usage, z, c.zonePages, true)
    ensures SameLargePages(s, t, Nobody)
  {
  }

  lemma ReleaseKeepsPlaces(s: Slab, t: Slab, z: nat, c: Config)
    requires PlacesOk(s, c) && Laid(s, z, c.zonePages, InSpare(z)) && z !in s.spare && z !in s.zones
    requires t.own == Claim(s.own, z, c.zonePages, Nobody) && t.usage == Describe(s.usage, z, c.zonePages, true)
    requires t.zones == s.zones && t.spare == s.spare
    ensures PlacesOk(t, c)
  {
    forall y | y in t.zones ensures Laid(t, y, c.zonePages, InZone(y)) {
      ReleasedElsewhere(s, t, y, InZone(y), z, c);
    }
    forall y | y in t.spare ensures Laid(t, y, c.zonePages, InSpare(y)) {
      ReleasedElsewhere(s, t, y, InSpare(y), z, c);
    }
  }

  lemma ReleasedElsewhere(s: Slab, t: Slab, y: nat, o: Owner, z: nat, c: Config)
    requires Laid(s, y, c.zonePages, o) && y != z && (o == InZone(y) || o == InSpare(y))
    requires Laid(s, z, c.zonePages, InSpare(z))
    requires t.own == Claim(s.own, z, c.zonePages, Nobody) && t.usage == Describe(s.usage, z, c.zonePages, true)
    ensures Laid(t, y, c.zonePages, o)
  {
    forall p | y <= p < y + c.zonePages
      ensures p in t.own && t.own[p] == o && p in t.usage && t.usage[p] == Small(p - y) {
      assert s.own[p] == o;
    }
  }

  /* Every run */

  lemma FreeSmallKeepsInv(s: Slab, z: nat, k: nat, c: Config)
    requires Inv(s, c) && Chunk(z, k) in s.live && z in s.zones && s.zones[z].index < |s.lists|
    ensures Inv(FreeSmall(s, z, k, c), c)
    ensures FreeSmall(s, z, k, c).live == s.live - {Chunk(z, k)}
  {
    hide PagesOk, PlacesOk, ListsOk, ZonesOk, LiveOk, StatsOk;
    var t := FreeChunk(s, z, k);
    FreeChunkKeepsSound(s, z, k, c);
    if t.zones[z].nfree == t.zones[z].nmax && |t.lists[t.zones[z].index]| > 1 {
      EmptyZone(t, z, c);
      RetireKeepsSound(t, z, c);
      var u := Retire(t, z, c);
      if |u.spare| > SPARE_MAX {
        ReleaseKeepsSound(u, c);
      }
    }
  }

  function Alloc(s: Slab, n: nat, c: Config): (Slab, Result)
    requires Inv(s, c)
  {
    if n == 0 then (s, Null)
    else if n >= c.limit then AllocLarge(s, n, c)
    else
      FreshZoneFits(n, c);
      if s.lists[ZoneIndex(n)] != [] then
        FreeChunkExists(s, ZoneIndex(n), c);
        FromZone(s, ZoneIndex(n))
      else NewZone(s, ZoneIndex(n), ChunkSize(n), c)
  }

  /** What an allocation of `n` bytes is charged. */
  function SizeFor(n: nat, c: Config): nat
    requires c.Valid()
  {
    if n >= c.limit then Bytes(PagesFor(n, c), c) else ChunkSize(n)
  }

  function Free(s: Slab, p: Ptr, c: Config): Slab
    requires Inv(s, c) && p in s.live
  {
    match p
    case Big(first, k) => FreeLarge(s, first, k, c)
    case Chunk(z, k) => ChunkIs(s, z, k, c); FreeSmall(s, z, k, c)
  }

  /** Nothing fits: no zone with a free chunk, none in reserve, and no run of enough pages. */
  ghost predicate Exhausted(s: Slab, n: nat, c: Config)
    requires c.Valid() && |s.lists| == NZONES
  {
    if n >= c.limit then NoRun(s.runs, PagesFor(n, c))
    else 0 <= ZoneIndex(n) < NZONES && s.lists[ZoneIndex(n)] == [] && s.spare == [] && NoRun(s.runs, c.zonePages)
  }

  ghost predicate NoRun(r: seq<Run>, n: nat) {
    forall i :: 0 <= i < |r| ==> r[i].len < n
  }

  lemma AllocKeepsInv(s: Slab, n: nat, c: Config)
    requires Inv(s, c)
    ensures var (t, r) := Alloc(s, n, c);
            && Inv(t, c)
            && (r.Null? <==> n == 0 || Exhausted(s, n, c))
            && (r.Null? ==> t == s)
            && (r.Got? ==> r.p !in s.live && t.live == s.live[r.p := SizeFor(n, c)] && SizeFor(n, c) >= n)
  {
    hide PagesOk, PlacesOk, ZonesOk, LiveOk, StatsOk, ZoneIndex, ChunkSize, FirstChunk, ZoneOk;
    if n >= c.limit {
      AllocLargeKeepsInv(s, n, c);
      LargeEnough(n, c);
      LargeFails(s, n, c);
    } else if n > 0 {
      FreshZoneFits(n, c);
      ZonesAndSizesAgree(n);
      if s.lists[ZoneIndex(n)] != [] {
        FreeChunkExists(s, ZoneIndex(n), c);
        FromZoneKeepsInv(s, ZoneIndex(n), c);
      } else {
        NewZoneKeepsInv(s, n, c);
        NewZoneFails(s, n, c);
      }
    }
  }

  lemma LargeEnough(n: nat, c: Config)
    requires c.Valid()
    ensures n <= Bytes(PagesFor(n, c), c) && (n > 0 ==> PagesFor(n, c) > 0)
  {
    hide Up;
    var u := Up(n, c.page);
    assert u == u / c.page * c.page;
  }

  lemma LargeFails(s: Slab, n: nat, c: Config)
    requires c.Valid() && PagesOk(s, c) && n > 0
    ensures AllocLarge(s, n, c).1.Null? <==> NoRun(s.runs, PagesFor(n, c))
    ensures AllocLarge(s, n, c).1.Null? ==> AllocLarge(s, n, c).0 == s
  {
    hide Canonical, HasPage;
    LargeEnough(n, c);
    AllocTakes(s.runs, PagesFor(n, c));
  }

  lemma NewZoneFails(s: Slab, n: nat, c: Config)
    requires c.Valid() && PagesOk(s, c)
    requires 0 <= ZoneIndex(n) < |s.lists| && ChunkSize(n) > 0 && c.ZoneSize() >= FirstChunk(ChunkSize(n), c)
    ensures NewZone(s, ZoneIndex(n), ChunkSize(n), c).1.Null? <==> s.spare == [] && NoRun(s.runs, c.zonePages)
  {
    hide Canonical, HasPage, ZoneIndex, ChunkSize, FirstChunk;
    AllocTakes(s.runs, c.zonePages);
  }

  lemma FreeKeepsInv(s: Slab, p: Ptr, c: Config)
    requires Inv(s, c) && p in s.live
    ensures Inv(Free(s, p, c), c) && Free(s, p, c).live == s.live - {p}
  {
    hide Sound;
    match p
    case Big(first, k) => FreeLargeKeepsInv(s, first, k, c);
    case Chunk(z, k) =>
      ZoneOfLive(s, z, k, c);
      FreeSmallKeepsInv(s, z, k, c);
  }

  lemma ZoneOfLive(s: Slab, z: nat, k: nat, c: Config)
    requires Sound(s, c) && Chunk(z, k) in s.live
    ensures z in s.zones && s.zones[z].index < |s.lists|
  {
    ChunkIs(s, z, k, c);
  }

  /* Reallocation */

  /** The size a new block is asked for: rounded to its chunk size when the old block is a chunk. */
  function NewSize(p: Ptr, n: nat): nat {
    if p.Big? then n else ChunkSize(n)
  }

  /** The chunk has the size already. */
  predicate SameSize(s: Slab, p: Ptr, n: nat) {
    p.Chunk? && p.zone in s.zones && s.zones[p.zone].chunk == ChunkSize(n)
  }

  /** `rt_slab_realloc`: allocate, release, stay, or take a new block and release the old one. */
  function Realloc(s: Slab, r: Result, n: nat, c: Config): (Slab, Result)
    requires Inv(s, c) && (r.Got? ==> r.p in s.live)
  {
    if r.Null? then Alloc(s, n, c)
    else if n == 0 then (Free(s, r.p, c), Null)
    else if SameSize(s, r.p, n) then (s, r)
    else
      var (t, q) := Alloc(s, NewSize(r.p, n), c);
      AllocKeepsInv(s, NewSize(r.p, n), c);
      if q.Null? then (s, Null) else (Free(t, r.p, c), q)
  }

  lemma ChunkRoundsUp(n: nat)
    ensures ChunkSize(n) >= n
  {
    if 0 < n < 16384 {
      ZonesAndSizesAgree(n);
    }
  }

  /**
   Realloc fails exactly for size zero, or when it needs a new block and there is
   none; then nothing changes, except that size zero releases. A success replaces
   one block by one of at least `n` bytes and leaves all others live.
   */
  lemma ReallocReplaces(s: Slab, p: Ptr, n: nat, c: Config)
    requires Inv(s, c) && p in s.live
    ensures var (t, q) := Realloc(s, Got(p), n, c);
            && Inv(t, c)
            && (q.Null? <==> n == 0 || (!SameSize(s, p, n) && Exhausted(s, NewSize(p, n), c)))
            && (q.Null? && n > 0 ==> t == s)
            && (n == 0 ==> t.live == s.live - {p})
            && (q.Got? ==> q.p in t.live && t.live[q.p] >= n && q.p !in s.live - {p} && t.live == (s.live - {p})[q.p := t.live[q.p]])
  {
    hide PagesOk, PlacesOk, ZonesOk, StatsOk, ChunkSize, Exhausted, Alloc, Free, PtrOk;
    ChunkRoundsUp(n);
    if n == 0 {
      FreeKeepsInv(s, p, c);
    } else if SameSize(s, p, n) {
      SizeOfLive(s, p, c);
    } else {
      var (t, q) := Alloc(s, NewSize(p, n), c);
      AllocKeepsInv(s, NewSize(p, n), c);
      if q.Got? {
        FreeKeepsInv(t, p, c);
      }
    }
  }

  lemma SizeOfLive(s: Slab, p: Ptr, c: Config)
    requires LiveOk(s, c) && p in s.live && p.Chunk?
    ensures p.zone in s.zones && s.live[p] == s.zones[p.zone].chunk
  {
    assert PtrOk(s, p, s.live[p], c);
  }

  /* Runs */

  datatype Action = Take(n: nat) | Give(p: Ptr) | Resize(r: Result, n: nat)

  /** A caller frees and resizes only what it was given and has not freed since. */
  predicate Enabled(s: Slab, a: Action) {
    match a
    case Take(_) => true
    case Give(p) => p in s.live
    case Resize(r, _) => r.Got? ==> r.p in s.live
  }

  function Step(s: Slab, a: Action, c: Config): Slab
    requires Inv(s, c) && Enabled(s, a)
  {
    match a
    case Take(n) => Alloc(s, n, c).0
    case Give(p) => Free(s, p, c)
    case Resize(r, n) => Realloc(s, r, n, c).0
  }

  /** The most that is in use at any moment of a step: a moving realloc holds both blocks for a while. */
  ghost function Top(s: Slab, a: Action, c: Config): int
    requires Inv(s, c) && Enabled(s, a)
  {
    match a
    case Resize(r, n) =>
      if r.Got? && n > 0 && !SameSize(s, r.p, n) then Alloc(s, NewSize(r.p, n), c).0.used else Step(s, a, c).used
    case _ => Step(s, a, c).used
  }

  lemma AllocTop(s: Slab, n: nat, c: Config)
    requires Inv(s, c)
    ensures var t := Alloc(s, n, c).0; t.max == Larger(s.max, t.used) && t.used >= s.used
  {
    hide PagesOk, PlacesOk, ZonesOk, LiveOk, ZoneIndex, ChunkSize, FirstChunk, Sum, AllocRuns, Claim, Describe;
    if 0 < n < c.limit {
      FreshZoneFits(n, c);
      if s.lists[ZoneIndex(n)] != [] {
        FreeChunkExists(s, ZoneIndex(n), c);
      }
    }
  }

  lemma FreeTop(s: Slab, p: Ptr, c: Config)
    requires Inv(s, c) && p in s.live
    ensures Free(s, p, c).max == s.max && Free(s, p, c).used <= s.used
  {
    hide PagesOk, PlacesOk, ZonesOk, LiveOk, Sum, FreeRuns, Claim, Describe, Without, ZoneOk, Retire, ReleaseSpare, Bytes;
    if p.Chunk? {
      ChunkIs(s, p.zone, p.number, c);
      RetireTop(FreeChunk(s, p.zone, p.number), p.zone, c);
    }
  }

  lemma RetireTop(s: Slab, z: nat, c: Config)
    requires z in s.zones && s.zones[z].index < |s.lists|
    ensures var t := Retire(s, z, c);
            t.max == s.max && t.used == s.used && t.spare != []
            && ReleaseSpare(t, c).max == s.max && ReleaseSpare(t, c).used == s.used
  {
  }

  lemma StepKeepsInv(s: Slab, a: Action, c: Config)
    requires Inv(s, c) && Enabled(s, a)
    ensures Inv(Step(s, a, c), c)
    ensures Step(s, a, c).used <= Top(s, a, c) && Step(s, a, c).max == Larger(s.max, Top(s, a, c))
  {
    hide PagesOk, PlacesOk, ListsOk, ZonesOk, LiveOk, Alloc, Free, Sum, Exhausted;
    match a
    case Take(n) => AllocKeepsInv(s, n, c); AllocTop(s, n, c);
    case Give(p) => FreeKeepsInv(s, p, c); FreeTop(s, p, c);
    case Resize(r, n) =>
      if r.Null? {
        AllocKeepsInv(s, n, c);
        AllocTop(s, n, c);
      } else if n == 0 {
        FreeKeepsInv(s, r.p, c);
        FreeTop(s, r.p, c);
      } else if !SameSize(s, r.p, n) {
        var (t, q) := Alloc(s, NewSize(r.p, n), c);
        AllocKeepsInv(s, NewSize(r.p, n), c);
        AllocTop(s, NewSize(r.p, n), c);
        if q.Got? {
          FreeKeepsInv(t, r.p, c);
          FreeTop(t, r.p, c);
        }
      }
  }

  ghost predicate Legal(s: Slab, run: seq<Action>, c: Config)
    requires Inv(s, c)
    decreases |run|
  {
    run == [] || (Enabled(s, run[0]) && (StepKeepsInv(s, run[0], c); Legal(Step(s, run[0], c), run[1..], c)))
  }

  ghost function After(s: Slab, run: seq<Action>, c: Config): Slab
    requires Inv(s, c) && Legal(s, run, c)
    decreases |run|
  {
    if run == [] then s else (StepKeepsInv(s, run[0], c); After(Step(s, run[0], c), run[1..], c))
  }

  /** The largest value `used` takes anywhere along the run, inside its steps too. */
  ghost function Peak(s: Slab, run: seq<Action>, c: Config): int
    requires Inv(s, c) && Legal(s, run, c)
    decreases |run|
  {
    if run == [] then s.used
    else
      StepKeepsInv(s, run[0], c);
      Larger(s.used, Larger(Top(s, run[0], c), Peak(Step(s, run[0], c), run[1..], c)))
  }

  /** Whatever happens, in whatever order, the allocator stays consistent and its statistics exact. */
  lemma {:induction false} EveryRunKeepsInv(s: Slab, run: seq<Action>, c: Config)
    requires Inv(s, c) && Legal(s, run, c)
    ensures Inv(After(s, run, c), c)
    ensures After(s, run, c).max == Larger(s.max, Peak(s, run, c))
    decreases |run|
  {
    hide PagesOk, PlacesOk, ListsOk, ZonesOk, LiveOk, Sum, Step, Top, Enabled;
    if run != [] {
      StepKeepsInv(s, run[0], c);
      EveryRunKeepsInv(Step(s, run[0], c), run[1..], c);
    }
  }

  /* Starting up */

  /** `sizeof(struct rt_slab_memusage)` */
  const USAGE: nat := 4

  /** The pages the descriptor table needs. */
  function TablePages(c: Config): nat
    requires c.page > 0
  {
    PagesFor(USAGE * c.npages, c)
  }

  lemma TableFits(c: Config)
    requires c.page >= USAGE && c.npages > 0
    ensures 0 < TablePages(c) <= c.npages
  {
    var n, u := USAGE * c.npages, Up(USAGE * c.npages, c.page);
    var q := u / c.page;
    assert u == q * c.page;
    Times(USAGE, c.page, c.npages);
    if q > c.npages {
      Steps(c.npages, q, c.page);
    }
  }

  function Blank(c: Config): Slab {
    Slab([SlabPages.Run(0, c.npages)], seq(NZONES, i => []), [], map[], Describe(map[], 0, c.npages, true),
         Claim(map[], 0, c.npages, Nobody), map[], 0, 0)
  }

  /** `rt_slab_init`: every page free but the first ones, which hold the descriptors for good. */
  function Fresh(c: Config): Slab
    requires c.page > 0
  {
    Blank(c).(runs := AllocRuns(Blank(c).runs, TablePages(c)).0, own := Claim(Blank(c).own, 0, TablePages(c), InTable))
  }

  lemma FreshIsGood(c: Config)
    requires c.Valid() && c.page >= USAGE && c.npages > 0
    ensures Inv(Fresh(c), c)
  {
    hide PagesFor, PagesOk, Canonical, HasPage, AllocRuns, Claim, Describe;
    var s, t := Blank(c), Fresh(c);
    TableFits(c);
    BlankPages(c);
    TableIsFirst(c);
    ClaimKeepsPages(s, TablePages(c), InTable, c);
    PagesFrame(s.(runs := t.runs, own := t.own), t, c);
  }

  lemma BlankPages(c: Config)
    requires c.npages > 0
    ensures PagesOk(Blank(c), c)
  {
    var s := Blank(c);
    assert s.runs[0] == SlabPages.Run(0, c.npages);
    forall p: nat ensures HasPage(s.runs, p) <==> p < c.npages {
      assert Covers(s.runs[0], p) <==> p < c.npages;
    }
  }

  lemma TableIsFirst(c: Config)
    requires c.page > 0 && 0 < TablePages(c) <= c.npages
    ensures AllocRuns(Blank(c).runs, TablePages(c)).1 == Pages(0)
  {
    hide PagesFor;
    assert FirstFit(Blank(c).runs, TablePages(c)) == 0;
  }
}
