/**
 Slab zones: runs of pages cut into equal chunks, one list of zones with free
 chunks per size class, page descriptors that lead from any address back to its
 zone, and a few empty zones kept in reserve.
 */
module SlabZones {
  import opened Alignment
  import opened Arithmetic
  import opened Sequences
  import opened SlabPages
  import opened SlabSizes

  /**
   `RT_MM_PAGE_SIZE`, `zone_page_cnt`, `zone_limit`, `sizeof(struct rt_slab_zone)`,
   the size of a pointer, and the pages managed.
   */
  datatype Config = Config(page: nat, zonePages: nat, limit: nat, hdr: nat, word: nat, npages: nat) {
    function ZoneSize(): nat { zonePages * page }

    predicate Valid() {
      && page > 0 && zonePages > 0 && hdr > 0 && 0 < word <= 8 && 2 * word <= page
      && limit in {8192, 16384} && 4 * limit <= ZoneSize() && 4 * hdr <= ZoneSize()
    }
  }

  /** `ZONE_RELEASE_THRESH` */
  const SPARE_MAX: nat := 2

  /** A page descriptor: its type together with its size field. */
  datatype Usage = Unset | Small(offset: nat) | LargeRun(pages: nat)

  /** A zone header; `free` is the free-chunk list, by chunk number. */
  datatype Zone = Zone(index: nat, chunk: nat, off: nat, nmax: nat, uindex: nat, nfree: nat, free: seq<nat>) {
    /** Where chunk `k` starts, counted from the zone. */
    function At(k: nat): nat { off + k * chunk }

    function NumberAt(x: int): nat
      requires x >= off && chunk > 0
    {
      (x - off) / chunk
    }
  }

  /** An allocated pointer, by what it points at. */
  datatype Ptr = Chunk(zone: nat, number: nat) | Big(first: nat, count: nat)

  datatype Result = Null | Got(p: Ptr)

  datatype Owner = Nobody | InTable | InZone(z: nat) | InSpare(z: nat) | InLarge(first: nat)

  datatype Slab = Slab(
    runs: seq<Run>, lists: seq<seq<nat>>, spare: seq<nat>, zones: map<nat, Zone>, usage: map<nat, Usage>,
    own: map<nat, Owner>, live: map<Ptr, nat>, used: int, max: int)

  function Claim(own: map<nat, Owner>, first: nat, n: nat, o: Owner): (r: map<nat, Owner>)
    ensures forall p :: p in r <==> p in own || first <= p < first + n
    ensures forall p :: p in r ==> r[p] == if first <= p < first + n then o else own[p]
  {
    if n == 0 then own else Claim(own, first, n - 1, o)[first + n - 1 := o]
  }

  /** The descriptor loop over a zone's pages, counting up or clearing. */
  function Describe(usage: map<nat, Usage>, z: nat, n: nat, clear: bool): (r: map<nat, Usage>)
    ensures forall p :: p in r <==> p in usage || z <= p < z + n
    ensures forall p :: p in r ==> r[p] == if z <= p < z + n then (if clear then Unset else Small(p - z)) else usage[p]
  {
    if n == 0 then usage else Describe(usage, z, n - 1, clear)[z + n - 1 := if clear then Unset else Small(n - 1)]
  }

  function Charge(s: Slab, p: Ptr, size: nat): Slab {
    s.(live := s.live[p := size], used := s.used + size, max := if s.used + size > s.max then s.used + size else s.max)
  }

  function PagesFor(n: nat, c: Config): nat
    requires c.page > 0
  {
    Up(n, c.page) / c.page
  }

  function Bytes(pages: nat, c: Config): nat {
    pages * c.page
  }

  function AllocLarge(s: Slab, n: nat, c: Config): (Slab, Result)
    requires c.Valid()
  {
    var k := PagesFor(n, c);
    var (r, g) := AllocRuns(s.runs, k);
    if g.NoPages? then (s, Null)
    else
      (Charge(s.(runs := r, usage := s.usage[g.first := LargeRun(k)], own := Claim(s.own, g.first, k, InLarge(g.first))),
              Big(g.first, k), Bytes(k, c)), Got(Big(g.first, k)))
  }

  /** From the zone at the head of list `i`: never-used chunks first, then the free-chunk list. */
  function FromZone(s: Slab, i: nat): (Slab, Result)
    requires i < |s.lists| && s.lists[i] != [] && s.lists[i][0] in s.zones
    requires var zn := s.zones[s.lists[i][0]]; zn.nfree > 0 && (zn.uindex + 1 == zn.nmax ==> zn.free != [])
  {
    var z := s.lists[i][0];
    var zn := s.zones[z].(nfree := s.zones[z].nfree - 1);
    var unused := zn.uindex + 1 != zn.nmax;
    var k := if unused then zn.uindex + 1 else zn.free[0];
    var zn' := if unused then zn.(uindex := k) else zn.(free := zn.free[1..]);
    (Charge(s.(zones := s.zones[z := zn'], lists := if zn.nfree == 0 then s.lists[i := s.lists[i][1..]] else s.lists),
            Chunk(z, k), zn.chunk), Got(Chunk(z, k)))
  }

  /** A power of two is its own alignment; everything else is aligned to 8. */
  predicate PowerOfTwo(n: nat) {
    n in {8, 16, 32, 64, 128, 256, 512, 1024, 2048, 4096, 8192, 16384}
  }

  function ChunkAlign(size: nat): (a: nat)
    ensures a > 0
  {
    if PowerOfTwo(size) then size else 8
  }

  function FirstChunk(size: nat, c: Config): (r: nat) {
    Up(c.hdr, ChunkAlign(size))
  }

  function FreshZone(i: nat, size: nat, c: Config): Zone
    requires size > 0 && c.ZoneSize() >= FirstChunk(size, c)
  {
    var off := FirstChunk(size, c);
    var nmax := (c.ZoneSize() - off) / size;
    Zone(i, size, off, nmax, 0, if nmax > 0 then nmax - 1 else 0, [])
  }

  function OpenZone(s: Slab, z: nat, i: nat, size: nat, c: Config): (Slab, Result)
    requires i < |s.lists| && size > 0 && c.ZoneSize() >= FirstChunk(size, c)
  {
    (Charge(s.(zones := s.zones[z := FreshZone(i, size, c)], lists := s.lists[i := [z] + s.lists[i]],
              own := Claim(s.own, z, c.zonePages, InZone(z))), Chunk(z, 0), size), Got(Chunk(z, 0)))
  }

  /** A new zone for list `i`, from the reserve if there is one, otherwise from the pages. */
  function NewZone(s: Slab, i: nat, size: nat, c: Config): (Slab, Result)
    requires i < |s.lists| && size > 0 && c.ZoneSize() >= FirstChunk(size, c)
  {
    if s.spare != [] then
      OpenZone(s.(spare := s.spare[1..]), s.spare[0], i, size, c)
    else
      var (r, g) := AllocRuns(s.runs, c.zonePages);
      if g.NoPages? then (s, Null)
      else OpenZone(s.(runs := r, usage := Describe(s.usage, g.first, c.zonePages, false)), g.first, i, size, c)
  }

  function Address(s: Slab, p: Ptr, c: Config): nat
    requires p.Chunk? ==> p.zone in s.zones
  {
    match p
    case Big(first, _) => Bytes(first, c)
    case Chunk(z, k) => Bytes(z, c) + s.zones[z].At(k)
  }

  function FreeLarge(s: Slab, first: nat, k: nat, c: Config): Slab
    requires Big(first, k) in s.live
  {
    s.(usage := s.usage[first := LargeRun(0)], used := s.used - Bytes(k, c), runs := FreeRuns(s.runs, first, k),
       own := Claim(s.own, first, k, Nobody), live := s.live - {Big(first, k)})
  }

  /** The chunk goes on its zone's list, and the zone back among those with free chunks. */
  function FreeChunk(s: Slab, z: nat, k: nat): Slab
    requires z in s.zones && s.zones[z].index < |s.lists|
  {
    var zn := s.zones[z];
    var lists := if zn.nfree == 0 then s.lists[zn.index := [z] + s.lists[zn.index]] else s.lists;
    s.(zones := s.zones[z := zn.(free := [k] + zn.free, nfree := zn.nfree + 1)], lists := lists,
       used := s.used - zn.chunk, live := s.live - {Chunk(z, k)})
  }

  /** An empty zone that is not the only one of its list goes into reserve. */
  function Retire(s: Slab, z: nat, c: Config): Slab
    requires z in s.zones && s.zones[z].index < |s.lists|
  {
    var i := s.zones[z].index;
    s.(lists := s.lists[i := Without(s.lists[i], z)], zones := s.zones - {z}, spare := [z] + s.spare,
       own := Claim(s.own, z, c.zonePages, InSpare(z)))
  }

  /** The reserve is full: its latest zone goes back to the pages. */
  function ReleaseSpare(s: Slab, c: Config): Slab
    requires s.spare != []
  {
    var z := s.spare[0];
    s.(spare := s.spare[1..], usage := Describe(s.usage, z, c.zonePages, true), runs := FreeRuns(s.runs, z, c.zonePages),
       own := Claim(s.own, z, c.zonePages, Nobody))
  }

  function FreeSmall(s: Slab, z: nat, k: nat, c: Config): Slab
    requires z in s.zones && s.zones[z].index < |s.lists|
  {
    var t := FreeChunk(s, z, k);
    var zn := t.zones[z];
    if zn.nfree == zn.nmax && |t.lists[zn.index]| > 1 then
      var u := Retire(t, z, c);
      if |u.spare| > SPARE_MAX then ReleaseSpare(u, c) else u
    else t
  }

  /* The invariant */

  ghost predicate PagesOk(s: Slab, c: Config) {
    && Canonical(s.runs)
    && (forall p :: p in s.own <==> 0 <= p < c.npages)
    && (forall p: nat :: HasPage(s.runs, p) <==> p in s.own && s.own[p] == Nobody)
  }

  /** The pages `z` to `z + n` belong to `o`, and their descriptors count up from `z`. */
  ghost predicate Laid(s: Slab, z: nat, n: nat, o: Owner) {
    forall p :: z <= p < z + n ==> p in s.own && s.own[p] == o && p in s.usage && s.usage[p] == Small(p - z)
  }

  ghost predicate PlacesOk(s: Slab, c: Config) {
    && (forall z :: z in s.zones ==> Laid(s, z, c.zonePages, InZone(z)))
    && (forall z :: z in s.spare ==> Laid(s, z, c.zonePages, InSpare(z)))
    && Distinct(s.spare)
  }

  ghost predicate Listed(s: Slab, z: nat, i: nat) {
    z in s.zones && s.zones[z].index == i && s.zones[z].nfree > 0
  }

  /** A zone is linked in the list of its size class exactly when it has a free chunk. */
  ghost predicate ListsOk(s: Slab) {
    && |s.lists| == NZONES
    && (forall i :: 0 <= i < NZONES ==> Distinct(s.lists[i]))
    && (forall i, z :: 0 <= i < NZONES ==> (z in s.lists[i] <==> Listed(s, z, i)))
  }

  /** `z_nfree` counts the never-used chunks and the free-chunk list, and a chunk is live or free, not both. */
  ghost predicate ZoneOk(zn: Zone, z: nat, live: map<Ptr, nat>, c: Config) {
    && zn.chunk > 0 && zn.index < NZONES && SizeOfZone(zn.index) == zn.chunk
    && zn.nmax >= 2 && c.hdr <= zn.off == FirstChunk(zn.chunk, c) && zn.At(zn.nmax) <= c.ZoneSize()
    && zn.uindex < zn.nmax
    && zn.nfree == zn.nmax - 1 - zn.uindex + |zn.free|
    && Distinct(zn.free) && (forall k :: k in zn.free ==> k <= zn.uindex)
    && (forall k: nat :: k <= zn.uindex ==> (Chunk(z, k) in live <==> k !in zn.free))
  }

  ghost predicate ZonesOk(s: Slab, c: Config) {
    forall z :: z in s.zones ==> ZoneOk(s.zones[z], z, s.live, c)
  }

  ghost predicate PtrOk(s: Slab, p: Ptr, size: nat, c: Config) {
    match p
    case Chunk(z, k) => z in s.zones && k <= s.zones[z].uindex && size == s.zones[z].chunk
    case Big(first, count) =>
      && count > 0 && size == Bytes(count, c) && first in s.usage && s.usage[first] == LargeRun(count)
      && forall q :: first <= q < first + count ==> q in s.own && s.own[q] == InLarge(first)
  }

  ghost predicate LiveOk(s: Slab, c: Config) {
    forall p :: p in s.live ==> PtrOk(s, p, s.live[p], c)
  }

  ghost function Sum(m: map<Ptr, nat>): nat
    decreases |m|
  {
    if m == map[] then 0 else var k :| k in m; m[k] + Sum(m - {k})
  }

  ghost predicate StatsOk(s: Slab) {
    s.used == Sum(s.live) && s.used <= s.max
  }

  ghost predicate Sound(s: Slab, c: Config) {
    c.Valid() && PagesOk(s, c) && PlacesOk(s, c) && ListsOk(s) && ZonesOk(s, c) && LiveOk(s, c) && StatsOk(s)
  }

  ghost predicate Inv(s: Slab, c: Config) {
    Sound(s, c) && |s.spare| <= SPARE_MAX
  }

  /* Sums */

  lemma {:induction false} SumWithout(m: map<Ptr, nat>, p: Ptr)
    requires p in m
    ensures Sum(m) == m[p] + Sum(m - {p})
    decreases |m|
  {
    var k :| k in m && Sum(m) == m[k] + Sum(m - {k});
    if k != p {
      SumWithout(m - {k}, p);
      SumWithout(m - {p}, k);
      assert m - {k} - {p} == m - {p} - {k};
    }
  }

  lemma SumWith(m: map<Ptr, nat>, p: Ptr, size: nat)
    requires p !in m
    ensures Sum(m[p := size]) == Sum(m) + size
  {
    SumWithout(m[p := size], p);
    assert m[p := size] - {p} == m;
  }

  /* Large blocks */

  lemma TakenPagesWereFree(s: Slab, n: nat, c: Config)
    requires PagesOk(s, c) && AllocRuns(s.runs, n).1.Pages?
    ensures var g := AllocRuns(s.runs, n).1;
            n > 0 && forall p: nat :: g.first <= p < g.first + n ==> p in s.own && s.own[p] == Nobody
  {
    AllocTakes(s.runs, n);
  }

  lemma ClaimKeepsPages(s: Slab, n: nat, o: Owner, c: Config)
    requires PagesOk(s, c) && AllocRuns(s.runs, n).1.Pages? && o != Nobody
    ensures var (r, g) := AllocRuns(s.runs, n);
            PagesOk(s.(runs := r, own := Claim(s.own, g.first, n, o)), c)
  {
    hide Canonical, HasPage, AllocRuns;
    TakenPagesWereFree(s, n, c);
    AllocTakes(s.runs, n);
    var (r, g) := AllocRuns(s.runs, n);
    var t := s.(runs := r, own := Claim(s.own, g.first, n, o));
    forall p: nat ensures p in t.own <==> p in s.own {
      assert g.first <= p < g.first + n ==> p in s.own;
    }
    forall p: nat ensures HasPage(t.runs, p) <==> p in t.own && t.own[p] == Nobody {
      assert HasPage(s.runs, p) <==> p in s.own && s.own[p] == Nobody;
    }
  }

  lemma ReturnKeepsPages(s: Slab, first: nat, n: nat, c: Config)
    requires PagesOk(s, c) && n > 0
    requires forall p: nat :: first <= p < first + n ==> p in s.own && s.own[p] != Nobody
    ensures PagesOk(s.(runs := FreeRuns(s.runs, first, n), own := Claim(s.own, first, n, Nobody)), c)
  {
    hide Canonical, HasPage, FreeRuns;
    assert Apart(s.runs, first, n);
    FreeCanonical(s.runs, first, n);
    var t := s.(runs := FreeRuns(s.runs, first, n), own := Claim(s.own, first, n, Nobody));
    forall p: nat ensures p in t.own <==> p in s.own {
      assert first <= p < first + n ==> p in s.own;
    }
    forall p: nat ensures HasPage(t.runs, p) <==> p in t.own && t.own[p] == Nobody {
      FreePages(s.runs, first, n, p);
    }
  }

  /* Frames */

  /** Pages of zones and of the reserve keep their owner and descriptor. */
  ghost predicate SameZonePages(s: Slab, t: Slab) {
    forall p :: p in s.own && (s.own[p].InZone? || s.own[p].InSpare?) ==>
      p in t.own && t.own[p] == s.own[p] && (p in s.usage ==> p in t.usage && t.usage[p] == s.usage[p])
  }

  lemma LaidFrame(s: Slab, t: Slab, z: nat, n: nat, o: Owner)
    requires Laid(s, z, n, o) && SameZonePages(s, t) && (o.InZone? || o.InSpare?)
    ensures Laid(t, z, n, o)
  {
  }

  lemma PlacesFrame(s: Slab, t: Slab, c: Config)
    requires PlacesOk(s, c) && SameZonePages(s, t) && t.zones.Keys <= s.zones.Keys && t.spare == s.spare
    ensures PlacesOk(t, c)
  {
    hide Laid, SameZonePages;
    forall z | z in t.zones ensures Laid(t, z, c.zonePages, InZone(z)) {
      LaidFrame(s, t, z, c.zonePages, InZone(z));
    }
    forall z | z in t.spare ensures Laid(t, z, c.zonePages, InSpare(z)) {
      LaidFrame(s, t, z, c.zonePages, InSpare(z));
    }
  }

  /** Pages of large blocks keep their owner and descriptor. */
  ghost predicate SameLargePages(s: Slab, t: Slab, except: Owner) {
    forall p :: p in s.own && s.own[p].InLarge? && s.own[p] != except ==>
      p in t.own && t.own[p] == s.own[p] && (p in s.usage ==> p in t.usage && t.usage[p] == s.usage[p])
  }

  lemma BigFrame(s: Slab, t: Slab, p: Ptr, size: nat, c: Config, except: Owner)
    requires p.Big? && PtrOk(s, p, size, c) && SameLargePages(s, t, except) && except != InLarge(p.first)
    ensures PtrOk(t, p, size, c)
  {
    assert s.own[p.first] == InLarge(p.first);
  }

  lemma ZonesFrame(s: Slab, t: Slab, c: Config)
    requires ZonesOk(s, c) && t.zones == s.zones
    requires forall z, k :: Chunk(z, k) in t.live <==> Chunk(z, k) in s.live
    ensures ZonesOk(t, c)
  {
    forall z | z in t.zones ensures ZoneOk(t.zones[z], z, t.live, c) {
      assert ZoneOk(s.zones[z], z, s.live, c);
    }
  }

  /* Large blocks */

  lemma AllocLargeKeepsInv(s: Slab, n: nat, c: Config)
    requires Inv(s, c)
    ensures Inv(AllocLarge(s, n, c).0, c)
    ensures var (t, r) := AllocLarge(s, n, c);
            r.Got? ==> r.p !in s.live && t.live == s.live[r.p := Bytes(PagesFor(n, c), c)]
  {
    hide PagesOk, PlacesOk, ListsOk, ZonesOk, LiveOk, Sum, SameZonePages;
    var k := PagesFor(n, c);
    var (t, r) := AllocLarge(s, n, c);
    if r.Got? {
      var g := AllocRuns(s.runs, k).1;
      TakenPagesWereFree(s, k, c);
      ClaimKeepsPages(s, k, InLarge(g.first), c);
      PagesFrame(s.(runs := t.runs, own := t.own), t, c);
      LargeIsNew(s, g.first, k, c);
      SumWith(s.live, r.p, Bytes(k, c));
      LargeFrames(s, g.first, k);
      PlacesFrame(s, t, c);
      LargeKeepsLive(s, t, g.first, k, c);
      ZonesFrame(s, t, c);
      ListsFrame(s, t);
    }
  }

  lemma PagesFrame(s: Slab, t: Slab, c: Config)
    requires PagesOk(s, c) && t.runs == s.runs && t.own == s.own
    ensures PagesOk(t, c)
  {
  }

  lemma ListsFrame(s: Slab, t: Slab)
    requires ListsOk(s) && t.lists == s.lists && t.zones == s.zones
    ensures ListsOk(t)
  {
    forall i, z | 0 <= i < NZONES ensures z in t.lists[i] <==> Listed(t, z, i) {
      assert z in s.lists[i] <==> Listed(s, z, i);
    }
  }

  lemma LargeIsNew(s: Slab, first: nat, k: nat, c: Config)
    requires LiveOk(s, c) && first in s.own && s.own[first] == Nobody
    ensures Big(first, k) !in s.live
  {
    assert Big(first, k) in s.live ==> PtrOk(s, Big(first, k), s.live[Big(first, k)], c);
  }

  lemma LargeFrames(s: Slab, first: nat, k: nat)
    requires k > 0 && forall p: nat :: first <= p < first + k ==> p in s.own && s.own[p] == Nobody
    ensures var t := s.(own := Claim(s.own, first, k, InLarge(first)), usage := s.usage[first := LargeRun(k)]);
            forall u: Slab :: u.own == t.own && u.usage == t.usage ==>
              SameZonePages(s, u) && SameLargePages(s, u, Nobody)
  {
  }

  lemma LargeKeepsLive(s: Slab, t: Slab, first: nat, k: nat, c: Config)
    requires LiveOk(s, c) && k > 0 && SameLargePages(s, t, Nobody) && t.zones == s.zones
    requires t.own == Claim(s.own, first, k, InLarge(first)) && t.usage == s.usage[first := LargeRun(k)]
    requires t.live == s.live[Big(first, k) := Bytes(k, c)]
    ensures LiveOk(t, c)
  {
    hide SameLargePages;
    forall p | p in t.live ensures PtrOk(t, p, t.live[p], c) {
      if p != Big(first, k) {
        assert PtrOk(s, p, s.live[p], c);
        if p.Big? {
          BigFrame(s, t, p, s.live[p], c, Nobody);
        }
      }
    }
  }

  lemma FreeLargeKeepsInv(s: Slab, first: nat, k: nat, c: Config)
    requires Inv(s, c) && Big(first, k) in s.live
    ensures Inv(FreeLarge(s, first, k, c), c)
    ensures FreeLarge(s, first, k, c).live == s.live - {Big(first, k)}
  {
    hide PagesOk, PlacesOk, ListsOk, ZonesOk, LiveOk, Sum, SameZonePages, PtrOk;
    var b, t := Big(first, k), FreeLarge(s, first, k, c);
    LargeIs(s, first, k, c);
    ReturnKeepsPages(s, first, k, c);
    PagesFrame(s.(runs := t.runs, own := t.own), t, c);
    SumWithout(s.live, b);
    FreeLargeFrames(s, t, first, k);
    PlacesFrame(s, t, c);
    FreeLargeKeepsLive(s, t, first, k, c);
    ZonesFrame(s, t, c);
    ListsFrame(s, t);
  }

  lemma LargeIs(s: Slab, first: nat, k: nat, c: Config)
    requires LiveOk(s, c) && Big(first, k) in s.live
    ensures k > 0 && s.live[Big(first, k)] == Bytes(k, c) && first in s.usage && s.usage[first] == LargeRun(k)
    ensures forall q :: first <= q < first + k ==> q in s.own && s.own[q] == InLarge(first)
  {
    assert PtrOk(s, Big(first, k), s.live[Big(first, k)], c);
  }

  lemma FreeLargeFrames(s: Slab, t: Slab, first: nat, k: nat)
    requires k > 0 && forall q :: first <= q < first + k ==> q in s.own && s.own[q] == InLarge(first)
    requires t.own == Claim(s.own, first, k, Nobody) && t.usage == s.usage[first := LargeRun(0)]
    ensures SameZonePages(s, t) && SameLargePages(s, t, InLarge(first))
  {
  }

  lemma FreeLargeKeepsLive(s: Slab, t: Slab, first: nat, k: nat, c: Config)
    requires LiveOk(s, c) && SameLargePages(s, t, InLarge(first)) && t.zones == s.zones
    requires Big(first, k) in s.live && t.live == s.live - {Big(first, k)}
    ensures LiveOk(t, c)
  {
    hide SameLargePages;
    LargeIs(s, first, k, c);
    forall p | p in t.live ensures PtrOk(t, p, t.live[p], c) {
      assert PtrOk(s, p, s.live[p], c);
      if p.Big? {
        BigFrame(s, t, p, s.live[p], c, InLarge(first));
      }
    }
  }

  /* Chunks */

  /** The pop of the free-chunk list never meets its end. */
  lemma FreeChunkExists(s: Slab, i: nat, c: Config)
    requires ListsOk(s) && ZonesOk(s, c) && i < NZONES && s.lists[i] != []
    ensures CanGive(s, i)
  {
    var z := s.lists[i][0];
    assert z in s.lists[i];
    assert Listed(s, z, i);
    assert ZoneOk(s.zones[z], z, s.live, c);
  }

  ghost predicate CanGive(s: Slab, i: nat) {
    && i < |s.lists| && s.lists[i] != []
    && var z := s.lists[i][0];
       z in s.zones && s.zones[z].nfree > 0 && s.zones[z].index == i
       && (s.zones[z].uindex + 1 == s.zones[z].nmax ==> s.zones[z].free != [])
  }

  lemma FromZoneKeepsInv(s: Slab, i: nat, c: Config)
    requires Inv(s, c) && CanGive(s, i)
    ensures Inv(FromZone(s, i).0, c)
    ensures var (t, r) := FromZone(s, i); r.Got? && r.p !in s.live && t.live == s.live[r.p := SizeOfZone(i)]
  {
    hide PagesOk, PlacesOk, ListsOk, ZonesOk, LiveOk, Sum, PtrOk, SameZonePages;
    var (t, r) := FromZone(s, i);
    FromZoneKeepsZones(s, i, c);
    SumWith(s.live, r.p, s.zones[s.lists[i][0]].chunk);
    FromZoneKeepsLists(s, i);
    PagesFrame(s, t, c);
    SameEverything(s, t);
    PlacesFrame(s, t, c);
    FromZoneKeepsLive(s, i, c);
  }

  lemma SameEverything(s: Slab, t: Slab)
    requires t.own == s.own && t.usage == s.usage
    ensures SameZonePages(s, t) && SameLargePages(s, t, Nobody)
  {
  }

  lemma FromZoneKeepsZones(s: Slab, i: nat, c: Config)
    requires ZonesOk(s, c) && LiveOk(s, c) && CanGive(s, i)
    ensures var (t, r) := FromZone(s, i);
            ZonesOk(t, c) && r.p !in s.live && s.zones[s.lists[i][0]].chunk == SizeOfZone(i)
  {
    hide FirstChunk, SizeOfZone;
    var z := s.lists[i][0];
    var zn := s.zones[z];
    var (t, r) := FromZone(s, i);
    assert ZoneOk(zn, z, s.live, c);
    if zn.uindex + 1 == zn.nmax {
      HeadTail(zn.free);
    }
    assert r.p in s.live ==> PtrOk(s, r.p, s.live[r.p], c);
    forall y | y in t.zones ensures ZoneOk(t.zones[y], y, t.live, c) {
      assert ZoneOk(s.zones[y], y, s.live, c);
    }
  }

  lemma FromZoneKeepsLive(s: Slab, i: nat, c: Config)
    requires LiveOk(s, c) && ZonesOk(s, c) && CanGive(s, i)
    ensures LiveOk(FromZone(s, i).0, c)
  {
    var z := s.lists[i][0];
    var (t, r) := FromZone(s, i);
    assert ZoneOk(s.zones[z], z, s.live, c);
    if s.zones[z].uindex + 1 == s.zones[z].nmax {
      assert s.zones[z].free[0] in s.zones[z].free;
    }
    forall p | p in t.live ensures PtrOk(t, p, t.live[p], c) {
      if p != r.p {
        assert PtrOk(s, p, s.live[p], c);
      }
    }
  }

  lemma FromZoneKeepsLists(s: Slab, i: nat)
    requires ListsOk(s) && CanGive(s, i)
    ensures ListsOk(FromZone(s, i).0)
  {
    var t := FromZone(s, i).0;
    HeadTail(s.lists[i]);
    forall j, y | 0 <= j < NZONES ensures y in t.lists[j] <==> Listed(t, y, j) {
      assert y in s.lists[j] <==> Listed(s, y, j);
    }
  }

  /* New zones */

  /** A run of described pages belongs to `z`, which is in no list. */
  ghost predicate Aside(s: Slab, z: nat, c: Config) {
    Sound(s, c) && z !in s.zones && z !in s.spare && Laid(s, z, c.zonePages, InSpare(z))
  }

  lemma FreshZoneFits(n: nat, c: Config)
    requires c.Valid() && 0 < n < c.limit
    ensures var size := ChunkSize(n);
            && 0 < size && 4 * size <= c.ZoneSize() && c.ZoneSize() >= FirstChunk(size, c)
            && 0 <= ZoneIndex(n) < NZONES
            && ZoneOk(FreshZone(ZoneIndex(n), size, c), 0, map[Chunk(0, 0) := size], c)
  {
    ZonesAndSizesAgree(n);
    var size := ChunkSize(n);
    var off, total := FirstChunk(size, c), c.ZoneSize();
    ChunkWithinLimit(n, c.limit);
    assert off <= c.hdr + size;
    var nmax := (total - off) / size;
    Quotient(total - off, size);
  }

  lemma ChunkWithinLimit(n: nat, limit: nat)
    requires 0 < n < limit && limit in {8192, 16384}
    ensures ChunkSize(n) <= limit
  {
    ZonesAndSizesAgree(n);
    if n < 8192 { BelowEight(n); }
  }

  lemma BelowEight(n: nat)
    requires 0 < n < 8192
    ensures ChunkSize(n) <= 8192
  {
  }

  lemma OpenKeepsInv(s: Slab, z: nat, n: nat, c: Config)
    requires Aside(s, z, c) && |s.spare| <= SPARE_MAX && 0 < n < c.limit
    requires 0 <= ZoneIndex(n) < |s.lists| && ChunkSize(n) > 0 && c.ZoneSize() >= FirstChunk(ChunkSize(n), c)
    ensures var (t, r) := OpenZone(s, z, ZoneIndex(n), ChunkSize(n), c);
            Inv(t, c) && r.Got? && r.p !in s.live && t.live == s.live[r.p := ChunkSize(n)]
  {
    hide PagesOk, PlacesOk, ListsOk, ZonesOk, LiveOk, Sum, PtrOk, SameZonePages, Laid, ZoneOk, FreshZone;
    var (t, r) := OpenZone(s, z, ZoneIndex(n), ChunkSize(n), c);
    ChunkIsNew(s, z, 0, c);
    SumWith(s.live, r.p, ChunkSize(n));
    OpenKeepsPages(s, t, z, c);
    OpenKeepsPlaces(s, t, z, c);
    OpenKeepsLists(s, z, n, c);
    OpenKeepsZones(s, z, n, c);
    OpenKeepsLive(s, z, n, c);
  }

  lemma ChunkIsNew(s: Slab, z: nat, k: nat, c: Config)
    requires LiveOk(s, c) && z !in s.zones
    ensures Chunk(z, k) !in s.live
  {
    assert Chunk(z, k) in s.live ==> PtrOk(s, Chunk(z, k), s.live[Chunk(z, k)], c);
  }

  lemma OpenKeepsPages(s: Slab, t: Slab, z: nat, c: Config)
    requires PagesOk(s, c) && Laid(s, z, c.zonePages, InSpare(z)) && t.runs == s.runs
    requires t.own == Claim(s.own, z, c.zonePages, InZone(z))
    ensures PagesOk(t, c)
  {
    hide Canonical, HasPage;
    forall p: nat ensures p in t.own <==> p in s.own {
      assert z <= p < z + c.zonePages ==> p in s.own;
    }
    forall p: nat ensures HasPage(t.runs, p) <==> p in t.own && t.own[p] == Nobody {
      assert z <= p < z + c.zonePages ==> p in s.own && s.own[p] == InSpare(z);
    }
  }

  lemma OpenKeepsPlaces(s: Slab, t: Slab, z: nat, c: Config)
    requires PlacesOk(s, c) && Laid(s, z, c.zonePages, InSpare(z)) && z !in s.zones && z !in s.spare
    requires t.zones.Keys == s.zones.Keys + {z} && t.spare == s.spare && t.usage == s.usage
    requires t.own == Claim(s.own, z, c.zonePages, InZone(z))
    ensures PlacesOk(t, c)
  {
    forall y | y in t.zones ensures Laid(t, y, c.zonePages, InZone(y)) {
      if y != z {
        OtherLaid(s, t, y, InZone(y), z, c);
      }
    }
    forall y | y in t.spare ensures Laid(t, y, c.zonePages, InSpare(y)) {
      OtherLaid(s, t, y, InSpare(y), z, c);
    }
  }

  /** Re-claiming the pages of `z` leaves the pages of every other zone alone. */
  lemma OtherLaid(s: Slab, t: Slab, y: nat, o: Owner, z: nat, c: Config)
    requires Laid(s, y, c.zonePages, o) && y != z && (o == InZone(y) || o == InSpare(y))
    requires Laid(s, z, c.zonePages, InSpare(z)) || Laid(s, z, c.zonePages, InZone(z))
    requires t.usage == s.usage
    requires t.own == Claim(s.own, z, c.zonePages, InZone(z)) || t.own == Claim(s.own, z, c.zonePages, InSpare(z))
    ensures Laid(t, y, c.zonePages, o)
  {
    forall p | y <= p < y + c.zonePages
      ensures p in t.own && t.own[p] == o && p in t.usage && t.usage[p] == Small(p - y) {
      assert s.own[p] == o;
    }
  }

  lemma OpenKeepsLists(s: Slab, z: nat, n: nat, c: Config)
    requires c.Valid() && ListsOk(s) && z !in s.zones && 0 < n < c.limit
    requires 0 <= ZoneIndex(n) < |s.lists| && ChunkSize(n) > 0 && c.ZoneSize() >= FirstChunk(ChunkSize(n), c)
    ensures ListsOk(OpenZone(s, z, ZoneIndex(n), ChunkSize(n), c).0)
  {
    var i := ZoneIndex(n);
    var t := OpenZone(s, z, i, ChunkSize(n), c).0;
    FreshZoneFits(n, c);
    assert z !in s.lists[i] by { assert z in s.lists[i] <==> Listed(s, z, i); }
    ConcatDistinct([z], s.lists[i]);
    forall j, y | 0 <= j < NZONES ensures y in t.lists[j] <==> Listed(t, y, j) {
      assert y in s.lists[j] <==> Listed(s, y, j);
    }
  }

  lemma OpenKeepsZones(s: Slab, z: nat, n: nat, c: Config)
    requires c.Valid() && ZonesOk(s, c) && LiveOk(s, c) && z !in s.zones && 0 < n < c.limit
    requires 0 <= ZoneIndex(n) < |s.lists| && ChunkSize(n) > 0 && c.ZoneSize() >= FirstChunk(ChunkSize(n), c)
    ensures ZonesOk(OpenZone(s, z, ZoneIndex(n), ChunkSize(n), c).0, c)
  {
    hide FreshZone, ChunkSize, ZoneIndex;
    var t := OpenZone(s, z, ZoneIndex(n), ChunkSize(n), c).0;
    FreshZoneFits(n, c);
    FreshZoneIs(ZoneIndex(n), ChunkSize(n), c);
    ChunkIsNew(s, z, 0, c);
    forall y | y in t.zones ensures ZoneOk(t.zones[y], y, t.live, c) {
      if y != z {
        assert ZoneOk(s.zones[y], y, s.live, c);
      }
    }
  }

  lemma FreshZoneIs(i: nat, size: nat, c: Config)
    requires size > 0 && c.ZoneSize() >= FirstChunk(size, c)
    ensures var zn := FreshZone(i, size, c); zn.uindex == 0 && zn.free == [] && zn.index == i && zn.chunk == size
  {
  }

  lemma OpenKeepsLive(s: Slab, z: nat, n: nat, c: Config)
    requires c.Valid() && PagesOk(s, c) && LiveOk(s, c) && z !in s.zones && Laid(s, z, c.zonePages, InSpare(z)) && 0 < n < c.limit
    requires 0 <= ZoneIndex(n) < |s.lists| && ChunkSize(n) > 0 && c.ZoneSize() >= FirstChunk(ChunkSize(n), c)
    ensures LiveOk(OpenZone(s, z, ZoneIndex(n), ChunkSize(n), c).0, c)
  {
    hide FreshZone, ChunkSize, ZoneIndex, SameLargePages;
    var (t, r) := OpenZone(s, z, ZoneIndex(n), ChunkSize(n), c);
    FreshZoneIs(ZoneIndex(n), ChunkSize(n), c);
    ReclaimFrames(s, t, z, c.zonePages);
    forall p | p in t.live ensures PtrOk(t, p, t.live[p], c) {
      if p != r.p {
        assert PtrOk(s, p, s.live[p], c);
        if p.Big? {
          BigFrame(s, t, p, s.live[p], c, Nobody);
        }
      }
    }
  }

  lemma ReclaimFrames(s: Slab, t: Slab, z: nat, n: nat)
    requires Laid(s, z, n, InSpare(z)) || Laid(s, z, n, InZone(z))
    requires t.own == Claim(s.own, z, n, InZone(z)) || t.own == Claim(s.own, z, n, InSpare(z))
    requires t.usage == s.usage
    ensures SameLargePages(s, t, Nobody)
  {
  }

  lemma NewZoneKeepsInv(s: Slab, n: nat, c: Config)
    requires Inv(s, c) && 0 < n < c.limit
    requires 0 <= ZoneIndex(n) < |s.lists| && ChunkSize(n) > 0 && c.ZoneSize() >= FirstChunk(ChunkSize(n), c)
    ensures var (t, r) := NewZone(s, ZoneIndex(n), ChunkSize(n), c);
            && Inv(t, c)
            && (r.Null? ==> t == s)
            && (r.Got? ==> r.p !in s.live && t.live == s.live[r.p := ChunkSize(n)])
  {
    hide Sound, Laid, PlacesOk, ZoneIndex, ChunkSize;
    if s.spare != [] {
      SpareIsAside(s, c);
      OpenKeepsInv(s.(spare := s.spare[1..]), s.spare[0], n, c);
    } else {
      var (r, g) := AllocRuns(s.runs, c.zonePages);
      if g.Pages? {
        var z := g.first;
        var u := s.(runs := r, usage := Describe(s.usage, z, c.zonePages, false));
        var v := u.(own := Claim(s.own, z, c.zonePages, InSpare(z)));
        PagesAreAside(s, c);
        ClaimTwice(s.own, z, c.zonePages, InSpare(z), InZone(z));
        OpenKeepsInv(v, z, n, c);
      }
    }
  }

  lemma ClaimTwice(own: map<nat, Owner>, z: nat, n: nat, o: Owner, q: Owner)
    ensures Claim(Claim(own, z, n, o), z, n, q) == Claim(own, z, n, q)
  {
  }

  lemma SpareIsAside(s: Slab, c: Config)
    requires Sound(s, c) && s.spare != []
    ensures Aside(s.(spare := s.spare[1..]), s.spare[0], c)
  {
    hide PagesOk, ListsOk, ZonesOk, LiveOk, Sum, SameZonePages;
    var z, t := s.spare[0], s.(spare := s.spare[1..]);
    HeadTail(s.spare);
    assert Laid(s, z, c.zonePages, InSpare(z));
    assert s.own[z] == InSpare(z);
    assert z in s.zones ==> Laid(s, z, c.zonePages, InZone(z));
    PagesFrame(s, t, c);
    ListsFrame(s, t);
    ZonesFrame(s, t, c);
    LiveFrame(s, t, c);
    forall y | y in t.spare ensures Laid(t, y, c.zonePages, InSpare(y)) {
      assert Laid(s, y, c.zonePages, InSpare(y));
    }
    forall y | y in t.zones ensures Laid(t, y, c.zonePages, InZone(y)) {
      assert Laid(s, y, c.zonePages, InZone(y));
    }
  }

  lemma LiveFrame(s: Slab, t: Slab, c: Config)
    requires LiveOk(s, c) && t.live == s.live && t.zones == s.zones && SameLargePages(s, t, Nobody)
    ensures LiveOk(t, c)
  {
    hide SameLargePages;
    forall p | p in t.live ensures PtrOk(t, p, t.live[p], c) {
      assert PtrOk(s, p, s.live[p], c);
      if p.Big? {
        BigFrame(s, t, p, s.live[p], c, Nobody);
      }
    }
  }

  lemma PagesAreAside(s: Slab, c: Config)
    requires Sound(s, c) && AllocRuns(s.runs, c.zonePages).1.Pages?
    ensures var (r, g) := AllocRuns(s.runs, c.zonePages);
            var t := s.(runs := r, usage := Describe(s.usage, g.first, c.zonePages, false),
                        own := Claim(s.own, g.first, c.zonePages, InSpare(g.first)));
            Aside(t, g.first, c)
  {
    hide PagesOk, ListsOk, ZonesOk, LiveOk, PlacesOk, Sum, SameZonePages, SameLargePages;
    var (r, g) := AllocRuns(s.runs, c.zonePages);
    var z := g.first;
    var t := s.(runs := r, usage := Describe(s.usage, z, c.zonePages, false), own := Claim(s.own, z, c.zonePages, InSpare(z)));
    TakenPagesWereFree(s, c.zonePages, c);
    ClaimKeepsPages(s, c.zonePages, InSpare(z), c);
    PagesFrame(s.(runs := r, own := t.own), t, c);
    ListsFrame(s, t);
    ZonesFrame(s, t, c);
    NobodysFrames(s, t, z, c.zonePages);
    LiveFrame(s, t, c);
    PlacesFrame(s, t, c);
    NotInUse(s, z, c);
  }

  lemma NobodysFrames(s: Slab, t: Slab, z: nat, n: nat)
    requires forall p: nat :: z <= p < z + n ==> p in s.own && s.own[p] == Nobody
    requires t.own == Claim(s.own, z, n, InSpare(z)) && t.usage == Describe(s.usage, z, n, false)
    ensures SameZonePages(s, t) && SameLargePages(s, t, Nobody)
  {
  }

  lemma NotInUse(s: Slab, z: nat, c: Config)
    requires c.Valid() && PlacesOk(s, c) && z in s.own && s.own[z] == Nobody
    ensures z !in s.zones && z !in s.spare
  {
    assert z in s.zones ==> Laid(s, z, c.zonePages, InZone(z));
    assert z in s.spare ==> Laid(s, z, c.zonePages, InSpare(z));
  }
}
