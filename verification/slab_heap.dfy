/** The slab allocator as an object: `rt_slab_alloc`, `rt_slab_free` and `rt_slab_realloc` on addresses. */
module SlabHeap {
  import opened Alignment
  import opened Arithmetic
  import opened Common
  import opened Sequences
  import opened SlabPages
  import opened SlabSizes
  import opened SlabZones
  import opened SlabFree
  import opened SlabAddresses
  import opened SlabBytes
  import HeapBytes

  /** The address a result stands for. */
  ghost predicate Stands(s: Slab, r: Result, addr: int, c: Config) {
    match r
    case Null => addr == NULL
    case Got(p) => p in s.live && (p.Chunk? ==> p.zone in s.zones) && addr == Address(s, p, c)
  }

  /** Blocks live in both states lie at the same place. */
  ghost predicate Stable(s: Slab, t: Slab) {
    forall z :: z in s.zones && z in t.zones ==> t.zones[z].off == s.zones[z].off && t.zones[z].chunk == s.zones[z].chunk
  }

  lemma AllocIsStable(s: Slab, n: nat, c: Config)
    requires Inv(s, c)
    ensures Stable(s, Alloc(s, n, c).0)
  {
    hide PagesOk, ZonesOk, LiveOk, StatsOk, FreshZone, PlacesOk, Laid, ZoneIndex, ChunkSize, AllocRuns, FirstChunk;
    if 0 < n < c.limit {
      FreshZoneFits(n, c);
      if s.lists[ZoneIndex(n)] != [] {
        FreeChunkExists(s, ZoneIndex(n), c);
      } else if s.spare != [] {
        SpareIsAside(s, c);
      } else if AllocRuns(s.runs, c.zonePages).1.Pages? {
        PagesAreAside(s, c);
      }
    }
  }

  lemma FreeIsStable(s: Slab, p: Ptr, c: Config)
    requires Inv(s, c) && p in s.live
    ensures Stable(s, Free(s, p, c))
  {
    hide PagesOk, ZonesOk, LiveOk, StatsOk, PlacesOk, FreeRuns, Without;
    if p.Chunk? {
      ChunkIs(s, p.zone, p.number, c);
    }
  }

  /** A block that keeps its place keeps its bytes where they were. */
  lemma SameBlock(s: Slab, t: Slab, q: Ptr, b: nat, c: Config)
    requires Stable(s, t) && InBlock(s, q, b, c) && q in t.live && t.live[q] == s.live[q] && Sound(t, c)
    ensures InBlock(t, q, b, c)
  {
    hide PagesOk, PlacesOk, ListsOk, StatsOk, Bytes;
    if q.Chunk? {
      ChunkIs(t, q.zone, q.number, c);
    }
  }

  lemma BlockInMemory(s: Slab, p: Ptr, b: nat, c: Config)
    requires Sound(s, c) && InBlock(s, p, b, c)
    ensures b < Bytes(c.npages, c)
  {
    hide PlacesOk, ListsOk, StatsOk, ZonesOk, LiveOk, Canonical, HasPage, InBlock, Bytes;
    OwnerOfByte(s, p, b, c);
    PageWithin(b, c);
  }

  lemma PageWithin(b: nat, c: Config)
    requires c.page > 0 && b / c.page < c.npages
    ensures b < Bytes(c.npages, c)
  {
    var q := b / c.page;
    assert b == q * c.page + b % c.page;
    Times(q + 1, c.npages, c.page);
  }

  lemma BlockFits(s: Slab, p: Ptr, addr: int, c: Config)
    requires Sound(s, c) && p in s.live && Stands(s, Got(p), addr, c) && s.live[p] > 0
    ensures 0 <= addr && addr + s.live[p] <= Bytes(c.npages, c)
  {
    hide Sound, Bytes;
    BlockInMemory(s, p, addr + s.live[p] - 1, c);
  }

  lemma BlocksApart(s: Slab, p: Ptr, q: Ptr, a: int, b: int, c: Config)
    requires Sound(s, c) && p != q && Stands(s, Got(p), a, c) && Stands(s, Got(q), b, c) && s.live[p] > 0 && s.live[q] > 0
    ensures a + s.live[p] <= b || b + s.live[q] <= a
  {
    hide Sound, Bytes;
    var x := if a < b then b else a;
    if x < a + s.live[p] && x < b + s.live[q] {
      LiveBlocksDisjoint(s, p, q, x, c);
    }
  }

  lemma StillStands(s: Slab, t: Slab, p: Ptr, addr: int, c: Config)
    requires Sound(t, c) && Stable(s, t) && Stands(s, Got(p), addr, c) && p in t.live && t.live[p] == s.live[p]
    ensures Stands(t, Got(p), addr, c)
  {
    hide PagesOk, PlacesOk, StatsOk, Bytes;
    if p.Chunk? {
      ChunkIs(t, p.zone, p.number, c);
    }
  }

  /* What other blocks see of an operation */

  /** Every live block other than `except` is still live, at the same place, with the same bytes. */
  ghost predicate Spared(s: Slab, was: seq<Byte>, t: Slab, now: seq<Byte>, except: Result, c: Config) {
    |was| == |now| && forall r, b: nat :: Got(r) != except && InBlock(s, r, b, c) ==> KeptAt(t, was, now, r, b, c)
  }

  ghost predicate KeptAt(t: Slab, was: seq<Byte>, now: seq<Byte>, r: Ptr, b: nat, c: Config) {
    InBlock(t, r, b, c) && b < |was| && b < |now| && now[b] == was[b]
  }

  /** Writes that keep the live bytes before the step, followed by writes that keep those after it. */
  lemma KeepsSpares(s: Slab, d: seq<Byte>, m: Slab, e: seq<Byte>, t: Slab, f: seq<Byte>, except: Result, c: Config)
    requires Sound(s, c) && Sound(m, c) && Sound(t, c) && |d| == Bytes(c.npages, c)
    requires Stable(s, m) && Stable(s, t) && Keeps(m, d, e, c) && Keeps(t, e, f, c)
    requires forall r :: r in s.live && Got(r) != except ==>
               r in m.live && m.live[r] == s.live[r] && r in t.live && t.live[r] == s.live[r]
    ensures Spared(s, d, t, f, except, c)
  {
    hide Sound, Bytes, Stable, InBlock;
    forall r, b: nat | Got(r) != except && InBlock(s, r, b, c) ensures KeptAt(t, d, f, r, b, c) {
      InBlockIsLive(s, r, b, c);
      SameBlock(s, m, r, b, c);
      SameBlock(s, t, r, b, c);
      BlockInMemory(s, r, b, c);
    }
  }

  lemma InBlockIsLive(s: Slab, r: Ptr, b: nat, c: Config)
    requires InBlock(s, r, b, c)
    ensures r in s.live
  {
  }

  lemma SelfStable(s: Slab)
    ensures Stable(s, s)
  {
  }

  lemma SparedAll(s: Slab, d: seq<Byte>, t: Slab, e: seq<Byte>, c: Config)
    requires Sound(s, c) && Sound(t, c) && |d| == Bytes(c.npages, c) && Stable(s, t) && Keeps(s, d, e, c)
    requires forall r :: r in s.live ==> r in t.live && t.live[r] == s.live[r]
    ensures Spared(s, d, t, e, Null, c)
  {
    hide Sound, Bytes, Stable, InBlock;
    forall r, b: nat | InBlock(s, r, b, c) ensures KeptAt(t, d, e, r, b, c) {
      InBlockIsLive(s, r, b, c);
      SameBlock(s, t, r, b, c);
      BlockInMemory(s, r, b, c);
    }
  }

  class Allocator {
    const c: Config
    const pages: PageList
    const mem: array<Byte>
    var lists: seq<seq<nat>>
    var spare: seq<nat>
    var zones: map<nat, Zone>
    var usage: map<nat, Usage>
    var used: int
    var max: int
    ghost var own: map<nat, Owner>
    ghost var live: map<Ptr, nat>

    ghost function State(): Slab
      reads this, pages
    {
      Slab(pages.runs, lists, spare, zones, usage, own, live, used, max)
    }

    /** The page list works on the same memory, and the descriptor table stands. */
    ghost predicate Wired()
      reads this, pages
    {
      && pages.Valid() && pages.mem == mem && pages.page == c.page && pages.size == 2 * c.word && pages.npages == c.npages
      && mem.Length == Bytes(c.npages, c) && c.page >= USAGE && c.Valid() && TableOk(State(), c)
    }

    ghost predicate Valid()
      reads this, pages
    {
      Wired() && Inv(State(), c)
    }

    /** `rt_slab_init`, over memory made of whole pages. */
    constructor (page: nat, hdr: nat, word: nat, npages: nat)
      requires npages > 0 && page >= USAGE && 0 < word <= 8 && 2 * word <= page && 0 < hdr && 4 * hdr <= MIN_ZONE
      requires IsAligned(MIN_ZONE, page)
      ensures Valid() && fresh(pages) && fresh(mem)
      ensures c.page == page && c.hdr == hdr && c.word == word && c.npages == npages
      ensures Chosen(c.ZoneSize(), npages * page) && c.limit == LimitFor(c.ZoneSize())
      ensures State() == Fresh(c)
    {
      hide Inv, Describe, Claim, TableOk;
      var zone := ZoneSizeFor(npages * page);
      var config := Config(page, zone / page, LimitFor(zone), hdr, word, npages);
      ConfigIsValid(config, zone);
      TableFits(config);
      TableIsFirst(config);
      var bytes := new Byte[Bytes(npages, config)];
      var list := new PageList(bytes, page, 2 * word, npages);
      var g := list.Alloc(TablePages(config));
      c, mem, pages := config, bytes, list;
      lists, spare, zones := seq(NZONES, i => []), [], map[];
      usage := Describe(map[], 0, npages, true);
      used, max := 0, 0;
      own, live := Claim(Claim(map[], 0, npages, Nobody), 0, TablePages(config), InTable), map[];
      new;
      FreshIsGood(config);
      FreshTable(config);
    }

    /** Writes some record of the allocator's own. */
    method Scribble(o: nat, n: nat)
      requires o + n <= mem.Length
      modifies mem
      ensures HeapBytes.SameOutside(old(mem[..]), mem[..], o, n)
    {
      for k := 0 to n
        invariant HeapBytes.SameOutside(old(mem[..]), mem[..], o, n)
      {
        mem[o + k] := 0;
      }
    }

    /** Writes a page descriptor. */
    method SetUsage(p: nat, v: Usage, ghost s: Slab)
      requires Wired() && p < c.npages && Sound(s, c) && TableOk(s, c)
      modifies `usage, mem
      ensures usage == old(usage)[p := v] && Keeps(s, old(mem[..]), mem[..], c)
      ensures Wired()
    {
      hide Sound, Keeps, TableOk;
      usage := usage[p := v];
      UsageFits(p, c);
      Scribble(USAGE * p, USAGE);
      UsageKeeps(s, old(mem[..]), mem[..], p, c);
      TableFrame(old(State()), State(), c);
    }

    /** The running totals after handing out `size` bytes. */
    method Account(size: nat, ghost p: Ptr)
      modifies `used, `max, `live
      ensures State() == Charge(old(State()), p, size)
    {
      used := used + size;
      if used > max {
        max := used;
      }
      live := live[p := size];
    }

    method TakeLarge(n: nat) returns (addr: int, ghost r: Result)
      requires Valid() && n >= c.limit
      modifies this, pages, mem
      ensures Valid() && (State(), r) == AllocLarge(old(State()), n, c) && Stands(State(), r, addr, c)
      ensures Keeps(old(State()), old(mem[..]), mem[..], c) && (r.Null? ==> mem[..] == old(mem[..]))
    {
      hide Sound, AllocRuns, Keeps, TableOk, OnlyOn;
      ghost var s, d := State(), mem[..];
      AllocLargeKeepsInv(s, n, c);
      LargeIsAlloc(s, n, c);
      AllocKeepsTable(s, n, c);
      var k := PagesFor(n, c);
      var g := pages.Alloc(k);
      NodesKeep(s, d, mem[..], c);
      if g.NoPages? {
        Refused(s.runs, k);
        addr, r := NULL, Null;
        return;
      }
      LargeFirst(s, k, c);
      TableFrame(s, State(), c);
      ghost var e := mem[..];
      SetUsage(g.first, LargeRun(k), s);
      KeepsTrans(s, d, e, mem[..], c);
      own := Claim(own, g.first, k, InLarge(g.first));
      Account(Bytes(k, c), Big(g.first, k));
      addr, r := Bytes(g.first, c), Got(Big(g.first, k));
    }

    method WriteHeader(z: nat, ghost s: Slab)
      requires Wired() && Sound(s, c) && Zoned(s, z)
      modifies mem
      ensures Wired() && Keeps(s, old(mem[..]), mem[..], c)
    {
      hide Sound, Keeps, TableOk;
      ZonePages(s, z, c);
      HeaderInZone(s, c);
      Scribble(Bytes(z, c), c.hdr);
      HeaderKeeps(s, old(mem[..]), mem[..], z, c);
    }

    method TakeChunk(i: nat) returns (addr: int, ghost r: Result)
      requires Valid() && CanGive(State(), i)
      modifies this, mem
      ensures Valid() && (State(), r) == FromZone(old(State()), i) && r.Got? && Stands(State(), r, addr, c)
      ensures Keeps(old(State()), old(mem[..]), mem[..], c)
    {
      hide Sound, Keeps, TableOk, Canonical, Strung, Config.Valid, Bytes, Zone.At;
      ghost var s := State();
      FromZoneKeepsInv(s, i, c);
      var z := lists[i][0];
      var zn := zones[z];
      WriteHeader(z, s);
      zn := zn.(nfree := zn.nfree - 1);
      if zn.nfree == 0 {
        lists := lists[i := lists[i][1..]];
      }
      var k;
      if zn.uindex + 1 != zn.nmax {
        k := zn.uindex + 1;
        zn := zn.(uindex := k);
      } else {
        k := zn.free[0];
        zn := zn.(free := zn.free[1..]);
      }
      zones := zones[z := zn];
      Account(zn.chunk, Chunk(z, k));
      assert State() == FromZone(s, i).0;
      TableFrame(s, State(), c);
      addr, r := Bytes(z, c) + zn.At(k), Got(Chunk(z, k));
    }

    /** The descriptors of a zone's pages, counting up from it or cleared. */
    method DescribePages(z: nat, n: nat, clear: bool, ghost s: Slab)
      requires Wired() && z + n <= c.npages && Sound(s, c) && TableOk(s, c)
      modifies `usage, mem
      ensures Wired() && usage == Describe(old(usage), z, n, clear) && Keeps(s, old(mem[..]), mem[..], c)
    {
      hide Sound, Keeps, TableOk, Canonical, Strung, InRange, Config.Valid, Bytes;
      var off := 0;
      KeepsRefl(s, mem[..], c);
      while off < n
        invariant off <= n && usage == Describe(old(usage), z, off, clear)
        invariant Wired() && Keeps(s, old(mem[..]), mem[..], c)
      {
        ghost var e := mem[..];
        SetUsage(z + off, if clear then Unset else Small(off), s);
        KeepsTrans(s, old(mem[..]), e, mem[..], c);
        off := off + 1;
      }
    }

    /** A zone header over described pages, its first chunk handed out. */
    method SetUp(z: nat, i: nat, size: nat) returns (addr: int, ghost r: Result)
      requires i < |lists| && size > 0 && c.ZoneSize() >= FirstChunk(size, c)
      modifies this
      ensures (State(), r) == OpenZone(old(State()), z, i, size, c)
      ensures r.Got? && Stands(State(), r, addr, c)
    {
      hide FirstChunk;
      var zn := FreshZone(i, size, c);
      zones := zones[z := zn];
      lists := lists[i := [z] + lists[i]];
      own := Claim(own, z, c.zonePages, InZone(z));
      Account(size, Chunk(z, 0));
      addr, r := Bytes(z, c) + zn.At(0), Got(Chunk(z, 0));
    }

    /** A zone's pages, from the reserve or from the page list, with its header cleared. */
    method FindZone() returns (g: Grant)
      requires Valid()
      modifies this, pages, mem
      ensures Wired() && Keeps(old(State()), old(mem[..]), mem[..], c)
      ensures g.NoPages? ==> State() == old(State()) && mem[..] == old(mem[..])
      ensures var s := old(State());
              if s.spare != [] then g == Pages(s.spare[0]) && State() == s.(spare := s.spare[1..])
              else
                var (u, h) := AllocRuns(s.runs, c.zonePages);
                g == h && (g.Pages? ==> State() == s.(runs := u, usage := Describe(s.usage, g.first, c.zonePages, false)))
    {
      hide Sound, Keeps, TableOk, AllocRuns, Describe, OnlyOn;
      ghost var s, d := State(), mem[..];
      if spare != [] {
        var z := spare[0];
        WriteHeader(z, s);
        spare := spare[1..];
        TableFrame(s, State(), c);
        return Pages(z);
      }
      g := pages.Alloc(c.zonePages);
      NodesKeep(s, d, mem[..], c);
      if g.NoPages? {
        Refused(s.runs, c.zonePages);
        return;
      }
      LargeFirst(s, c.zonePages, c);
      TableFrame(s, State(), c);
      ghost var e := mem[..];
      DescribePages(g.first, c.zonePages, false, s);
      KeepsTrans(s, d, e, mem[..], c);
      e := mem[..];
      HeaderInZone(s, c);
      Scribble(Bytes(g.first, c), c.hdr);
      NewHeaderKeeps(s, e, mem[..], g.first, c);
      KeepsTrans(s, d, e, mem[..], c);
    }

    method TakeNewZone(n: nat) returns (addr: int, ghost r: Result)
      requires Valid() && 0 < n < c.limit && 0 <= ZoneIndex(n) < |lists| && lists[ZoneIndex(n)] == []
      requires ChunkSize(n) > 0 && c.ZoneSize() >= FirstChunk(ChunkSize(n), c)
      modifies this, pages, mem
      ensures Valid() && (State(), r) == NewZone(old(State()), ZoneIndex(n), ChunkSize(n), c) && Stands(State(), r, addr, c)
      ensures Keeps(old(State()), old(mem[..]), mem[..], c) && (r.Null? ==> mem[..] == old(mem[..]))
    {
      hide Sound, Keeps, TableOk, AllocRuns, Describe, ZoneIndex, ChunkSize, FirstChunk, OpenZone;
      ghost var s := State();
      NewZoneKeepsInv(s, n, c);
      NewZoneIsAlloc(s, n, c);
      AllocKeepsTable(s, n, c);
      var g := FindZone();
      if g.NoPages? {
        addr, r := NULL, Null;
        return;
      }
      addr, r := SetUp(g.first, ZoneIndex(n), ChunkSize(n));
    }

    /** `rt_slab_alloc`: no live byte is written, and a refusal writes nothing. */
    method Alloc(n: nat) returns (addr: int, ghost r: Result)
      requires Valid()
      modifies this, pages, mem
      ensures Valid() && (State(), r) == SlabFree.Alloc(old(State()), n, c) && Stands(State(), r, addr, c)
      ensures Spared(old(State()), old(mem[..]), State(), mem[..], Null, c)
      ensures r.Null? ==> mem[..] == old(mem[..])
    {
      hide PagesOk, PlacesOk, ZonesOk, LiveOk, StatsOk, ZoneIndex, ChunkSize, FirstChunk, Keeps, TableOk, Spared, Stable, Stands, InBlock, Bytes;
      ghost var s, d := State(), mem[..];
      KeepsRefl(s, d, c);
      AllocIsStable(s, n, c);
      AllocGrows(s, n, c);
      if n == 0 {
        NullStands(s, c);
        addr, r := NULL, Null;
      } else if n >= c.limit {
        addr, r := TakeLarge(n);
      } else {
        FreshZoneFits(n, c);
        var i := ZoneIndex(n);
        if lists[i] != [] {
          FreeChunkExists(State(), i, c);
          addr, r := TakeChunk(i);
        } else {
          addr, r := TakeNewZone(n);
        }
      }
      SparedAll(s, d, State(), mem[..], c);
    }

    method GiveLarge(first: nat, k: nat)
      requires Valid() && Big(first, k) in live
      modifies this, pages, mem
      ensures Valid() && State() == FreeLarge(old(State()), first, k, c)
      ensures Spared(old(State()), old(mem[..]), State(), mem[..], Got(Big(first, k)), c)
    {
      hide Sound, FreeRuns, Canonical, Apart, Keeps, TableOk, Spared, Stable, OnlyOn, Claim;
      ghost var s, d, p := State(), mem[..], Big(first, k);
      FreeLargeKeepsInv(s, first, k, c);
      FreeKeepsTable(s, p, c);
      FreeIsStable(s, p, c);
      RunIsApart(s, first, k, c);
      SetUsage(first, LargeRun(0), s);
      ghost var e := mem[..];
      used := used - Bytes(k, c);
      live, own := live - {p}, Claim(own, first, k, Nobody);
      pages.Free(first, k);
      NodesKeep(State(), e, mem[..], c);
      SelfStable(s);
      KeepsSpares(s, d, s, e, State(), mem[..], Got(p), c);
    }

    /** The chunk goes on its zone's list, and the zone back among those with free chunks. */
    method PutChunk(z: nat, k: nat)
      requires Valid() && Chunk(z, k) in live && z in zones && zones[z].index < |lists|
      modifies this, mem
      ensures Wired() && State() == FreeChunk(old(State()), z, k) && Sound(State(), c)
      ensures Keeps(State(), old(mem[..]), mem[..], c)
    {
      hide Sound, Keeps, TableOk;
      ghost var s, d := State(), mem[..];
      FreeChunkKeepsSound(s, z, k, c);
      ChunkFits(s, z, k, c);
      var zn := zones[z];
      Scribble(Bytes(z, c) + zn.At(k), c.word);
      ghost var e := mem[..];
      if zn.nfree == 0 {
        lists := lists[zn.index := [z] + lists[zn.index]];
      }
      zones := zones[z := zn.(free := [k] + zn.free, nfree := zn.nfree + 1)];
      used := used - zn.chunk;
      live := live - {Chunk(z, k)};
      TableFrame(s, State(), c);
      LinkKeeps(State(), d, e, z, k, c);
      WriteHeader(z, State());
      KeepsTrans(State(), d, e, mem[..], c);
    }

    /** Takes `z` off its list, through the link that leads to it. */
    method Unlink(i: nat, z: nat, ghost s: Slab)
      requires Wired() && i < |lists| && z in lists[i] && Distinct(lists[i])
      requires Sound(s, c) && forall y :: y in lists[i] ==> y in s.zones
      modifies `lists, mem
      ensures Wired() && lists == old(lists)[i := Without(old(lists)[i], z)] && Keeps(s, old(mem[..]), mem[..], c)
    {
      hide Sound, Keeps, TableOk, Without;
      ghost var d := mem[..];
      ghost var k :| 0 <= k < |lists[i]| && lists[i][k] == z;
      var j := 0;
      while lists[i][j] != z
        invariant j <= k && lists == old(lists)
        decreases k - j
      {
        j := j + 1;
      }
      WithoutSplit(lists[i], j);
      KeepsRefl(s, d, c);
      if j > 0 {
        WriteHeader(lists[i][j - 1], s);
      }
      TableFrame(State(), State().(lists := lists[i := lists[i][..j] + lists[i][j + 1..]]), c);
      lists := lists[i := lists[i][..j] + lists[i][j + 1..]];
    }

    /** The latest zone in reserve goes back to the pages. */
    method ReleaseZone()
      requires Wired() && Sound(State(), c) && spare != [] && TableOk(ReleaseSpare(State(), c), c)
      modifies this, pages, mem
      ensures Wired() && State() == ReleaseSpare(old(State()), c) && Sound(State(), c)
      ensures exists e :: Keeps(old(State()), old(mem[..]), e, c) && Keeps(State(), e, mem[..], c)
    {
      hide Sound, FreeRuns, Canonical, Apart, Keeps, TableOk, OnlyOn, Claim, Describe;
      ghost var s := State();
      SpareIsApart(s, c);
      ReleaseKeepsSound(s, c);
      var z := spare[0];
      spare := spare[1..];
      TableFrame(s, State(), c);
      DescribePages(z, c.zonePages, true, s);
      ghost var e := mem[..];
      own := Claim(own, z, c.zonePages, Nobody);
      pages.Free(z, c.zonePages);
      NodesKeep(State(), e, mem[..], c);
    }

    /** An empty zone leaves its list for the reserve, or pushes another one out to the pages. */
    method RetireZone(z: nat)
      requires Wired() && Sound(State(), c) && Empty(State(), z) && z in lists[zones[z].index] && |spare| <= SPARE_MAX
      modifies this, pages, mem
      ensures Wired() && Sound(State(), c)
      ensures State() == (var u := Retire(old(State()), z, c); if |u.spare| > SPARE_MAX then ReleaseSpare(u, c) else u)
      ensures exists e :: Keeps(old(State()), old(mem[..]), e, c) && Keeps(State(), e, mem[..], c)
    {
      hide Sound, Without, Keeps, TableOk, Claim, ReleaseSpare;
      ghost var t, d := State(), mem[..];
      RetireKeepsSound(t, z, c);
      RetireKeepsTable(t, z, c);
      ListHolds(t, zones[z].index, c);
      Unlink(zones[z].index, z, t);
      ghost var e := mem[..];
      WriteHeader(z, t);
      KeepsTrans(t, d, e, mem[..], c);
      zones, spare := zones - {z}, [z] + spare;
      own := Claim(own, z, c.zonePages, InSpare(z));
      ghost var u, f := State(), mem[..];
      assert u == Retire(t, z, c);
      KeepsRefl(u, f, c);
      if |spare| > SPARE_MAX {
        ReleaseZone();
        ghost var g :| Keeps(u, f, g, c) && Keeps(State(), g, mem[..], c);
        KeepsSame(t, u, f, g, z, c);
        KeepsTrans(t, d, f, g, c);
      }
    }

    method GiveChunk(z: nat, k: nat)
      requires Valid() && Chunk(z, k) in live && z in zones && zones[z].index < |lists|
      modifies this, pages, mem
      ensures Valid() && State() == FreeSmall(old(State()), z, k, c)
      ensures Spared(old(State()), old(mem[..]), State(), mem[..], Got(Chunk(z, k)), c)
    {
      hide Sound, Keeps, TableOk, Claim, ReleaseSpare, Retire, Spared, Stable, FreeChunk, Without;
      ghost var s, d, p := State(), mem[..], Chunk(z, k);
      FreeSmallKeepsInv(s, z, k, c);
      FreeKeepsTable(s, p, c);
      FreeIsStable(s, p, c);
      FreeChunkStable(s, z, k);
      FreeChunkFrame(s, z, k);
      PutChunk(z, k);
      ghost var t, m := State(), mem[..];
      KeepsRefl(t, m, c);
      ghost var e := m;
      var zn := zones[z];
      if zn.nfree == zn.nmax && |lists[zn.index]| > 1 {
        EmptyIsListed(t, z, c);
        RetireZone(z);
        e :| Keeps(t, m, e, c) && Keeps(State(), e, mem[..], c);
      }
      KeepsTrans(t, d, m, e, c);
      KeepsSpares(s, d, t, e, State(), mem[..], Got(p), c);
    }

    /** `rt_slab_free`: the bytes of every other block are kept. */
    method Free(addr: int, ghost r: Result)
      requires Valid() && Stands(State(), r, addr, c)
      modifies this, pages, mem
      ensures Valid() && State() == if r.Null? then old(State()) else SlabFree.Free(old(State()), r.p, c)
      ensures r.Null? ==> mem[..] == old(mem[..])
      ensures r.Got? ==> Spared(old(State()), old(mem[..]), State(), mem[..], r, c)
    {
      hide Sound, Keeps, TableOk, Spared, FreeLarge, FreeSmall, Bytes, Zone.At, Zone.NumberAt;
      if addr == NULL {
        assert r.Null?;
        return;
      }
      ghost var p := r.p;
      PointerLeadsHome(State(), p, c);
      var page := addr / c.page;
      match usage[page]
      case LargeRun(k) => GiveLarge(page, k);
      case Small(offset) =>
        var z := page - offset;
        ZoneOfLive(State(), z, p.number, c);
        GiveChunk(z, zones[z].NumberAt(addr - Bytes(z, c)));
      case Unset => assert false;
    }

    /** `rt_memcpy` between blocks that do not overlap. */
    method CopyBytes(to: nat, from: nat, n: nat)
      requires to + n <= mem.Length && from + n <= mem.Length && (to + n <= from || from + n <= to)
      modifies mem
      ensures HeapBytes.Copied(old(mem[..]), mem[..], from, to, n) && HeapBytes.SameOutside(old(mem[..]), mem[..], to, n)
    {
      for i := 0 to n
        invariant HeapBytes.Copied(old(mem[..]), mem[..], from, to, i)
        invariant HeapBytes.SameOutside(old(mem[..]), mem[..], to, n)
      {
        mem[to + i] := mem[from + i];
        assert mem[to..to + i + 1] == mem[to..to + i] + [mem[to + i]];
      }
    }

    /** `rt_slab_realloc` */
    method Realloc(addr: int, ghost r: Result, n: nat) returns (to: int, ghost q: Result)
      requires Valid() && Stands(State(), r, addr, c)
      modifies this, pages, mem
      ensures Valid() && (State(), q) == SlabFree.Realloc(old(State()), r, n, c) && Stands(State(), q, to, c)
      ensures Spared(old(State()), old(mem[..]), State(), mem[..], r, c)
      ensures q.Null? && !(r.Got? && n == 0) ==> mem[..] == old(mem[..])
      ensures r.Got? && q.Got? ==> Carried(old(State()), old(mem[..]), mem[..], r.p, addr, to, n)
    {
      hide Sound, Keeps, TableOk, Spared, Stable, SlabFree.Alloc, SlabFree.Free, InBlock, Carried;
      if addr == NULL {
        to, q := Alloc(n);
        return;
      }
      if n == 0 {
        NullStands(State(), c);
        Free(addr, r);
        to, q := NULL, Null;
        return;
      }
      to, q := Resize(addr, r.p, n);
    }

    /** Another block of a size for `n` bytes, unless the block is a chunk of that size already. */
    method Resize(addr: int, ghost p: Ptr, n: nat) returns (to: int, ghost q: Result)
      requires Valid() && Stands(State(), Got(p), addr, c) && addr != NULL && n > 0
      modifies this, pages, mem
      ensures Valid() && (State(), q) == SlabFree.Realloc(old(State()), Got(p), n, c) && Stands(State(), q, to, c)
      ensures Spared(old(State()), old(mem[..]), State(), mem[..], Got(p), c)
      ensures q.Null? ==> mem[..] == old(mem[..])
      ensures q.Got? ==> Carried(old(State()), old(mem[..]), mem[..], p, addr, to, n)
    {
      hide Sound, Keeps, TableOk, Spared, Stable, SlabFree.Alloc, SlabFree.Free, InBlock, Carried, ChunkSize, Zone.At, Zone.NumberAt, Bytes;
      ghost var s, d := State(), mem[..];
      PointerLeadsHome(s, p, c);
      SizeOfBlock(s, p, c);
      ChunkRoundsUp(n);
      var page := addr / c.page;
      var size, was;
      match usage[page] {
        case LargeRun(k) => size, was := n, Bytes(k, c);
        case Small(offset) =>
          size, was := ChunkSize(n), zones[page - offset].chunk;
          if was == size {
            to, q := addr, Got(p);
            StaysInPlace(s, d, p, addr, n, c);
            return;
          }
        case Unset => assert false;
      }
      to, q := Move(addr, p, size, if size > was then was else size);
      if to != NULL {
        CarriedLess(s, d, mem[..], p, addr, to, size, n);
      }
    }

    /** A block of `m` bytes, the first `keep` bytes of the old block in it, the old block released. */
    method Move(addr: int, ghost p: Ptr, m: nat, keep: nat) returns (to: int, ghost q: Result)
      requires Valid() && Stands(State(), Got(p), addr, c) && addr != NULL && 0 < m && live[p] > 0
      requires keep == if m > live[p] then live[p] else m
      modifies this, pages, mem
      ensures Valid() && Stands(State(), q, to, c) && (to == NULL <==> q.Null?)
      ensures var (t, g) := SlabFree.Alloc(old(State()), m, c);
              g == q && Inv(t, c) && if g.Null? then State() == old(State()) else p in t.live && State() == SlabFree.Free(t, p, c)
      ensures Spared(old(State()), old(mem[..]), State(), mem[..], Got(p), c)
      ensures q.Null? ==> mem[..] == old(mem[..])
      ensures q.Got? ==> Carried(old(State()), old(mem[..]), mem[..], p, addr, to, m)
    {
      hide Sound, Keeps, TableOk, Spared, Stable, SlabFree.Alloc, SlabFree.Free, InBlock, Carried, Exhausted;
      ghost var s, d := State(), mem[..];
      AllocKeepsInv(s, m, c);
      AllocIsStable(s, m, c);
      to, q := Alloc(m);
      ghost var t, e := State(), mem[..];
      if to == NULL {
        SelfSpared(s, d, Got(p), c);
        return;
      }
      SizeOfBlock(t, q.p, c);
      StillStands(s, t, p, addr, c);
      ghost var f := Transfer(addr, p, to, q.p, keep);
      MoveSpares(s, d, t, e, f, State(), mem[..], p, q.p, addr, to, keep, c);
      CarriedIs(s, d, mem[..], p, addr, to, m, keep);
    }

    method Transfer(addr: int, ghost p: Ptr, to: int, ghost q: Ptr, keep: nat) returns (ghost f: seq<Byte>)
      requires Valid() && Stands(State(), Got(p), addr, c) && Stands(State(), Got(q), to, c) && p != q
      requires 0 < keep <= live[p] && keep <= live[q] && addr != NULL
      modifies this, pages, mem
      ensures Valid() && State() == SlabFree.Free(old(State()), p, c) && Stands(State(), Got(q), to, c)
      ensures addr >= 0 && to >= 0 && HeapBytes.Copied(old(mem[..]), f, addr, to, keep) && HeapBytes.SameOutside(old(mem[..]), f, to, keep)
      ensures Spared(old(State()), f, State(), mem[..], Got(p), c)
    {
      hide Sound, Bytes, SlabFree.Free, Keeps, TableOk, Spared, Stable, InBlock;
      ghost var t := State();
      BlockFits(t, p, addr, c);
      BlockFits(t, q, to, c);
      BlocksApart(t, p, q, addr, to, c);
      CopyBytes(to, addr, keep);
      f := mem[..];
      FreeKeepsInv(t, p, c);
      FreeIsStable(t, p, c);
      Free(addr, Got(p));
      StillStands(t, State(), q, to, c);
    }
  }

  /** The first bytes of the old block, as many as both sizes allow, are now at `to`. */
  ghost predicate Carried(s: Slab, was: seq<Byte>, now: seq<Byte>, p: Ptr, from: int, to: int, n: nat) {
    from >= 0 && to >= 0 && p in s.live && HeapBytes.Copied(was, now, from, to, Min(s.live[p], n))
  }

  lemma CarriedIs(s: Slab, was: seq<Byte>, now: seq<Byte>, p: Ptr, from: int, to: int, m: nat, keep: nat)
    requires from >= 0 && to >= 0 && p in s.live && HeapBytes.Copied(was, now, from, to, keep)
    requires keep == if m > s.live[p] then s.live[p] else m
    ensures Carried(s, was, now, p, from, to, m)
  {
  }

  lemma CarriedLess(s: Slab, was: seq<Byte>, now: seq<Byte>, p: Ptr, from: int, to: int, m: nat, n: nat)
    requires Carried(s, was, now, p, from, to, m) && n <= m
    ensures Carried(s, was, now, p, from, to, n)
  {
    HeapBytes.CopiedLess(was, now, from, to, Min(s.live[p], m), Min(s.live[p], n));
  }

  lemma SelfSpared(s: Slab, d: seq<Byte>, except: Result, c: Config)
    requires Sound(s, c) && |d| == Bytes(c.npages, c)
    ensures Spared(s, d, s, d, except, c)
  {
    hide Sound, InBlock, Bytes;
    forall r, b: nat | Got(r) != except && InBlock(s, r, b, c) ensures KeptAt(s, d, d, r, b, c) {
      BlockInMemory(s, r, b, c);
    }
  }

  lemma StaysInPlace(s: Slab, d: seq<Byte>, p: Ptr, addr: int, n: nat, c: Config)
    requires Sound(s, c) && Stands(s, Got(p), addr, c) && |d| == Bytes(c.npages, c) && s.live[p] > 0
    ensures Spared(s, d, s, d, Got(p), c) && Carried(s, d, d, p, addr, addr, n)
  {
    hide Sound, Bytes, Spared;
    BlockFits(s, p, addr, c);
    SelfSpared(s, d, Got(p), c);
    HeapBytes.CopiedRefl(d, addr, Min(s.live[p], n));
  }

  /** Allocate, copy, release: the others are spared all along, and the copy outlives the release. */
  lemma MoveSpares(s: Slab, d: seq<Byte>, t: Slab, e: seq<Byte>, f: seq<Byte>, u: Slab, g: seq<Byte>,
                   p: Ptr, q: Ptr, addr: int, to: int, keep: nat, c: Config)
    requires Sound(s, c) && Sound(t, c) && q !in s.live && p in s.live && keep <= s.live[p]
    requires Spared(s, d, t, e, Null, c) && Spared(t, f, u, g, Got(p), c)
    requires Stands(s, Got(p), addr, c) && Stands(t, Got(q), to, c) && keep <= t.live[q] && addr >= 0 && to >= 0
    requires HeapBytes.Copied(e, f, addr, to, keep) && HeapBytes.SameOutside(e, f, to, keep)
    ensures Spared(s, d, u, g, Got(p), c)
    ensures HeapBytes.Copied(d, g, addr, to, keep)
  {
    hide Sound, InBlock, Address;
    forall r, b: nat | r != p && InBlock(s, r, b, c) ensures KeptAt(u, d, g, r, b, c) {
      InBlockIsLive(s, r, b, c);
      assert KeptAt(t, d, e, r, b, c);
      if to <= b < to + keep {
        InBlockAt(t, q, to, b, c);
        LiveBlocksDisjoint(t, r, q, b, c);
      }
      assert KeptAt(u, f, g, r, b, c);
    }
    var x, y := g[to..to + keep], d[addr..addr + keep];
    forall i | 0 <= i < keep ensures x[i] == y[i] {
      InBlockAt(s, p, addr, addr + i, c);
      assert KeptAt(t, d, e, p, addr + i, c);
      InBlockAt(t, q, to, to + i, c);
      assert KeptAt(u, f, g, q, to + i, c);
      assert f[to..to + keep][i] == e[addr..addr + keep][i];
    }
  }

  lemma InBlockAt(s: Slab, p: Ptr, addr: int, b: nat, c: Config)
    requires Stands(s, Got(p), addr, c) && addr <= b < addr + s.live[p]
    ensures InBlock(s, p, b, c)
  {
  }

  lemma SizeOfBlock(s: Slab, p: Ptr, c: Config)
    requires Sound(s, c) && p in s.live
    ensures s.live[p] > 0
    ensures p.Chunk? ==> p.zone in s.zones && s.live[p] == s.zones[p.zone].chunk
    ensures p.Big? ==> s.live[p] == Bytes(p.count, c)
  {
    hide PagesOk, PlacesOk, StatsOk;
    match p
    case Chunk(z, k) => ChunkIs(s, z, k, c);
    case Big(first, k) => LargeIs(s, first, k, c); Times(1, k, c.page);
  }

  /* Set-up */

  /** `ZALLOC_MIN_ZONE_SIZE`, `ZALLOC_MAX_ZONE_SIZE` and `ZALLOC_ZONE_LIMIT` */
  const MIN_ZONE: nat := 32768
  const MAX_ZONE: nat := 131072
  const ZONE_LIMIT: nat := 16384

  /** The zone size grows with the memory: no larger than it may be, and no smaller than it could be. */
  predicate Chosen(zone: nat, bytes: nat) {
    && zone in {MIN_ZONE, 2 * MIN_ZONE, MAX_ZONE}
    && (zone > MIN_ZONE ==> zone < bytes / 1024)
    && (zone < MAX_ZONE ==> 2 * zone >= bytes / 1024)
  }

  method ZoneSizeFor(bytes: nat) returns (zone: nat)
    ensures Chosen(zone, bytes)
  {
    zone := MIN_ZONE;
    while zone < MAX_ZONE && 2 * zone < bytes / 1024
      invariant zone in {MIN_ZONE, 2 * MIN_ZONE, MAX_ZONE} && (zone > MIN_ZONE ==> zone < bytes / 1024)
      decreases MAX_ZONE - zone
    {
      zone := 2 * zone;
    }
  }

  function LimitFor(zone: nat): nat {
    if zone / 4 > ZONE_LIMIT then ZONE_LIMIT else zone / 4
  }

  lemma ConfigIsValid(c: Config, zone: nat)
    requires zone in {MIN_ZONE, 2 * MIN_ZONE, MAX_ZONE} && IsAligned(MIN_ZONE, c.page) && c.zonePages == zone / c.page
    requires c.limit == LimitFor(zone) && 0 < c.word <= 8 && 2 * c.word <= c.page && 0 < c.hdr && 4 * c.hdr <= MIN_ZONE
    ensures c.Valid() && c.ZoneSize() == zone
  {
    var q := MIN_ZONE / c.page;
    assert MIN_ZONE == q * c.page;
    var m := zone / MIN_ZONE;
    assert zone == m * MIN_ZONE;
    assert zone == (m * q) * c.page;
    Exact(m * q, c.page, zone);
  }

  lemma UsageFits(p: nat, c: Config)
    requires p < c.npages && c.page >= USAGE
    ensures USAGE * p + USAGE <= Bytes(c.npages, c)
  {
    Times(USAGE, c.page, c.npages);
  }

  lemma TableFrame(s: Slab, t: Slab, c: Config)
    requires c.page > 0 && TableOk(s, c) && t.own == s.own
    ensures TableOk(t, c)
  {
    hide TablePages;
  }

  lemma Refused(r: seq<SlabPages.Run>, n: nat)
    requires AllocRuns(r, n).1.NoPages?
    ensures AllocRuns(r, n).0 == r
  {
  }

  lemma LargeIsAlloc(s: Slab, n: nat, c: Config)
    requires Inv(s, c) && n >= c.limit
    ensures Alloc(s, n, c) == AllocLarge(s, n, c)
  {
    hide PagesOk, PlacesOk, ListsOk, ZonesOk, LiveOk, StatsOk, AllocLarge;
  }

  lemma NewZoneIsAlloc(s: Slab, n: nat, c: Config)
    requires Inv(s, c) && 0 < n < c.limit && 0 <= ZoneIndex(n) < |s.lists| && s.lists[ZoneIndex(n)] == []
    requires ChunkSize(n) > 0 && c.ZoneSize() >= FirstChunk(ChunkSize(n), c)
    ensures Alloc(s, n, c) == NewZone(s, ZoneIndex(n), ChunkSize(n), c)
  {
    hide PagesOk, PlacesOk, ZonesOk, LiveOk, StatsOk, NewZone, ZoneIndex, ChunkSize, FirstChunk;
  }

  /** The pages of a grant were nobody's, and there are that many. */
  lemma LargeFirst(s: Slab, k: nat, c: Config)
    requires Sound(s, c) && AllocRuns(s.runs, k).1.Pages?
    ensures var z := AllocRuns(s.runs, k).1.first;
            && z < c.npages && z + k <= c.npages && Bytes(z, c) + Bytes(k, c) <= Bytes(c.npages, c)
            && forall p: nat :: z <= p < z + k ==> p in s.own && s.own[p] == Nobody
  {
    hide PlacesOk, ListsOk, ZonesOk, LiveOk, StatsOk, Canonical, HasPage, AllocRuns, Bytes;
    var z := AllocRuns(s.runs, k).1.first;
    TakenPagesWereFree(s, k, c);
    assert z + k - 1 in s.own;
    BytesEnd(z, k, c.npages, c);
  }

  lemma HeaderInZone(s: Slab, c: Config)
    requires Sound(s, c)
    ensures c.hdr <= c.ZoneSize() == Bytes(c.zonePages, c)
  {
  }

  lemma AllocGrows(s: Slab, n: nat, c: Config)
    requires Inv(s, c)
    ensures var t := Alloc(s, n, c).0; Inv(t, c) && forall r :: r in s.live ==> r in t.live && t.live[r] == s.live[r]
  {
    hide Sound, Alloc;
    AllocKeepsInv(s, n, c);
  }

  lemma NullStands(s: Slab, c: Config)
    ensures Stands(s, Null, NULL, c)
  {
  }

  lemma RunIsApart(s: Slab, first: nat, k: nat, c: Config)
    requires Inv(s, c) && Big(first, k) in s.live
    ensures k > 0 && Apart(s.runs, first, k) && first + k <= c.npages
  {
    hide Canonical, HasPage, PlacesOk, ListsOk, ZonesOk, StatsOk, Bytes;
    LargeIs(s, first, k, c);
    assert s.own[first + k - 1] == InLarge(first);
  }

  lemma ChunkFits(s: Slab, z: nat, k: nat, c: Config)
    requires Sound(s, c) && Chunk(z, k) in s.live
    ensures z in s.zones && k < s.zones[z].nmax && c.word <= s.zones[z].chunk
    ensures Bytes(z, c) + s.zones[z].At(k) + c.word <= Bytes(c.npages, c)
  {
    hide PagesOk, PlacesOk, StatsOk, Bytes, Zone.At;
    ChunkIs(s, z, k, c);
    var zn := s.zones[z];
    ChunkEnds(zn, k, zn.nmax);
    ZonePages(s, z, c);
  }

  lemma SpareIsApart(s: Slab, c: Config)
    requires Sound(s, c) && s.spare != []
    ensures c.zonePages > 0 && Apart(s.runs, s.spare[0], c.zonePages) && s.spare[0] + c.zonePages <= c.npages
  {
    hide Canonical, HasPage, ListsOk, ZonesOk, LiveOk, StatsOk;
    assert Laid(s, s.spare[0], c.zonePages, InSpare(s.spare[0]));
    ZonePages(s, s.spare[0], c);
  }

  /** A zone that has just become empty is on the list of its class. */
  lemma EmptyIsListed(s: Slab, z: nat, c: Config)
    requires Sound(s, c) && z in s.zones && s.zones[z].nfree == s.zones[z].nmax
    ensures Empty(s, z) && z in s.lists[s.zones[z].index] && Distinct(s.lists[s.zones[z].index])
  {
    hide PagesOk, PlacesOk, LiveOk, StatsOk;
    EmptyZone(s, z, c);
    assert ZoneOk(s.zones[z], z, s.live, c);
    assert Listed(s, z, s.zones[z].index);
  }

  lemma ListHolds(s: Slab, i: nat, c: Config)
    requires Sound(s, c) && i < |s.lists|
    ensures Distinct(s.lists[i]) && forall y :: y in s.lists[i] ==> y in s.zones
  {
    hide PagesOk, PlacesOk, ZonesOk, LiveOk, StatsOk;
    assert forall y :: y in s.lists[i] ==> Listed(s, y, i);
  }

  lemma FreeChunkStable(s: Slab, z: nat, k: nat)
    requires z in s.zones && s.zones[z].index < |s.lists|
    ensures Stable(s, FreeChunk(s, z, k))
    ensures FreeChunk(s, z, k).live == s.live - {Chunk(z, k)} && FreeChunk(s, z, k).spare == s.spare
  {
  }

  /** Retiring an empty zone moves no live byte. */
  lemma KeepsSame(t: Slab, u: Slab, d: seq<Byte>, e: seq<Byte>, z: nat, c: Config)
    requires Empty(t, z) && u == Retire(t, z, c) && Keeps(u, d, e, c)
    ensures Keeps(t, d, e, c)
  {
    hide Without, Claim, Bytes, Zone.At;
    forall r, b: nat | InBlock(t, r, b, c) && b < |d| ensures d[b] == e[b] {
      assert InBlock(u, r, b, c);
    }
  }
}
