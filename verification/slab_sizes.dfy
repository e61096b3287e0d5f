/** Size classes of the slab allocator. */
module SlabSizes {
  const NZONES: nat := 72

  /** The size that `zoneindex` rounds a request up to. */
  function ChunkSize(n: nat): nat {
    if n < 128 then (n + 7) / 8 * 8
    else if n < 256 then (n + 15) / 16 * 16
    else if n < 512 then (n + 31) / 32 * 32
    else if n < 1024 then (n + 63) / 64 * 64
    else if n < 2048 then (n + 127) / 128 * 128
    else if n < 4096 then (n + 255) / 256 * 256
    else if n < 8192 then (n + 511) / 512 * 512
    else if n < 16384 then (n + 1023) / 1024 * 1024
    else n
  }

  /** The list number that `zoneindex` returns; 0 for what it cannot place. */
  function ZoneIndex(n: nat): int {
    var c := ChunkSize(n);
    if n < 128 then c / 8 - 1
    else if n < 256 then c / 16 + 7
    else if n < 512 then c / 32 + 15
    else if n < 1024 then c / 64 + 23
    else if n < 2048 then c / 128 + 31
    else if n < 4096 then c / 256 + 39
    else if n < 8192 then c / 512 + 47
    else if n < 16384 then c / 1024 + 55
    else 0
  }

  /** The chunk size of a list, read back from its number. */
  function SizeOfZone(i: nat): nat {
    if i < 16 then 8 * (i + 1)
    else if i < 24 then 16 * (i - 7)
    else if i < 32 then 32 * (i - 15)
    else if i < 40 then 64 * (i - 23)
    else if i < 48 then 128 * (i - 31)
    else if i < 56 then 256 * (i - 39)
    else if i < 64 then 512 * (i - 47)
    else 1024 * (i - 55)
  }

  predicate Placed(n: nat, limit: nat, zones: nat) {
    && 0 <= ZoneIndex(n) < zones && SizeOfZone(ZoneIndex(n)) == ChunkSize(n)
    && n <= ChunkSize(n) <= limit && ChunkSize(n) % 8 == 0
  }

  /**
   Neighbouring size ranges overlap at their ends, and there they agree: a list
   number stands for one chunk size and a chunk size for one list.
   */
  lemma ZonesAndSizesAgree(n: nat)
    requires 0 < n < 16384
    ensures 0 <= ZoneIndex(n) < NZONES && SizeOfZone(ZoneIndex(n)) == ChunkSize(n)
    ensures n <= ChunkSize(n) <= 16384 && ChunkSize(n) % 8 == 0
  {
    if n < 128 { Below128(n); }
    else if n < 256 { Below256(n); }
    else if n < 512 { Below512(n); }
    else if n < 1024 { Below1024(n); }
    else if n < 2048 { Below2048(n); }
    else if n < 4096 { Below4096(n); }
    else if n < 8192 { Below8192(n); }
    else { Below16384(n); }
  }

  lemma Below128(n: nat)
    requires 1 <= n < 128
    ensures Placed(n, 128, 16)
  {
  }

  lemma Below256(n: nat)
    requires 128 <= n < 256
    ensures Placed(n, 256, 24)
  {
  }

  lemma Below512(n: nat)
    requires 256 <= n < 512
    ensures Placed(n, 512, 32)
  {
  }

  lemma Below1024(n: nat)
    requires 512 <= n < 1024
    ensures Placed(n, 1024, 40)
  {
  }

  lemma Below2048(n: nat)
    requires 1024 <= n < 2048
    ensures Placed(n, 2048, 48)
  {
  }

  lemma Below4096(n: nat)
    requires 2048 <= n < 4096
    ensures Placed(n, 4096, 56)
  {
  }

  lemma Below8192(n: nat)
    requires 4096 <= n < 8192
    ensures Placed(n, 8192, 64)
  {
  }

  lemma Below16384(n: nat)
    requires 8192 <= n < 16384
    ensures Placed(n, 16384, 72)
  {
  }

  lemma SameZoneSameSize(m: nat, n: nat)
    requires 0 < m < 16384 && 0 < n < 16384
    ensures ZoneIndex(m) == ZoneIndex(n) <==> ChunkSize(m) == ChunkSize(n)
  {
    ZonesAndSizesAgree(m);
    ZonesAndSizesAgree(n);
    if ZoneIndex(m) < ZoneIndex(n) {
      SizesIncrease(ZoneIndex(m), ZoneIndex(n));
    } else if ZoneIndex(n) < ZoneIndex(m) {
      SizesIncrease(ZoneIndex(n), ZoneIndex(m));
    }
  }

  lemma SizesIncrease(i: nat, j: nat)
    requires i < j
    ensures SizeOfZone(i) < SizeOfZone(j)
  {
  }
}
