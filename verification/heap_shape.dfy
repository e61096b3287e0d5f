/** What a tiled heap looks like from outside: the blocks in use determine all the others. */
module HeapShape {
  import opened Tiling

  /** The free blocks. */
  ghost function Vacant(b: seq<Blk>): set<Blk> {
    set k | k in b && !k.used
  }

  lemma SplitVacant(b: seq<Blk>, hdr: nat, end: nat, i: nat, cut: nat)
    requires Tiled(b, hdr, end) && hdr > 0 && i < |b|
    ensures Vacant(Split(b, i, cut, true)) == Vacant(b) - {b[i]} + {Blk(cut, b[i].next, false)}
  {
    forall k ensures k in Vacant(Split(b, i, cut, true)) <==> (k in Vacant(b) && k != b[i]) || k == Blk(cut, b[i].next, false) {
      SplitVacantAt(b, hdr, end, i, cut, k);
    }
  }

  lemma SplitVacantAt(b: seq<Blk>, hdr: nat, end: nat, i: nat, cut: nat, k: Blk)
    requires Tiled(b, hdr, end) && hdr > 0 && i < |b|
    ensures k in Vacant(Split(b, i, cut, true)) <==> (k in Vacant(b) && k != b[i]) || k == Blk(cut, b[i].next, false)
  {
    hide Split, Tiled;
    SplitAt(b, i, cut, true);
    var s := Split(b, i, cut, true);
    if k in s && !k.used {
      var j :| 0 <= j < |s| && s[j] == k;
      if j < i || j > i + 1 {
        var m := if j < i then j else j - 1;
        assert k == b[m];
        DistinctPlaces(b, hdr, end, m, i);
      }
    }
    if k in b && !k.used && k != b[i] {
      var j :| 0 <= j < |b| && b[j] == k;
      assert s[if j < i then j else j + 1] == k;
    }
    assert s[i + 1] in s;
  }

  lemma TakenVacant(b: seq<Blk>, hdr: nat, end: nat, i: nat)
    requires Tiled(b, hdr, end) && hdr > 0 && i < |b|
    ensures Vacant(Flag(b, i, true)) == Vacant(b) - {b[i]}
  {
    var s := Flag(b, i, true);
    forall k ensures k in Vacant(s) <==> k in Vacant(b) && k != b[i] {
      if k in s && !k.used {
        var j :| 0 <= j < |s| && s[j] == k;
        assert j != i && k == b[j];
        DistinctPlaces(b, hdr, end, i, j);
      }
      if k in b && !k.used && k != b[i] {
        var j :| 0 <= j < |b| && b[j] == k;
        assert s[j] == k;
      }
    }
  }

  lemma SameBlockAt(a: seq<Blk>, b: seq<Blk>, hdr: nat, end: nat, i: nat)
    requires Tiled(a, hdr, end) && Tiled(b, hdr, end) && hdr > 0 && Owned(a) <= Owned(b)
    requires i < |a| && i < |b| && a[i].at == b[i].at && a[i].used
    ensures a[i] == b[i]
  {
    hide Tiled;
    assert a[i] in Owned(a);
    var j :| 0 <= j < |b| && b[j] == a[i];
    if j != i {
      DistinctPlaces(b, hdr, end, i, j);
    }
  }

  /** A free block of one tiling does not end inside a free block of the other. */
  lemma NoShorterGap(a: seq<Blk>, b: seq<Blk>, hdr: nat, end: nat, i: nat)
    requires Tiled(a, hdr, end) && Tiled(b, hdr, end) && hdr > 0 && Coalesced(a) && Owned(a) <= Owned(b)
    requires i < |a| && i < |b| && a[i].at == b[i].at && !a[i].used
    ensures a[i].next >= b[i].next
  {
    OrderedAll(b, hdr, end);
    if i + 1 < |a| {
      var k := a[i + 1];
      assert a[i].next == k.at && k in Owned(a);
      var j :| 0 <= j < |b| && b[j] == k;
      assert i < j;
    }
  }

  lemma {:induction false} SameUpTo(a: seq<Blk>, b: seq<Blk>, hdr: nat, end: nat, i: nat)
    requires Tiled(a, hdr, end) && Tiled(b, hdr, end) && hdr > 0 && Coalesced(a) && Coalesced(b) && Owned(a) == Owned(b)
    requires i < |a| && i < |b|
    ensures a[i] == b[i]
  {
    hide Coalesced, Owned;
    if i > 0 {
      SameUpTo(a, b, hdr, end, i - 1);
    }
    assert a[i].at == b[i].at;
    if a[i].used {
      SameBlockAt(a, b, hdr, end, i);
    } else if b[i].used {
      SameBlockAt(b, a, hdr, end, i);
    } else {
      NoShorterGap(a, b, hdr, end, i);
      NoShorterGap(b, a, hdr, end, i);
    }
  }

  /** The blocks in use leave only one way to lay out the free ones between them. */
  lemma SameOwnedSameBlocks(a: seq<Blk>, b: seq<Blk>, hdr: nat, end: nat)
    requires Tiled(a, hdr, end) && Tiled(b, hdr, end) && hdr > 0 && Coalesced(a) && Coalesced(b) && Owned(a) == Owned(b)
    ensures a == b
  {
    var n := if |a| < |b| then |a| else |b|;
    forall i | 0 <= i < n ensures a[i] == b[i] {
      SameUpTo(a, b, hdr, end, i);
    }
    NotLonger(a, b, hdr, end);
    NotLonger(b, a, hdr, end);
  }

  lemma NotLonger(a: seq<Blk>, b: seq<Blk>, hdr: nat, end: nat)
    requires Tiled(a, hdr, end) && Tiled(b, hdr, end) && hdr > 0
    requires forall i :: 0 <= i < |a| && i < |b| ==> a[i] == b[i]
    ensures |a| <= |b|
  {
    if |a| > |b| {
      BelowEnd(a, hdr, end, |b| - 1);
    }
  }
}
