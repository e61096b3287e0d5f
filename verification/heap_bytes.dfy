/** Bytes under a tiled heap: which writes are safe, and what copying does. */
module HeapBytes {
  import opened Arithmetic
  import opened Common
  import opened Tiling

  /** What an allocator returns: the offset of a payload, or nothing. */
  datatype Ptr = Null | At(offset: nat)

  ghost predicate SameOutside(d: seq<Byte>, e: seq<Byte>, o: nat, n: nat) {
    |d| == |e| && forall a :: 0 <= a < |d| && !(o <= a < o + n) ==> d[a] == e[a]
  }

  /** Writing a header, or anything inside a free block, leaves every byte in use alone. */
  lemma HeaderWriteIsSafe(d: seq<Byte>, e: seq<Byte>, o: nat, b: seq<Blk>, hdr: nat, end: nat, k: nat)
    requires Tiled(b, hdr, end) && SameOutside(d, e, o, hdr)
    requires o >= end || (k < |b| && b[k].at == o) || (k < |b| && !b[k].used && b[k].at <= o && o + hdr <= b[k].next)
    ensures Same(d, e, b, hdr)
  {
    forall a | 0 <= a < |d| && Live(b, hdr, a) ensures d[a] == e[a] {
      if o <= a < o + hdr {
        if o >= end || b[k].at == o {
          HeadersAreDead(b, hdr, end, k, a);
        } else {
          FreeBytesAreDead(b, hdr, end, k, a);
        }
      }
    }
  }

  lemma SameRefl(d: seq<Byte>, b: seq<Blk>, hdr: nat)
    ensures Same(d, d, b, hdr)
  {
  }

  lemma SameTrans(d: seq<Byte>, e: seq<Byte>, f: seq<Byte>, b: seq<Blk>, hdr: nat)
    requires Same(d, e, b, hdr) && Same(e, f, b, hdr)
    ensures Same(d, f, b, hdr)
  {
  }

  lemma SameFewer(d: seq<Byte>, e: seq<Byte>, b: seq<Blk>, i: nat, hdr: nat)
    requires Same(d, e, b, hdr) && i < |b|
    ensures Same(d, e, Flag(b, i, false), hdr)
  {
    var f := Flag(b, i, false);
    forall a | 0 <= a < |d| && Live(f, hdr, a) ensures d[a] == e[a] {
      var j :| 0 <= j < |f| && InPayload(f[j], hdr, a);
      assert b[j] == f[j];
    }
  }

  ghost predicate Copied(d: seq<Byte>, e: seq<Byte>, src: nat, dst: nat, n: int) {
    0 <= n && src + n <= |d| && dst + n <= |e| && e[dst..dst + n] == d[src..src + n]
  }

  lemma CopiedRefl(d: seq<Byte>, p: nat, n: nat)
    requires p + n <= |d|
    ensures Copied(d, d, p, p, n)
  {
  }

  lemma CopiedLess(d: seq<Byte>, e: seq<Byte>, src: nat, dst: nat, m: int, n: int)
    requires Copied(d, e, src, dst, m) && 0 <= n <= m
    ensures Copied(d, e, src, dst, n)
  {
    assert e[dst..dst + n] == e[dst..dst + m][..n];
    assert d[src..src + n] == d[src..src + m][..n];
  }

  lemma CopyIsSafe(d: seq<Byte>, e: seq<Byte>, b: seq<Blk>, hdr: nat, end: nat, j: nat, n: nat)
    requires Tiled(b, hdr, end) && j < |b| && n <= Payload(b[j], hdr) && SameOutside(d, e, b[j].at + hdr, n)
    ensures Same(d, e, Flag(b, j, false), hdr)
  {
    var f := Flag(b, j, false);
    forall a | 0 <= a < |d| && Live(f, hdr, a) ensures d[a] == e[a] {
      var m :| 0 <= m < |f| && InPayload(f[m], hdr, a);
      if b[j].at + hdr <= a < b[j].at + hdr + n {
        PayloadsAreDisjoint(b, hdr, end, m, j, a);
      }
    }
  }

  lemma PayloadIsSame(d: seq<Byte>, e: seq<Byte>, b: seq<Blk>, i: nat, hdr: nat, n: nat)
    requires Same(d, e, b, hdr) && i < |b| && b[i].used && n <= Payload(b[i], hdr) && b[i].at + hdr + n <= |d|
    ensures Copied(d, e, b[i].at + hdr, b[i].at + hdr, n)
  {
    forall a | b[i].at + hdr <= a < b[i].at + hdr + n ensures d[a] == e[a] {
      assert InPayload(b[i], hdr, a);
    }
  }

  lemma DisjointBlocks(b: seq<Blk>, hdr: nat, end: nat, i: nat, j: nat)
    requires Tiled(b, hdr, end) && i < |b| && j < |b| && i != j
    ensures b[i].next <= b[j].at || b[j].next <= b[i].at
  {
    OrderedAll(b, hdr, end);
  }

  ghost predicate Owns(b: seq<Blk>, k: nat, hdr: nat, p: nat) {
    k < |b| && b[k].used && p == b[k].at + hdr
  }

  /* Moving a block: take a free one, copy, free the old one */

  /** `t` is `b` with free block `j` taken, whole or cut at `cut`. */
  ghost predicate Taken(b: seq<Blk>, t: seq<Blk>, j: nat, cut: nat) {
    j < |b| && !b[j].used && (t == Split(b, j, cut, true) || t == Flag(b, j, true))
  }

  /** Where block `i` stands once block `j` has been taken. */
  function MovedTo(b: seq<Blk>, t: seq<Blk>, i: nat, j: nat): nat {
    if |t| > |b| && j < i then i + 1 else i
  }

  lemma TakenIndex(b: seq<Blk>, t: seq<Blk>, j: nat, cut: nat, i: nat)
    requires Taken(b, t, j, cut) && i < |b| && b[i].used
    ensures var m := MovedTo(b, t, i, j);
            m < |t| && t[m] == b[i] && m != j && j < |t| && t[j].used && t[j].at == b[j].at
  {
    SplitAt(b, j, cut, true);
  }

  /** Third parties keep their bytes through the whole move. */
  lemma MoveKeepsOthers(d0: seq<Byte>, d1: seq<Byte>, d2: seq<Byte>, d3: seq<Byte>,
                        b: seq<Blk>, t: seq<Blk>, i: nat, j: nat, cut: nat, hdr: nat)
    requires Taken(b, t, j, cut) && i < |b| && b[i].used
    requires var m := MovedTo(b, t, i, j);
             && m < |t| && j < |t| && Same(d0, d1, b, hdr)
             && Same(d1, d2, Flag(t, j, false), hdr) && Same(d2, d3, Flag(t, m, false), hdr)
    ensures Same(d0, d3, Flag(b, i, false), hdr)
  {
    var m, f := MovedTo(b, t, i, j), Flag(b, i, false);
    TakenIndex(b, t, j, cut, i);
    forall a | 0 <= a < |d0| && Live(f, hdr, a) ensures d0[a] == d3[a] {
      var q :| 0 <= q < |f| && InPayload(f[q], hdr, a);
      assert b[q] == f[q] && q != i;
      TakenIndex(b, t, j, cut, q);
      var r := MovedTo(b, t, q, j);
      assert InPayload(Flag(t, j, false)[r], hdr, a) && InPayload(Flag(t, m, false)[r], hdr, a);
    }
  }

  /** The copied prefix survives from the old block, through the copy and the free, to the end. */
  lemma MoveCopies(d0: seq<Byte>, d1: seq<Byte>, d2: seq<Byte>, d3: seq<Byte>,
                   b: seq<Blk>, i: nat, t: seq<Blk>, m: nat, j: nat, hdr: nat, n: nat)
    requires i < |b| && m < |t| && j < |t| && m != j && b[i].used && t[m] == b[i] && t[j].used
    requires n <= Payload(b[i], hdr) && n <= Payload(t[j], hdr)
    requires Same(d0, d1, b, hdr) && Copied(d1, d2, b[i].at + hdr, t[j].at + hdr, n)
    requires Same(d2, d3, Flag(t, m, false), hdr)
    ensures Copied(d0, d3, b[i].at + hdr, t[j].at + hdr, n)
  {
    PayloadIsSame(d0, d1, b, i, hdr, n);
    PayloadIsSame(d2, d3, Flag(t, m, false), j, hdr, n);
  }
}
