/** The two rings of a memheap as pointers: block headers linked by address, free blocks hooked to each other. */
module MemHeapLinks {
  import opened HeapBytes
  import opened Sequences
  import opened Tiling

  /* The block ring */

  datatype Link = Link(used: bool, next: nat, prev: nat)

  /** The left neighbour; the first block's is the tail. */
  function Before(b: seq<Blk>, i: nat, end: nat): nat
    requires i <= |b|
  {
    if i == 0 then end else b[i - 1].at
  }

  function Offset(b: seq<Blk>, i: nat, end: nat): nat
    requires i <= |b|
  {
    if i < |b| then b[i].at else end
  }

  ghost predicate Described(link: map<nat, Link>, b: seq<Blk>, i: nat, end: nat)
    requires i < |b|
  {
    b[i].at in link && link[b[i].at] == Link(b[i].used, b[i].next, Before(b, i, end))
  }

  /** Both directions of the ring describe the blocks, through the tail and back to the first block. */
  ghost predicate Linked(link: map<nat, Link>, b: seq<Blk>, end: nat) {
    && (forall i :: 0 <= i < |b| ==> Described(link, b, i, end))
    && end in link && link[end] == Link(true, 0, Before(b, |b|, end))
  }

  function FlagLinks(link: map<nat, Link>, at: nat, used: bool): map<nat, Link>
    requires at in link
  {
    link[at := link[at].(used := used)]
  }

  function SplitLinks(link: map<nat, Link>, at: nat, cut: nat): map<nat, Link>
    requires at in link && link[at].next in link
  {
    var next := link[at].next;
    link[cut := Link(false, next, at)][next := link[next].(prev := cut)][at := link[at].(next := cut)]
  }

  function JoinLinks(link: map<nat, Link>, at: nat): map<nat, Link>
    requires at in link && link[at].next in link && link[link[at].next].next in link
  {
    var next := link[link[at].next].next;
    link[at := link[at].(next := next)][next := link[next].(prev := at)]
  }

  lemma HeaderAt(link: map<nat, Link>, b: seq<Blk>, hdr: nat, end: nat, i: nat)
    requires Tiled(b, hdr, end) && Linked(link, b, end) && i < |b|
    ensures b[i].at in link && link[b[i].at] == Link(b[i].used, b[i].next, Before(b, i, end))
    ensures b[i].next in link && b[i].next == Offset(b, i + 1, end) && b[i].at + hdr <= b[i].next <= end
    ensures end in link && link[end] == Link(true, 0, Before(b, |b|, end))
  {
    assert Described(link, b, i, end);
    assert i + 1 < |b| ==> Described(link, b, i + 1, end) && b[i].next == b[i + 1].at;
    BelowEnd(b, hdr, end, i);
  }

  lemma FlagLinked(link: map<nat, Link>, b: seq<Blk>, hdr: nat, end: nat, i: nat, used: bool)
    requires hdr > 0 && Tiled(b, hdr, end) && Linked(link, b, end) && i < |b|
    ensures b[i].at in link && Linked(FlagLinks(link, b[i].at, used), Flag(b, i, used), end)
  {
    HeaderAt(link, b, hdr, end, i);
    var s, m := Flag(b, i, used), FlagLinks(link, b[i].at, used);
    forall k | 0 <= k < |s| ensures Described(m, s, k, end) {
      assert Described(link, b, k, end);
      if k != i {
        DistinctPlaces(b, hdr, end, k, i);
      }
    }
  }

  lemma SplitDescribes(link: map<nat, Link>, b: seq<Blk>, hdr: nat, end: nat, i: nat, cut: nat, k: nat)
    requires hdr > 0 && Tiled(b, hdr, end) && Linked(link, b, end) && i < |b| && k <= |b|
    requires b[i].at + hdr <= cut && cut + hdr <= b[i].next
    requires b[i].at in link && link[b[i].at].next == b[i].next && b[i].next in link
    requires |Split(b, i, cut, b[i].used)| == |b| + 1
    ensures Described(SplitLinks(link, b[i].at, cut), Split(b, i, cut, b[i].used), k, end)
  {
    hide Tiled, Linked, Split;
    SplitAt(b, i, cut, b[i].used);
    HeaderAt(link, b, hdr, end, i);
    var s := Split(b, i, cut, b[i].used);
    if k < i {
      Ordered(b, hdr, end, k, i);
      HeaderAt(link, b, hdr, end, k);
      assert s[k] == b[k] && (k > 0 ==> s[k - 1] == b[k - 1]);
    } else if k > i + 1 {
      HeaderAt(link, b, hdr, end, k - 1);
      Ordered(b, hdr, end, i, k - 1);
      if k > i + 2 {
        HeaderAt(link, b, hdr, end, i + 1);
        Ordered(b, hdr, end, i + 1, k - 1);
      }
    }
  }

  lemma SplitLinked(link: map<nat, Link>, b: seq<Blk>, hdr: nat, end: nat, i: nat, cut: nat)
    requires hdr > 0 && Tiled(b, hdr, end) && Linked(link, b, end) && i < |b|
    requires b[i].at + hdr <= cut && cut + hdr <= b[i].next
    ensures b[i].at in link && link[b[i].at].next == b[i].next && b[i].next in link
    ensures Linked(SplitLinks(link, b[i].at, cut), Split(b, i, cut, b[i].used), end)
  {
    hide Tiled, Split;
    SplitAt(b, i, cut, b[i].used);
    HeaderAt(link, b, hdr, end, i);
    var s, m := Split(b, i, cut, b[i].used), SplitLinks(link, b[i].at, cut);
    forall k | 0 <= k < |s| ensures Described(m, s, k, end) {
      SplitDescribes(link, b, hdr, end, i, cut, k);
    }
    if i + 1 < |b| {
      HeaderAt(link, b, hdr, end, i + 1);
    }
    assert s[|s| - 1].at == if i + 1 < |b| then b[|b| - 1].at else cut;
  }

  lemma JoinDescribes(link: map<nat, Link>, b: seq<Blk>, hdr: nat, end: nat, i: nat, k: nat)
    requires hdr > 0 && Tiled(b, hdr, end) && Linked(link, b, end) && i + 1 < |b| && k < |b| - 1
    requires b[i].at in link && link[b[i].at].next == b[i + 1].at && b[i + 1].at in link
    requires link[b[i + 1].at].next == b[i + 1].next && b[i + 1].next in link
    requires |Join(b, i)| == |b| - 1
    ensures Described(JoinLinks(link, b[i].at), Join(b, i), k, end)
  {
    hide Tiled, Linked, Join;
    JoinAt(b, i);
    HeaderAt(link, b, hdr, end, i);
    HeaderAt(link, b, hdr, end, i + 1);
    var s := Join(b, i);
    if k < i {
      Ordered(b, hdr, end, k, i);
      Ordered(b, hdr, end, k, i + 1);
      HeaderAt(link, b, hdr, end, k);
      assert s[k] == b[k] && (k > 0 ==> s[k - 1] == b[k - 1]);
    } else if k > i {
      HeaderAt(link, b, hdr, end, k + 1);
      Ordered(b, hdr, end, i, k + 1);
      Ordered(b, hdr, end, i + 1, k + 1);
      if k > i + 1 {
        HeaderAt(link, b, hdr, end, i + 2);
        Ordered(b, hdr, end, i + 2, k + 1);
      }
    } else {
      assert i > 0 ==> s[i - 1] == b[i - 1];
    }
  }

  lemma JoinLinked(link: map<nat, Link>, b: seq<Blk>, hdr: nat, end: nat, i: nat)
    requires hdr > 0 && Tiled(b, hdr, end) && Linked(link, b, end) && i + 1 < |b|
    ensures b[i].at in link && link[b[i].at].next == b[i + 1].at && b[i + 1].at in link
    ensures link[b[i + 1].at].next == b[i + 1].next && b[i + 1].next in link
    ensures Linked(JoinLinks(link, b[i].at), Join(b, i), end)
  {
    hide Tiled, Join;
    JoinAt(b, i);
    HeaderAt(link, b, hdr, end, i);
    HeaderAt(link, b, hdr, end, i + 1);
    var s, m := Join(b, i), JoinLinks(link, b[i].at);
    forall k | 0 <= k < |s| ensures Described(m, s, k, end) {
      JoinDescribes(link, b, hdr, end, i, k);
    }
    if i + 2 < |b| {
      HeaderAt(link, b, hdr, end, i + 2);
    }
    assert s[|s| - 1].at == if i + 2 < |b| then b[|b| - 1].at else b[i].at;
  }

  /* The free ring */

  /** The list header inside the heap object; free blocks are named by their offsets. */
  const FREE: int := -1

  datatype Hook = Hook(next: int, prev: int)

  function Stop(f: seq<nat>, k: int): int {
    if 1 <= k <= |f| then f[k - 1] else FREE
  }

  ghost predicate Hooked(ring: map<int, Hook>, f: seq<nat>, k: int) {
    && Stop(f, k) in ring && Stop(f, k + 1) in ring
    && ring[Stop(f, k)].next == Stop(f, k + 1) && ring[Stop(f, k + 1)].prev == Stop(f, k)
  }

  /** From the list header through `f` and back, in both directions. */
  ghost predicate Ring(ring: map<int, Hook>, f: seq<nat>) {
    forall k :: 0 <= k <= |f| ==> Hooked(ring, f, k)
  }

  function Removed(ring: map<int, Hook>, x: int): map<int, Hook>
    requires x in ring && ring[x].next in ring && ring[x].prev in ring
  {
    var n, p := ring[x].next, ring[x].prev;
    var r := ring[n := ring[n].(prev := p)];
    r[p := r[p].(next := n)]
  }

  function Pushed(ring: map<int, Hook>, x: nat): map<int, Hook>
    requires FREE in ring && ring[FREE].next in ring
  {
    var n := ring[FREE].next;
    var r := ring[x := Hook(n, FREE)];
    var q := r[n := r[n].(prev := x)];
    q[FREE := q[FREE].(next := x)]
  }

  lemma StopsDiffer(f: seq<nat>, i: int, j: int)
    requires Distinct(f) && 0 <= i < j <= |f|
    ensures Stop(f, i) != Stop(f, j)
  {
  }

  lemma RemoveHooks(ring: map<int, Hook>, f: seq<nat>, j: nat, k: nat)
    requires Ring(ring, f) && Distinct(f) && j < |f| && k < |f|
    requires f[j] in ring && ring[f[j]] == Hook(Stop(f, j + 2), Stop(f, j)) && Stop(f, j + 2) in ring && Stop(f, j) in ring
    ensures Hooked(Removed(ring, f[j]), f[..j] + f[j + 1..], k)
  {
    hide Ring, Distinct;
    var g := f[..j] + f[j + 1..];
    assert Stop(g, k) == Stop(f, if k <= j then k else k + 1);
    assert Stop(g, k + 1) == Stop(f, if k < j then k + 1 else k + 2);
    if k != j {
      hide Removed;
      RemoveElsewhere(ring, f, j, if k < j then k else k + 1);
    }
  }

  lemma RingRemove(ring: map<int, Hook>, f: seq<nat>, j: nat)
    requires Ring(ring, f) && Distinct(f) && j < |f|
    ensures f[j] in ring && ring[f[j]] == Hook(Stop(f, j + 2), Stop(f, j))
    ensures ring[f[j]].next in ring && ring[f[j]].prev in ring
    ensures Ring(Removed(ring, f[j]), Without(f, f[j]))
  {
    WithoutSplit(f, j);
    assert Hooked(ring, f, j) && Hooked(ring, f, j + 1);
    var g := f[..j] + f[j + 1..];
    forall k | 0 <= k <= |g| ensures Hooked(Removed(ring, f[j]), g, k) {
      RemoveHooks(ring, f, j, k);
    }
  }

  lemma RemoveElsewhere(ring: map<int, Hook>, f: seq<nat>, j: nat, k: nat)
    requires Ring(ring, f) && Distinct(f) && j < |f| && k <= |f| && k != j && k != j + 1
    requires f[j] in ring && ring[f[j]] == Hook(Stop(f, j + 2), Stop(f, j)) && Stop(f, j + 2) in ring && Stop(f, j) in ring
    ensures Hooked(Removed(ring, f[j]), f, k)
  {
    assert Hooked(ring, f, k);
    // the two writes hit the `prev` of stop j+2 and the `next` of stop j
    if k != j {
      if k < j { StopsDiffer(f, k, j); } else { StopsDiffer(f, j, k); }
    }
    if k + 1 <= |f| && j + 2 <= |f| {
      if k + 1 < j + 2 { StopsDiffer(f, k + 1, j + 2); } else { StopsDiffer(f, j + 2, k + 1); }
    }
  }

  lemma RingPush(ring: map<int, Hook>, f: seq<nat>, x: nat)
    requires Ring(ring, f) && Distinct(f) && x !in f
    ensures FREE in ring && ring[FREE].next in ring && ring[FREE].next == Stop(f, 1)
    ensures Ring(Pushed(ring, x), [x] + f)
  {
    var g := [x] + f;
    assert Hooked(ring, f, 0);
    var r := Pushed(ring, x);
    forall k | 0 <= k <= |g| ensures Hooked(r, g, k) {
      assert k > 1 ==> Stop(g, k) == Stop(f, k - 1);
      assert k > 0 ==> Stop(g, k + 1) == Stop(f, k);
      if k > 1 {
        assert Hooked(ring, f, k - 1);
        if k - 1 <= |f| && 1 < k - 1 { StopsDiffer(f, 1, k - 1); }
        if k <= |f| { StopsDiffer(f, 1, k); }
        assert Stop(f, k - 1) != x && Stop(f, k) != x;
        StopsDiffer(f, 0, k - 1);
      }
    }
  }
}
