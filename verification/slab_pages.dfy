/**
 The page allocator under the slab: a list of runs of free pages, threaded
 through the first page of each run, split from the front on allocation and
 merged with its neighbours on release.
 */
module SlabPages {
  import opened Arithmetic
  import opened Common


  datatype Run = Run(start: nat, len: nat) {
    function End(): nat { start + len }
  }

  /** Sorted, disjoint, and with a gap between any two runs. */
  ghost predicate Canonical(r: seq<Run>) {
    && (forall i :: 0 <= i < |r| ==> r[i].len > 0)
    && (forall i, j :: 0 <= i < j < |r| ==> r[i].End() < r[j].start)
  }

  predicate Covers(k: Run, p: nat) {
    k.start <= p < k.End()
  }

  ghost predicate HasPage(r: seq<Run>, p: nat) {
    exists i :: 0 <= i < |r| && Covers(r[i], p)
  }

  /** First run with at least `n` pages, or the number of runs. */
  function FirstFit(r: seq<Run>, n: nat): (k: nat)
    ensures k <= |r| && (k < |r| ==> r[k].len >= n) && forall i :: 0 <= i < k ==> r[i].len < n
  {
    if r == [] || r[0].len >= n then 0
    else
      assert forall i :: 0 < i < |r| ==> r[i] == r[1..][i - 1];
      1 + FirstFit(r[1..], n)
  }

  function Carved(r: seq<Run>, k: nat, n: nat): seq<Run>
    requires k < |r| && n <= r[k].len
  {
    r[..k] + (if r[k].len > n then [Run(r[k].start + n, r[k].len - n)] else []) + r[k + 1..]
  }

  datatype Grant = NoPages | Pages(first: nat)

  function AllocRuns(r: seq<Run>, n: nat): (seq<Run>, Grant) {
    var k := FirstFit(r, n);
    if n == 0 || k == |r| then (r, NoPages) else (Carved(r, k, n), Pages(r[k].start))
  }

  /** Where the released pages belong: the run that ends at them, or the first run behind them. */
  function Slot(r: seq<Run>, a: nat, n: nat): (k: nat)
    ensures k <= |r| && (k < |r| ==> r[k].End() == a || r[k].start >= a + n)
    ensures forall i :: 0 <= i < k ==> r[i].End() != a && r[i].start < a + n
  {
    if r == [] || r[0].End() == a || r[0].start >= a + n then 0
    else
      assert forall i :: 0 < i < |r| ==> r[i] == r[1..][i - 1];
      1 + Slot(r[1..], a, n)
  }

  /** Runs `k` to `m` give way to `x`. */
  function Splice(r: seq<Run>, k: nat, x: Run, m: nat): seq<Run>
    requires k <= m <= |r|
  {
    r[..k] + [x] + r[m..]
  }

  function FreeRuns(r: seq<Run>, a: nat, n: nat): seq<Run> {
    var k := Slot(r, a, n);
    if k < |r| && r[k].End() == a then
      if k + 1 < |r| && a + n == r[k + 1].start then
        Splice(r, k, Run(r[k].start, r[k].len + n + r[k + 1].len), k + 2)
      else
        Splice(r, k, Run(r[k].start, r[k].len + n), k + 1)
    else if k < |r| && r[k].start == a + n then
      Splice(r, k, Run(a, n + r[k].len), k + 1)
    else
      Splice(r, k, Run(a, n), k)
  }

  ghost predicate Apart(r: seq<Run>, a: nat, n: nat) {
    forall p: nat :: a <= p < a + n ==> !HasPage(r, p)
  }

  /* Splicing */

  lemma SpliceAt(r: seq<Run>, k: nat, x: Run, m: nat)
    requires k <= m <= |r|
    ensures var s := Splice(r, k, x, m);
            && |s| == k + 1 + |r| - m
            && forall i {:trigger s[i]} :: 0 <= i < |s| ==>
                 s[i] == if i < k then r[i] else if i == k then x else r[i - k - 1 + m]
  {
  }

  lemma SpliceCanonical(r: seq<Run>, k: nat, x: Run, m: nat)
    requires Canonical(r) && k <= m <= |r| && x.len > 0
    requires (k > 0 ==> r[k - 1].End() < x.start) && (m < |r| ==> x.End() < r[m].start)
    ensures Canonical(Splice(r, k, x, m))
  {
    SpliceAt(r, k, x, m);
  }

  lemma SplicePages(r: seq<Run>, k: nat, x: Run, m: nat, p: nat)
    requires k <= m <= |r|
    ensures HasPage(Splice(r, k, x, m), p) <==> Covers(x, p) || HasPage(r[..k], p) || HasPage(r[m..], p)
  {
    SpliceAt(r, k, x, m);
    var s := Splice(r, k, x, m);
    if HasPage(s, p) {
      var i :| 0 <= i < |s| && Covers(s[i], p);
      assert i < k ==> r[..k][i] == s[i];
      assert i > k ==> r[m..][i - k - 1] == s[i];
    }
    if HasPage(r[..k], p) {
      var i :| 0 <= i < k && Covers(r[..k][i], p);
      assert s[i] == r[i];
    }
    if HasPage(r[m..], p) {
      var i :| 0 <= i < |r[m..]| && Covers(r[m..][i], p);
      assert s[i + k + 1] == r[m..][i];
    }
    assert s[k] == x;
  }

  lemma PagesSplit(r: seq<Run>, k: nat, p: nat)
    requires k <= |r|
    ensures HasPage(r, p) <==> HasPage(r[..k], p) || HasPage(r[k..], p)
  {
    if HasPage(r, p) {
      var i :| 0 <= i < |r| && Covers(r[i], p);
      assert i < k ==> r[..k][i] == r[i];
      assert i >= k ==> r[k..][i - k] == r[i];
    }
  }

  lemma FirstPages(r: seq<Run>, p: nat)
    requires r != []
    ensures HasPage(r, p) <==> Covers(r[0], p) || HasPage(r[1..], p)
  {
    PagesSplit(r, 1, p);
    assert HasPage(r[..1], p) <==> Covers(r[0], p) by {
      assert r[..1][0] == r[0];
    }
  }

  /* Allocation */

  lemma CarvedCanonical(r: seq<Run>, k: nat, n: nat)
    requires Canonical(r) && k < |r| && 0 < n <= r[k].len
    ensures Canonical(Carved(r, k, n))
  {
    var s := Carved(r, k, n);
    if r[k].len == n {
      assert forall i :: 0 <= i < |s| ==> s[i] == r[if i < k then i else i + 1];
    } else {
      var x := Run(r[k].start + n, r[k].len - n);
      assert s == Splice(r, k, x, k + 1);
      SpliceCanonical(r, k, x, k + 1);
    }
  }

  lemma CarvedPages(r: seq<Run>, k: nat, n: nat, p: nat)
    requires Canonical(r) && k < |r| && 0 < n <= r[k].len
    ensures HasPage(Carved(r, k, n), p) <==> HasPage(r, p) && !(r[k].start <= p < r[k].start + n)
  {
    var s := Carved(r, k, n);
    var x := Run(r[k].start + n, r[k].len - n);
    PagesSplit(r, k, p);
    FirstPages(r[k..], p);
    assert r[k..][1..] == r[k + 1..];
    if Covers(r[k], p) {
      OnlyOneCovers(r, k, p);
    }
    if r[k].len == n {
      PagesSplit(s, k, p);
      assert s[..k] == r[..k] && s[k..] == r[k + 1..];
    } else {
      assert s == Splice(r, k, x, k + 1);
      SplicePages(r, k, x, k + 1, p);
    }
  }

  lemma OnlyOneCovers(r: seq<Run>, k: nat, p: nat)
    requires Canonical(r) && k < |r| && Covers(r[k], p)
    ensures !HasPage(r[..k], p) && !HasPage(r[k + 1..], p)
  {
    forall i | 0 <= i < k ensures !Covers(r[..k][i], p) {
      assert r[..k][i] == r[i];
    }
    var tail := r[k + 1..];
    forall i | 0 <= i < |tail| ensures !Covers(tail[i], p) {
      assert tail[i] == r[k + 1 + i];
    }
  }

  /** What an allocation takes was free, and it takes exactly that. */
  lemma AllocTakes(r: seq<Run>, n: nat)
    requires Canonical(r)
    ensures var (s, g) := AllocRuns(r, n);
            && Canonical(s)
            && (g.NoPages? <==> n == 0 || forall i :: 0 <= i < |r| ==> r[i].len < n)
            && (g.NoPages? ==> s == r)
            && (g.Pages? ==> forall p: nat :: HasPage(s, p) <==> HasPage(r, p) && !(g.first <= p < g.first + n))
            && (g.Pages? ==> forall p: nat :: g.first <= p < g.first + n ==> HasPage(r, p))
  {
    var k := FirstFit(r, n);
    if n > 0 && k < |r| {
      CarvedCanonical(r, k, n);
      forall p: nat ensures HasPage(Carved(r, k, n), p) <==> HasPage(r, p) && !(r[k].start <= p < r[k].start + n) {
        CarvedPages(r, k, n, p);
      }
      forall p: nat | r[k].start <= p < r[k].start + n ensures HasPage(r, p) {
        assert Covers(r[k], p);
      }
    }
  }

  /* Release */

  lemma ApartRuns(r: seq<Run>, a: nat, n: nat, i: nat)
    requires Canonical(r) && n > 0 && Apart(r, a, n) && i < |r|
    ensures r[i].End() <= a || a + n <= r[i].start
  {
    var p := if r[i].start < a then a else r[i].start;
    assert Covers(r[i], p) ==> HasPage(r, p);
  }

  lemma ApartAll(r: seq<Run>, a: nat, n: nat)
    requires Canonical(r) && n > 0 && Apart(r, a, n)
    ensures forall i :: 0 <= i < Slot(r, a, n) ==> r[i].End() < a
    ensures forall i :: Slot(r, a, n) <= i < |r| ==> r[i].End() == a || a + n <= r[i].start
  {
    hide Apart, HasPage;
    forall i | 0 <= i < |r| ensures r[i].End() <= a || a + n <= r[i].start {
      ApartRuns(r, a, n, i);
    }
  }

  lemma FreeCanonical(r: seq<Run>, a: nat, n: nat)
    requires Canonical(r) && n > 0 && Apart(r, a, n)
    ensures Canonical(FreeRuns(r, a, n))
  {
    hide Splice;
    ApartAll(r, a, n);
    var k := Slot(r, a, n);
    if k < |r| && r[k].End() == a {
      if k + 1 < |r| && a + n == r[k + 1].start {
        SpliceCanonical(r, k, Run(r[k].start, r[k].len + n + r[k + 1].len), k + 2);
      } else {
        SpliceCanonical(r, k, Run(r[k].start, r[k].len + n), k + 1);
      }
    } else if k < |r| && r[k].start == a + n {
      SpliceCanonical(r, k, Run(a, n + r[k].len), k + 1);
    } else {
      SpliceCanonical(r, k, Run(a, n), k);
    }
  }

  lemma FreePages(r: seq<Run>, a: nat, n: nat, p: nat)
    requires Canonical(r) && n > 0 && Apart(r, a, n)
    ensures HasPage(FreeRuns(r, a, n), p) <==> HasPage(r, p) || a <= p < a + n
  {
    hide Splice, HasPage, Canonical, Apart;
    var k := Slot(r, a, n);
    PagesSplit(r, k, p);
    if k < |r| {
      FirstPages(r[k..], p);
      assert r[k..][1..] == r[k + 1..];
    }
    if k < |r| && r[k].End() == a {
      if k + 1 < |r| && a + n == r[k + 1].start {
        FirstPages(r[k + 1..], p);
        assert r[k + 1..][1..] == r[k + 2..];
        SplicePages(r, k, Run(r[k].start, r[k].len + n + r[k + 1].len), k + 2, p);
      } else {
        SplicePages(r, k, Run(r[k].start, r[k].len + n), k + 1, p);
      }
    } else if k < |r| && r[k].start == a + n {
      SplicePages(r, k, Run(a, n + r[k].len), k + 1, p);
    } else {
      SplicePages(r, k, Run(a, n), k, p);
    }
  }

  /* The list is determined by the set of free pages */

  lemma TailPages(r: seq<Run>, p: nat)
    requires Canonical(r) && r != []
    ensures HasPage(r[1..], p) <==> HasPage(r, p) && p >= r[0].End()
  {
    FirstPages(r, p);
    forall i | 0 <= i < |r[1..]| ensures r[1..][i].start > r[0].End() {
      assert r[1..][i] == r[i + 1];
    }
  }

  lemma FirstRun(r: seq<Run>)
    requires Canonical(r) && r != []
    ensures HasPage(r, r[0].start) && !HasPage(r, r[0].End())
    ensures forall p: nat :: HasPage(r, p) ==> p >= r[0].start
    ensures forall p: nat :: r[0].start <= p < r[0].End() ==> HasPage(r, p)
  {
    assert Covers(r[0], r[0].start);
    forall p: nat | r[0].start <= p < r[0].End() ensures HasPage(r, p) {
      assert Covers(r[0], p);
    }
  }

  lemma {:induction false} SamePagesSameList(r: seq<Run>, s: seq<Run>)
    requires Canonical(r) && Canonical(s)
    requires forall p: nat :: HasPage(r, p) <==> HasPage(s, p)
    ensures r == s
    decreases |r|
  {
    if r != [] { FirstRun(r); }
    if s != [] { FirstRun(s); }
    if r != [] && s != [] {
      assert r[0].start == s[0].start && r[0].len == s[0].len;
      forall p: nat ensures HasPage(r[1..], p) <==> HasPage(s[1..], p) {
        TailPages(r, p);
        TailPages(s, p);
      }
      SamePagesSameList(r[1..], s[1..]);
      assert r == [r[0]] + r[1..] && s == [s[0]] + s[1..];
    }
  }

  /** Allocating pages and giving them back restores exactly the same list. */
  lemma AllocThenFree(r: seq<Run>, n: nat)
    requires Canonical(r) && AllocRuns(r, n).1.Pages?
    ensures FreeRuns(AllocRuns(r, n).0, AllocRuns(r, n).1.first, n) == r
  {
    AllocTakes(r, n);
    var (s, g) := AllocRuns(r, n);
    FreeCanonical(s, g.first, n);
    forall p: nat ensures HasPage(FreeRuns(s, g.first, n), p) <==> HasPage(r, p) {
      FreePages(s, g.first, n, p);
    }
    SamePagesSameList(FreeRuns(s, g.first, n), r);
  }

  /* The list in memory */

  const NULL: int := -1

  datatype Node = Node(next: int, pages: nat)

  function StartOf(r: seq<Run>, i: int): int {
    if 0 <= i < |r| then r[i].start else NULL
  }

  ghost predicate NodeAt(node: map<nat, Node>, r: seq<Run>, i: nat)
    requires i < |r|
  {
    r[i].start in node && node[r[i].start] == Node(StartOf(r, i + 1), r[i].len)
  }

  ghost predicate Strung(node: map<nat, Node>, r: seq<Run>, head: int) {
    head == StartOf(r, 0) && forall i :: 0 <= i < |r| ==> NodeAt(node, r, i)
  }

  /** Redirecting the link that leads to run `k`, wherever it is kept. */
  function Redirect(node: map<nat, Node>, prev: int, v: int): map<nat, Node>
    requires prev == NULL || (prev >= 0 && prev in node)
  {
    if prev == NULL then node else node[prev := node[prev].(next := v)]
  }

  lemma SpliceStrung(node: map<nat, Node>, r: seq<Run>, head: int, k: nat, x: Run, m: nat)
    requires Strung(node, r, head) && k <= m <= |r| && Canonical(Splice(r, k, x, m)) && Canonical(r)
    ensures var n := node[x.start := Node(StartOf(r, m), x.len)];
            && (StartOf(r, k - 1) != NULL ==> StartOf(r, k - 1) >= 0 && StartOf(r, k - 1) in n)
            && Strung(Redirect(n, StartOf(r, k - 1), x.start), Splice(r, k, x, m), if k == 0 then x.start else head)
  {
    SpliceAt(r, k, x, m);
    var s, n := Splice(r, k, x, m), node[x.start := Node(StartOf(r, m), x.len)];
    if k > 0 {
      assert NodeAt(node, r, k - 1) && s[k - 1] == r[k - 1];
    }
    var t := Redirect(n, StartOf(r, k - 1), x.start);
    forall i | 0 <= i < |s| ensures NodeAt(t, s, i) {
      if i < k {
        assert NodeAt(node, r, i) && s[i] == r[i] && s[i].End() < s[k].start;
        assert i + 1 < k ==> s[i + 1] == r[i + 1] && s[i].End() < s[k - 1].start;
      } else if i > k {
        assert NodeAt(node, r, i - k - 1 + m) && s[k].End() < s[i].start;
        assert k > 0 ==> s[k - 1].End() < s[i].start;
        assert i + 1 < |s| ==> s[i + 1] == r[i - k + m];
      } else {
        assert i + 1 < |s| ==> s[i + 1] == r[m];
        assert k > 0 ==> s[k - 1].End() < s[k].start;
      }
    }
  }

  lemma RemoveStrung(node: map<nat, Node>, r: seq<Run>, head: int, k: nat)
    requires Strung(node, r, head) && k < |r| && Canonical(r)
    ensures (StartOf(r, k - 1) != NULL ==> StartOf(r, k - 1) >= 0 && StartOf(r, k - 1) in node)
    ensures Strung(Redirect(node, StartOf(r, k - 1), StartOf(r, k + 1)), r[..k] + r[k + 1..],
                   if k == 0 then StartOf(r, 1) else head)
  {
    var s := r[..k] + r[k + 1..];
    assert forall i {:trigger s[i]} :: 0 <= i < |s| ==> s[i] == if i < k then r[i] else r[i + 1];
    if k > 0 {
      assert NodeAt(node, r, k - 1);
    }
    var t := Redirect(node, StartOf(r, k - 1), StartOf(r, k + 1));
    forall i | 0 <= i < |s| ensures NodeAt(t, s, i) {
      if i < k {
        assert NodeAt(node, r, i);
        assert i + 1 < k ==> s[i + 1] == r[i + 1] && r[i].End() < r[k - 1].start;
        assert i + 1 == k && i + 1 < |s| ==> s[i + 1] == r[k + 1];
      } else {
        assert NodeAt(node, r, i + 1);
        assert k > 0 ==> r[k - 1].End() < r[i + 1].start;
        assert i + 1 < |s| ==> s[i + 1] == r[i + 2];
      }
    }
  }

  /* Bytes */

  /** Only bytes of page `p` differ. */
  ghost predicate OnlyPage(d: seq<Byte>, e: seq<Byte>, p: nat, page: nat)
    requires page > 0
  {
    |d| == |e| && forall x :: 0 <= x < |d| && x / page != p ==> d[x] == e[x]
  }

  /** Only bytes on the pages of `r` differ. */
  ghost predicate OnlyOn(d: seq<Byte>, e: seq<Byte>, r: seq<Run>, page: nat)
    requires page > 0
  {
    |d| == |e| && forall x :: 0 <= x < |d| && d[x] != e[x] ==> HasPage(r, x / page)
  }

  ghost predicate InRange(r: seq<Run>, n: nat) {
    forall i :: 0 <= i < |r| ==> r[i].End() <= n
  }

  lemma OnlyPageOn(d: seq<Byte>, e: seq<Byte>, p: nat, r: seq<Run>, page: nat, i: nat)
    requires page > 0 && OnlyPage(d, e, p, page) && i < |r| && Covers(r[i], p)
    ensures OnlyOn(d, e, r, page)
  {
    assert HasPage(r, p);
  }

  lemma OnlyOnTrans(d: seq<Byte>, e: seq<Byte>, f: seq<Byte>, r: seq<Run>, page: nat)
    requires page > 0 && OnlyOn(d, e, r, page) && OnlyOn(e, f, r, page)
    ensures OnlyOn(d, f, r, page)
  {
  }

  lemma OnlyOnRefl(d: seq<Byte>, r: seq<Run>, page: nat)
    requires page > 0
    ensures OnlyOn(d, d, r, page)
  {
  }

  lemma PageEnds(p: nat, n: nat, page: nat)
    requires p < n
    ensures p * page + page <= n * page
  {
    Times(p + 1, n, page);
  }

  lemma PageOfByte(x: nat, p: nat, page: nat)
    requires page > 0 && p * page <= x < p * page + page
    ensures x / page == p
  {
    DivModIs(x, page, p, x - p * page);
  }

  /** The free pages, strung together through their own first bytes: `size` of them hold a node. */
  class PageList {
    const mem: array<Byte>
    const page: nat
    const size: nat
    const npages: nat
    var head: int
    var node: map<nat, Node>
    ghost var runs: seq<Run>

    ghost predicate Fixed()
      reads this
    {
      0 < size <= page && mem.Length == npages * page
    }

    ghost predicate Valid()
      reads this
    {
      Fixed() && Canonical(runs) && Strung(node, runs, head) && InRange(runs, npages)
    }

    /** `rt_slab_page_init`: an empty list, then one release. */
    constructor (mem: array<Byte>, page: nat, size: nat, npages: nat)
      requires npages > 0 && 0 < size <= page && mem.Length == npages * page
      modifies mem
      ensures Valid() && runs == [Run(0, npages)]
      ensures this.mem == mem && this.page == page && this.size == size && this.npages == npages
    {
      this.mem, this.page, this.size, this.npages := mem, page, size, npages;
      head := NULL;
      node := map[];
      runs := [];
      new;
      Free(0, npages);
    }

    /** Writes a node into the first bytes of its page. */
    method SetNode(p: nat, v: Node)
      requires Fixed() && p < npages
      modifies `node, mem
      ensures node == old(node)[p := v] && OnlyPage(old(mem[..]), mem[..], p, page)
    {
      node := node[p := v];
      PageEnds(p, npages, page);
      for k := 0 to size
        invariant OnlyPage(old(mem[..]), mem[..], p, page)
        modifies mem
      {
        PageOfByte(p * page + k, p, page);
        mem[p * page + k] := 0;
      }
    }

    method SetLink(prev: int, v: int)
      requires Fixed() && (prev == NULL || (prev >= 0 && prev in node && prev < npages))
      modifies `head, `node, mem
      ensures node == Redirect(old(node), prev, v) && head == if prev == NULL then v else old(head)
      ensures if prev == NULL then mem[..] == old(mem[..]) else OnlyPage(old(mem[..]), mem[..], prev, page)
    {
      if prev == NULL {
        head := v;
      } else {
        SetNode(prev, node[prev].(next := v));
      }
    }

    /** `rt_slab_page_alloc`: writes only into pages that were free. */
    method Alloc(n: nat) returns (g: Grant)
      requires Valid()
      modifies this, mem
      ensures Valid() && (runs, g) == AllocRuns(old(runs), n)
      ensures OnlyOn(old(mem[..]), mem[..], old(runs), page)
      ensures g.NoPages? ==> mem[..] == old(mem[..])
    {
      hide OnlyOn, HasPage;
      OnlyOnRefl(mem[..], runs, page);
      if n == 0 {
        return NoPages;
      }
      var prev, b := NULL, head;
      ghost var k := 0;
      while b != NULL
        invariant Valid() && runs == old(runs) && mem[..] == old(mem[..])
        invariant k <= |runs| && b == StartOf(runs, k) && prev == StartOf(runs, k - 1)
        invariant forall i :: 0 <= i < k ==> runs[i].len < n
        decreases |runs| - k
      {
        assert NodeAt(node, runs, k);
        if node[b].pages >= n {
          FitIs(runs, n, k);
          Carve(prev, b, n, k);
          return Pages(b);
        }
        prev, b := b, node[b].next;
        k := k + 1;
      }
      FitIs(runs, n, k);
      g := NoPages;
    }

    /** Takes `n` pages from the front of the run at `b`. */
    method Carve(prev: int, b: nat, n: nat, ghost k: nat)
      requires Valid() && k < |runs| && b == runs[k].start && prev == StartOf(runs, k - 1) && 0 < n <= runs[k].len
      modifies this, mem
      ensures Valid() && runs == Carved(old(runs), k, n)
      ensures OnlyOn(old(mem[..]), mem[..], old(runs), page)
    {
      hide OnlyOn, HasPage, OnlyPage, Canonical, Strung;
      CarvedCanonical(runs, k, n);
      CarvedInRange(runs, k, n, npages);
      NodeIs(node, runs, head, k);
      ghost var was, d := runs, mem[..];
      OnlyOnRefl(d, was, page);
      if k > 0 {
        HoldsStart(runs, k - 1);
      }
      if node[b].pages > n {
        ghost var x := Run(b + n, runs[k].len - n);
        assert Carved(runs, k, n) == Splice(runs, k, x, k + 1);
        SpliceStrung(node, runs, head, k, x, k + 1);
        SetNode(b + n, Node(node[b].next, node[b].pages - n));
        OnlyPageOn(d, mem[..], b + n, was, page, k);
        Relink(prev, b + n, k, was, was, d, k - 1);
      } else {
        RemoveStrung(node, runs, head, k);
        assert Carved(runs, k, n) == runs[..k] + runs[k + 1..];
        Relink(prev, node[b].next, k, was, was, d, k - 1);
      }
      runs := Carved(runs, k, n);
    }

    /** `SetLink`, of a predecessor that is run `i` of `r`. */
    method Relink(prev: int, v: int, ghost k: nat, ghost was: seq<Run>, ghost r: seq<Run>, ghost d: seq<Byte>, ghost i: int)
      requires Fixed() && InRange(was, npages) && Canonical(was) && k <= |was| && prev == StartOf(was, k - 1)
      requires prev != NULL ==> prev >= 0 && prev in node
      requires k > 0 ==> 0 <= i < |r| && Covers(r[i], was[k - 1].start)
      requires OnlyOn(d, mem[..], r, page)
      modifies `head, `node, mem
      ensures node == Redirect(old(node), prev, v) && head == if prev == NULL then v else old(head)
      ensures OnlyOn(d, mem[..], r, page)
    {
      hide OnlyOn, HasPage, OnlyPage;
      if k > 0 {
        assert was[k - 1].len > 0 && was[k - 1].End() <= npages;
      }
      ghost var e := mem[..];
      SetLink(prev, v);
      if k > 0 {
        OnlyPageOn(e, mem[..], was[k - 1].start, r, page, i);
        OnlyOnTrans(d, e, mem[..], r, page);
      }
    }

    /** `rt_slab_page_free`: writes only into pages that are free afterwards. */
    method Free(a: nat, n: nat)
      requires Valid() && n > 0 && Apart(runs, a, n) && a + n <= npages
      modifies this, mem
      ensures Valid() && runs == FreeRuns(old(runs), a, n)
      ensures OnlyOn(old(mem[..]), mem[..], runs, page)
    {
      hide Splice, Canonical, Apart, OnlyOn;
      FreeCanonical(runs, a, n);
      var prev, b := NULL, head;
      ghost var k := 0;
      ghost var was := runs;
      while b != NULL
        invariant Valid() && runs == was && mem[..] == old(mem[..])
        invariant k <= |runs| && b == StartOf(runs, k) && prev == StartOf(runs, k - 1)
        invariant forall i :: 0 <= i < k ==> runs[i].End() != a && runs[i].start < a + n
        decreases |runs| - k
      {
        assert NodeAt(node, runs, k);
        if b + node[b].pages == a {
          SlotIs(runs, a, n, k);
          Extend(b, a, n, k);
          return;
        }
        if b == a + n {
          SlotIs(runs, a, n, k);
          Place(prev, a, node[b].next, node[b].pages + n, k, k + 1);
          return;
        }
        if b > a + n {
          break;
        }
        prev, b := b, node[b].next;
        k := k + 1;
      }
      assert k < |runs| ==> runs[k].start > a + n;
      SlotIs(runs, a, n, k);
      Place(prev, a, b, n, k, k);
    }

    /** A run starting at `a` takes the place of runs `k` to `m`. */
    method Place(prev: int, a: nat, next: int, pages: nat, ghost k: nat, ghost m: nat)
      requires Valid() && k <= m <= |runs| && prev == StartOf(runs, k - 1) && next == StartOf(runs, m)
      requires Canonical(Splice(runs, k, Run(a, pages), m)) && a + pages <= npages
      modifies this, mem
      ensures Valid() && runs == Splice(old(runs), k, Run(a, pages), m)
      ensures OnlyOn(old(mem[..]), mem[..], runs, page)
    {
      hide Splice, Canonical, OnlyOn, HasPage, OnlyPage, Strung;
      ghost var x, was, d := Run(a, pages), runs, mem[..];
      ghost var s := Splice(runs, k, x, m);
      SpliceStrung(node, runs, head, k, x, m);
      SpliceInRange(runs, k, x, m, npages);
      SpliceHolds(runs, k, x, m);
      SetNode(a, Node(next, pages));
      OnlyPageOn(d, mem[..], a, s, page, k);
      Relink(prev, a, k, was, s, d, k - 1);
      runs := s;
    }

    /** The run at `b` grows by `n` pages at its end, and on into the next run if it reaches it. */
    method Extend(b: nat, ghost a: nat, n: nat, ghost k: nat)
      requires Valid() && k < |runs| && b == runs[k].start && runs[k].End() == a && Slot(runs, a, n) == k
      requires Canonical(FreeRuns(runs, a, n)) && a + n <= npages
      modifies this, mem
      ensures Valid() && runs == FreeRuns(old(runs), a, n)
      ensures OnlyOn(old(mem[..]), mem[..], runs, page)
    {
      hide Splice, Canonical, Slot, OnlyOn;
      assert NodeAt(node, runs, k);
      var pages, next := node[b].pages + n, node[b].next;
      if b + pages == next {
        assert NodeAt(node, runs, k + 1);
        Regrow(b, node[next].next, pages + node[next].pages, k, k + 2);
      } else {
        Regrow(b, next, pages, k, k + 1);
      }
    }

    method Regrow(b: nat, next: int, pages: nat, ghost k: nat, ghost m: nat)
      requires Valid() && k < m <= |runs| && b == runs[k].start && next == StartOf(runs, m)
      requires Canonical(Splice(runs, k, Run(b, pages), m)) && b + pages <= npages
      modifies this, mem
      ensures Valid() && runs == Splice(old(runs), k, Run(b, pages), m)
      ensures OnlyOn(old(mem[..]), mem[..], runs, page)
    {
      hide Splice, Canonical, OnlyOn, HasPage, OnlyPage, Strung;
      ghost var x, d := Run(b, pages), mem[..];
      SpliceStrung(node, runs, head, k, x, m);
      SameRedirect(node, runs, head, k, Node(next, pages));
      SpliceInRange(runs, k, x, m, npages);
      SpliceHolds(runs, k, x, m);
      SetNode(b, Node(next, pages));
      runs := Splice(runs, k, x, m);
      OnlyPageOn(d, mem[..], b, runs, page, k);
    }
  }

  lemma HoldsStart(r: seq<Run>, i: nat)
    requires Canonical(r) && i < |r|
    ensures Covers(r[i], r[i].start)
  {
  }

  lemma NodeIs(node: map<nat, Node>, r: seq<Run>, head: int, k: nat)
    requires Strung(node, r, head) && k < |r|
    ensures r[k].start in node && node[r[k].start] == Node(StartOf(r, k + 1), r[k].len)
  {
    assert NodeAt(node, r, k);
  }

  lemma CarvedInRange(r: seq<Run>, k: nat, n: nat, m: nat)
    requires InRange(r, m) && k < |r| && 0 < n <= r[k].len
    ensures InRange(Carved(r, k, n), m) && (n < r[k].len ==> r[k].start + n < m && Covers(r[k], r[k].start + n))
    ensures r[k].start < m
  {
    var s := Carved(r, k, n);
    if r[k].len > n {
      SpliceAt(r, k, Run(r[k].start + n, r[k].len - n), k + 1);
      assert s == Splice(r, k, Run(r[k].start + n, r[k].len - n), k + 1);
    } else {
      assert forall i {:trigger s[i]} :: 0 <= i < |s| ==> s[i] == r[if i < k then i else i + 1];
    }
  }

  lemma SpliceInRange(r: seq<Run>, k: nat, x: Run, m: nat, n: nat)
    requires InRange(r, n) && k <= m <= |r| && x.End() <= n
    ensures InRange(Splice(r, k, x, m), n)
  {
    SpliceAt(r, k, x, m);
  }

  /** The new run and the one before it hold their first pages. */
  lemma SpliceHolds(r: seq<Run>, k: nat, x: Run, m: nat)
    requires k <= m <= |r| && Canonical(r) && Canonical(Splice(r, k, x, m))
    ensures var s := Splice(r, k, x, m);
            k < |s| && s[k] == x && Covers(s[k], x.start) && x.len > 0
            && (k > 0 ==> s[k - 1] == r[k - 1] && Covers(s[k - 1], r[k - 1].start))
  {
    SpliceAt(r, k, x, m);
  }

  lemma FitIs(r: seq<Run>, n: nat, k: nat)
    requires k <= |r| && (k < |r| ==> r[k].len >= n) && forall i :: 0 <= i < k ==> r[i].len < n
    ensures FirstFit(r, n) == k
  {
    var f := FirstFit(r, n);
  }

  lemma SlotIs(r: seq<Run>, a: nat, n: nat, k: nat)
    requires k <= |r| && (k < |r| ==> r[k].End() == a || r[k].start >= a + n)
    requires forall i :: 0 <= i < k ==> r[i].End() != a && r[i].start < a + n
    ensures Slot(r, a, n) == k
  {
    var s := Slot(r, a, n);
  }

  /** Rewriting a run's own node leaves the link that leads to it as it was. */
  lemma SameRedirect(node: map<nat, Node>, r: seq<Run>, head: int, k: nat, v: Node)
    requires Strung(node, r, head) && k < |r| && Canonical(r)
    ensures var n := node[r[k].start := v];
            && (StartOf(r, k - 1) != NULL ==> StartOf(r, k - 1) >= 0 && StartOf(r, k - 1) in n)
            && Redirect(n, StartOf(r, k - 1), r[k].start) == n && (k == 0 ==> head == r[0].start)
  {
    if k > 0 {
      assert NodeAt(node, r, k - 1);
      assert r[k - 1].End() < r[k].start;
    }
  }
}
