/**
 The timer list: `RT_TIMER_SKIP_LIST_LEVEL` rows of timers by deadline, each
 holding some of the timers of the row below it. A search runs along a row,
 then goes down at the timer where it stopped.
 */
module SkipList {
  import opened Common
  import opened Sequences
  import opened Ticks

  /** The head of a row, before its first timer. */
  const HEAD: int := -1

  function Index(row: seq<Tid>, t: Tid): (k: nat)
    requires t in row
    ensures k < |row| && row[k] == t
  {
    if row[0] == t then 0 else 1 + Index(row[1..], t)
  }

  lemma IndexIs(row: seq<Tid>, k: nat)
    requires Distinct(row) && k < |row|
    ensures Index(row, row[k]) == k
  {
    var i := Index(row, row[k]);
  }

  predicate At(row: seq<Tid>, cur: int) {
    cur == HEAD || (cur >= 0 && cur in row)
  }

  /** The position behind `cur`. */
  function After(row: seq<Tid>, cur: int): (k: nat)
    requires At(row, cur)
    ensures k <= |row|
  {
    if cur == HEAD then 0 else Index(row, cur) + 1
  }

  function InsertAt(row: seq<Tid>, k: nat, t: Tid): seq<Tid>
    requires k <= |row|
  {
    row[..k] + [t] + row[k..]
  }

  /* Sorted rows */

  type Deadlines = map<Tid, nat>

  ghost predicate Near1(dl: Deadlines, base: nat, t: Tid) {
    t in dl && Near(base, dl[t])
  }

  ghost predicate AllNear(row: seq<Tid>, dl: Deadlines, base: nat) {
    forall t :: t in row ==> Near1(dl, base, t)
  }

  /** Distance of a timer's deadline from `base`. */
  ghost function Dist(dl: Deadlines, base: nat, t: Tid): nat {
    if Near1(dl, base, t) then Minus(dl[t], base) else 0
  }

  ghost predicate Sorted(row: seq<Tid>, dl: Deadlines, base: nat) {
    forall i, j :: 0 <= i < j < |row| ==> Dist(dl, base, row[i]) <= Dist(dl, base, row[j])
  }

  /** Linear search: behind every timer that is not later than `d`. */
  ghost function Place(row: seq<Tid>, dl: Deadlines, base: nat, d: nat): (k: nat)
    ensures k <= |row|
    ensures forall i :: 0 <= i < k ==> Dist(dl, base, row[i]) <= d
    ensures k < |row| ==> Dist(dl, base, row[k]) > d
  {
    if row == [] || Dist(dl, base, row[0]) > d then 0
    else
      assert forall i :: 0 < i < |row| ==> row[i] == row[1..][i - 1];
      1 + Place(row[1..], dl, base, d)
  }

  /** Plain stable insertion. */
  ghost function Linear(row: seq<Tid>, dl: Deadlines, base: nat, t: Tid): seq<Tid> {
    InsertAt(row, Place(row, dl, base, Dist(dl, base, t)), t)
  }

  lemma PlaceIs(row: seq<Tid>, dl: Deadlines, base: nat, d: nat, k: nat)
    requires Sorted(row, dl, base) && k <= |row|
    requires forall i :: 0 <= i < k ==> Dist(dl, base, row[i]) <= d
    requires k < |row| ==> Dist(dl, base, row[k]) > d
    ensures Place(row, dl, base, d) == k
  {
    var p := Place(row, dl, base, d);
  }

  lemma InsertAtIs(row: seq<Tid>, k: nat, t: Tid)
    requires k <= |row|
    ensures var r := InsertAt(row, k, t);
            && |r| == |row| + 1 && r[k] == t
            && (forall i :: 0 <= i < k ==> r[i] == row[i])
            && (forall i {:trigger r[i]} :: k < i < |r| ==> r[i] == row[i - 1])
            && (forall x :: x in r <==> x == t || x in row)
  {
    var r := InsertAt(row, k, t);
    assert row == row[..k] + row[k..];
  }

  lemma InsertDistinct(row: seq<Tid>, k: nat, t: Tid)
    requires Distinct(row) && k <= |row| && t !in row
    ensures Distinct(InsertAt(row, k, t))
  {
    InsertAtIs(row, k, t);
  }

  lemma InsertSorted(row: seq<Tid>, dl: Deadlines, base: nat, k: nat, t: Tid)
    requires Sorted(row, dl, base) && k == Place(row, dl, base, Dist(dl, base, t))
    ensures Sorted(InsertAt(row, k, t), dl, base)
  {
    hide Dist, InsertAt, Place;
    InsertAtIs(row, k, t);
    var r := InsertAt(row, k, t);
    forall i, j | 0 <= i < j < |r| ensures Dist(dl, base, r[i]) <= Dist(dl, base, r[j]) {
      assert k < |row| && k < j ==> Dist(dl, base, row[k]) <= Dist(dl, base, row[j - 1]);
    }
  }

  lemma LinearSorted(row: seq<Tid>, dl: Deadlines, base: nat, t: Tid)
    requires Sorted(row, dl, base) && Distinct(row) && AllNear(row, dl, base) && Near1(dl, base, t) && t !in row
    ensures var r := Linear(row, dl, base, t); Sorted(r, dl, base) && Distinct(r) && AllNear(r, dl, base)
    ensures forall x :: x in Linear(row, dl, base, t) <==> x == t || x in row
  {
    hide Sorted, Distinct, InsertAt, Dist;
    var k := Place(row, dl, base, Dist(dl, base, t));
    InsertAtIs(row, k, t);
    InsertDistinct(row, k, t);
    InsertSorted(row, dl, base, k, t);
  }

  lemma WithoutSorted(row: seq<Tid>, dl: Deadlines, base: nat, t: Tid)
    requires Sorted(row, dl, base) && Distinct(row) && AllNear(row, dl, base)
    ensures var r := Without(row, t); Sorted(r, dl, base) && Distinct(r) && AllNear(r, dl, base) && t !in r
  {
    hide Dist, Without, Distinct, Index;
    WithoutKeepsDistinct(row, t);
    if t in row {
      var k := Index(row, t);
      WithoutSplit(row, k);
      var r := row[..k] + row[k + 1..];
      assert forall i {:trigger r[i]} :: 0 <= i < |r| ==> r[i] == if i < k then row[i] else row[i + 1];
    }
  }

  /** Deadlines of timers outside the row do not matter. */
  lemma SortedFrame(row: seq<Tid>, dl: Deadlines, base: nat, t: Tid, d: nat)
    requires Sorted(row, dl, base) && AllNear(row, dl, base) && t !in row
    ensures Sorted(row, dl[t := d], base) && AllNear(row, dl[t := d], base)
  {
    forall x | x in row ensures Dist(dl[t := d], base, x) == Dist(dl, base, x) && Near1(dl[t := d], base, x) {
      assert Near1(dl, base, x);
    }
  }

  /** The order of a row does not depend on the point from which distances are taken. */
  lemma BaseDoesNotMatter(row: seq<Tid>, dl: Deadlines, b: nat, c: nat)
    requires AllNear(row, dl, b) && AllNear(row, dl, c) && Sorted(row, dl, b)
    ensures Sorted(row, dl, c)
  {
    forall i, j | 0 <= i < j < |row| ensures Dist(dl, c, row[i]) <= Dist(dl, c, row[j]) {
      assert Near1(dl, b, row[i]) && Near1(dl, b, row[j]) && Near1(dl, c, row[i]) && Near1(dl, c, row[j]);
      LaterIsFarther(b, dl[row[i]], dl[row[j]]);
      LaterIsFarther(c, dl[row[i]], dl[row[j]]);
    }
  }

  /* Subsequences */

  predicate Sub(a: seq<Tid>, b: seq<Tid>)
    decreases |b|
  {
    a == [] || (b != [] && if a[0] == b[0] then Sub(a[1..], b[1..]) else Sub(a, b[1..]))
  }

  lemma {:induction false} SubElements(a: seq<Tid>, b: seq<Tid>, x: Tid)
    requires Sub(a, b) && x in a
    ensures x in b
    decreases |b|
  {
    if a[0] == b[0] {
      if x != a[0] {
        HeadTail(a);
        SubElements(a[1..], b[1..], x);
      }
    } else {
      SubElements(a, b[1..], x);
    }
  }

  lemma {:induction false} SubTail(a: seq<Tid>, b: seq<Tid>)
    requires Sub(a, b) && a != []
    ensures Sub(a[1..], b)
    decreases |b|, 0
  {
    if a[0] == b[0] {
      SubWider(a[1..], b[1..], b[0]);
      assert [b[0]] + b[1..] == b;
    } else {
      SubTail(a, b[1..]);
      SubWider(a[1..], b[1..], b[0]);
      assert [b[0]] + b[1..] == b;
    }
  }

  lemma {:induction false} SubWider(a: seq<Tid>, b: seq<Tid>, x: Tid)
    requires Sub(a, b)
    ensures Sub(a, [x] + b)
    decreases |b|, 1
  {
    assert ([x] + b)[1..] == b;
    if a != [] && a[0] == x {
      if a[0] == b[0] {
        SubWider(a[1..], b[1..], b[0]);
        assert [b[0]] + b[1..] == b;
      } else {
        SubTail(a, b);
      }
    }
  }

  lemma {:induction false} SubConcat(a: seq<Tid>, b: seq<Tid>, c: seq<Tid>, d: seq<Tid>)
    requires Sub(a, b) && Sub(c, d)
    ensures Sub(a + c, b + d)
    decreases |b|
  {
    if b == [] {
      assert a + c == c && b + d == d;
    } else if a == [] {
      SubConcat(a, b[1..], c, d);
      SubWider(a + c, b[1..] + d, b[0]);
      assert [b[0]] + (b[1..] + d) == b + d;
    } else {
      assert (b + d)[1..] == b[1..] + d && (a + c)[1..] == a[1..] + c;
      if a[0] == b[0] {
        SubConcat(a[1..], b[1..], c, d);
      } else {
        SubConcat(a, b[1..], c, d);
      }
    }
  }

  lemma SortedTail(row: seq<Tid>, dl: Deadlines, base: nat)
    requires Sorted(row, dl, base) && row != []
    ensures Sorted(row[1..], dl, base) && forall x :: x in row ==> Dist(dl, base, row[0]) <= Dist(dl, base, x)
  {
    assert forall i {:trigger row[1..][i]} :: 0 <= i < |row| - 1 ==> row[1..][i] == row[i + 1];
  }

  /** Cutting both rows at the same deadline keeps one a subsequence of the other on either side. */
  lemma {:induction false} SubCut(a: seq<Tid>, b: seq<Tid>, dl: Deadlines, base: nat, d: nat)
    requires Sub(a, b) && Sorted(a, dl, base) && Sorted(b, dl, base)
    ensures var p, q := Place(a, dl, base, d), Place(b, dl, base, d); Sub(a[..p], b[..q]) && Sub(a[p..], b[q..])
    decreases |b|
  {
    hide Dist, Sorted;
    var p, q := Place(a, dl, base, d), Place(b, dl, base, d);
    if b != [] {
      SortedTail(b, dl, base);
      if q == 0 {
        if a != [] {
          SubElements(a, b, a[0]);
        }
        CutNone(a, b, p, q);
      } else if a != [] && a[0] == b[0] {
        SortedTail(a, dl, base);
        SubCut(a[1..], b[1..], dl, base, d);
        CutSame(a, b, p, q);
      } else {
        SubCut(a, b[1..], dl, base, d);
        CutWider(a, b, p, q);
      }
    }
  }

  lemma CutNone(a: seq<Tid>, b: seq<Tid>, p: nat, q: nat)
    requires p == 0 && q == 0 && Sub(a, b)
    ensures Sub(a[..p], b[..q]) && Sub(a[p..], b[q..])
  {
    assert a[..p] == [] && a[p..] == a && b[q..] == b;
  }

  lemma CutWider(a: seq<Tid>, b: seq<Tid>, p: nat, q: nat)
    requires p <= |a| && 0 < q <= |b| && Sub(a[..p], b[1..][..q - 1]) && Sub(a[p..], b[1..][q - 1..])
    ensures Sub(a[..p], b[..q]) && Sub(a[p..], b[q..])
  {
    SubWider(a[..p], b[1..][..q - 1], b[0]);
    assert b[..q] == [b[0]] + b[1..][..q - 1] && b[q..] == b[1..][q - 1..];
  }

  lemma CutSame(a: seq<Tid>, b: seq<Tid>, p: nat, q: nat)
    requires 0 < p <= |a| && 0 < q <= |b| && a[0] == b[0]
    requires Sub(a[1..][..p - 1], b[1..][..q - 1]) && Sub(a[1..][p - 1..], b[1..][q - 1..])
    ensures Sub(a[..p], b[..q]) && Sub(a[p..], b[q..])
  {
    assert a[p..] == a[1..][p - 1..] && b[q..] == b[1..][q - 1..];
    assert b[..q][1..] == b[1..][..q - 1] && a[..p][1..] == a[1..][..p - 1];
  }

  lemma SubOne(t: Tid)
    ensures Sub([t], [t]) && Sub([], [t])
  {
  }

  /** Inserting into both rows, or only into the lower one, keeps them nested. */
  lemma SubInsert(a: seq<Tid>, b: seq<Tid>, dl: Deadlines, base: nat, t: Tid)
    requires Sub(a, b) && Sorted(a, dl, base) && Sorted(b, dl, base)
    ensures Sub(Linear(a, dl, base, t), Linear(b, dl, base, t)) && Sub(a, Linear(b, dl, base, t))
  {
    hide Sub, Sorted, Place, Dist;
    var d := Dist(dl, base, t);
    var p, q := Place(a, dl, base, d), Place(b, dl, base, d);
    SubCut(a, b, dl, base, d);
    SubOne(t);
    SubConcat(a[..p], b[..q], [t], [t]);
    SubConcat(a[..p] + [t], b[..q] + [t], a[p..], b[q..]);
    SubConcat(a[..p], b[..q], [], [t]);
    assert a[..p] + [] == a[..p];
    SubConcat(a[..p], b[..q] + [t], a[p..], b[q..]);
    assert a[..p] + a[p..] == a;
  }

  lemma {:induction false} SubWithout(a: seq<Tid>, b: seq<Tid>, t: Tid)
    requires Sub(a, b) && Distinct(b)
    ensures Sub(Without(a, t), Without(b, t))
    decreases |b|
  {
    if a != [] {
      HeadTail(b);
      if a[0] == b[0] {
        SubWithout(a[1..], b[1..], t);
      } else {
        SubWithout(a, b[1..], t);
        if b[0] == t {
          if t in a {
            SubElements(a, b[1..], t);
          }
        } else {
          SubWider(Without(a, t), Without(b[1..], t), b[0]);
        }
      }
    }
  }

  /* All rows */

  ghost predicate RowOk(row: seq<Tid>, dl: Deadlines, base: nat) {
    Distinct(row) && AllNear(row, dl, base) && Sorted(row, dl, base)
  }

  /** Every row is sorted, and is a subsequence of the row below it. */
  ghost predicate Good(rows: seq<seq<Tid>>, dl: Deadlines, base: nat) {
    && rows != []
    && (forall i :: 0 <= i < |rows| ==> RowOk(rows[i], dl, base))
    && (forall i, j :: 0 <= i && j == i + 1 && j < |rows| ==> Sub(rows[i], rows[j]))
  }

  function Bottom(rows: seq<seq<Tid>>): seq<Tid>
    requires rows != []
  {
    rows[|rows| - 1]
  }

  lemma {:induction false} BottomHoldsAll(rows: seq<seq<Tid>>, dl: Deadlines, base: nat, i: nat, t: Tid)
    requires Good(rows, dl, base) && i < |rows| && t in rows[i]
    ensures t in Bottom(rows)
    decreases |rows| - i
  {
    if i + 1 < |rows| {
      assert Sub(rows[i], rows[i + 1]);
      SubElements(rows[i], rows[i + 1], t);
      BottomHoldsAll(rows, dl, base, i + 1, t);
    }
  }

  function Removed(rows: seq<seq<Tid>>, t: Tid): seq<seq<Tid>> {
    seq(|rows|, i requires 0 <= i < |rows| => Without(rows[i], t))
  }

  lemma RemovedGood(rows: seq<seq<Tid>>, dl: Deadlines, base: nat, t: Tid)
    requires Good(rows, dl, base)
    ensures Good(Removed(rows, t), dl, base) && forall i :: 0 <= i < |rows| ==> t !in Removed(rows, t)[i]
    ensures Bottom(Removed(rows, t)) == Without(Bottom(rows), t)
  {
    hide Sorted, Sub, Distinct, AllNear;
    var r := Removed(rows, t);
    forall i | 0 <= i < |r| ensures RowOk(r[i], dl, base) && t !in r[i] {
      assert RowOk(rows[i], dl, base);
      WithoutSorted(rows[i], dl, base, t);
    }
    forall i, j | 0 <= i && j == i + 1 && j < |r| ensures Sub(r[i], r[j]) {
      assert Sub(rows[i], rows[j]) && RowOk(rows[j], dl, base);
      SubWithout(rows[i], rows[j], t);
    }
  }

  ghost predicate Absent(rows: seq<seq<Tid>>, t: Tid) {
    forall i :: 0 <= i < |rows| ==> t !in rows[i]
  }

  lemma GoodFrame(rows: seq<seq<Tid>>, dl: Deadlines, base: nat, t: Tid, d: nat)
    requires Good(rows, dl, base) && Absent(rows, t)
    ensures Good(rows, dl[t := d], base)
  {
    hide Sorted, Sub, Distinct, AllNear;
    forall i | 0 <= i < |rows| ensures RowOk(rows[i], dl[t := d], base) {
      assert RowOk(rows[i], dl, base);
      SortedFrame(rows[i], dl, base, t, d);
    }
  }

  /** The number of rows a timer enters: one more for every pair of zero bits the counter ends in. */
  function Height(n: nat, levels: nat): (h: nat)
    requires levels > 0
    ensures 1 <= h <= levels
    decreases levels
  {
    if levels > 1 && n % 4 == 0 then 1 + Height(n / 4, levels - 1) else 1
  }

  /** The timer inserted linearly into the lowest `h` rows. */
  ghost function Raised(rows: seq<seq<Tid>>, dl: Deadlines, base: nat, t: Tid, h: nat): seq<seq<Tid>> {
    seq(|rows|, i requires 0 <= i < |rows| => if i + h >= |rows| then Linear(rows[i], dl, base, t) else rows[i])
  }

  lemma RaisedGood(rows: seq<seq<Tid>>, dl: Deadlines, base: nat, t: Tid, h: nat)
    requires Good(rows, dl, base) && Absent(rows, t) && Near1(dl, base, t) && h > 0
    ensures Good(Raised(rows, dl, base, t, h), dl, base)
  {
    hide Sorted, Sub, Distinct, AllNear, Linear;
    var r := Raised(rows, dl, base, t, h);
    forall i | 0 <= i < |r| ensures RowOk(r[i], dl, base) {
      assert RowOk(rows[i], dl, base);
      LinearSorted(rows[i], dl, base, t);
    }
    forall i, j | 0 <= i && j == i + 1 && j < |r| ensures Sub(r[i], r[j]) {
      assert Sub(rows[i], rows[j]) && RowOk(rows[i], dl, base) && RowOk(rows[j], dl, base);
      SubInsert(rows[i], rows[j], dl, base, t);
    }
  }

  predicate Timed(row: seq<Tid>, dl: Deadlines) {
    forall x :: x in row ==> x in dl && dl[x] < TICKS
  }

  /** The bare search: from position `k` to the first timer that the tick comparison calls later. */
  function Scan(row: seq<Tid>, dl: Deadlines, k: nat, d: nat): (r: nat)
    requires k <= |row| && d < TICKS && Timed(row, dl)
    ensures k <= r <= |row|
    decreases |row| - k
  {
    if k == |row| || Later(dl[row[k]], d) then k else Scan(row, dl, k + 1, d)
  }

  /** Rows without repetitions, each a subsequence of the row below it, with deadlines of any kind. */
  ghost predicate Nested(rows: seq<seq<Tid>>, dl: Deadlines) {
    && rows != []
    && (forall i :: 0 <= i < |rows| ==> Distinct(rows[i]) && Timed(rows[i], dl))
    && (forall i, j :: 0 <= i && j == i + 1 && j < |rows| ==> Sub(rows[i], rows[j]))
  }

  /** The timer just before position `k`. */
  function CursorAt(row: seq<Tid>, k: nat): int
    requires k <= |row|
  {
    if k == 0 then HEAD else row[k - 1]
  }

  lemma CursorIsAt(row: seq<Tid>, k: nat)
    requires Distinct(row) && k <= |row|
    ensures At(row, CursorAt(row, k)) && After(row, CursorAt(row, k)) == k
  {
    if k > 0 { IndexIs(row, k - 1); }
  }

  lemma NestedTail(rows: seq<seq<Tid>>, dl: Deadlines, cur: int)
    requires Nested(rows, dl) && |rows| > 1 && At(rows[0], cur)
    ensures Nested(rows[1..], dl) && At(rows[1], cur)
  {
    hide Sub, Distinct, Timed;
    var r := rows[1..];
    forall i | 0 <= i < |r| ensures Distinct(r[i]) && Timed(r[i], dl) {
      assert r[i] == rows[i + 1];
    }
    forall i, j | 0 <= i && j == i + 1 && j < |r| ensures Sub(r[i], r[j]) {
      assert Sub(rows[i + 1], rows[j + 1]);
    }
    if cur >= 0 {
      assert Sub(rows[0], rows[1]);
      SubElements(rows[0], rows[1], cur);
    }
  }

  /** The cursors the nested search leaves behind, one to a row, each row begun where the last one stopped. */
  function Walk(rows: seq<seq<Tid>>, dl: Deadlines, d: nat, cur: int): (r: seq<int>)
    requires Nested(rows, dl) && d < TICKS && At(rows[0], cur)
    ensures |r| == |rows|
    decreases |rows|
  {
    var k := Scan(rows[0], dl, After(rows[0], cur), d);
    var c := CursorAt(rows[0], k);
    CursorIsAt(rows[0], k);
    if |rows| == 1 then [c]
    else
      NestedTail(rows, dl, c);
      [c] + Walk(rows[1..], dl, d, c)
  }

  lemma WalkStep(rows: seq<seq<Tid>>, dl: Deadlines, d: nat, cur: int)
    requires Nested(rows, dl) && d < TICKS && At(rows[0], cur) && Timed(rows[0], dl)
    ensures var c := CursorAt(rows[0], Scan(rows[0], dl, After(rows[0], cur), d));
            && At(rows[0], c)
            && (|rows| == 1 ==> Walk(rows, dl, d, cur) == [c])
            && (|rows| > 1 ==> Nested(rows[1..], dl) && At(rows[1], c) && Walk(rows, dl, d, cur) == [c] + Walk(rows[1..], dl, d, c))
  {
    hide Sub, Distinct, Timed, Scan;
    var k := Scan(rows[0], dl, After(rows[0], cur), d);
    CursorIsAt(rows[0], k);
    if |rows| > 1 {
      NestedTail(rows, dl, CursorAt(rows[0], k));
    }
  }

  lemma FoundCons(rows: seq<seq<Tid>>, dl: Deadlines, base: nat, d: nat, c: int, v: seq<int>)
    requires Near(base, d) && |rows| > 1 && Found(rows[1..], dl, base, d, v)
    requires At(rows[0], c) && After(rows[0], c) == Place(rows[0], dl, base, Minus(d, base))
    ensures Found(rows, dl, base, d, [c] + v)
  {
    hide Place, Minus, After;
    var w := [c] + v;
    forall i | 0 <= i < |w| ensures At(rows[i], w[i]) && After(rows[i], w[i]) == Place(rows[i], dl, base, Minus(d, base)) {
      if i > 0 { assert rows[i] == rows[1..][i - 1] && w[i] == v[i - 1]; }
    }
  }

  /** Where in the bottom row the search puts a new timer. */
  ghost predicate LandsAt(rows: seq<seq<Tid>>, dl: Deadlines, d: nat, cur: int, k: nat)
    requires Nested(rows, dl) && d < TICKS && At(rows[0], cur)
  {
    var c := Walk(rows, dl, d, cur)[|rows| - 1];
    At(Bottom(rows), c) && After(Bottom(rows), c) == k
  }

  /* When the rows above may be trusted */

  /** Along the row, once a timer counts as later than `d`, all do. */
  predicate Monotone(row: seq<Tid>, dl: Deadlines, d: nat)
    requires Timed(row, dl) && d < TICKS
  {
    forall i, j :: 0 <= i < j < |row| && Later(dl[row[i]], d) ==> Later(dl[row[j]], d)
  }

  lemma {:induction false} ScanStops(row: seq<Tid>, dl: Deadlines, k: nat, d: nat)
    requires k <= |row| && d < TICKS && Timed(row, dl)
    ensures var r := Scan(row, dl, k, d);
            (forall i :: k <= i < r ==> !Later(dl[row[i]], d)) && (r < |row| ==> Later(dl[row[r]], d))
    decreases |row| - k
  {
    if k < |row| && !Later(dl[row[k]], d) { ScanStops(row, dl, k + 1, d); }
  }

  lemma {:induction false} ScanIs(row: seq<Tid>, dl: Deadlines, k: nat, d: nat, r: nat)
    requires k <= r <= |row| && d < TICKS && Timed(row, dl)
    requires (forall i :: k <= i < r ==> !Later(dl[row[i]], d)) && (r < |row| ==> Later(dl[row[r]], d))
    ensures Scan(row, dl, k, d) == r
    decreases r - k
  {
    if k < r { ScanIs(row, dl, k + 1, d, r); }
  }

  /** From any timer that is not later, the scan of a monotone row ends where it ends from the head. */
  lemma ScanFromWithin(row: seq<Tid>, dl: Deadlines, cur: int, d: nat)
    requires Distinct(row) && Timed(row, dl) && d < TICKS && Monotone(row, dl, d) && At(row, cur)
    requires cur >= 0 ==> !Later(dl[cur], d)
    ensures Scan(row, dl, After(row, cur), d) == Scan(row, dl, 0, d)
  {
    ScanStops(row, dl, 0, d);
    var r, k := Scan(row, dl, 0, d), After(row, cur);
    if cur >= 0 {
      assert row[k - 1] == cur;
      assert !(r < k - 1);
    }
    ScanIs(row, dl, k, d, r);
  }

  lemma {:induction false} MonotoneLands(rows: seq<seq<Tid>>, dl: Deadlines, d: nat, cur: int)
    requires Nested(rows, dl) && d < TICKS && At(rows[0], cur) && (cur >= 0 ==> cur in dl && dl[cur] < TICKS && !Later(dl[cur], d))
    requires Timed(Bottom(rows), dl) && Monotone(Bottom(rows), dl, d)
    ensures LandsAt(rows, dl, d, cur, Scan(Bottom(rows), dl, 0, d))
    decreases |rows|
  {
    hide Sub, Distinct, Monotone, Later, Timed, Scan;
    var k := Scan(rows[0], dl, After(rows[0], cur), d);
    var c := CursorAt(rows[0], k);
    CursorIsAt(rows[0], k);
    if |rows| == 1 {
      ScanFromWithin(rows[0], dl, cur, d);
    } else {
      NestedTail(rows, dl, c);
      CursorNotLater(rows[0], dl, cur, d);
      MonotoneLands(rows[1..], dl, d, c);
    }
  }

  lemma CursorNotLater(row: seq<Tid>, dl: Deadlines, cur: int, d: nat)
    requires Distinct(row) && Timed(row, dl) && d < TICKS && At(row, cur) && (cur >= 0 ==> cur in dl && dl[cur] < TICKS && !Later(dl[cur], d))
    ensures var c := CursorAt(row, Scan(row, dl, After(row, cur), d)); c >= 0 ==> c in dl && dl[c] < TICKS && !Later(dl[c], d)
  {
    var k := After(row, cur);
    ScanStops(row, dl, k, d);
    var r := Scan(row, dl, k, d);
    if r > 0 {
      assert row[r - 1] in row;
      if cur >= 0 { assert row[k - 1] == cur; }
    }
  }

  lemma Astray(row: seq<Tid>, dl: Deadlines, d: nat, i: nat, j: nat)
    requires Distinct(row) && Timed(row, dl) && d < TICKS && i < j < |row| && Later(dl[row[i]], d) && !Later(dl[row[j]], d)
    ensures var rows := [[row[j]], row];
            Nested(rows, dl) && !LandsAt(rows, dl, d, HEAD, Scan(row, dl, 0, d))
  {
    var top, rows := [row[j]], [[row[j]], row];
    SubOfOne(row, j);
    assert row[j] in row;
    ScanStops(row, dl, 0, d);
    ScanIs(top, dl, 0, d, 1);
    assert rows[1..] == [row];
    assert CursorAt(top, 1) == row[j];
    IndexIs(row, j);
    var k := Scan(row, dl, j + 1, d);
    CursorIsAt(row, k);
    assert Walk([row], dl, d, row[j]) == [CursorAt(row, k)];
    assert Walk(rows, dl, d, HEAD)[1] == CursorAt(row, k);
  }

  lemma {:induction false} SubOfOne(row: seq<Tid>, j: nat)
    requires j < |row|
    ensures Sub([row[j]], row)
  {
    if row[0] != row[j] {
      assert row[1..][j - 1] == row[j];
      SubOfOne(row[1..], j - 1);
    }
  }

  /**
   The exact condition: whatever rows lie above, the search ends where a scan of
   the bottom row alone ends, if and only if that row is monotone for the new
   deadline.
   */
  lemma SearchAgreesIff(row: seq<Tid>, dl: Deadlines, d: nat)
    requires Distinct(row) && Timed(row, dl) && d < TICKS
    ensures Monotone(row, dl, d) <==>
            forall rows: seq<seq<Tid>> :: Nested(rows, dl) && Bottom(rows) == row ==>
              At(rows[0], HEAD) && LandsAt(rows, dl, d, HEAD, Scan(row, dl, 0, d))
  {
    hide Sub, Distinct, Later, Scan;
    if Monotone(row, dl, d) {
      forall rows: seq<seq<Tid>> | Nested(rows, dl) && Bottom(rows) == row ensures LandsAt(rows, dl, d, HEAD, Scan(row, dl, 0, d)) {
        MonotoneLands(rows, dl, d, HEAD);
      }
    } else {
      var i, j :| 0 <= i < j < |row| && Later(dl[row[i]], d) && !Later(dl[row[j]], d);
      Astray(row, dl, d, i, j);
      assert Bottom([[row[j]], row]) == row;
    }
  }

  /** Within half the range of one point, every row is monotone for every deadline. */
  lemma NearIsMonotone(row: seq<Tid>, dl: Deadlines, base: nat, d: nat)
    requires RowOk(row, dl, base) && Near(base, d)
    ensures Timed(row, dl) && Monotone(row, dl, d)
  {
    hide Dist, Minus, Later, Distinct;
    InDomain(row, dl, base);
    forall i, j | 0 <= i < j < |row| && Later(dl[row[i]], d) ensures Later(dl[row[j]], d) {
      assert row[i] in row && row[j] in row;
      LaterIs(dl, base, row[i], d);
      LaterIs(dl, base, row[j], d);
    }
  }

  /**
   Beyond it they need not be, even with intervals as short as the kernel
   demands: timers started at tick 0, for 2 and for 2^31 - 2 ticks, and then no
   check until a third is started at tick 2^31, for 4. The scan of the bottom row
   puts it in front of both, the two-level search behind them.
   */
  lemma LateStartGoesAstray(a: Tid, b: Tid)
    requires a != b
    ensures var dl := map[a := Plus(0, 2), b := Plus(0, HALF - 1)];
            var one := Raised([[], []], map[a := 2], 0, a, Height(3, 2));
            var rows := Raised(one, dl, 0, b, Height(4, 2));
            var d := Plus(0x8000_0000, 4);
            && rows == [[b], [a, b]] && Good(rows, dl, 0) && Nested(rows, dl)
            && Timed([a, b], dl) && !Monotone([a, b], dl, d)
            && Scan([a, b], dl, 0, d) == 0 && LandsAt(rows, dl, d, HEAD, 2)
  {
    var dl, d := map[a := 2, b := 0x7FFF_FFFE], 0x8000_0004;
    TwoStarts(a, b, dl);
    TwoRows(a, b, dl);
    AstrayLands(a, b, dl, d);
    assert [a, b][0] == a && [a, b][1] == b;
  }

  lemma TwoStarts(a: Tid, b: Tid, dl: Deadlines)
    requires a != b && dl == map[a := 2, b := 0x7FFF_FFFE]
    ensures Raised(Raised([[], []], map[a := 2], 0, a, Height(3, 2)), dl, 0, b, Height(4, 2)) == [[b], [a, b]]
  {
    hide Dist;
    assert Height(3, 2) == 1 && Height(4, 2) == 2;
    assert Linear([], map[a := 2], 0, a) == [a];
    assert Raised([[], []], map[a := 2], 0, a, 1) == [[], [a]];
    LinearAfter(dl, a, b);
    assert Linear([], dl, 0, b) == [b];
  }

  lemma TwoRows(a: Tid, b: Tid, dl: Deadlines)
    requires a != b && dl == map[a := 2, b := 0x7FFF_FFFE]
    ensures Good([[b], [a, b]], dl, 0) && Nested([[b], [a, b]], dl)
  {
    assert RowOk([b], dl, 0) && RowOk([a, b], dl, 0);
    assert [a, b][1] == b;
    SubOfOne([a, b], 1);
  }

  lemma LinearAfter(dl: Deadlines, a: Tid, b: Tid)
    requires a != b && dl == map[a := 2, b := 0x7FFF_FFFE]
    ensures Linear([a], dl, 0, b) == [a, b]
  {
    assert [a][1..] == [];
    assert Place([a], dl, 0, Dist(dl, 0, b)) == 1;
    assert [a][..1] == [a];
  }

  lemma AstrayLands(a: Tid, b: Tid, dl: Deadlines, d: nat)
    requires a != b && dl == map[a := 2, b := 0x7FFF_FFFE] && d == 0x8000_0004 && Nested([[b], [a, b]], dl)
    ensures Scan([a, b], dl, 0, d) == 0 && LandsAt([[b], [a, b]], dl, d, HEAD, 2)
  {
    var row, rows := [a, b], [[b], [a, b]];
    assert row[0] == a && row[1] == b;
    ScanIs([b], dl, 0, d, 1);
    ScanIs(row, dl, 2, d, 2);
    IndexIs(row, 1);
    assert rows[1..] == [row];
    assert CursorAt([b], 1) == b;
    assert Walk([row], dl, d, b) == [CursorAt(row, 2)];
    assert Walk(rows, dl, d, HEAD)[1] == b;
  }

  lemma ScanIsPlace(row: seq<Tid>, dl: Deadlines, base: nat, d: nat, cur: int)
    requires RowOk(row, dl, base) && Near(base, d) && At(row, cur) && (cur >= 0 ==> Dist(dl, base, cur) <= Minus(d, base))
    ensures Timed(row, dl) && Scan(row, dl, After(row, cur), d) == Place(row, dl, base, Minus(d, base))
    ensures var c := CursorAt(row, Scan(row, dl, After(row, cur), d));
            At(row, c) && (c >= 0 ==> Dist(dl, base, c) <= Minus(d, base))
  {
    hide Dist, Minus, Later, Index;
    InDomain(row, dl, base);
    StartIsBefore(row, dl, base, cur, Minus(d, base));
    var k := After(row, cur);
    ScanStops(row, dl, k, d);
    var r := Scan(row, dl, k, d);
    forall i | 0 <= i < |row| ensures Later(dl[row[i]], d) <==> Dist(dl, base, row[i]) > Minus(d, base) {
      assert row[i] in row;
      LaterIs(dl, base, row[i], d);
    }
    PlaceIs(row, dl, base, Minus(d, base), r);
    CursorIsAt(row, r);
  }

  lemma GoodIsNested(rows: seq<seq<Tid>>, dl: Deadlines, base: nat)
    requires Good(rows, dl, base)
    ensures Nested(rows, dl)
  {
    hide Sub, Distinct, Sorted;
    forall i | 0 <= i < |rows| ensures Distinct(rows[i]) && Timed(rows[i], dl) {
      assert RowOk(rows[i], dl, base);
      InDomain(rows[i], dl, base);
    }
  }

  /** Within half the range the search finds the place of linear insertion in every row. */
  lemma {:induction false} WalkFinds(rows: seq<seq<Tid>>, dl: Deadlines, base: nat, d: nat, cur: int)
    requires Good(rows, dl, base) && Nested(rows, dl) && Near(base, d) && At(rows[0], cur)
    requires cur >= 0 ==> Dist(dl, base, cur) <= Minus(d, base)
    ensures Found(rows, dl, base, d, Walk(rows, dl, d, cur))
    decreases |rows|
  {
    hide Sub, RowOk, Dist, Minus, Place, Scan, Timed, Distinct, Walk, Index;
    FirstRow(rows, dl, base);
    ScanIsPlace(rows[0], dl, base, d, cur);
    var k := Scan(rows[0], dl, After(rows[0], cur), d);
    var c := CursorAt(rows[0], k);
    CursorIsAt(rows[0], k);
    WalkStep(rows, dl, d, cur);
    if |rows| > 1 {
      GoodTail(rows, dl, base);
      WalkFinds(rows[1..], dl, base, d, c);
      FoundCons(rows, dl, base, d, c, Walk(rows[1..], dl, d, c));
    }
  }

  lemma FirstRow(rows: seq<seq<Tid>>, dl: Deadlines, base: nat)
    requires Good(rows, dl, base) && Nested(rows, dl)
    ensures RowOk(rows[0], dl, base) && Distinct(rows[0])
  {
  }

  lemma GoodTail(rows: seq<seq<Tid>>, dl: Deadlines, base: nat)
    requires Good(rows, dl, base) && |rows| > 1
    ensures Good(rows[1..], dl, base)
  {
    hide Sub, RowOk;
    var r := rows[1..];
    forall i | 0 <= i < |r| ensures RowOk(r[i], dl, base) {
      assert r[i] == rows[i + 1];
    }
    forall i, j | 0 <= i && j == i + 1 && j < |r| ensures Sub(r[i], r[j]) {
      assert Sub(rows[i + 1], rows[j + 1]);
    }
  }

  class TimerList {
    var rows: seq<seq<Tid>>
    var dl: Deadlines
    var counter: nat

    constructor (levels: nat)
      requires levels > 0
      ensures |rows| == levels && Bottom(rows) == [] && dl == map[] && forall base :: Good(rows, dl, base)
    {
      rows, dl, counter := seq(levels, i => []), map[], 0;
    }

    /** `_timer_remove` */
    method Remove(t: Tid)
      modifies `rows
      ensures rows == Removed(old(rows), t)
    {
      ghost var was := rows;
      for i := 0 to |rows|
        invariant |rows| == |was|
        invariant forall j :: 0 <= j < |was| ==> rows[j] == if j < i then Without(was[j], t) else was[j]
      {
        rows := rows[i := Without(rows[i], t)];
      }
    }

    /** Runs along a row from `start` to the last timer before one that counts as later than `d`. */
    method RunAlong(row: seq<Tid>, start: int, d: nat) returns (cur: int)
      requires Distinct(row) && Timed(row, dl) && d < TICKS && At(row, start)
      ensures cur == CursorAt(row, Scan(row, dl, After(row, start), d))
    {
      hide Distinct, Index, Later;
      cur := start;
      while After(row, cur) < |row|
        invariant At(row, cur) && Scan(row, dl, After(row, cur), d) == Scan(row, dl, After(row, start), d)
        decreases |row| - After(row, cur)
      {
        ghost var k := After(row, cur);
        var x := row[After(row, cur)];
        if Later(dl[x], d) {
          break;
        }
        cur := x;
        AfterNext(row, k);
      }
      CursorIs(row, cur);
    }

    /** The nested search loop, whatever the deadlines. */
    method Search(d: nat) returns (cursors: seq<int>)
      requires Nested(rows, dl) && d < TICKS
      ensures cursors == Walk(rows, dl, d, HEAD)
    {
      hide Sub, Distinct, Timed, Scan, Walk, Index;
      cursors := [];
      var cur := HEAD;
      ghost var rest := rows;
      for i := 0 to |rows|
        invariant rest == rows[i..] && (i < |rows| ==> Nested(rest, dl) && At(rest[0], cur))
        invariant cursors + (if i < |rows| then Walk(rest, dl, d, cur) else []) == Walk(rows, dl, d, HEAD)
      {
        WalkStep(rest, dl, d, cur);
        cur := RunAlong(rows[i], cur, d);
        cursors := cursors + [cur];
        rest := rest[1..];
      }
    }

    /** Links the timer behind the cursor of the bottom row, then of as many rows above as the counter says. */
    method Link(t: Tid, cursors: seq<int>, ghost base: nat)
      requires rows != [] && t in dl && Near1(dl, base, t) && Found(rows, dl, base, dl[t], cursors)
      modifies `rows, `counter
      ensures counter == (old(counter) + 1) % TICKS
      ensures rows == Raised(old(rows), dl, base, t, Height(counter, |old(rows)|))
    {
      hide Linear, FoundUpto, Raised;
      ghost var was := rows;
      RaiseFirst(was, dl, base, t);
      counter := (counter + 1) % TICKS;
      var tst, n := counter, |rows|;
      LinkIs(was, dl, base, t, cursors, n - 1);
      rows := rows[n - 1 := InsertAt(rows[n - 1], After(rows[n - 1], cursors[n - 1]), t)];
      var lvl := 2;
      while lvl <= n
        invariant 2 <= lvl <= n + 1 && |rows| == n == |was| && counter == (old(counter) + 1) % TICKS
        invariant rows == Raised(was, dl, base, t, lvl - 1)
        invariant Height(counter, n) == lvl - 1 + (if lvl <= n then Height(tst, n - lvl + 2) - 1 else 0)
      {
        if tst % 4 != 0 {
          break;
        }
        var i := n - lvl;
        RaiseOne(was, dl, base, t, lvl - 1);
        LinkIs(was, dl, base, t, cursors, i);
        rows := rows[i := InsertAt(rows[i], After(rows[i], cursors[i]), t)];
        tst := tst / 4;
        lvl := lvl + 1;
      }
    }

    /** `_timer_list_next_timeout`: the earliest deadline, if any timer is armed. */
    method NextTimeout(ghost base: nat) returns (ok: bool, tick: nat)
      requires Good(rows, dl, base)
      ensures ok <==> Bottom(rows) != []
      ensures ok ==> Near(base, tick) && exists t :: t in Bottom(rows) && dl[t] == tick
      ensures ok ==> forall t :: t in Bottom(rows) ==> Minus(tick, base) <= Dist(dl, base, t)
    {
      hide Sub, Minus;
      var row := Bottom(rows);
      assert RowOk(row, dl, base);
      ok, tick := row != [], 0;
      if ok {
        assert row[0] in row && Near1(dl, base, row[0]);
        SortedTail(row, dl, base);
        tick := dl[row[0]];
      }
    }

    /** The list part of `rt_timer_start`: the bottom row ends up as after a plain stable insertion. */
    method Start(t: Tid, d: nat, ghost base: nat)
      requires Good(rows, dl, base) && Near(base, d)
      modifies this
      ensures Good(rows, dl, base) && |rows| == |old(rows)| && dl == old(dl)[t := d]
      ensures Bottom(rows) == Linear(Without(Bottom(old(rows)), t), dl, base, t)
    {
      hide Good, Linear, Minus, Dist, RowOk;
      GoodHasRows(rows, dl, base);
      RemovedGood(rows, dl, base, t);
      Remove(t);
      GoodFrame(rows, dl, base, t, d);
      dl := dl[t := d];
      GoodIsNested(rows, dl, base);
      WalkFinds(rows, dl, base, d, HEAD);
      var cursors := Search(d);
      ghost var h := Height((counter + 1) % TICKS, |rows|);
      RaisedGood(rows, dl, base, t, h);
      Link(t, cursors, base);
    }
  }

  lemma LinkIs(rows: seq<seq<Tid>>, dl: Deadlines, base: nat, t: Tid, cursors: seq<int>, i: nat)
    requires Near1(dl, base, t) && Found(rows, dl, base, dl[t], cursors) && i < |rows|
    ensures At(rows[i], cursors[i]) && InsertAt(rows[i], After(rows[i], cursors[i]), t) == Linear(rows[i], dl, base, t)
  {
    DistIs(dl, base, t);
  }

  lemma RaiseFirst(rows: seq<seq<Tid>>, dl: Deadlines, base: nat, t: Tid)
    requires rows != []
    ensures rows[|rows| - 1 := Linear(Bottom(rows), dl, base, t)] == Raised(rows, dl, base, t, 1)
  {
    hide Linear;
  }

  lemma RaiseOne(rows: seq<seq<Tid>>, dl: Deadlines, base: nat, t: Tid, h: nat)
    requires h < |rows|
    ensures var i := |rows| - h - 1;
            && |Raised(rows, dl, base, t, h)| == |rows| && Raised(rows, dl, base, t, h)[i] == rows[i]
            && Raised(rows, dl, base, t, h)[i := Linear(rows[i], dl, base, t)] == Raised(rows, dl, base, t, h + 1)
  {
    hide Linear;
  }

  lemma GoodHasRows(rows: seq<seq<Tid>>, dl: Deadlines, base: nat)
    requires Good(rows, dl, base)
    ensures rows != []
  {
  }

  lemma CursorIs(row: seq<Tid>, cur: int)
    requires At(row, cur)
    ensures CursorAt(row, After(row, cur)) == cur
  {
  }

  lemma AfterNext(row: seq<Tid>, k: nat)
    requires Distinct(row) && k < |row|
    ensures At(row, row[k]) && After(row, row[k]) == k + 1
  {
    IndexIs(row, k);
  }

  lemma InDomain(row: seq<Tid>, dl: Deadlines, base: nat)
    requires AllNear(row, dl, base)
    ensures forall x :: x in row ==> x in dl && dl[x] < TICKS
  {
    assert forall x :: x in row ==> Near1(dl, base, x);
  }

  /** Each cursor stands just before the place of linear insertion. */
  ghost predicate FoundUpto(rows: seq<seq<Tid>>, dl: Deadlines, base: nat, d: nat, cursors: seq<int>)
    requires Near(base, d)
  {
    && |cursors| <= |rows|
    && forall i :: 0 <= i < |cursors| ==>
         At(rows[i], cursors[i]) && After(rows[i], cursors[i]) == Place(rows[i], dl, base, Minus(d, base))
  }

  ghost predicate Found(rows: seq<seq<Tid>>, dl: Deadlines, base: nat, d: nat, cursors: seq<int>)
    requires Near(base, d)
  {
    |cursors| == |rows| && FoundUpto(rows, dl, base, d, cursors)
  }

  lemma DistIs(dl: Deadlines, base: nat, t: Tid)
    requires Near1(dl, base, t)
    ensures Dist(dl, base, t) == Minus(dl[t], base)
  {
  }

  lemma LaterIs(dl: Deadlines, base: nat, x: Tid, d: nat)
    requires Near1(dl, base, x) && Near(base, d)
    ensures Later(dl[x], d) <==> Dist(dl, base, x) > Minus(d, base)
  {
    LaterIsFarther(base, dl[x], d);
  }

  lemma StartIsBefore(row: seq<Tid>, dl: Deadlines, base: nat, cur: int, d: nat)
    requires Sorted(row, dl, base) && At(row, cur) && (cur >= 0 ==> Dist(dl, base, cur) <= d)
    ensures forall i :: 0 <= i < After(row, cur) ==> Dist(dl, base, row[i]) <= d
  {
  }
}
