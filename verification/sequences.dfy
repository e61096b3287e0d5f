/** Facts about sequences without repetition, shared by every list in the kernel. */
module Sequences {

  ghost predicate Distinct<T>(q: seq<T>) {
    forall i, j :: 0 <= i < j < |q| ==> q[i] != q[j]
  }

  ghost function Elements<T>(q: seq<T>): set<T> {
    set x | x in q
  }

  ghost function Upto(n: nat): (r: set<nat>)
    ensures |r| == n && forall x: nat :: x in r <==> x < n
  {
    if n == 0 then {} else Upto(n - 1) + {n - 1}
  }

  lemma HeadTail<T>(q: seq<T>)
    requires q != []
    ensures forall x :: x in q <==> x == q[0] || x in q[1..]
    ensures Distinct(q) ==> Distinct(q[1..]) && q[0] !in q[1..]
  {
    assert q == [q[0]] + q[1..];
    assert forall i :: 0 <= i < |q| - 1 ==> q[1..][i] == q[i + 1];
  }

  lemma ConcatDistinct<T>(a: seq<T>, b: seq<T>)
    requires Distinct(a) && Distinct(b) && forall x :: x in a ==> x !in b
    ensures Distinct(a + b)
  {
    var c := a + b;
    forall i, j | 0 <= i < j < |c| ensures c[i] != c[j] {
      assert c[i] == if i < |a| then a[i] else b[i - |a|];
      assert c[j] == if j < |a| then a[j] else b[j - |a|];
      if i < |a| <= j {
        assert a[i] in a;
      }
    }
  }

  lemma {:induction false} DistinctSize<T>(q: seq<T>)
    requires Distinct(q)
    ensures |Elements(q)| == |q|
  {
    if q != [] {
      HeadTail(q);
      DistinctSize(q[1..]);
      assert Elements(q) == Elements(q[1..]) + {q[0]};
    }
  }

  function Reverse<T>(s: seq<T>): (r: seq<T>)
    ensures |r| == |s| && forall i :: 0 <= i < |s| ==> r[i] == s[|s| - 1 - i]
  {
    seq(|s|, i requires 0 <= i < |s| => s[|s| - 1 - i])
  }

  lemma ReverseElements<T>(s: seq<T>)
    ensures forall x :: x in Reverse(s) <==> x in s
    ensures Distinct(s) ==> Distinct(Reverse(s))
  {
    var r := Reverse(s);
    forall x | x in s ensures x in r {
      var i :| 0 <= i < |s| && s[i] == x;
      assert r[|s| - 1 - i] == x;
    }
  }

  /** Unlinking one node from a list. */
  function Without<T(==)>(q: seq<T>, t: T): (r: seq<T>)
    ensures t !in q ==> r == q
    ensures |r| <= |q|
    ensures forall x :: x in r ==> x in q
    ensures forall x :: x in q && x != t ==> x in r
  {
    if q == [] then []
    else if q[0] == t then q[1..]
    else [q[0]] + Without(q[1..], t)
  }

  lemma {:induction false} WithoutSplit<T>(q: seq<T>, k: nat)
    requires k < |q| && Distinct(q)
    ensures Without(q, q[k]) == q[..k] + q[k + 1..]
  {
    if k > 0 {
      var tail := q[1..];
      assert tail[k - 1] == q[k];
      WithoutSplit(tail, k - 1);
      assert q[..k] == [q[0]] + tail[..k - 1];
      assert q[k + 1..] == tail[k..];
    }
  }

  lemma WithoutKeepsDistinct<T>(q: seq<T>, t: T)
    requires Distinct(q)
    ensures Distinct(Without(q, t)) && t !in Without(q, t)
  {
    if t in q {
      var k :| 0 <= k < |q| && q[k] == t;
      WithoutSplit(q, k);
      var r := q[..k] + q[k + 1..];
      assert forall i :: 0 <= i < |r| ==> r[i] == if i < k then q[i] else q[i + 1];
    }
  }
}
