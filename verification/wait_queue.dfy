/**
 The suspended-thread lists that every blocking kernel object carries, and the
 wake-up bookkeeping that goes with them.
 */
module WaitQueue {
  import opened Common
  import opened Sequences

  /** Thread priorities at one instant; a smaller number is more urgent. */
  type Priorities = Tid -> nat

  datatype Order = Fifo | Prio

  ghost predicate Sorted(q: seq<Tid>, prio: Priorities) {
    forall i, j :: 0 <= i < j < |q| ==> prio(q[i]) <= prio(q[j])
  }

  /** Where the scan of `_ipc_list_suspend` stops: before the first strictly less urgent waiter. */
  function Slot(q: seq<Tid>, t: Tid, prio: Priorities, order: Order): (k: nat)
    ensures k <= |q|
    ensures order.Fifo? ==> k == |q|
    ensures order.Prio? ==> forall i :: 0 <= i < k ==> prio(q[i]) <= prio(t)
    ensures order.Prio? && k < |q| ==> prio(t) < prio(q[k])
  {
    if order.Fifo? || q == [] then |q|
    else if prio(t) < prio(q[0]) then 0
    else
      assert forall i :: 0 < i < |q| ==> q[i] == q[1..][i - 1];
      1 + Slot(q[1..], t, prio, order)
  }

  function Insert(q: seq<Tid>, t: Tid, prio: Priorities, order: Order): seq<Tid> {
    var k := Slot(q, t, prio, order);
    q[..k] + [t] + q[k..]
  }

  /** `_ipc_list_suspend`: the list walk, one node at a time. */
  method Enqueue(q: seq<Tid>, t: Tid, prio: Priorities, order: Order) returns (r: seq<Tid>)
    ensures r == Insert(q, t, prio, order)
  {
    if order.Fifo? {
      return q + [t];
    }
    var n := 0;
    while n < |q| && prio(q[n]) <= prio(t)
      invariant n <= |q|
      invariant forall i :: 0 <= i < n ==> prio(q[i]) <= prio(t)
    {
      n := n + 1;
    }
    SlotUnique(q, t, prio, n);
    r := q[..n] + [t] + q[n..];
  }

  lemma SlotUnique(q: seq<Tid>, t: Tid, prio: Priorities, n: nat)
    requires n <= |q|
    requires forall i :: 0 <= i < n ==> prio(q[i]) <= prio(t)
    requires n < |q| ==> prio(t) < prio(q[n])
    ensures Slot(q, t, prio, Prio) == n
  {
    var k := Slot(q, t, prio, Prio);
  }

  /** Priority order is kept, and the newcomer stands behind every waiter of its own priority. */
  lemma InsertKeepsOrder(q: seq<Tid>, t: Tid, prio: Priorities)
    requires Sorted(q, prio)
    ensures Sorted(Insert(q, t, prio, Prio), prio)
    ensures var k := Slot(q, t, prio, Prio);
            forall i :: 0 <= i < |q| ==> (i < k <==> prio(q[i]) <= prio(t))
  {
    var k := Slot(q, t, prio, Prio);
    var r := Insert(q, t, prio, Prio);
    assert forall i :: 0 <= i < |r| ==> r[i] == if i < k then q[i] else if i == k then t else q[i - 1];
  }

  lemma InsertKeepsDistinct(q: seq<Tid>, t: Tid, prio: Priorities, order: Order)
    requires Distinct(q) && t !in q
    ensures var r := Insert(q, t, prio, order); Distinct(r) && forall x :: x in r <==> x == t || x in q
  {
    var k := Slot(q, t, prio, order);
    var r := Insert(q, t, prio, order);
    assert q == q[..k] + q[k..];
    assert forall i :: 0 <= i < |r| ==> r[i] == if i < k then q[i] else if i == k then t else q[i - 1];
  }

  /** `r` is `q` with `t` in it: at the end, or before the first waiter that is strictly less urgent. */
  ghost predicate Joins(q: seq<Tid>, r: seq<Tid>, t: Tid, prio: Priorities, order: Order) {
    exists k :: 0 <= k <= |q| && r == q[..k] + [t] + q[k..]
      && (if order.Fifo? then k == |q|
          else (forall i :: 0 <= i < k ==> prio(q[i]) <= prio(t)) && (k < |q| ==> prio(t) < prio(q[k])))
  }

  lemma InsertJoins(q: seq<Tid>, t: Tid, prio: Priorities, order: Order)
    ensures Joins(q, Insert(q, t, prio, order), t, prio, order)
  {
    var k := Slot(q, t, prio, order);
    assert Insert(q, t, prio, order) == q[..k] + [t] + q[k..];
  }

  predicate CutAt(q: seq<Tid>, r: seq<Tid>, t: Tid, k: nat) {
    k < |q| && q[k] == t && r == q[..k] + q[k + 1..]
  }

  /** `r` is `q` without `t`; all others stand as they did. */
  ghost predicate Leaves(q: seq<Tid>, r: seq<Tid>, t: Tid) {
    if t in q then exists k: nat :: CutAt(q, r, t, k) else r == q
  }

  lemma CutTail(q: seq<Tid>, r: seq<Tid>, t: Tid, k: nat)
    requires q != [] && CutAt(q[1..], r, t, k)
    ensures CutAt(q, [q[0]] + r, t, k + 1)
  {
    assert q[..k + 1] == [q[0]] + q[1..][..k];
  }

  lemma {:induction false} WithoutLeaves(q: seq<Tid>, t: Tid)
    ensures Leaves(q, Without(q, t), t)
    decreases |q|
  {
    hide CutAt;
    if t in q && q[0] != t {
      WithoutLeaves(q[1..], t);
      var k: nat :| CutAt(q[1..], Without(q[1..], t), t, k);
      CutTail(q, Without(q[1..], t), t, k);
    } else if t in q {
      assert CutAt(q, q[1..], t, 0) by { CutHead(q); }
    }
  }

  lemma CutHead(q: seq<Tid>)
    requires q != []
    ensures CutAt(q, q[1..], q[0], 0)
  {
  }

  /**
   One side of a blocking object: the threads suspended on it in list order, and
   the threads that were resumed without an error but have not yet looked at the
   object again.
   */
  datatype Channel = Channel(waiting: seq<Tid>, pending: set<Tid>) {

    ghost predicate Valid() {
      Distinct(waiting) && forall t :: t in waiting ==> t !in pending
    }

    /** The thread is in nobody's list and owes no re-check. */
    predicate Idle(t: Tid) {
      t !in waiting && t !in pending
    }

    /** While anyone is suspended, every available item is already promised to a resumed thread. */
    predicate NoLostWakeup(items: nat) {
      waiting != [] ==> items <= |pending|
    }

    /** `_ipc_list_resume` behind its emptiness test. */
    function Wake(): Channel {
      if waiting == [] then this else Channel(waiting[1..], pending + {waiting[0]})
    }

    function Block(t: Tid, prio: Priorities, order: Order): Channel {
      Channel(Insert(waiting, t, prio, order), pending - {t})
    }

    function Recheck(t: Tid): Channel {
      Channel(waiting, pending - {t})
    }

    function Expire(t: Tid): Channel {
      Channel(Without(waiting, t), pending)
    }

    /** `_ipc_list_resume_all`: everybody leaves the list, carrying an error. */
    function Flush(): Channel {
      Channel([], pending)
    }
  }

  /** The first waiter, if there is one, is now among those resumed and yet to look; nobody else moved. */
  predicate FirstIsResumed(c: Channel, d: Channel) {
    if c.waiting == [] then d == c else c.waiting == [c.waiting[0]] + d.waiting && d.pending == c.pending + {c.waiting[0]}
  }

  lemma WakeResumes(c: Channel)
    ensures FirstIsResumed(c, c.Wake())
  {
  }

  /** One more item: waking the head of the list pays for it. */
  lemma WakeKeeps(c: Channel, items: nat)
    requires c.Valid() && c.NoLostWakeup(items)
    ensures c.Wake().Valid() && c.Wake().NoLostWakeup(items + 1)
  {
    if c.waiting != [] {
      assert |c.pending + {c.waiting[0]}| == |c.pending| + 1;
    }
  }

  /** An item leaves with the thread that looked again, or with one that never slept. */
  lemma RecheckKeeps(c: Channel, t: Tid, items: nat)
    requires c.Valid() && c.NoLostWakeup(items)
    ensures c.Recheck(t).Valid() && c.Recheck(t).NoLostWakeup(if items > 0 then items - 1 else 0)
  {
    if t in c.pending {
      assert |c.pending - {t}| == |c.pending| - 1;
    } else {
      assert c.pending - {t} == c.pending;
    }
  }

  /** Nothing there: the thread suspends itself, whatever it was promised. */
  lemma BlockKeeps(c: Channel, t: Tid, prio: Priorities, order: Order)
    requires c.Valid() && t !in c.waiting
    ensures c.Block(t, prio, order).Valid() && c.Block(t, prio, order).NoLostWakeup(0)
    ensures t in c.Block(t, prio, order).waiting
  {
    InsertKeepsDistinct(c.waiting, t, prio, order);
  }

  lemma ExpireKeeps(c: Channel, t: Tid, items: nat)
    requires c.Valid() && c.NoLostWakeup(items)
    ensures c.Expire(t).Valid() && c.Expire(t).NoLostWakeup(items)
  {
    WithoutKeepsDistinct(c.waiting, t);
  }
}
