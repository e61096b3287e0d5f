/**
 Mutexes with priority inheritance. A thread that has to wait lends its priority
 to the owner; the owner's last release takes it back and hands the mutex to the
 first waiter.
 */
module Mutex {
  import opened Common
  import opened Sequences
  import opened WaitQueue

  /** `RT_MUTEX_HOLD_MAX` */
  const HOLD_MAX: nat := 255

  /** `RT_MUTEX_VALUE_MAX` */
  const VALUE_MAX: nat := 65535

  /** The stored priority of a mutex nobody owns. */
  const NO_PRIORITY: nat := 0xFF

  datatype Option<T> = None | Some(value: T)

  /** `asked` records the priorities of the threads that have begun to wait under the present owner. */
  datatype Mutex = Mutex(value: nat, owner: Option<Tid>, hold: nat, original: nat, waiting: seq<Tid>, asked: seq<nat>)

  /** The most urgent of a priority and those asked for. */
  function Least(p: nat, asked: seq<nat>): (r: nat)
    ensures r <= p && (forall q :: q in asked ==> r <= q) && (r == p || r in asked)
  {
    if asked == [] then p
    else
      var n := |asked| - 1;
      assert asked == asked[..n] + [asked[n]];
      if asked[n] < Least(p, asked[..n]) then asked[n] else Least(p, asked[..n])
  }

  /**
   `granted` holds the threads whose blocked take has been answered but has not
   returned yet; `arrival` and `clock` number the waits in the order they began.
   */
  datatype State = State(
    mutexes: seq<Mutex>, prio: map<Tid, nat>, granted: map<Tid, nat>, arrival: map<Tid, nat>, clock: nat)

  datatype Outcome = Taken | Waits | TimedOut | Full | NotOwner | Given

  function Of(prio: map<Tid, nat>): Priorities {
    (t: Tid) => if t in prio then prio[t] else 0
  }

  function Set(s: State, m: nat, x: Mutex): State
    requires m < |s.mutexes|
  {
    s.(mutexes := s.mutexes[m := x])
  }

  /** `rt_mutex_take`, up to the point where it returns or the thread is suspended. */
  function Take(s: State, m: nat, t: Tid, wait: bool): (State, Outcome)
    requires m < |s.mutexes|
  {
    var x := s.mutexes[m];
    if x.owner == Some(t) then
      if x.hold < HOLD_MAX then (Set(s, m, x.(hold := x.hold + 1)), Taken) else (s, Full)
    else if x.value > 0 then
      var y := x.(value := x.value - 1, owner := Some(t), original := Of(s.prio)(t), asked := []);
      if x.hold < HOLD_MAX then (Set(s, m, y.(hold := x.hold + 1)), Taken) else (Set(s, m, y), Full)
    else if !wait then (s, TimedOut)
    else (Blocked(s, m, t), Waits)
  }

  /** The owner inherits the priority of a more urgent newcomer. */
  function Lent(s: State, m: nat, t: Tid): map<Tid, nat>
    requires m < |s.mutexes|
  {
    var x := s.mutexes[m];
    if x.owner.Some? && Of(s.prio)(t) < Of(s.prio)(x.owner.value) then s.prio[x.owner.value := Of(s.prio)(t)] else s.prio
  }

  function Blocked(s: State, m: nat, t: Tid): State
    requires m < |s.mutexes|
  {
    var prio := Lent(s, m, t);
    var x := s.mutexes[m];
    Set(s, m, x.(waiting := Insert(x.waiting, t, Of(prio), Prio), asked := x.asked + [Of(s.prio)(t)]))
      .(prio := prio, arrival := s.arrival[t := s.clock], clock := s.clock + 1)
  }

  /** `rt_mutex_release` */
  function Release(s: State, m: nat, t: Tid): (State, Outcome)
    requires m < |s.mutexes|
  {
    var x := s.mutexes[m];
    if x.owner != Some(t) then (s, NotOwner)
    else if x.hold != 1 then (Set(s, m, x.(hold := if x.hold > 0 then x.hold - 1 else 255)), Given)
    else LastRelease(s, m, t)
  }

  function LastRelease(s: State, m: nat, t: Tid): (State, Outcome)
    requires m < |s.mutexes|
  {
    var x := s.mutexes[m];
    var u := s.(prio := if t in s.prio then s.prio[t := x.original] else s.prio);
    if x.waiting != [] then
      var w := x.waiting[0];
      var y := x.(owner := Some(w), original := Of(u.prio)(w), hold := 1, waiting := x.waiting[1..], asked := []);
      (Set(u, m, y).(granted := s.granted[w := m]), Given)
    else if x.value < VALUE_MAX then (Set(u, m, Mutex(x.value + 1, None, 0, NO_PRIORITY, [], [])), Given)
    else (Set(u, m, x.(hold := 0)), Full)
  }

  /** The thread timer runs out while its thread waits. */
  function Expire(s: State, m: nat, t: Tid): State
    requires m < |s.mutexes|
  {
    Set(s, m, s.mutexes[m].(waiting := Without(s.mutexes[m].waiting, t)))
  }

  /** A blocked take that was answered returns to its caller. */
  function Return(s: State, t: Tid): State {
    s.(granted := s.granted - {t})
  }

  /* The invariant */

  predicate Uses(x: Mutex, t: Tid) {
    x.owner == Some(t) || t in x.waiting
  }

  /** More urgent waiters first, and of equals the one that came first. */
  ghost predicate Before(s: State, a: Tid, b: Tid) {
    && a in s.prio && b in s.prio && a in s.arrival && b in s.arrival
    && (s.prio[a] < s.prio[b] || (s.prio[a] == s.prio[b] && s.arrival[a] < s.arrival[b]))
  }

  ghost predicate QueueOk(s: State, q: seq<Tid>) {
    && Distinct(q)
    && (forall w :: w in q ==> w in s.prio && w in s.arrival && s.arrival[w] < s.clock)
    && (forall i, j :: 0 <= i < j < |q| ==> Before(s, q[i], q[j]))
  }

  /**
   The owner's own priority is kept in `original`; it runs at that or at the most
   urgent priority lent to it, and at least as urgently as every waiter.
   */
  ghost predicate OwnerOk(s: State, x: Mutex, o: Tid, base: map<Tid, nat>) {
    && o in s.prio && o in base && o !in x.waiting
    && x.original == base[o] && s.prio[o] == Least(base[o], x.asked)
    && forall w :: w in x.waiting ==> w in s.prio && s.prio[o] <= s.prio[w]
  }

  ghost predicate MutexOk(s: State, x: Mutex, base: map<Tid, nat>) {
    && QueueOk(s, x.waiting)
    && (x.value == 1 <==> x.owner.None?) && (x.owner.None? <==> x.hold == 0) && x.value <= 1 && x.hold <= HOLD_MAX
    && (x.owner.None? ==> x.waiting == [])
    && (x.owner.Some? ==> OwnerOk(s, x, x.owner.value, base))
  }

  ghost predicate Owns(s: State, t: Tid) {
    exists m :: 0 <= m < |s.mutexes| && s.mutexes[m].owner == Some(t)
  }

  /** No thread holds or waits for two mutexes, and whoever owns none runs at its own priority. */
  ghost predicate ThreadsOk(s: State, base: map<Tid, nat>) {
    && s.prio.Keys == base.Keys
    && (forall m, n, t :: 0 <= m < n < |s.mutexes| ==> !(Uses(s.mutexes[m], t) && Uses(s.mutexes[n], t)))
    && (forall t :: t in s.prio && !Owns(s, t) ==> s.prio[t] == base[t])
  }

  /** A blocked take that has been answered has made its thread the owner. */
  ghost predicate GrantsOk(s: State) {
    forall t :: t in s.granted ==>
      s.granted[t] < |s.mutexes| && s.mutexes[s.granted[t]].owner == Some(t) && s.mutexes[s.granted[t]].hold == 1
  }

  ghost predicate Inv(s: State, base: map<Tid, nat>) {
    && (forall m :: 0 <= m < |s.mutexes| ==> MutexOk(s, s.mutexes[m], base))
    && ThreadsOk(s, base) && GrantsOk(s)
  }

  /** A running thread: it waits for nothing, and its last take has returned. */
  predicate Active(s: State, t: Tid) {
    && t in s.prio && t !in s.granted
    && forall m :: 0 <= m < |s.mutexes| ==> t !in s.mutexes[m].waiting
  }

  /** The thread has no business with any other mutex. */
  predicate Single(s: State, m: nat, t: Tid) {
    forall n :: 0 <= n < |s.mutexes| && n != m ==> !Uses(s.mutexes[n], t)
  }

  /* Frames */

  /** Priorities and arrival numbers of the threads in `q` are what they were. */
  ghost predicate SameFor(s: State, u: State, x: Mutex) {
    && u.clock >= s.clock && u.prio.Keys == s.prio.Keys
    && forall t :: Uses(x, t) && t in s.prio ==>
         u.prio[t] == s.prio[t] && (t in s.arrival ==> t in u.arrival && u.arrival[t] == s.arrival[t])
  }

  lemma QueueFrame(s: State, u: State, q: seq<Tid>, x: Mutex)
    requires QueueOk(s, q) && SameFor(s, u, x) && forall w :: w in q ==> w in x.waiting
    ensures QueueOk(u, q)
  {
    forall i, j | 0 <= i < j < |q| ensures Before(u, q[i], q[j]) {
      assert Before(s, q[i], q[j]) && q[i] in x.waiting && q[j] in x.waiting;
    }
  }

  lemma MutexFrame(s: State, u: State, x: Mutex, base: map<Tid, nat>)
    requires MutexOk(s, x, base) && SameFor(s, u, x)
    ensures MutexOk(u, x, base)
  {
    hide QueueOk;
    QueueFrame(s, u, x.waiting, x);
    if x.owner.Some? {
      assert Uses(x, x.owner.value);
      InQueue(s, x.waiting);
      assert forall w :: w in x.waiting ==> Uses(x, w);
    }
  }

  lemma InQueue(s: State, q: seq<Tid>)
    requires QueueOk(s, q)
    ensures forall w :: w in q ==> w in s.prio && w in s.arrival
  {
  }

  /** A step that changes mutex `m` and at most the priority of its users. */
  ghost predicate OnlyAt(s: State, u: State, m: nat) {
    && m < |s.mutexes| == |u.mutexes| && u.mutexes == s.mutexes[m := u.mutexes[m]]
    && forall n :: 0 <= n < |s.mutexes| && n != m ==> SameFor(s, u, s.mutexes[n])
  }

  lemma MutexesStep(s: State, u: State, m: nat, base: map<Tid, nat>)
    requires OnlyAt(s, u, m) && MutexOk(u, u.mutexes[m], base)
    requires forall n :: 0 <= n < |s.mutexes| ==> MutexOk(s, s.mutexes[n], base)
    ensures forall n :: 0 <= n < |u.mutexes| ==> MutexOk(u, u.mutexes[n], base)
  {
    hide MutexOk, SameFor;
    forall n | 0 <= n < |u.mutexes| ensures MutexOk(u, u.mutexes[n], base) {
      if n != m {
        MutexFrame(s, u, s.mutexes[n], base);
      }
    }
  }

  lemma SamePrioSame(s: State, u: State, m: nat)
    requires m < |s.mutexes| && u.prio == s.prio && u.arrival == s.arrival && u.clock == s.clock
    requires |u.mutexes| == |s.mutexes| && u.mutexes == s.mutexes[m := u.mutexes[m]]
    ensures OnlyAt(s, u, m)
  {
  }

  /** The users of mutex `m` are as before, give or take a thread without other business. */
  lemma ThreadsStep(s: State, u: State, m: nat, t: Tid, base: map<Tid, nat>)
    requires ThreadsOk(s, base) && m < |s.mutexes| == |u.mutexes| && u.mutexes == s.mutexes[m := u.mutexes[m]]
    requires u.prio.Keys == s.prio.Keys && Single(s, m, t)
    requires forall x :: Uses(u.mutexes[m], x) ==> x == t || Uses(s.mutexes[m], x)
    requires forall x :: x in u.prio && !Owns(u, x) ==> u.prio[x] == base[x]
    ensures ThreadsOk(u, base)
  {
    forall a, b, x | 0 <= a < b < |u.mutexes| ensures !(Uses(u.mutexes[a], x) && Uses(u.mutexes[b], x)) {
      assert !(Uses(s.mutexes[a], x) && Uses(s.mutexes[b], x));
    }
  }

  lemma OwnsFrame(s: State, u: State, m: nat, x: Tid)
    requires m < |s.mutexes| == |u.mutexes| && u.mutexes == s.mutexes[m := u.mutexes[m]]
    ensures Owns(u, x) ==> Owns(s, x) || u.mutexes[m].owner == Some(x)
    ensures Owns(s, x) ==> Owns(u, x) || (s.mutexes[m].owner == Some(x) && u.mutexes[m].owner != Some(x))
  {
    if Owns(s, x) && s.mutexes[m].owner != Some(x) {
      var n :| 0 <= n < |s.mutexes| && s.mutexes[n].owner == Some(x);
      assert u.mutexes[n].owner == Some(x);
    }
    if u.mutexes[m].owner == Some(x) {
      assert Owns(u, x);
    }
  }

  /** A thread with business only at `m` that does not own it owns nothing. */
  lemma OwnsNothing(s: State, m: nat, t: Tid)
    requires m < |s.mutexes| && Single(s, m, t) && s.mutexes[m].owner != Some(t)
    ensures !Owns(s, t)
  {
    if Owns(s, t) {
      var n :| 0 <= n < |s.mutexes| && s.mutexes[n].owner == Some(t);
      assert Uses(s.mutexes[n], t);
    }
  }

  /** Grants at other mutexes stand; those at `m` are given. */
  lemma GrantsStep(s: State, u: State, m: nat)
    requires GrantsOk(s) && m < |s.mutexes| == |u.mutexes| && u.mutexes == s.mutexes[m := u.mutexes[m]]
    requires forall t :: t in u.granted && u.granted[t] != m ==> t in s.granted && s.granted[t] == u.granted[t]
    requires forall t :: t in u.granted && u.granted[t] == m ==> u.mutexes[m].owner == Some(t) && u.mutexes[m].hold == 1
    ensures GrantsOk(u)
  {
  }

  /* Taking */

  lemma TakeAgainKeepsInv(s: State, m: nat, t: Tid, base: map<Tid, nat>)
    requires Inv(s, base) && Active(s, t) && m < |s.mutexes| && Single(s, m, t)
    requires s.mutexes[m].owner == Some(t) && s.mutexes[m].hold < HOLD_MAX
    ensures Inv(Take(s, m, t, false).0, base)
  {
    hide QueueOk;
    var x, u := s.mutexes[m], Take(s, m, t, false).0;
    assert MutexOk(s, x, base);
    SamePrioSame(s, u, m);
    QueueFrame(s, u, x.waiting, x);
    MutexesStep(s, u, m, base);
    forall y | y in u.prio && !Owns(u, y) ensures u.prio[y] == base[y] { OwnsFrame(s, u, m, y); }
    ThreadsStep(s, u, m, t, base);
    GrantsStep(s, u, m);
  }

  lemma TakeFreeKeepsInv(s: State, m: nat, t: Tid, base: map<Tid, nat>)
    requires Inv(s, base) && Active(s, t) && m < |s.mutexes| && Single(s, m, t)
    requires s.mutexes[m].owner != Some(t) && s.mutexes[m].value > 0
    ensures Inv(Take(s, m, t, false).0, base) && Take(s, m, t, false).1 == Taken
  {
    var x, u := s.mutexes[m], Take(s, m, t, false).0;
    assert MutexOk(s, x, base);
    OwnsNothing(s, m, t);
    SamePrioSame(s, u, m);
    assert MutexOk(u, u.mutexes[m], base);
    MutexesStep(s, u, m, base);
    forall y | y in u.prio && !Owns(u, y) ensures u.prio[y] == base[y] { OwnsFrame(s, u, m, y); }
    ThreadsStep(s, u, m, t, base);
    GrantsStep(s, u, m);
  }

  lemma LentIs(s: State, m: nat, t: Tid, base: map<Tid, nat>)
    requires m < |s.mutexes| && MutexOk(s, s.mutexes[m], base) && t in s.prio && s.mutexes[m].owner.Some?
    ensures var p, o := Lent(s, m, t), s.mutexes[m].owner.value;
            && p.Keys == s.prio.Keys && o in s.prio
            && p[o] <= s.prio[o] && p[o] <= s.prio[t]
            && o in base && p[o] == Least(base[o], s.mutexes[m].asked + [s.prio[t]])
            && forall y :: y in s.prio && y != o ==> p[y] == s.prio[y]
  {
    hide QueueOk;
    var a := s.mutexes[m].asked;
    assert (a + [s.prio[t]])[..|a|] == a;
  }

  /** The newcomer stands behind every waiter that is at least as urgent. */
  lemma InsertedQueue(s: State, u: State, q: seq<Tid>, t: Tid)
    requires QueueOk(s, q) && t in s.prio && t !in q
    requires u.prio.Keys == s.prio.Keys && u.prio[t] == s.prio[t] && (forall w :: w in q ==> w in s.prio && u.prio[w] == s.prio[w])
    requires u.arrival == s.arrival[t := s.clock] && u.clock == s.clock + 1
    ensures QueueOk(u, Insert(q, t, Of(u.prio), Prio))
  {
    hide Insert, Slot, Of, Distinct;
    var k := Slot(q, t, Of(u.prio), Prio);
    var r := Insert(q, t, Of(u.prio), Prio);
    QueueDistinct(s, q);
    InsertKeepsDistinct(q, t, Of(u.prio), Prio);
    OldQueue(s, u, q, t);
    SlotIs(u, q, t);
    forall i, j | 0 <= i < j < |r| ensures Before(u, r[i], r[j]) {
      if i == k {
        assert k < j - 1 ==> Before(u, q[k], q[j - 1]);
      } else if j != k {
        assert Before(u, q[if i < k then i else i - 1], q[if j < k then j else j - 1]);
      }
    }
  }

  lemma SlotIs(u: State, q: seq<Tid>, t: Tid)
    requires QueueOk(u, q) && t in u.prio
    ensures var k, r := Slot(q, t, Of(u.prio), Prio), Insert(q, t, Of(u.prio), Prio);
            && |r| == |q| + 1
            && (forall i {:trigger r[i]} :: 0 <= i < |r| ==> r[i] == if i < k then q[i] else if i == k then t else q[i - 1])
            && (forall i :: 0 <= i < k ==> q[i] in u.prio && u.prio[q[i]] <= u.prio[t])
            && (k < |q| ==> q[k] in u.prio && u.prio[t] < u.prio[q[k]])
  {
    var k := Slot(q, t, Of(u.prio), Prio);
    forall i | 0 <= i < k ensures q[i] in u.prio && u.prio[q[i]] <= u.prio[t] {
      assert q[i] in q;
    }
    assert k < |q| ==> q[k] in q;
  }

  lemma OldQueue(s: State, u: State, q: seq<Tid>, t: Tid)
    requires QueueOk(s, q) && t !in q && t in s.prio
    requires u.prio.Keys == s.prio.Keys && (forall w :: w in q ==> w in s.prio && u.prio[w] == s.prio[w])
    requires u.arrival == s.arrival[t := s.clock] && u.clock == s.clock + 1
    ensures QueueOk(u, q)
  {
    forall i, j | 0 <= i < j < |q| ensures Before(u, q[i], q[j]) {
      assert Before(s, q[i], q[j]) && q[i] in q && q[j] in q;
    }
  }

  lemma BlockKeepsMutex(s: State, m: nat, t: Tid, base: map<Tid, nat>)
    requires Inv(s, base) && Active(s, t) && m < |s.mutexes| && Single(s, m, t)
    requires s.mutexes[m].owner != Some(t) && s.mutexes[m].value == 0
    ensures MutexOk(Blocked(s, m, t), Blocked(s, m, t).mutexes[m], base)
  {
    hide QueueOk, Before, Lent, ThreadsOk, Insert, Least;
    var x, u := s.mutexes[m], Blocked(s, m, t);
    assert MutexOk(s, x, base);
    LentIs(s, m, t, base);
    InQueue(s, x.waiting);
    InsertedQueue(s, u, x.waiting, t);
    QueueDistinct(s, x.waiting);
    InsertKeepsDistinct(x.waiting, t, Of(u.prio), Prio);
  }

  lemma QueueDistinct(s: State, q: seq<Tid>)
    requires QueueOk(s, q)
    ensures Distinct(q)
  {
  }

  lemma BlockKeepsOthers(s: State, m: nat, t: Tid, base: map<Tid, nat>)
    requires Inv(s, base) && Active(s, t) && m < |s.mutexes| && Single(s, m, t)
    requires s.mutexes[m].owner != Some(t) && s.mutexes[m].value == 0
    ensures OnlyAt(s, Blocked(s, m, t), m)
  {
    hide QueueOk, Before, Lent, Insert;
    var x, u := s.mutexes[m], Blocked(s, m, t);
    assert MutexOk(s, x, base);
    LentIs(s, m, t, base);
    var o := x.owner.value;
    forall n | 0 <= n < |s.mutexes| && n != m ensures SameFor(s, u, s.mutexes[n]) {
      assert Uses(x, o);
      assert !Uses(s.mutexes[n], o);
    }
  }

  lemma BlockKeepsInv(s: State, m: nat, t: Tid, base: map<Tid, nat>)
    requires Inv(s, base) && Active(s, t) && m < |s.mutexes| && Single(s, m, t)
    requires s.mutexes[m].owner != Some(t) && s.mutexes[m].value == 0
    ensures Inv(Blocked(s, m, t), base)
  {
    hide QueueOk, Before, Lent, Insert, OnlyAt, OwnerOk, Single;
    var x, u := s.mutexes[m], Blocked(s, m, t);
    assert MutexOk(s, x, base);
    LentIs(s, m, t, base);
    BlockKeepsMutex(s, m, t, base);
    BlockKeepsOthers(s, m, t, base);
    MutexesStep(s, u, m, base);
    forall y | y in u.prio && !Owns(u, y) ensures u.prio[y] == base[y] { OwnsFrame(s, u, m, y); }
    QueueDistinct(s, x.waiting);
    InsertKeepsDistinct(x.waiting, t, Of(u.prio), Prio);
    ThreadsStep(s, u, m, t, base);
    GrantsStep(s, u, m);
  }

  /* Releasing */

  lemma ReleaseSomeKeepsInv(s: State, m: nat, t: Tid, base: map<Tid, nat>)
    requires Inv(s, base) && Active(s, t) && m < |s.mutexes| && Single(s, m, t)
    requires s.mutexes[m].owner == Some(t) && s.mutexes[m].hold > 1
    ensures Inv(Release(s, m, t).0, base)
  {
    hide QueueOk;
    var x, u := s.mutexes[m], Release(s, m, t).0;
    assert MutexOk(s, x, base);
    SamePrioSame(s, u, m);
    QueueFrame(s, u, x.waiting, x);
    MutexesStep(s, u, m, base);
    forall y | y in u.prio && !Owns(u, y) ensures u.prio[y] == base[y] { OwnsFrame(s, u, m, y); }
    ThreadsStep(s, u, m, t, base);
    GrantsStep(s, u, m);
  }

  lemma TailQueue(s: State, u: State, q: seq<Tid>)
    requires QueueOk(s, q) && q != [] && u.arrival == s.arrival && u.clock == s.clock
    requires u.prio.Keys == s.prio.Keys && forall w :: w in q ==> w in s.prio && u.prio[w] == s.prio[w]
    ensures QueueOk(u, q[1..]) && q[0] !in q[1..]
    ensures forall w :: w in q[1..] ==> w in s.prio && s.prio[q[0]] <= s.prio[w]
  {
    HeadTail(q);
    var r := q[1..];
    forall i, j | 0 <= i < j < |r| ensures Before(u, r[i], r[j]) {
      assert Before(s, q[i + 1], q[j + 1]) && q[i + 1] in q && q[j + 1] in q;
    }
    forall w | w in r ensures w in s.prio && s.prio[q[0]] <= s.prio[w] {
      var i :| 0 <= i < |r| && r[i] == w;
      assert Before(s, q[0], q[i + 1]);
    }
  }

  lemma LastReleaseKeepsMutex(s: State, m: nat, t: Tid, base: map<Tid, nat>)
    requires Inv(s, base) && Active(s, t) && m < |s.mutexes| && Single(s, m, t)
    requires s.mutexes[m].owner == Some(t) && s.mutexes[m].hold == 1
    ensures var (u, r) := LastRelease(s, m, t);
            MutexOk(u, u.mutexes[m], base) && r == Given && u.prio == s.prio[t := base[t]] && t in base
  {
    hide QueueOk, Before;
    var x, u := s.mutexes[m], LastRelease(s, m, t).0;
    assert MutexOk(s, x, base);
    InQueue(s, x.waiting);
    if x.waiting != [] {
      TailQueue(s, u, x.waiting);
      var w := x.waiting[0];
      assert w in x.waiting;
      WaiterOwnsNothing(s, m, w, base);
    } else {
      assert QueueOk(u, []) by { EmptyQueue(u); }
    }
  }

  lemma EmptyQueue(s: State)
    ensures QueueOk(s, [])
  {
  }

  lemma WaiterOwnsNothing(s: State, m: nat, w: Tid, base: map<Tid, nat>)
    requires Inv(s, base) && m < |s.mutexes| && w in s.mutexes[m].waiting
    ensures w in s.prio && w in base && !Owns(s, w) && s.prio[w] == base[w] && Single(s, m, w)
  {
    var x := s.mutexes[m];
    assert MutexOk(s, x, base);
    assert Uses(x, w);
    forall n | 0 <= n < |s.mutexes| && n != m ensures !Uses(s.mutexes[n], w) {
      assert !(Uses(s.mutexes[if n < m then n else m], w) && Uses(s.mutexes[if n < m then m else n], w));
    }
    OwnsNothing(s, m, w);
  }

  lemma LastReleaseKeepsInv(s: State, m: nat, t: Tid, base: map<Tid, nat>)
    requires Inv(s, base) && Active(s, t) && m < |s.mutexes| && Single(s, m, t)
    requires s.mutexes[m].owner == Some(t) && s.mutexes[m].hold == 1
    ensures Inv(LastRelease(s, m, t).0, base)
  {
    hide QueueOk, Before, OwnerOk, Distinct;
    var x, u := s.mutexes[m], LastRelease(s, m, t).0;
    assert MutexOk(s, x, base);
    LastReleaseKeepsMutex(s, m, t, base);
    assert OnlyAt(s, u, m);
    MutexesStep(s, u, m, base);
    if x.waiting != [] {
      HeadTail(x.waiting);
      WaiterOwnsNothing(s, m, x.waiting[0], base);
    }
    forall y | y in u.prio && !Owns(u, y) ensures u.prio[y] == base[y] { OwnsFrame(s, u, m, y); }
    ThreadsStep(s, u, m, t, base);
    GrantsStep(s, u, m);
  }

  /* Time running out */

  lemma SameQueue(s: State, u: State, q: seq<Tid>)
    requires QueueOk(s, q) && u.arrival == s.arrival && u.clock == s.clock && u.prio == s.prio
    ensures QueueOk(u, q)
  {
    forall i, j | 0 <= i < j < |q| ensures Before(u, q[i], q[j]) {
      assert Before(s, q[i], q[j]);
    }
  }

  lemma WithoutQueue(s: State, u: State, q: seq<Tid>, t: Tid)
    requires QueueOk(s, q) && u.arrival == s.arrival && u.clock == s.clock && u.prio == s.prio
    ensures QueueOk(u, Without(q, t)) && t !in Without(q, t)
  {
    hide Before, Distinct, Without;
    WithoutKeepsDistinct(q, t);
    if t in q {
      var k :| 0 <= k < |q| && q[k] == t;
      WithoutSplit(q, k);
      var r := q[..k] + q[k + 1..];
      assert forall i {:trigger r[i]} :: 0 <= i < |r| ==> r[i] == if i < k then q[i] else q[i + 1];
      forall i, j | 0 <= i < j < |r| ensures Before(s, r[i], r[j]) {
        assert Before(s, q[if i < k then i else i + 1], q[if j < k then j else j + 1]);
      }
    }
    SameQueue(s, u, Without(q, t));
  }

  lemma ExpireKeepsInv(s: State, m: nat, t: Tid, base: map<Tid, nat>)
    requires Inv(s, base) && m < |s.mutexes| && t in s.mutexes[m].waiting
    ensures Inv(Expire(s, m, t), base) && t !in Expire(s, m, t).mutexes[m].waiting
  {
    hide QueueOk, Before, Without;
    var x, u := s.mutexes[m], Expire(s, m, t);
    assert MutexOk(s, x, base);
    WithoutQueue(s, u, x.waiting, t);
    SamePrioSame(s, u, m);
    WaiterOwnsNothing(s, m, t, base);
    MutexesStep(s, u, m, base);
    forall y | y in u.prio && !Owns(u, y) ensures u.prio[y] == base[y] { OwnsFrame(s, u, m, y); }
    ThreadsStep(s, u, m, t, base);
    GrantsStep(s, u, m);
  }

  /* Every run */

  datatype Action = Taking(t: Tid, m: nat, wait: bool) | Releasing(t: Tid, m: nat) | Expiring(t: Tid, m: nat) | Returning(t: Tid)

  /** No thread holds or waits for more than one mutex; otherwise anything goes. */
  predicate Enabled(s: State, a: Action) {
    match a
    case Taking(t, m, _) => Active(s, t) && m < |s.mutexes| && Single(s, m, t)
    case Releasing(t, m) => Active(s, t) && m < |s.mutexes|
    case Expiring(t, m) => m < |s.mutexes| && t in s.mutexes[m].waiting
    case Returning(t) => t in s.granted
  }

  function Step(s: State, a: Action): State
    requires Enabled(s, a)
  {
    match a
    case Taking(t, m, wait) => Take(s, m, t, wait).0
    case Releasing(t, m) => Release(s, m, t).0
    case Expiring(t, m) => Expire(s, m, t)
    case Returning(t) => Return(s, t)
  }

  lemma TakeKeepsInv(s: State, m: nat, t: Tid, wait: bool, base: map<Tid, nat>)
    requires Inv(s, base) && Active(s, t) && m < |s.mutexes| && Single(s, m, t)
    ensures Inv(Take(s, m, t, wait).0, base)
    ensures Take(s, m, t, wait).1 == Taken <==>
              s.mutexes[m].owner == None || (s.mutexes[m].owner == Some(t) && s.mutexes[m].hold < HOLD_MAX)
    ensures Take(s, m, t, wait).1 == Full <==> s.mutexes[m].owner == Some(t) && s.mutexes[m].hold == HOLD_MAX
  {
    hide Active, Single, ThreadsOk, GrantsOk, QueueOk, OwnerOk, Blocked;
    var x := s.mutexes[m];
    assert MutexOk(s, x, base);
    if x.owner == Some(t) {
      if x.hold < HOLD_MAX {
        TakeAgainKeepsInv(s, m, t, base);
      }
    } else if x.value > 0 {
      TakeFreeKeepsInv(s, m, t, base);
    } else if wait {
      BlockKeepsInv(s, m, t, base);
    }
  }

  lemma OwnerIsSingle(s: State, m: nat, t: Tid, base: map<Tid, nat>)
    requires ThreadsOk(s, base) && m < |s.mutexes| && s.mutexes[m].owner == Some(t)
    ensures Single(s, m, t)
  {
    assert Uses(s.mutexes[m], t);
    forall n | 0 <= n < |s.mutexes| && n != m ensures !Uses(s.mutexes[n], t) {
      assert !(Uses(s.mutexes[if n < m then n else m], t) && Uses(s.mutexes[if n < m then m else n], t));
    }
  }

  /** The last release gives the owner its own priority back and makes the first waiter the owner. */
  lemma ReleaseKeepsInv(s: State, m: nat, t: Tid, base: map<Tid, nat>)
    requires Inv(s, base) && Active(s, t) && m < |s.mutexes|
    ensures var (u, r) := Release(s, m, t);
            && Inv(u, base)
            && (r == NotOwner <==> s.mutexes[m].owner != Some(t)) && (r == NotOwner ==> u == s)
            && (r != NotOwner ==> r == Given)
            && (r == Given && s.mutexes[m].hold == 1 ==>
                 && t in base && u.prio == s.prio[t := base[t]]
                 && u.mutexes[m].owner == if s.mutexes[m].waiting == [] then None else Some(s.mutexes[m].waiting[0]))
  {
    hide Active, Single, ThreadsOk, GrantsOk, QueueOk, OwnerOk;
    var x := s.mutexes[m];
    assert MutexOk(s, x, base);
    if x.owner == Some(t) {
      OwnerIsSingle(s, m, t, base);
      if x.hold == 1 {
        LastReleaseKeepsMutex(s, m, t, base);
        LastReleaseKeepsInv(s, m, t, base);
      } else {
        ReleaseSomeKeepsInv(s, m, t, base);
      }
    }
  }

  lemma ReturnKeepsInv(s: State, t: Tid, base: map<Tid, nat>)
    requires Inv(s, base)
    ensures Inv(Return(s, t), base)
  {
    hide QueueOk, MutexOk;
    var u := Return(s, t);
    forall m | 0 <= m < |u.mutexes| ensures MutexOk(u, u.mutexes[m], base) {
      assert MutexOk(s, s.mutexes[m], base);
      MutexFrame(s, u, s.mutexes[m], base);
    }
    forall y | y in u.prio && !Owns(u, y) ensures u.prio[y] == base[y] {
      assert !Owns(s, y);
    }
  }

  lemma StepKeepsInv(s: State, a: Action, base: map<Tid, nat>)
    requires Inv(s, base) && Enabled(s, a)
    ensures Inv(Step(s, a), base)
  {
    hide Inv, Active, Single;
    match a
    case Taking(t, m, wait) => TakeKeepsInv(s, m, t, wait, base);
    case Releasing(t, m) => ReleaseKeepsInv(s, m, t, base);
    case Expiring(t, m) => ExpireKeepsInv(s, m, t, base);
    case Returning(t) => ReturnKeepsInv(s, t, base);
  }

  ghost predicate Possible(s: State, run: seq<Action>)
    decreases |run|
  {
    run == [] || (Enabled(s, run[0]) && Possible(Step(s, run[0]), run[1..]))
  }

  ghost function Run(s: State, run: seq<Action>): State
    requires Possible(s, run)
    decreases |run|
  {
    if run == [] then s else Run(Step(s, run[0]), run[1..])
  }

  lemma {:induction false} EveryRunKeepsInv(s: State, run: seq<Action>, base: map<Tid, nat>)
    requires Inv(s, base) && Possible(s, run)
    ensures Inv(Run(s, run), base)
    decreases |run|
  {
    hide Inv;
    if run != [] {
      StepKeepsInv(s, run[0], base);
      EveryRunKeepsInv(Step(s, run[0]), run[1..], base);
    }
  }

  /** What inheritance is for: in every run the owner is at least as urgent as anyone who waits for it. */
  lemma OwnerIsUrgent(s: State, run: seq<Action>, base: map<Tid, nat>, m: nat, w: Tid)
    requires Inv(s, base) && Possible(s, run) && m < |Run(s, run).mutexes| && w in Run(s, run).mutexes[m].waiting
    ensures var u := Run(s, run); var o := u.mutexes[m].owner;
            o.Some? && o.value in u.prio && w in u.prio && u.prio[o.value] <= u.prio[w]
  {
    EveryRunKeepsInv(s, run, base);
    var u := Run(s, run);
    assert MutexOk(u, u.mutexes[m], base);
  }

  lemma FreshIsGood(n: nat, base: map<Tid, nat>)
    ensures Inv(State(seq(n, i => Mutex(1, None, 0, NO_PRIORITY, [], [])), base, map[], map[], 0), base)
  {
  }

  /* Two mutexes at once */

  /** A low thread takes two mutexes and a high one waits for the first; releasing the second drops the owner below the waiter. */
  lemma NestedMutexesInvert(low: Tid, high: Tid)
    requires low != high
    ensures var x := Mutex(1, None, 0, NO_PRIORITY, [], []);
            var s := State([x, x], map[low := 20, high := 5], map[], map[], 0);
            var s1 := Take(s, 0, low, true).0;
            var s2 := Take(s1, 1, low, true).0;
            |s2.mutexes| == 2 &&
            var s3 := Take(s2, 0, high, true).0;
            |s3.mutexes| == 2 && s3.prio == map[low := 5, high := 5] &&
            var s4 := Release(s3, 1, low).0;
            |s4.mutexes| == 2 && s4.mutexes[0].owner == Some(low) && s4.mutexes[0].waiting == [high]
            && s4.prio == map[low := 20, high := 5]
  {
    var x := Mutex(1, None, 0, NO_PRIORITY, [], []);
    var s := State([x, x], map[low := 20, high := 5], map[], map[], 0);
    var s1 := Take(s, 0, low, true).0;
    var s2 := Take(s1, 1, low, true).0;
    assert s2.mutexes[0] == Mutex(0, Some(low), 1, 20, [], []);
    var s3 := Take(s2, 0, high, true).0;
    assert s3.mutexes[0].waiting == [high];
    assert s3.mutexes[1] == Mutex(0, Some(low), 1, 20, [], []);
  }

  class MutexSet {
    var mutexes: seq<Mutex>
    var prio: map<Tid, nat>
    ghost const base: map<Tid, nat>
    ghost var granted: map<Tid, nat>
    ghost var arrival: map<Tid, nat>
    ghost var clock: nat

    ghost function Abs(): State
      reads this
    {
      State(mutexes, prio, granted, arrival, clock)
    }

    ghost predicate Valid()
      reads this
    {
      Inv(Abs(), base)
    }

    /** `rt_mutex_init`, `n` times. */
    constructor (n: nat, priorities: map<Tid, nat>)
      ensures Valid() && |mutexes| == n && prio == base == priorities
      ensures forall m :: 0 <= m < n ==> mutexes[m].owner == None
    {
      mutexes := seq(n, i => Mutex(1, None, 0, NO_PRIORITY, [], []));
      prio, base := priorities, priorities;
      granted, arrival, clock := map[], map[], 0;
      new;
      assert Abs() == State(seq(n, i => Mutex(1, None, 0, NO_PRIORITY, [], [])), base, map[], map[], 0);
      FreshIsGood(n, priorities);
    }

    method Update(m: nat, x: Mutex)
      requires m < |mutexes|
      modifies `mutexes
      ensures Abs() == Set(old(Abs()), m, x)
    {
      mutexes := mutexes[m := x];
    }

    /** `rt_mutex_take` */
    method TakeMutex(m: nat, t: Tid, wait: bool) returns (r: Outcome)
      requires Valid() && Enabled(Abs(), Taking(t, m, wait))
      modifies this
      ensures Valid() && (Abs(), r) == Take(old(Abs()), m, t, wait)
    {
      hide Inv, Active, Single, Insert;
      TakeKeepsInv(Abs(), m, t, wait, base);
      var x := mutexes[m];
      if x.owner == Some(t) {
        if x.hold < HOLD_MAX {
          Update(m, x.(hold := x.hold + 1));
          return Taken;
        }
        return Full;
      }
      if x.value > 0 {
        x := x.(value := x.value - 1, owner := Some(t), original := Of(prio)(t), asked := []);
        Update(m, x);
        if x.hold < HOLD_MAX {
          Update(m, x.(hold := x.hold + 1));
          assert mutexes == old(mutexes)[m := x.(hold := x.hold + 1)];
          return Taken;
        }
        return Full;
      }
      if !wait {
        return TimedOut;
      }
      Suspend(m, t);
      r := Waits;
    }

    /** Lends the priority, then joins the list. */
    method Suspend(m: nat, t: Tid)
      requires m < |mutexes|
      modifies this
      ensures Abs() == Blocked(old(Abs()), m, t)
    {
      var x, p := mutexes[m], Of(prio)(t);
      if x.owner.Some? && p < Of(prio)(x.owner.value) {
        prio := prio[x.owner.value := p];
      }
      var q := Enqueue(x.waiting, t, Of(prio), Prio);
      Update(m, x.(waiting := q, asked := x.asked + [p]));
      arrival, clock := arrival[t := clock], clock + 1;
    }

    /** `rt_mutex_release` */
    method ReleaseMutex(m: nat, t: Tid) returns (r: Outcome)
      requires Valid() && Enabled(Abs(), Releasing(t, m))
      modifies this
      ensures Valid() && (Abs(), r) == Release(old(Abs()), m, t)
    {
      hide Inv, Active, Single;
      ReleaseKeepsInv(Abs(), m, t, base);
      HoldIs(Abs(), m, base);
      var x := mutexes[m];
      if x.owner != Some(t) {
        return NotOwner;
      }
      x := x.(hold := x.hold - 1);
      if x.hold > 0 {
        Update(m, x);
        return Given;
      }
      if x.original != Of(prio)(t) {
        prio := prio[t := x.original];
      }
      assert prio == old(prio)[t := x.original];
      if x.waiting != [] {
        var w := x.waiting[0];
        Update(m, x.(owner := Some(w), original := Of(prio)(w), hold := x.hold + 1, waiting := x.waiting[1..], asked := []));
        granted := granted[w := m];
        return Given;
      }
      if x.value < VALUE_MAX {
        Update(m, Mutex(x.value + 1, None, 0, NO_PRIORITY, [], []));
        return Given;
      }
      assert false;
      r := Full;
    }

    /** The thread timer runs out: the thread leaves the list and its take fails. */
    method Timeout(m: nat, t: Tid)
      requires Valid() && Enabled(Abs(), Expiring(t, m))
      modifies this
      ensures Valid() && Abs() == Expire(old(Abs()), m, t)
    {
      hide Inv;
      ExpireKeepsInv(Abs(), m, t, base);
      Update(m, mutexes[m].(waiting := Without(mutexes[m].waiting, t)));
    }
  }

  lemma HoldIs(s: State, m: nat, base: map<Tid, nat>)
    requires Inv(s, base) && m < |s.mutexes|
    ensures s.mutexes[m].owner.Some? ==>
              s.mutexes[m].hold > 0 && s.mutexes[m].owner.value in s.prio
  {
    assert MutexOk(s, s.mutexes[m], base);
  }
}
