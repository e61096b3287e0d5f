/**
 Threads that hold or wait for several mutexes at once. Here the owner need not
 stay as urgent as its waiters; this module says exactly at which steps that is
 lost.
 */
module MutexNesting {
  import opened Common
  import opened Sequences
  import opened WaitQueue
  import M = Mutex

  type State = M.State
  type Action = M.Action

  /** What holds of every mutex whatever threads do with others. */
  ghost predicate MutexShape(x: M.Mutex, prio: map<Tid, nat>) {
    && Distinct(x.waiting) && (forall w :: w in x.waiting ==> w in prio)
    && (x.value == 1 <==> x.owner.None?) && (x.owner.None? <==> x.hold == 0) && x.value <= 1
    && (x.owner.None? ==> x.waiting == [])
    && (x.owner.Some? ==> x.owner.value in prio && x.owner.value !in x.waiting)
  }

  /** A thread waits for one mutex at a time; it may own any number. */
  ghost predicate Shape(s: State) {
    && (forall m :: 0 <= m < |s.mutexes| ==> MutexShape(s.mutexes[m], s.prio))
    && (forall m, n, t :: 0 <= m < n < |s.mutexes| ==> !(t in s.mutexes[m].waiting && t in s.mutexes[n].waiting))
  }

  /** The owner of mutex `m` is at least as urgent as everyone who waits for it. */
  ghost predicate UrgentAt(s: State, m: nat)
    requires m < |s.mutexes|
  {
    var x := s.mutexes[m];
    x.owner.Some? ==> forall w :: w in x.waiting ==> M.Of(s.prio)(x.owner.value) <= M.Of(s.prio)(w)
  }

  ghost predicate Urgent(s: State) {
    forall m :: 0 <= m < |s.mutexes| ==> UrgentAt(s, m)
  }

  /** As before, but with any number of mutexes to a thread. */
  predicate Enabled(s: State, a: Action) {
    match a
    case Taking(t, m, _) => M.Active(s, t) && m < |s.mutexes|
    case Releasing(t, m) => M.Active(s, t) && m < |s.mutexes|
    case Expiring(t, m) => m < |s.mutexes| && t in s.mutexes[m].waiting
    case Returning(t) => t in s.granted
  }

  function Step(s: State, a: Action): State
    requires Enabled(s, a)
  {
    match a
    case Taking(t, m, wait) => M.Take(s, m, t, wait).0
    case Releasing(t, m) => M.Release(s, m, t).0
    case Expiring(t, m) => M.Expire(s, m, t)
    case Returning(t) => M.Return(s, t)
  }

  /* What steps can lose urgency, and when */

  /** The newcomer has to wait. */
  predicate Blocks(s: State, a: Action)
    requires Enabled(s, a)
  {
    a.Taking? && a.wait && s.mutexes[a.m].owner != M.Some(a.t) && s.mutexes[a.m].value == 0
  }

  /** The owner gives the mutex up for good. */
  predicate GivesUp(s: State, a: Action)
    requires Enabled(s, a)
  {
    a.Releasing? && s.mutexes[a.m].owner == M.Some(a.t) && s.mutexes[a.m].hold == 1
  }

  /** Wherever the owner of `m` waits itself, that mutex's owner is at least as urgent as the owner of `m` becomes. */
  ghost predicate LendingIsPassedOn(s: State, m: nat, t: Tid)
    requires m < |s.mutexes|
  {
    s.mutexes[m].owner.Some? ==>
      var o := s.mutexes[m].owner.value;
      forall n :: 0 <= n < |s.mutexes| && o in s.mutexes[n].waiting && s.mutexes[n].owner.Some? ==>
        M.Of(s.prio)(s.mutexes[n].owner.value) <= M.Of(M.Lent(s, m, t))(o)
  }

  /** No waiter of another mutex that `t` owns is more urgent than the priority `t` falls back to. */
  ghost predicate FallsFarEnough(s: State, m: nat, t: Tid)
    requires m < |s.mutexes|
  {
    forall n :: 0 <= n < |s.mutexes| && n != m && s.mutexes[n].owner == M.Some(t) ==>
      forall w :: w in s.mutexes[n].waiting ==> s.mutexes[m].original <= M.Of(s.prio)(w)
  }

  /** The first waiter of `m` is its most urgent one. */
  ghost predicate HeirIsMostUrgent(s: State, m: nat)
    requires m < |s.mutexes|
  {
    var q := s.mutexes[m].waiting;
    q != [] ==> forall w :: w in q[1..] ==> M.Of(s.prio)(q[0]) <= M.Of(s.prio)(w)
  }

  ghost predicate Guard(s: State, a: Action)
    requires Enabled(s, a)
  {
    && (Blocks(s, a) ==> LendingIsPassedOn(s, a.m, a.t))
    && (GivesUp(s, a) ==> FallsFarEnough(s, a.m, a.t) && HeirIsMostUrgent(s, a.m))
  }

  /* The shape is kept by everything */

  lemma ShapeStep(s: State, u: State, m: nat)
    requires Shape(s) && m < |s.mutexes| == |u.mutexes| && u.mutexes == s.mutexes[m := u.mutexes[m]]
    requires u.prio.Keys == s.prio.Keys && MutexShape(u.mutexes[m], u.prio)
    requires forall t :: t in u.mutexes[m].waiting ==>
               t in s.mutexes[m].waiting || forall n :: 0 <= n < |s.mutexes| ==> t !in s.mutexes[n].waiting
    ensures Shape(u)
  {
    hide Distinct;
    forall n | 0 <= n < |u.mutexes| ensures MutexShape(u.mutexes[n], u.prio) {
      assert MutexShape(s.mutexes[n], s.prio);
    }
    forall a, b, t | 0 <= a < b < |u.mutexes| ensures !(t in u.mutexes[a].waiting && t in u.mutexes[b].waiting) {
      assert !(t in s.mutexes[a].waiting && t in s.mutexes[b].waiting);
    }
  }

  lemma LentKeys(s: State, m: nat, t: Tid)
    requires m < |s.mutexes| && MutexShape(s.mutexes[m], s.prio) && t in s.prio
    ensures M.Lent(s, m, t).Keys == s.prio.Keys
  {
  }

  lemma StepKeepsShape(s: State, a: Action)
    requires Shape(s) && Enabled(s, a)
    ensures Shape(Step(s, a))
  {
    hide Distinct, Insert, Without;
    var u := Step(s, a);
    if a.Returning? {
      return;
    }
    var m, t := a.m, a.t;
    var x := s.mutexes[m];
    assert MutexShape(x, s.prio);
    match a
    case Taking(_, _, wait) =>
      if Blocks(s, a) {
        LentKeys(s, m, t);
        InsertKeepsDistinct(x.waiting, t, M.Of(M.Lent(s, m, t)), Prio);
      }
      ShapeStep(s, u, m);
    case Releasing(_, _) =>
      if x.waiting != [] {
        HeadTail(x.waiting);
        assert x.waiting[0] in x.waiting;
      }
      EmptyIsDistinct();
      ShapeStep(s, u, m);
    case Expiring(_, _) =>
      WithoutKeepsDistinct(x.waiting, t);
      WithoutNothing(x.waiting, t);
      ShapeStep(s, u, m);
  }

  lemma EmptyIsDistinct()
    ensures Distinct<Tid>([])
  {
  }

  lemma WithoutNothing(q: seq<Tid>, t: Tid)
    ensures q == [] ==> Without(q, t) == []
  {
  }

  /* Each step */

  lemma QuietKeepsUrgent(s: State, a: Action)
    requires Shape(s) && Urgent(s) && Enabled(s, a) && !Blocks(s, a) && !GivesUp(s, a)
    ensures Urgent(Step(s, a))
  {
    hide Distinct, M.LastRelease, M.Blocked, Without;
    var u := Step(s, a);
    forall n | 0 <= n < |u.mutexes| ensures UrgentAt(u, n) {
      assert UrgentAt(s, n) && MutexShape(s.mutexes[n], s.prio);
    }
  }

  /** What lending does to priorities: only the owner's changes, to the more urgent of its own and the newcomer's. */
  lemma LentIs(s: State, m: nat, t: Tid)
    requires m < |s.mutexes| && s.mutexes[m].owner.Some?
    ensures var o, p := s.mutexes[m].owner.value, M.Lent(s, m, t);
            && (forall w :: w != o ==> M.Of(p)(w) == M.Of(s.prio)(w))
            && M.Of(p)(o) <= M.Of(s.prio)(o) && M.Of(p)(o) <= M.Of(s.prio)(t)
  {
  }

  lemma BlockedAt(s: State, m: nat, t: Tid, n: nat)
    requires Shape(s) && Urgent(s) && m < |s.mutexes| && n < |s.mutexes| && M.Active(s, t)
    requires s.mutexes[m].owner.Some? && s.mutexes[m].owner.value != t
    ensures var u, o := M.Blocked(s, m, t), s.mutexes[m].owner.value;
            UrgentAt(u, n) <==> (o in s.mutexes[n].waiting && s.mutexes[n].owner.Some? ==>
                                   M.Of(s.prio)(s.mutexes[n].owner.value) <= M.Of(u.prio)(o))
  {
    hide Distinct, M.Of, M.Lent, Insert;
    var u, o, x := M.Blocked(s, m, t), s.mutexes[m].owner.value, s.mutexes[n];
    LentIs(s, m, t);
    assert UrgentAt(s, n) && MutexShape(x, s.prio);
    if n == m {
      InsertKeepsDistinct(x.waiting, t, M.Of(u.prio), Prio);
    }
  }

  lemma BlockIff(s: State, a: Action)
    requires Shape(s) && Urgent(s) && Enabled(s, a) && Blocks(s, a)
    ensures Urgent(Step(s, a)) <==> LendingIsPassedOn(s, a.m, a.t)
  {
    hide Distinct, M.Of, M.Lent, Insert, UrgentAt;
    assert MutexShape(s.mutexes[a.m], s.prio);
    var u, o := M.Blocked(s, a.m, a.t), s.mutexes[a.m].owner.value;
    assert Step(s, a) == u;
    forall n | 0 <= n < |s.mutexes|
      ensures UrgentAt(u, n) <==> (o in s.mutexes[n].waiting && s.mutexes[n].owner.Some? ==>
                                     M.Of(s.prio)(s.mutexes[n].owner.value) <= M.Of(u.prio)(o))
    {
      BlockedAt(s, a.m, a.t, n);
    }
  }

  lemma ReleasedAt(s: State, m: nat, t: Tid, n: nat)
    requires Shape(s) && Urgent(s) && m < |s.mutexes| && n < |s.mutexes| && M.Active(s, t) && s.mutexes[m].owner == M.Some(t)
    ensures var u, x := M.LastRelease(s, m, t).0, s.mutexes[n];
            UrgentAt(u, n) <==>
              if n == m then HeirIsMostUrgent(s, m)
              else x.owner == M.Some(t) ==> forall w :: w in x.waiting ==> s.mutexes[m].original <= M.Of(s.prio)(w)
  {
    hide Distinct;
    var u, x := M.LastRelease(s, m, t).0, s.mutexes[n];
    assert UrgentAt(s, n) && MutexShape(x, s.prio) && MutexShape(s.mutexes[m], s.prio);
    if x.waiting != [] {
      HeadTail(x.waiting);
    }
    forall w | w in x.waiting ensures w != t && M.Of(u.prio)(w) == M.Of(s.prio)(w) {
    }
  }

  lemma ReleaseIff(s: State, a: Action)
    requires Shape(s) && Urgent(s) && Enabled(s, a) && GivesUp(s, a)
    ensures Urgent(Step(s, a)) <==> FallsFarEnough(s, a.m, a.t) && HeirIsMostUrgent(s, a.m)
  {
    hide Distinct, M.Of, UrgentAt, HeirIsMostUrgent, M.LastRelease;
    var u, m, t := M.LastRelease(s, a.m, a.t).0, a.m, a.t;
    assert Step(s, a) == u;
    SameNumber(s, m, t);
    forall n | 0 <= n < |s.mutexes|
      ensures UrgentAt(u, n) <==>
                if n == m then HeirIsMostUrgent(s, m)
                else s.mutexes[n].owner == M.Some(t) ==> forall w :: w in s.mutexes[n].waiting ==> s.mutexes[m].original <= M.Of(s.prio)(w)
    {
      ReleasedAt(s, m, t, n);
    }
  }

  lemma SameNumber(s: State, m: nat, t: Tid)
    requires m < |s.mutexes|
    ensures |M.LastRelease(s, m, t).0.mutexes| == |s.mutexes|
  {
  }

  /** Every step, for any number of mutexes to a thread: urgency survives it exactly if the step meets its guard. */
  lemma StepKeepsUrgentIff(s: State, a: Action)
    requires Shape(s) && Urgent(s) && Enabled(s, a)
    ensures Urgent(Step(s, a)) <==> Guard(s, a)
  {
    hide Shape, Urgent, LendingIsPassedOn, FallsFarEnough, HeirIsMostUrgent, Step, Enabled;
    if Blocks(s, a) {
      BlockIff(s, a);
    } else if GivesUp(s, a) {
      ReleaseIff(s, a);
    } else {
      QuietKeepsUrgent(s, a);
    }
  }

  /* Every run */

  ghost predicate Possible(s: State, run: seq<Action>)
    decreases |run|
  {
    run == [] || (Enabled(s, run[0]) && Possible(Step(s, run[0]), run[1..]))
  }

  ghost function Run(s: State, run: seq<Action>): State
    requires Possible(s, run)
    decreases |run|
  {
    if run == [] then s else Run(Step(s, run[0]), run[1..])
  }

  /** In every state of the run, every owner is at least as urgent as its waiters. */
  ghost predicate AlwaysUrgent(s: State, run: seq<Action>)
    requires Possible(s, run)
    decreases |run|
  {
    Urgent(s) && (run == [] || AlwaysUrgent(Step(s, run[0]), run[1..]))
  }

  ghost predicate AlwaysGuarded(s: State, run: seq<Action>)
    requires Possible(s, run)
    decreases |run|
  {
    run == [] || (Guard(s, run[0]) && AlwaysGuarded(Step(s, run[0]), run[1..]))
  }

  /** A run is free of inversions if and only if each of its steps meets its guard. */
  lemma {:induction false} InversionFreeIff(s: State, run: seq<Action>)
    requires Shape(s) && Urgent(s) && Possible(s, run)
    ensures AlwaysUrgent(s, run) <==> AlwaysGuarded(s, run)
    decreases |run|
  {
    hide Shape, Urgent, Guard, Step, Enabled;
    if run != [] {
      var u := Step(s, run[0]);
      StepKeepsShape(s, run[0]);
      StepKeepsUrgentIff(s, run[0]);
      if Urgent(u) {
        InversionFreeIff(u, run[1..]);
      } else {
        NotUrgent(u, run[1..]);
      }
    }
  }

  lemma NotUrgent(s: State, run: seq<Action>)
    requires !Urgent(s) && Possible(s, run)
    ensures !AlwaysUrgent(s, run)
  {
  }

  /** One mutex to a thread is a special case: there every step meets its guard. */
  lemma SingleIsGuarded(s: State, a: Action, base: map<Tid, nat>)
    requires M.Inv(s, base) && M.Enabled(s, a)
    ensures Shape(s) && Urgent(s) && Enabled(s, a) && Guard(s, a)
  {
    hide M.Step, M.Inv, Guard, Urgent, Shape;
    InvIsUrgent(s, base);
    M.StepKeepsInv(s, a, base);
    assert M.Step(s, a) == Step(s, a) by { SameStep(s, a); }
    InvIsUrgent(Step(s, a), base);
    StepKeepsUrgentIff(s, a);
  }

  lemma SameStep(s: State, a: Action)
    requires M.Enabled(s, a)
    ensures Enabled(s, a) && M.Step(s, a) == Step(s, a)
  {
  }

  lemma InvIsUrgent(s: State, base: map<Tid, nat>)
    requires M.Inv(s, base)
    ensures Shape(s) && Urgent(s)
  {
    hide M.Before;
    forall m | 0 <= m < |s.mutexes| ensures MutexShape(s.mutexes[m], s.prio) && UrgentAt(s, m) {
      assert M.MutexOk(s, s.mutexes[m], base);
    }
    forall m, n, t | 0 <= m < n < |s.mutexes| ensures !(t in s.mutexes[m].waiting && t in s.mutexes[n].waiting) {
      assert !(M.Uses(s.mutexes[m], t) && M.Uses(s.mutexes[n], t));
    }
  }

  /* The priority a last release restores */

  /** `t` owns `m` and will fall back to `p` when it gives `m` up. */
  predicate FallsBackTo(s: State, m: nat, t: Tid, p: nat) {
    m < |s.mutexes| && s.mutexes[m].owner == M.Some(t) && s.mutexes[m].original == p && s.mutexes[m].hold > 0
  }

  /** Acquiring a mutex, at once or by inheritance, records the priority of that moment. */
  lemma AcquiringRecords(s: State, a: Action, m: nat, t: Tid)
    requires Shape(s) && Enabled(s, a) && m < |s.mutexes| && s.mutexes[m].owner != M.Some(t)
    requires m < |Step(s, a).mutexes| && Step(s, a).mutexes[m].owner == M.Some(t)
    ensures FallsBackTo(Step(s, a), m, t, M.Of(s.prio)(t))
  {
    hide Distinct;
    assert MutexShape(s.mutexes[m], s.prio);
    if GivesUp(s, a) && s.mutexes[m].waiting != [] {
      assert s.mutexes[m].waiting[0] in s.mutexes[m].waiting;
    }
  }

  /** No step but the owner's last release changes that. */
  lemma OwningKeepsRecord(s: State, a: Action, m: nat, t: Tid, p: nat)
    requires Shape(s) && Enabled(s, a) && FallsBackTo(s, m, t, p) && !(GivesUp(s, a) && a.m == m)
    ensures FallsBackTo(Step(s, a), m, t, p)
  {
    assert MutexShape(s.mutexes[m], s.prio);
  }

  /** The last release gives the owner the recorded priority. */
  lemma ReleaseRestores(s: State, a: Action, p: nat)
    requires Shape(s) && Enabled(s, a) && GivesUp(s, a) && FallsBackTo(s, a.m, a.t, p)
    ensures M.Of(Step(s, a).prio)(a.t) == p
  {
    assert MutexShape(s.mutexes[a.m], s.prio);
  }

  /** No step of the run is the owner's last release of `m`. */
  ghost predicate Holds(s: State, run: seq<Action>, m: nat)
    requires Possible(s, run)
    decreases |run|
  {
    run == [] || (!(GivesUp(s, run[0]) && run[0].m == m) && Holds(Step(s, run[0]), run[1..], m))
  }

  lemma {:induction false} HoldingKeepsRecord(s: State, run: seq<Action>, m: nat, t: Tid, p: nat)
    requires Shape(s) && Possible(s, run) && Holds(s, run, m) && FallsBackTo(s, m, t, p)
    ensures Shape(Run(s, run)) && FallsBackTo(Run(s, run), m, t, p)
    decreases |run|
  {
    hide Shape, Step, Enabled, FallsBackTo;
    if run != [] {
      StepKeepsShape(s, run[0]);
      OwningKeepsRecord(s, run[0], m, t, p);
      HoldingKeepsRecord(Step(s, run[0]), run[1..], m, t, p);
    }
  }

  /**
   From acquisition to last release, whatever comes between: the owner gets its
   own priority back if and only if it ran at its own priority when it acquired
   the mutex.
   */
  lemma RestoresOwnPriorityIff(s: State, take: Action, run: seq<Action>, give: Action, m: nat, t: Tid, own: nat)
    requires Shape(s) && Enabled(s, take) && m < |s.mutexes| && s.mutexes[m].owner != M.Some(t)
    requires var u := Step(s, take);
             && m < |u.mutexes| && u.mutexes[m].owner == M.Some(t) && Possible(u, run) && Holds(u, run, m)
             && Enabled(Run(u, run), give) && GivesUp(Run(u, run), give) && give.m == m && give.t == t
    ensures var e := Run(Step(s, take), run);
            M.Of(Step(e, give).prio)(t) == own <==> M.Of(s.prio)(t) == own
  {
    hide Shape, Step, FallsBackTo, GivesUp, Enabled;
    StepKeepsShape(s, take);
    AcquiringRecords(s, take, m, t);
    var p := M.Of(s.prio)(t);
    HoldingKeepsRecord(Step(s, take), run, m, t, p);
    ReleaseRestores(Run(Step(s, take), run), give, p);
  }

  /* A run that inverts without any release */

  /** Low holds the second mutex, middle the first and waits for the second. */
  function Held(low: Tid, mid: Tid, high: Tid): State {
    M.State([M.Mutex(0, M.Some(mid), 1, 10, [], []), M.Mutex(0, M.Some(low), 1, 20, [mid], [10])],
            map[low := 10, mid := 10, high := 5], map[], map[mid := 0], 1)
  }

  lemma HeldIsReached(low: Tid, mid: Tid, high: Tid)
    requires low != mid && mid != high && low != high
    ensures var x := M.Mutex(1, M.None, 0, M.NO_PRIORITY, [], []);
            var s := M.State([x, x], map[low := 20, mid := 10, high := 5], map[], map[], 0);
            var s1 := M.Take(s, 1, low, true).0;
            |s1.mutexes| == 2 &&
            var s2 := M.Take(s1, 0, mid, true).0;
            |s2.mutexes| == 2 && M.Take(s2, 1, mid, true).0 == Held(low, mid, high)
  {
    var x := M.Mutex(1, M.None, 0, M.NO_PRIORITY, [], []);
    var s := M.State([x, x], map[low := 20, mid := 10, high := 5], map[], map[], 0);
    var s1 := M.Take(s, 1, low, true).0;
    assert s1.mutexes == [x, M.Mutex(0, M.Some(low), 1, 20, [], [])];
    var s2 := M.Take(s1, 0, mid, true).0;
    assert s2 == s.(mutexes := [M.Mutex(0, M.Some(mid), 1, 10, [], []), M.Mutex(0, M.Some(low), 1, 20, [], [])]);
    FirstInLine(mid, M.Of(M.Lent(s2, 1, mid)));
    assert M.Lent(s2, 1, mid) == map[low := 10, mid := 10, high := 5];
    var y := s2.mutexes[1];
    assert y == M.Mutex(0, M.Some(low), 1, 20, [], []) && M.Of(s2.prio)(mid) == 10;
    assert y.asked + [10] == [10];
    var s3 := M.Take(s2, 1, mid, true).0;
    assert s3 == M.Blocked(s2, 1, mid);
    assert s3.mutexes[1].waiting == [mid] && s3.mutexes[1].asked == [10];
    assert s3.mutexes == Held(low, mid, high).mutexes;
  }

  lemma FirstInLine(t: Tid, prio: Priorities)
    ensures Insert([], t, prio, Prio) == [t]
  {
  }

  /** Then high waits for the first: what it lends to middle does not reach low. */
  lemma LendingStopsShort(low: Tid, mid: Tid, high: Tid)
    requires low != mid && mid != high && low != high
    ensures var s := Held(low, mid, high);
            var u := M.Take(s, 0, high, true).0;
            && Urgent(s) && !LendingIsPassedOn(s, 0, high)
            && |u.mutexes| == 2 && u.prio == map[low := 10, mid := 5, high := 5] && !UrgentAt(u, 1)
  {
    var s := Held(low, mid, high);
    var u := M.Take(s, 0, high, true).0;
    assert M.Lent(s, 0, high) == map[low := 10, mid := 5, high := 5];
    assert u.mutexes[1] == s.mutexes[1] && mid in s.mutexes[1].waiting;
  }
}
