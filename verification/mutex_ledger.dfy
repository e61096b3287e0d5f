/**
 Mutexes seen by their callers, with any number of mutexes to a thread: how each
 call is answered, and that a mutex is held as often as its owner has taken it
 and not released it, counted from the calls and their answers alone.
 */
module MutexLedger {
  import opened Common
  import opened Sequences
  import opened WaitQueue
  import opened MutexNesting
  import M = Mutex

  /* Answers */

  lemma TakeAnswers(s: State, m: nat, t: Tid, wait: bool)
    requires m < |s.mutexes| && MutexShape(s.mutexes[m], s.prio) && t in s.prio
    ensures var (u, r) := M.Take(s, m, t, wait);
            var x := s.mutexes[m];
            && (r == M.Taken <==> x.owner == M.None || (x.owner == M.Some(t) && x.hold < M.HOLD_MAX))
            && (r == M.Full <==> x.owner == M.Some(t) && x.hold >= M.HOLD_MAX)
            && (r == M.TimedOut <==> x.owner.Some? && x.owner != M.Some(t) && !wait)
            && (r == M.Waits <==> x.owner.Some? && x.owner != M.Some(t) && wait)
            && (r == M.Full || r == M.TimedOut ==> u == s)
            && u.granted == s.granted && u.mutexes == s.mutexes[m := u.mutexes[m]]
  {
  }

  lemma TakenIs(s: State, m: nat, t: Tid, wait: bool)
    requires m < |s.mutexes| && MutexShape(s.mutexes[m], s.prio) && M.Take(s, m, t, wait).1 == M.Taken
    ensures var u := M.Take(s, m, t, wait).0;
            var x, y := s.mutexes[m], u.mutexes[m];
            && y.owner == M.Some(t) && y.value == 0 && y.hold == x.hold + 1 && y.waiting == x.waiting && u.prio == s.prio
            && y.original == if x.owner == M.None then M.Of(s.prio)(t) else x.original
  {
  }

  /** A thread that has to wait joins the list, and the owner's priority is raised to its own, nobody else's. */
  lemma WaitingIs(s: State, m: nat, t: Tid, wait: bool)
    requires m < |s.mutexes| && MutexShape(s.mutexes[m], s.prio) && t in s.prio && M.Take(s, m, t, wait).1 == M.Waits
    ensures var u := M.Take(s, m, t, wait).0;
            var x, y := s.mutexes[m], u.mutexes[m];
            && y == x.(waiting := y.waiting, asked := x.asked + [s.prio[t]])
            && Joins(x.waiting, y.waiting, t, M.Of(u.prio), Prio)
            && u.prio.Keys == s.prio.Keys
            && (forall w :: w in s.prio ==>
                 u.prio[w] == if x.owner == M.Some(w) && s.prio[t] < s.prio[w] then s.prio[t] else s.prio[w])
  {
    hide Joins, Insert, Distinct;
    InsertJoins(s.mutexes[m].waiting, t, M.Of(M.Lent(s, m, t)), Prio);
  }

  lemma ReleaseAnswers(s: State, m: nat, t: Tid)
    requires m < |s.mutexes| && MutexShape(s.mutexes[m], s.prio)
    ensures var (u, r) := M.Release(s, m, t);
            var x, y := s.mutexes[m], u.mutexes[m];
            && (r == M.NotOwner <==> x.owner != M.Some(t)) && (r == M.NotOwner ==> u == s) && (r != M.NotOwner ==> r == M.Given)
            && (r == M.Given && x.hold > 1 ==> u == s.(mutexes := s.mutexes[m := x.(hold := x.hold - 1)]))
            && (r == M.Given && x.hold == 1 ==>
                 && u.prio == s.prio[t := x.original] && u.mutexes == s.mutexes[m := y]
                 && (x.waiting == [] ==> y.owner == M.None && y.hold == 0 && y.value == 1 && y.waiting == [] && u.granted == s.granted)
                 && (x.waiting != [] ==>
                      var w := x.waiting[0];
                      && y.owner == M.Some(w) && y.hold == 1 && y.value == 0 && x.waiting == [w] + y.waiting
                      && y.original == s.prio[w] && u.granted == s.granted[w := m]))
  {
  }

  lemma OtherAnswers(s: State, a: Action)
    requires Enabled(s, a) && (a.Expiring? || a.Returning?)
    ensures var u := Step(s, a);
            && u.prio == s.prio
            && (a.Returning? ==> u.mutexes == s.mutexes && u.granted == s.granted - {a.t})
            && (a.Expiring? ==>
                 && u.granted == s.granted && |u.mutexes| == |s.mutexes|
                 && u.mutexes == s.mutexes[a.m := s.mutexes[a.m].(waiting := u.mutexes[a.m].waiting)]
                 && Leaves(s.mutexes[a.m].waiting, u.mutexes[a.m].waiting, a.t))
  {
    hide Leaves, Without;
    if a.Expiring? {
      WithoutLeaves(s.mutexes[a.m].waiting, a.t);
    }
  }

  /* The ledger */

  /** What the callers can say: for which mutex a thread waits, and how often it has taken each and not released it. */
  datatype Ledger = Ledger(asked: map<Tid, nat>, taken: map<(Tid, nat), int>) {
    function Count(t: Tid, m: nat): int {
      if (t, m) in taken then taken[(t, m)] else 0
    }

    function Add(t: Tid, m: nat, n: int): Ledger {
      Ledger(asked, taken[(t, m) := Count(t, m) + n])
    }
  }

  /** The answer to a call of take or release. */
  function Answer(s: State, a: Action): M.Outcome
    requires Enabled(s, a)
  {
    match a
    case Taking(t, m, wait) => M.Take(s, m, t, wait).1
    case Releasing(t, m) => M.Release(s, m, t).1
    case Expiring(_, _) => M.TimedOut
    case Returning(_) => M.Taken
  }

  /** A blocked take counts when it returns. */
  function Entered(l: Ledger, a: Action, r: M.Outcome): Ledger {
    match a
    case Taking(t, m, _) =>
      if r == M.Taken then l.Add(t, m, 1) else if r == M.Waits then l.(asked := l.asked[t := m]) else l
    case Releasing(t, m) => if r == M.Given then l.Add(t, m, -1) else l
    case Expiring(t, _) => l.(asked := l.asked - {t})
    case Returning(t) => if t in l.asked then l.Add(t, l.asked[t], 1).(asked := l.asked - {t}) else l
  }

  ghost function LedgerAfter(l: Ledger, s: State, run: seq<Action>): Ledger
    requires Possible(s, run)
    decreases |run|
  {
    if run == [] then l else LedgerAfter(Entered(l, run[0], Answer(s, run[0])), Step(s, run[0]), run[1..])
  }

  /** One take of `m` has been granted to `t` and has yet to return. */
  predicate Due(s: State, t: Tid, m: nat) {
    t in s.granted && s.granted[t] == m
  }

  ghost predicate AgreesAt(s: State, l: Ledger, t: Tid, m: nat)
    requires m < |s.mutexes|
  {
    var x := s.mutexes[m];
    && l.Count(t, m) + (if Due(s, t, m) then 1 else 0) == (if x.owner == M.Some(t) then x.hold else 0)
    && (t in x.waiting || Due(s, t, m) ==> t in l.asked && l.asked[t] == m)
    && (t in x.waiting ==> t !in s.granted)
  }

  ghost predicate Agrees(s: State, l: Ledger) {
    forall t: Tid, m :: 0 <= m < |s.mutexes| ==> AgreesAt(s, l, t, m)
  }

  lemma TakeAgrees(s: State, a: Action, l: Ledger, t: Tid, m: nat)
    requires Shape(s) && Enabled(s, a) && a.Taking? && m < |s.mutexes| && AgreesAt(s, l, t, m)
    ensures m < |Step(s, a).mutexes| && AgreesAt(Step(s, a), Entered(l, a, Answer(s, a)), t, m)
  {
    hide Joins, Insert, Distinct, M.Blocked, MutexShape, M.Take;
    TakeAnswers(s, a.m, a.t, a.wait);
    if Answer(s, a) == M.Taken {
      TakenIs(s, a.m, a.t, a.wait);
      NotHeld(s, a.m);
    } else if Answer(s, a) == M.Waits {
      WaitingIs(s, a.m, a.t, a.wait);
      WaitsNow(s, a.m, a.t, t);
      TakeBlocks(s, a.m, a.t, a.wait);
    }
  }

  lemma NotHeld(s: State, m: nat)
    requires m < |s.mutexes| && MutexShape(s.mutexes[m], s.prio)
    ensures s.mutexes[m].owner == M.None <==> s.mutexes[m].hold == 0
  {
  }

  lemma TakeBlocks(s: State, m: nat, t: Tid, wait: bool)
    requires m < |s.mutexes| && M.Take(s, m, t, wait).1 == M.Waits
    ensures M.Take(s, m, t, wait).0 == M.Blocked(s, m, t)
  {
  }

  lemma WaitsNow(s: State, m: nat, t: Tid, x: Tid)
    requires m < |s.mutexes|
    ensures var u := M.Blocked(s, m, t);
            |u.mutexes| == |s.mutexes| && (x in u.mutexes[m].waiting <==> x in s.mutexes[m].waiting || x == t)
  {
    var q, k := s.mutexes[m].waiting, Slot(s.mutexes[m].waiting, t, M.Of(M.Lent(s, m, t)), Prio);
    assert q == q[..k] + q[k..];
  }

  lemma ReleaseAgrees(s: State, a: Action, l: Ledger, t: Tid, m: nat)
    requires Shape(s) && Enabled(s, a) && a.Releasing? && m < |s.mutexes| && AgreesAt(s, l, t, m)
    requires AgreesAt(s, l, t, a.m)
    ensures m < |Step(s, a).mutexes| && AgreesAt(Step(s, a), Entered(l, a, Answer(s, a)), t, m)
  {
    hide Distinct, MutexShape, M.Release;
    ReleaseAnswers(s, a.m, a.t);
    if m == a.m {
      ReleasedHere(s, a, l, t);
    } else {
      NotHeld(s, a.m);
      WaitsForOne(s, a.m, m, t);
    }
  }

  lemma ReleasedHere(s: State, a: Action, l: Ledger, t: Tid)
    requires Shape(s) && Enabled(s, a) && a.Releasing? && AgreesAt(s, l, t, a.m)
    ensures a.m < |Step(s, a).mutexes| && AgreesAt(Step(s, a), Entered(l, a, Answer(s, a)), t, a.m)
  {
    hide Distinct, M.Release;
    var x := s.mutexes[a.m];
    assert MutexShape(x, s.prio);
    ReleaseAnswers(s, a.m, a.t);
    if x.waiting != [] {
      HeadTail(x.waiting);
    }
  }

  lemma WaitsForOne(s: State, m: nat, n: nat, t: Tid)
    requires Shape(s) && m < |s.mutexes| && n < |s.mutexes| && m != n
    ensures !(t in s.mutexes[m].waiting && t in s.mutexes[n].waiting)
  {
    if m < n {
      assert !(t in s.mutexes[m].waiting && t in s.mutexes[n].waiting);
    } else {
      assert !(t in s.mutexes[n].waiting && t in s.mutexes[m].waiting);
    }
  }

  lemma OtherAgrees(s: State, a: Action, l: Ledger, t: Tid, m: nat)
    requires Shape(s) && Enabled(s, a) && (a.Expiring? || a.Returning?) && m < |s.mutexes| && AgreesAt(s, l, t, m)
    requires a.Expiring? ==> AgreesAt(s, l, a.t, a.m)
    requires a.Returning? ==> s.granted[a.t] < |s.mutexes| && AgreesAt(s, l, a.t, s.granted[a.t])
    ensures m < |Step(s, a).mutexes| && AgreesAt(Step(s, a), Entered(l, a, Answer(s, a)), t, m)
  {
    hide Distinct, Without;
    if a.Expiring? {
      assert MutexShape(s.mutexes[a.m], s.prio);
      WithoutKeepsDistinct(s.mutexes[a.m].waiting, a.t);
      if m != a.m {
        WaitsForOne(s, a.m, m, a.t);
      }
    }
  }

  /** A grant is for a mutex there is. */
  ghost predicate GrantsInRange(s: State) {
    forall t :: t in s.granted ==> s.granted[t] < |s.mutexes|
  }

  lemma StepAgrees(s: State, a: Action, l: Ledger)
    requires Shape(s) && GrantsInRange(s) && Enabled(s, a) && Agrees(s, l)
    ensures Agrees(Step(s, a), Entered(l, a, Answer(s, a))) && GrantsInRange(Step(s, a))
    ensures |Step(s, a).mutexes| == |s.mutexes|
  {
    hide Shape, AgreesAt, Entered;
    SameMutexes(s, a);
    var u := Step(s, a);
    forall t: Tid, m | 0 <= m < |u.mutexes| ensures AgreesAt(u, Entered(l, a, Answer(s, a)), t, m) {
      assert AgreesAt(s, l, t, m);
      match a
      case Taking(_, _, _) => TakeAgrees(s, a, l, t, m);
      case Releasing(_, _) => assert AgreesAt(s, l, t, a.m); ReleaseAgrees(s, a, l, t, m);
      case Expiring(x, k) => assert AgreesAt(s, l, x, k); OtherAgrees(s, a, l, t, m);
      case Returning(x) => assert AgreesAt(s, l, x, s.granted[x]); OtherAgrees(s, a, l, t, m);
    }
  }

  lemma SameMutexes(s: State, a: Action)
    requires Enabled(s, a) && GrantsInRange(s)
    ensures |Step(s, a).mutexes| == |s.mutexes| && GrantsInRange(Step(s, a))
  {
  }

  /**
   In every run a mutex is held as often as its owner's takes have come back to it
   less its releases, plus a take granted to it that has yet to come back; all
   others have released it as often as they have taken it.
   */
  lemma {:induction false} HeldAsOftenAsTaken(s: State, run: seq<Action>, l: Ledger)
    requires Shape(s) && GrantsInRange(s) && Agrees(s, l) && Possible(s, run)
    ensures Agrees(Run(s, run), LedgerAfter(l, s, run))
    decreases |run|
  {
    hide Shape, GrantsInRange, Agrees, Entered, Step, Enabled;
    if run != [] {
      StepKeepsShape(s, run[0]);
      StepAgrees(s, run[0], l);
      HeldAsOftenAsTaken(Step(s, run[0]), run[1..], Entered(l, run[0], Answer(s, run[0])));
    }
  }

  lemma FreshAgrees(n: nat, base: map<Tid, nat>)
    ensures var s := M.State(seq(n, i => M.Mutex(1, M.None, 0, M.NO_PRIORITY, [], [])), base, map[], map[], 0);
            Agrees(s, Ledger(map[], map[])) && GrantsInRange(s) && Shape(s)
  {
  }
}
