/**
 Semaphores seen by their callers: how each call is answered and whom it touches,
 and the tokens counted from the answers alone.
 */
module SemaphoreStory {
  import opened Common
  import opened Sequences
  import opened WaitQueue
  import opened Semaphore

  /* Answers */

  /** Everything but semaphore `i` and thread `t` is as it was. */
  ghost predicate Elsewhere(s: State, u: State, i: nat, t: Tid) {
    && |u.sems| == |s.sems| && (forall j :: 0 <= j < |s.sems| && j != i ==> u.sems[j] == s.sems[j])
    && (forall x :: x != t ==> (x in u.threads <==> x in s.threads) && (x in s.threads ==> u.threads[x] == s.threads[x]))
    && (forall x :: x != t ==> (x in u.calls <==> x in s.calls) && (x in s.calls ==> u.calls[x] == s.calls[x]))
  }

  lemma TakeAnswers(s: State, i: nat, t: Tid, time: int, prio: Priorities, order: Order)
    requires i < |s.sems| && t in s.threads
    ensures var (u, r) := Take(s, i, t, time, prio, order);
            && Elsewhere(s, u, i, t) && i < |u.sems|
            && var x, y := s.sems[i], u.sems[i];
               && (r == Success <==> x.value > 0)
               && (r == Timeout <==> x.value == 0 && time == 0)
               && (r == Waits <==> x.value == 0 && time != 0)
               && y.value == (if r == Success then x.value - 1 else x.value)
               && (if r == Waits then Joins(x.waiting, y.waiting, t, prio, order) else y.waiting == x.waiting)
               && u.threads == (if r == Waits then s.threads[t := Thread(true, time > 0, Ok)] else s.threads)
               && u.calls == (if r == Waits then s.calls[t := i] else s.calls)
  {
    hide Joins, Insert;
    InsertJoins(s.sems[i].waiting, t, prio, order);
  }

  /** A release goes to the first waiter, and only without one to the value. */
  lemma ReleaseAnswers(s: State, i: nat)
    requires Inv(s) && i < |s.sems|
    ensures var (u, r) := Release(s, i);
            && |u.sems| == |s.sems| && u.calls == s.calls
            && var x, y := s.sems[i], u.sems[i];
               && (r == Full <==> x.value == VALUE_MAX) && (r == Success <==> x.value < VALUE_MAX)
               && (r == Full ==> u == s)
               && (r == Success && x.waiting == [] ==> y.value == x.value + 1 && y.waiting == [] && u.threads == s.threads)
               && (r == Success && x.waiting != [] ==>
                    var w := x.waiting[0];
                    && y.value == x.value == 0 && x.waiting == [w] + y.waiting && w in s.threads
                    && u.threads == s.threads[w := Thread(false, false, s.threads[w].error)]
                    && y.h.granted == x.h.granted + {w})
  {
    assert SemOk(s.sems[i]) && ListOk(s, i);
    if s.sems[i].waiting != [] {
      assert Placed(s, s.sems[i].waiting[0], i);
    }
  }

  /** Timers, sleeping and direct resumes touch one thread, and the list it is in. */
  lemma ThreadAnswers(s: State, a: Action, i: nat)
    requires Inv(s) && Enabled(s, a) && (a.Firing? || a.Sleeping? || a.Waking?) && i < |s.sems|
    ensures var u := Step(s, a);
            && u.calls == s.calls && |u.sems| == |s.sems|
            && u.threads == s.threads[a.t := if a.Firing? then Thread(false, false, TimedOut)
                                             else if a.Sleeping? then Thread(true, true, Ok)
                                             else Thread(false, false, s.threads[a.t].error)]
            && u.sems[i].value == s.sems[i].value
            && (if a.Sleeping? then u.sems[i] == s.sems[i] else Leaves(s.sems[i].waiting, u.sems[i].waiting, a.t))
  {
    hide Leaves, Without, SemOk;
    assert ListOk(s, i) && Placed(s, a.t, i);
    if a.t in s.sems[i].waiting {
      WithoutLeaves(s.sems[i].waiting, a.t);
    } else {
      NoneLeaves(s.sems[i].waiting, a.t);
    }
  }

  lemma NoneLeaves(q: seq<Tid>, t: Tid)
    requires t !in q
    ensures Leaves(q, q, t) && Leaves(q, Without(q, t), t)
  {
  }

  /** A reset lets every waiter go with an error and sets the value, cut to 16 bits. */
  lemma ResetAnswers(s: State, i: nat, value: nat)
    requires Inv(s) && i < |s.sems|
    ensures var u := Reset(s, i, value);
            && u.calls == s.calls && |u.sems| == |s.sems| && u.threads.Keys == s.threads.Keys
            && u.sems[i].value == value % 65536 && u.sems[i].waiting == []
            && (forall j :: 0 <= j < |s.sems| && j != i ==> u.sems[j] == s.sems[j])
            && (forall t :: t in s.threads ==>
                 u.threads[t] == if t in s.sems[i].waiting then Thread(false, false, Failed) else s.threads[t])
  {
    hide SemOk, Flushed;
    assert ListOk(s, i);
    forall t | t in s.sems[i].waiting ensures t in s.threads {
      KnownWaiter(s, i, t);
    }
  }

  /** A blocked take that goes on reports what resumed it. */
  lemma ReturnAnswers(s: State, t: Tid)
    requires Inv(s) && Enabled(s, Returning(t))
    ensures var (u, r) := Return(s, t);
            && (r == Timeout <==> s.threads[t].error == TimedOut) && (r == Error <==> s.threads[t].error == Failed)
            && (r == Success <==> s.threads[t].error == Ok)
            && u.threads == s.threads && u.calls == s.calls - {t} && |u.sems| == |s.sems|
            && forall i :: 0 <= i < |s.sems| ==>
                 u.sems[i].value == s.sems[i].value && u.sems[i].waiting == s.sems[i].waiting
  {
  }

  /* Tokens */

  function Answer(s: State, a: Action): Outcome
    requires Enabled(s, a)
  {
    match a
    case Taking(t, i, time, prio, order) => Take(s, i, t, time, prio, order).1
    case Releasing(i) => Release(s, i).1
    case Returning(t) => Return(s, t).1
    case Waking(t) => if s.threads[t].suspended then Success else Error
    case _ => Success
  }

  /** For which semaphore each thread waits that was told to, as its callers know. */
  function Asked(asked: map<Tid, nat>, a: Action, r: Outcome): map<Tid, nat> {
    match a
    case Taking(t, i, _, _, _) => if r == Waits then asked[t := i] else asked
    case Returning(t) => asked - {t}
    case _ => asked
  }

  /** A call puts a token into play, or a thread on its way that will not need one. */
  function Gives(asked: map<Tid, nat>, a: Action, r: Outcome, i: nat): nat {
    if (a == Releasing(i) && r == Success) || (a.Waking? && r == Success && a.t in asked && asked[a.t] == i) then 1 else 0
  }

  /** A take of semaphore `i` reports success. */
  function Gets(asked: map<Tid, nat>, a: Action, r: Outcome, i: nat): nat {
    if r == Success && ((a.Taking? && a.i == i) || (a.Returning? && a.t in asked && asked[a.t] == i)) then 1 else 0
  }

  ghost function Given(asked: map<Tid, nat>, s: State, run: seq<Action>, i: nat): nat
    requires Possible(s, run)
    decreases |run|
  {
    if run == [] then 0
    else
      var r := Answer(s, run[0]);
      Gives(asked, run[0], r, i) + Given(Asked(asked, run[0], r), Step(s, run[0]), run[1..], i)
  }

  ghost function Got(asked: map<Tid, nat>, s: State, run: seq<Action>, i: nat): nat
    requires Possible(s, run)
    decreases |run|
  {
    if run == [] then 0
    else
      var r := Answer(s, run[0]);
      Gets(asked, run[0], r, i) + Got(Asked(asked, run[0], r), Step(s, run[0]), run[1..], i)
  }

  /** The value, and the threads on their way back with a success. */
  ghost function InPlay(s: State, i: nat): nat
    requires i < |s.sems|
  {
    s.sems[i].value + |s.sems[i].h.granted| + |s.sems[i].h.forced|
  }

  /** The three steps that put a thread on its way or bring it back. */
  lemma ReleaseInPlay(s: State, k: nat, i: nat)
    requires Inv(s) && k < |s.sems| && i < |s.sems|
    ensures var (u, r) := Release(s, k);
            i < |u.sems| && InPlay(u, i) == InPlay(s, i) + if k == i && r == Success then 1 else 0
  {
    hide Distinct;
    assert SemOk(s.sems[i]) && ListOk(s, i);
    var h := s.sems[i].h;
    if k == i && s.sems[i].waiting != [] {
      var w := s.sems[i].waiting[0];
      assert Placed(s, w, i);
      assert |h.granted + {w}| == |h.granted| + 1;
    }
  }

  lemma WakeInPlay(s: State, t: Tid, i: nat)
    requires Inv(s) && t in s.threads && i < |s.sems|
    ensures var u := Woken(s, t);
            i < |u.sems| && InPlay(u, i) == InPlay(s, i) + if s.threads[t].suspended && t in s.calls && s.calls[t] == i then 1 else 0
  {
    hide Distinct, Without;
    assert SemOk(s.sems[i]) && ListOk(s, i) && Placed(s, t, i);
    var h := s.sems[i].h;
    if s.threads[t].suspended && t in s.calls && s.calls[t] == i {
      assert |h.forced + {t}| == |h.forced| + 1;
    }
  }

  lemma ReturnInPlay(s: State, t: Tid, i: nat)
    requires Inv(s) && Enabled(s, Returning(t)) && i < |s.sems|
    ensures var (u, r) := Return(s, t);
            i < |u.sems| && InPlay(s, i) == InPlay(u, i) + if s.calls[t] == i && r == Success then 1 else 0
  {
    hide Distinct;
    assert SemOk(s.sems[i]) && ListOk(s, i) && Placed(s, t, i);
    var h := s.sems[i].h;
    if s.threads[t].error == Ok && s.calls[t] == i {
      if t in h.forced {
        assert |h.forced - {t}| == |h.forced| - 1;
      } else {
        assert |h.granted - {t}| == |h.granted| - 1;
      }
    }
  }

  lemma RestInPlay(s: State, a: Action, i: nat)
    requires Enabled(s, a) && i < |s.sems| && !a.Releasing? && !a.Waking? && !a.Returning? && !(a.Resetting? && a.i == i)
    ensures i < |Step(s, a).sems|
    ensures InPlay(s, i) == InPlay(Step(s, a), i) + if a.Taking? && a.i == i && Answer(s, a) == Success then 1 else 0
  {
    hide Without, Insert, Flushed;
  }

  lemma StepAsks(s: State, a: Action)
    requires Enabled(s, a)
    ensures Step(s, a).calls == Asked(s.calls, a, Answer(s, a))
  {
    hide Without, Insert, Flushed;
  }

  lemma StepInPlay(s: State, a: Action, i: nat)
    requires Inv(s) && Enabled(s, a) && i < |s.sems| && !(a.Resetting? && a.i == i)
    ensures i < |Step(s, a).sems|
    ensures InPlay(Step(s, a), i) + Gets(s.calls, a, Answer(s, a), i) == InPlay(s, i) + Gives(s.calls, a, Answer(s, a), i)
    ensures Step(s, a).calls == Asked(s.calls, a, Answer(s, a))
  {
    hide Inv, InPlay, Take, Release, Woken, Return, Fire, Sleep, Reset;
    StepAsks(s, a);
    match a
    case Releasing(k) => ReleaseInPlay(s, k, i);
    case Waking(t) => WakeInPlay(s, t, i);
    case Returning(t) => ReturnInPlay(s, t, i);
    case _ => RestInPlay(s, a, i);
  }

  /**
   Counted from the answers alone, over every run without a reset of the semaphore:
   the takes that reported success, the value and the successes on their way add
   up to what there was, the releases, and the direct resumes of threads blocked in
   a take of it.
   */
  lemma {:induction false} SuccessesAreCovered(s: State, run: seq<Action>, i: nat)
    requires Inv(s) && Possible(s, run) && i < |s.sems|
    requires forall k :: 0 <= k < |run| ==> !(run[k].Resetting? && run[k].i == i)
    ensures i < |Run(s, run).sems|
    ensures InPlay(Run(s, run), i) + Got(s.calls, s, run, i) == InPlay(s, i) + Given(s.calls, s, run, i)
    decreases |run|
  {
    hide Inv, Step, Enabled, Answer, Asked, InPlay;
    if run != [] {
      StepKeepsInv(s, run[0]);
      StepInPlay(s, run[0], i);
      SuccessesAreCovered(Step(s, run[0]), run[1..], i);
    }
  }
}
