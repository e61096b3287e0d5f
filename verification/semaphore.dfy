/**
 Semaphores and timed waits. A thread may wait with a timer running; it is woken
 by a release, by its timer or by a reset, whichever comes first, and the one
 that comes first keeps the others away.
 */
module Semaphore {
  import opened Common
  import opened Sequences
  import opened WaitQueue

  /** `RT_SEM_VALUE_MAX` */
  const VALUE_MAX: nat := 65535

  datatype Error = Ok | TimedOut | Failed

  /** The fields that waiting touches: suspended or not, the thread timer, the error number. */
  datatype Thread = Thread(suspended: bool, armed: bool, error: Error)

  /**
   The history that goes with a semaphore. `start`, `releases` and `takes` count
   since the last reset. Over all time, `handed` counts the tokens given out and
   `returned` the takes that reported success with one; `directs` counts the
   threads that `rt_thread_resume` pulled out of the list and `unpaid` those of
   them that have reported success. `granted` and `forced` hold the threads on
   their way back, with a token and without.
   */
  datatype History = History(
    start: nat, releases: nat, takes: nat, handed: nat, returned: nat, granted: set<Tid>,
    directs: nat, unpaid: nat, forced: set<Tid>)

  datatype Sem = Sem(value: nat, waiting: seq<Tid>, h: History)

  /** `calls` says in which semaphore's take a thread is blocked, or was and has yet to return. */
  datatype State = State(sems: seq<Sem>, threads: map<Tid, Thread>, calls: map<Tid, nat>)

  datatype Outcome = Success | Timeout | Error | Full | Waits

  function SetSem(s: State, i: nat, x: Sem): State
    requires i < |s.sems|
  {
    s.(sems := s.sems[i := x])
  }

  function SetThread(s: State, t: Tid, x: Thread): State {
    s.(threads := s.threads[t := x])
  }

  function TakenAtOnce(h: History): History {
    h.(takes := h.takes + 1, handed := h.handed + 1, returned := h.returned + 1)
  }

  function GrantedTo(h: History, t: Tid): History {
    h.(releases := h.releases + 1, takes := h.takes + 1, handed := h.handed + 1, granted := h.granted + {t})
  }

  /** `rt_sem_take`, up to the point where it returns or the thread is suspended; a negative time waits for ever. */
  function Take(s: State, i: nat, t: Tid, time: int, prio: Priorities, order: Order): (State, Outcome)
    requires i < |s.sems|
  {
    var x := s.sems[i];
    if x.value > 0 then
      (SetSem(s, i, x.(value := x.value - 1, h := TakenAtOnce(x.h))), Success)
    else if time == 0 then (s, Timeout)
    else
      (SetThread(SetSem(s, i, x.(waiting := Insert(x.waiting, t, prio, order))), t, Thread(true, time > 0, Ok))
         .(calls := s.calls[t := i]), Waits)
  }

  /** `rt_sem_release` */
  function Release(s: State, i: nat): (State, Outcome)
    requires i < |s.sems|
  {
    var x := s.sems[i];
    if x.waiting != [] then
      var t := x.waiting[0];
      (Resumed(SetSem(s, i, x.(waiting := x.waiting[1..], h := GrantedTo(x.h, t))), t), Success)
    else if x.value < VALUE_MAX then (SetSem(s, i, x.(value := x.value + 1, h := x.h.(releases := x.h.releases + 1))), Success)
    else (s, Full)
  }

  /** A thread goes on: its timer is stopped, its error number left alone. */
  function Resumed(s: State, t: Tid): State {
    if t in s.threads then SetThread(s, t, s.threads[t].(suspended := false, armed := false)) else s
  }

  /** `rt_thread_resume`, called by anyone: refused unless the thread is suspended, and unlinked from whatever it waits for. */
  function Woken(s: State, t: Tid): State {
    if t !in s.threads || !s.threads[t].suspended then s
    else if t in s.calls && s.calls[t] < |s.sems| then
      var i := s.calls[t];
      var x := s.sems[i];
      Resumed(SetSem(s, i, x.(waiting := Without(x.waiting, t),
                              h := x.h.(directs := x.h.directs + 1, forced := x.h.forced + {t}))), t)
    else Resumed(s, t)
  }

  /** The thread timer fires: `_thread_timeout`. */
  function Fire(s: State, t: Tid): State {
    var u := SetThread(s, t, Thread(false, false, TimedOut));
    if t in s.calls && s.calls[t] < |s.sems| then
      var i := s.calls[t];
      SetSem(u, i, s.sems[i].(waiting := Without(s.sems[i].waiting, t)))
    else u
  }

  /** `rt_thread_sleep`, up to its scheduling. */
  function Sleep(s: State, t: Tid): State {
    SetThread(s, t, Thread(true, true, Ok))
  }

  /** `_ipc_list_resume_all` on the threads of `q`. */
  function Flushed(threads: map<Tid, Thread>, q: seq<Tid>): (r: map<Tid, Thread>)
    ensures forall t :: t in r <==> t in threads || t in q
    ensures forall t :: t in r ==> r[t] == if t in q then Thread(false, false, Failed) else threads[t]
    decreases |q|
  {
    if q == [] then threads else Flushed(threads[q[0] := Thread(false, false, Failed)], q[1..])
  }

  /** `rt_sem_control` with `RT_IPC_CMD_RESET`: the value is cut to 16 bits. */
  function Reset(s: State, i: nat, value: nat): State
    requires i < |s.sems|
  {
    var x := s.sems[i];
    var v := value % 65536;
    SetSem(s, i, x.(value := v, waiting := [], h := x.h.(start := v, releases := 0, takes := 0)))
      .(threads := Flushed(s.threads, x.waiting))
  }

  function Reported(h: History, t: Tid): History {
    if t in h.forced then h.(unpaid := h.unpaid + 1, forced := h.forced - {t})
    else h.(returned := h.returned + 1, granted := h.granted - {t})
  }

  /** A blocked take returns with the thread's error number. */
  function Return(s: State, t: Tid): (State, Outcome)
    requires t in s.calls && s.calls[t] < |s.sems| && t in s.threads
  {
    var i, u := s.calls[t], s.(calls := s.calls - {t});
    match s.threads[t].error
    case Ok =>
      (SetSem(u, i, s.sems[i].(h := Reported(s.sems[i].h, t))), Success)
    case TimedOut => (u, Timeout)
    case Failed => (u, Error)
  }

  /* The invariant */

  ghost predicate SemOk(x: Sem) {
    && Distinct(x.waiting) && x.value <= VALUE_MAX
    && (x.waiting != [] ==> x.value == 0)
    && x.h.start + x.h.releases == x.value + x.h.takes
    && x.h.handed == x.h.returned + |x.h.granted|
    && x.h.directs == x.h.unpaid + |x.h.forced| && x.h.granted !! x.h.forced
  }

  /** The thread is blocked in a take of semaphore `i`. */
  ghost predicate Blocked(s: State, t: Tid, i: nat) {
    t in s.calls && s.calls[t] == i && t in s.threads && s.threads[t].suspended
  }

  /** The thread has been resumed without an error out of a take of semaphore `i` and is on its way back. */
  ghost predicate Served(s: State, t: Tid, i: nat) {
    t in s.calls && s.calls[t] == i && t in s.threads && !s.threads[t].suspended && s.threads[t].error == Ok
  }

  /** A timer runs only for a suspended thread; a thread blocked in a take has no error yet. */
  ghost predicate ThreadsOk(s: State) {
    && (forall t :: t in s.threads && s.threads[t].armed ==> s.threads[t].suspended)
    && (forall t :: t in s.calls ==> t in s.threads && s.calls[t] < |s.sems|)
    && (forall t :: t in s.calls && s.threads[t].suspended ==> s.threads[t].error == Ok)
  }

  /** A thread is in the list, or on its way back, exactly when its call says so. */
  ghost predicate Placed(s: State, t: Tid, i: nat)
    requires i < |s.sems|
  {
    && (t in s.sems[i].waiting <==> Blocked(s, t, i))
    && (t in s.sems[i].h.granted || t in s.sems[i].h.forced <==> Served(s, t, i))
  }

  ghost predicate ListOk(s: State, i: nat)
    requires i < |s.sems|
  {
    forall t: Tid :: Placed(s, t, i)
  }

  ghost predicate Inv(s: State) {
    && ThreadsOk(s)
    && forall i :: 0 <= i < |s.sems| ==> SemOk(s.sems[i]) && ListOk(s, i)
  }

  /* One step at a time */

  /** Semaphore `i` is in order, and no thread of another semaphore was touched. */
  lemma SemsStep(s: State, u: State, i: nat)
    requires Inv(s) && i < |s.sems| == |u.sems| && u.sems == s.sems[i := u.sems[i]] && SemOk(u.sems[i]) && ListOk(u, i)
    requires forall j: nat, t :: j != i ==> (Blocked(u, t, j) <==> Blocked(s, t, j)) && (Served(u, t, j) <==> Served(s, t, j))
    ensures forall j :: 0 <= j < |u.sems| ==> SemOk(u.sems[j]) && ListOk(u, j)
  {
    hide Blocked, Served, SemOk;
    forall j | 0 <= j < |u.sems| ensures SemOk(u.sems[j]) && ListOk(u, j) {
      if j != i {
        assert ListOk(s, j);
        forall t: Tid ensures Placed(u, t, j) {
          assert Placed(s, t, j);
          assert Blocked(u, t, j) <==> Blocked(s, t, j);
          assert Served(u, t, j) <==> Served(s, t, j);
        }
      }
    }
  }

  /** A running thread, outside any take. */
  predicate Active(s: State, t: Tid) {
    t in s.threads && !s.threads[t].suspended && t !in s.calls
  }

  lemma TakeKeepsInv(s: State, i: nat, t: Tid, time: int, prio: Priorities, order: Order)
    requires Inv(s) && i < |s.sems| && Active(s, t)
    ensures Inv(Take(s, i, t, time, prio, order).0)
  {
    hide Distinct, Insert;
    var x, u := s.sems[i], Take(s, i, t, time, prio, order).0;
    assert SemOk(x) && ListOk(s, i);
    if x.value > 0 {
      forall y: Tid ensures Placed(u, y, i) { assert Placed(s, y, i); }
      SemsStep(s, u, i);
    } else if time != 0 {
      assert Placed(s, t, i) && !Blocked(s, t, i);
      InsertKeepsDistinct(x.waiting, t, prio, order);
      forall y: Tid ensures Placed(u, y, i) { assert Placed(s, y, i); }
      SemsStep(s, u, i);
    }
  }

  lemma ReleaseKeepsInv(s: State, i: nat)
    requires Inv(s) && i < |s.sems|
    ensures Inv(Release(s, i).0)
    ensures Release(s, i).1 == Full <==> s.sems[i].value == VALUE_MAX
  {
    hide Distinct;
    var x, u := s.sems[i], Release(s, i).0;
    assert SemOk(x) && ListOk(s, i);
    if x.waiting != [] {
      var t := x.waiting[0];
      HeadTail(x.waiting);
      assert t in x.waiting && Placed(s, t, i);
      assert Blocked(s, t, i) && t !in x.h.granted && t !in x.h.forced;
      assert |x.h.granted + {t}| == |x.h.granted| + 1;
      forall y: Tid ensures Placed(u, y, i) { assert Placed(s, y, i); }
      SemsStep(s, u, i);
    } else if x.value < VALUE_MAX {
      forall y: Tid ensures Placed(u, y, i) { assert Placed(s, y, i); }
      SemsStep(s, u, i);
    }
  }

  /** The timeout never meets a thread that something else has resumed already. */
  lemma FireKeepsInv(s: State, t: Tid)
    requires Inv(s) && t in s.threads && s.threads[t].armed
    ensures s.threads[t].suspended && Inv(Fire(s, t))
  {
    hide Distinct, Without;
    var u := Fire(s, t);
    if t in s.calls {
      var i := s.calls[t];
      assert SemOk(s.sems[i]) && ListOk(s, i);
      WithoutKeepsDistinct(s.sems[i].waiting, t);
      forall y: Tid ensures Placed(u, y, i) { assert Placed(s, y, i); }
      SemsStep(s, u, i);
    } else {
      forall i | 0 <= i < |s.sems| ensures SemOk(u.sems[i]) && ListOk(u, i) {
        assert SemOk(s.sems[i]) && ListOk(s, i);
        forall y: Tid ensures Placed(u, y, i) { assert Placed(s, y, i); }
      }
    }
  }

  /** A direct resume, of a sleeper or of a thread blocked in a take. */
  lemma WakeKeepsInv(s: State, t: Tid)
    requires Inv(s) && t in s.threads
    ensures Inv(Woken(s, t))
  {
    hide Distinct, Without;
    var u := Woken(s, t);
    if s.threads[t].suspended && t in s.calls {
      var i := s.calls[t];
      var x := s.sems[i];
      assert SemOk(x) && ListOk(s, i) && Placed(s, t, i);
      assert Blocked(s, t, i) && t !in x.h.granted && t !in x.h.forced;
      assert |x.h.forced + {t}| == |x.h.forced| + 1;
      WithoutKeepsDistinct(x.waiting, t);
      forall y: Tid ensures Placed(u, y, i) { assert Placed(s, y, i); }
      SemsStep(s, u, i);
    } else {
      forall i | 0 <= i < |s.sems| ensures SemOk(u.sems[i]) && ListOk(u, i) {
        assert SemOk(s.sems[i]) && ListOk(s, i);
        forall y: Tid ensures Placed(u, y, i) { assert Placed(s, y, i); }
      }
    }
  }

  lemma SleepKeepsInv(s: State, t: Tid)
    requires Inv(s) && Active(s, t)
    ensures Inv(Sleep(s, t))
  {
    hide Distinct;
    var u := Sleep(s, t);
    forall i | 0 <= i < |s.sems| ensures SemOk(u.sems[i]) && ListOk(u, i) {
      assert SemOk(s.sems[i]) && ListOk(s, i);
      forall y: Tid ensures Placed(u, y, i) { assert Placed(s, y, i); }
    }
  }

  lemma ResetKeepsInv(s: State, i: nat, value: nat)
    requires Inv(s) && i < |s.sems|
    ensures Inv(Reset(s, i, value))
  {
    hide Flushed;
    var x, u := s.sems[i], Reset(s, i, value);
    assert SemOk(x) && ListOk(s, i);
    forall t: Tid ensures Placed(u, t, i) {
      assert Placed(s, t, i);
    }
    forall j: nat, t | j != i
      ensures (Blocked(u, t, j) <==> Blocked(s, t, j)) && (Served(u, t, j) <==> Served(s, t, j)) {
      assert Placed(s, t, i);
    }
    SemsStep(s, u, i);
  }

  /** A blocked take reports success exactly if a release granted it a token or somebody resumed its thread directly. */
  lemma ReturnKeepsInv(s: State, t: Tid)
    requires Inv(s) && t in s.calls && !s.threads[t].suspended
    ensures s.calls[t] < |s.sems| && Inv(Return(s, t).0)
    ensures var h := s.sems[s.calls[t]].h;
            && (Return(s, t).1 == Success <==> t in h.granted || t in h.forced)
            && (Return(s, t).1 == Success && t !in h.granted <==> t in h.forced)
  {
    hide Distinct;
    var i, u := s.calls[t], Return(s, t).0;
    var h := s.sems[i].h;
    assert SemOk(s.sems[i]) && ListOk(s, i);
    if t in h.granted {
      assert |h.granted - {t}| == |h.granted| - 1;
    }
    if t in h.forced {
      assert |h.forced - {t}| == |h.forced| - 1;
    }
    assert Placed(s, t, i);
    forall y: Tid ensures Placed(u, y, i) { assert Placed(s, y, i); }
    SemsStep(s, u, i);
  }

  /** A thread comes to be on its way back without a token exactly by a direct resume while it was blocked in a take. */
  lemma ForcedBy(s: State, a: Action, t: Tid, i: nat)
    requires Inv(s) && Enabled(s, a) && i < |s.sems| && t !in s.sems[i].h.forced
    ensures i < |Step(s, a).sems|
    ensures t in Step(s, a).sems[i].h.forced <==> a == Waking(t) && Blocked(s, t, i)
  {
    hide Distinct, Without, Insert, Flushed;
    assert ListOk(s, i) && Placed(s, t, i);
  }

  /* Every run */

  datatype Action =
    | Taking(t: Tid, i: nat, time: int, prio: Priorities, order: Order)
    | Releasing(i: nat)
    | Firing(t: Tid)
    | Sleeping(t: Tid)
    | Waking(t: Tid)
    | Resetting(i: nat, value: nat)
    | Returning(t: Tid)

  /** Anyone may resume any thread; a timer fires when it is armed, whatever its thread does. */
  predicate Enabled(s: State, a: Action) {
    match a
    case Taking(t, i, _, _, _) => i < |s.sems| && Active(s, t)
    case Releasing(i) => i < |s.sems|
    case Firing(t) => t in s.threads && s.threads[t].armed
    case Sleeping(t) => Active(s, t)
    case Waking(t) => t in s.threads
    case Resetting(i, _) => i < |s.sems|
    case Returning(t) => t in s.calls && t in s.threads && !s.threads[t].suspended && s.calls[t] < |s.sems|
  }

  function Step(s: State, a: Action): State
    requires Enabled(s, a)
  {
    match a
    case Taking(t, i, time, prio, order) => Take(s, i, t, time, prio, order).0
    case Releasing(i) => Release(s, i).0
    case Firing(t) => Fire(s, t)
    case Sleeping(t) => Sleep(s, t)
    case Waking(t) => Woken(s, t)
    case Resetting(i, value) => Reset(s, i, value)
    case Returning(t) => Return(s, t).0
  }

  lemma StepKeepsInv(s: State, a: Action)
    requires Inv(s) && Enabled(s, a)
    ensures Inv(Step(s, a))
  {
    hide Inv, Take, Release, Fire, Sleep, Woken, Reset, Return;
    match a
    case Taking(t, i, time, prio, order) => TakeKeepsInv(s, i, t, time, prio, order);
    case Releasing(i) => ReleaseKeepsInv(s, i);
    case Firing(t) => FireKeepsInv(s, t);
    case Sleeping(t) => SleepKeepsInv(s, t);
    case Waking(t) => WakeKeepsInv(s, t);
    case Resetting(i, value) => ResetKeepsInv(s, i, value);
    case Returning(t) => ReturnKeepsInv(s, t);
  }

  ghost predicate Possible(s: State, run: seq<Action>)
    decreases |run|
  {
    run == [] || (Enabled(s, run[0]) && Possible(Step(s, run[0]), run[1..]))
  }

  ghost function Run(s: State, run: seq<Action>): State
    requires Possible(s, run)
    decreases |run|
  {
    if run == [] then s else Run(Step(s, run[0]), run[1..])
  }

  lemma {:induction false} EveryRunKeepsInv(s: State, run: seq<Action>)
    requires Inv(s) && Possible(s, run)
    ensures Inv(Run(s, run))
    decreases |run|
  {
    hide Inv;
    if run != [] {
      StepKeepsInv(s, run[0]);
      EveryRunKeepsInv(Step(s, run[0]), run[1..]);
    }
  }

  /** A timeout finds its thread suspended, in every run: the assertion in `_thread_timeout` never fails. */
  lemma TimeoutFindsSleeper(s: State, run: seq<Action>, t: Tid)
    requires Inv(s) && Possible(s, run) && Enabled(Run(s, run), Firing(t))
    ensures Run(s, run).threads[t].suspended
  {
    EveryRunKeepsInv(s, run);
  }

  /**
   Tokens are conserved, and nobody waits while there is one. The takes that have
   reported success exceed the tokens handed out by exactly the threads that were
   resumed directly, less those on their way back.
   */
  lemma TokensAreConserved(s: State, run: seq<Action>, i: nat)
    requires Inv(s) && Possible(s, run) && i < |Run(s, run).sems|
    ensures var x, h := Run(s, run).sems[i], Run(s, run).sems[i].h;
            && h.start + h.releases == x.value + h.takes
            && h.handed == h.returned + |h.granted| && h.directs == h.unpaid + |h.forced|
            && (x.waiting != [] ==> x.value == 0)
  {
    EveryRunKeepsInv(s, run);
  }

  /** One such run: a thread waits for an empty semaphore, is resumed directly, and reports success without a token. */
  lemma DirectResumeNeedsNoToken(t: Tid, prio: Priorities)
    ensures var h := History(0, 0, 0, 0, 0, {}, 0, 0, {});
            var s := State([Sem(0, [], h)], map[t := Thread(false, false, Ok)], map[]);
            var s1 := Take(s, 0, t, -1, prio, Fifo).0;
            var s2 := Woken(s1, t);
            && t in s2.calls && s2.calls[t] < |s2.sems| && t in s2.threads
            && var (s3, r) := Return(s2, t);
               r == Success && |s3.sems| == 1 && s3.sems[0].h.handed == 0 && s3.sems[0].h.unpaid == 1
  {
  }

  class Semaphores {
    var sems: seq<Sem>
    var threads: map<Tid, Thread>
    var calls: map<Tid, nat>

    ghost function Abs(): State
      reads this
    {
      State(sems, threads, calls)
    }

    ghost predicate Valid()
      reads this
    {
      Inv(Abs())
    }

    /** `rt_sem_init` with each of the given values. */
    constructor (values: seq<nat>, all: set<Tid>)
      requires forall i :: 0 <= i < |values| ==> values[i] <= VALUE_MAX
      ensures Valid() && |sems| == |values| && threads.Keys == all && calls == map[]
      ensures forall i :: 0 <= i < |values| ==> sems[i].value == values[i] && sems[i].waiting == []
    {
      sems := seq(|values|, i requires 0 <= i < |values| => Sem(values[i], [], History(values[i], 0, 0, 0, 0, {}, 0, 0, {})));
      threads := map t | t in all :: Thread(false, false, Ok);
      calls := map[];
    }

    method GoOn(t: Tid)
      requires t in threads
      modifies `threads
      ensures Abs() == Resumed(old(Abs()), t)
    {
      threads := threads[t := threads[t].(suspended := false, armed := false)];
    }

    /** `rt_thread_resume` of any thread. */
    method Resume(t: Tid) returns (ok: bool)
      requires Valid() && t in threads
      modifies this
      ensures Valid() && Abs() == Woken(old(Abs()), t) && ok == old(threads)[t].suspended
    {
      hide Inv, Without;
      WakeKeepsInv(Abs(), t);
      ok := threads[t].suspended;
      if ok {
        if t in calls && calls[t] < |sems| {
          var i := calls[t];
          var x := sems[i];
          sems := sems[i := x.(waiting := Without(x.waiting, t), h := x.h.(directs := x.h.directs + 1, forced := x.h.forced + {t}))];
        }
        GoOn(t);
      }
    }

    /** `rt_sem_take` */
    method TakeSem(i: nat, t: Tid, time: int, prio: Priorities, order: Order) returns (r: Outcome)
      requires Valid() && Enabled(Abs(), Taking(t, i, time, prio, order))
      modifies this
      ensures Valid() && (Abs(), r) == Take(old(Abs()), i, t, time, prio, order)
    {
      hide Inv, Insert;
      TakeKeepsInv(Abs(), i, t, time, prio, order);
      var x := sems[i];
      if x.value > 0 {
        sems := sems[i := x.(value := x.value - 1, h := TakenAtOnce(x.h))];
        return Success;
      }
      if time == 0 {
        return Timeout;
      }
      threads := threads[t := threads[t].(suspended := true, armed := false, error := Ok)];
      var q := Enqueue(x.waiting, t, prio, order);
      sems := sems[i := x.(waiting := q)];
      calls := calls[t := i];
      if time > 0 {
        threads := threads[t := threads[t].(armed := true)];
      }
      assert threads == old(threads)[t := Thread(true, time > 0, Ok)];
      r := Waits;
    }

    /** `rt_sem_release` */
    method ReleaseSem(i: nat) returns (r: Outcome)
      requires Valid() && i < |sems|
      modifies this
      ensures Valid() && (Abs(), r) == Release(old(Abs()), i)
    {
      hide Inv;
      ReleaseKeepsInv(Abs(), i);
      var x := sems[i];
      if x.waiting != [] {
        var t := x.waiting[0];
        KnownWaiter(Abs(), i, t);
        sems := sems[i := x.(waiting := x.waiting[1..], h := GrantedTo(x.h, t))];
        GoOn(t);
        return Success;
      }
      if x.value < VALUE_MAX {
        sems := sems[i := x.(value := x.value + 1, h := x.h.(releases := x.h.releases + 1))];
        return Success;
      }
      r := Full;
    }

    /** `_thread_timeout`: unlinked from whichever list it is in; its timer has just been disarmed. */
    method Expire(t: Tid)
      requires Valid() && Enabled(Abs(), Firing(t))
      modifies this
      ensures Valid() && Abs() == Fire(old(Abs()), t) && old(threads)[t].suspended
    {
      hide Inv, Without;
      FireKeepsInv(Abs(), t);
      threads := threads[t := Thread(false, false, TimedOut)];
      if t in calls && calls[t] < |sems| {
        var i := calls[t];
        sems := sems[i := sems[i].(waiting := Without(sems[i].waiting, t))];
      }
    }

    /** The rest of a blocked `rt_sem_take`. */
    method Finish(t: Tid) returns (r: Outcome)
      requires Valid() && Enabled(Abs(), Returning(t))
      modifies this
      ensures Valid() && (Abs(), r) == Return(old(Abs()), t)
      ensures r == Success <==> (var h := old(sems)[old(calls)[t]].h; t in h.granted || t in h.forced)
    {
      hide Inv;
      ReturnKeepsInv(Abs(), t);
      var i := calls[t];
      calls := calls - {t};
      match threads[t].error
      case Ok =>
        sems := sems[i := sems[i].(h := Reported(sems[i].h, t))];
        r := Success;
      case TimedOut => r := Timeout;
      case Failed => r := Error;
    }

    /** `rt_sem_control` with `RT_IPC_CMD_RESET`: the list is emptied one thread at a time. */
    method ResetSem(i: nat, value: nat)
      requires Valid() && i < |sems|
      modifies this
      ensures Valid() && Abs() == Reset(old(Abs()), i, value)
    {
      hide Inv;
      ResetKeepsInv(Abs(), i, value);
      ghost var was := Abs();
      while sems[i].waiting != []
        invariant |sems| == |was.sems| && sems == was.sems[i := was.sems[i].(waiting := sems[i].waiting)]
        invariant Flushed(threads, sems[i].waiting) == Flushed(was.threads, was.sems[i].waiting) && calls == was.calls
        decreases |sems[i].waiting|
      {
        var t := sems[i].waiting[0];
        threads := threads[t := Thread(false, false, Failed)];
        sems := sems[i := sems[i].(waiting := sems[i].waiting[1..])];
      }
      var v, x := value % 65536, sems[i];
      sems := sems[i := x.(value := v, h := x.h.(start := v, releases := 0, takes := 0))];
      assert sems == Reset(was, i, value).sems;
      assert threads == Flushed(threads, []);
      assert Abs() == Reset(was, i, value);
    }
  }

  lemma KnownWaiter(s: State, i: nat, t: Tid)
    requires Inv(s) && i < |s.sems| && t in s.sems[i].waiting
    ensures t in s.threads
  {
    assert ListOk(s, i) && Placed(s, t, i);
  }
}
