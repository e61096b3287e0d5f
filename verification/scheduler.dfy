/**
 The single-core scheduler: thread states, the ready queue that follows them, and
 the choice of the thread to run.
 */
module Scheduler {
  import opened Common
  import opened Sequences
  import opened Words
  import opened Ffs
  import opened ReadyQueue

  datatype Stat = Init | Ready | Running | Suspended | Closed

  /** `slice` and `remaining` are `init_tick` and `remaining_tick`. */
  datatype Thread = Thread(prio: nat, stat: Stat, yielding: bool, remaining: nat, slice: nat)

  /**
   `nest` is `rt_scheduler_lock_nest`; `due` is set while the tick handler that
   ended a slice has enabled interrupts again and not yet called the scheduler.
   */
  datatype State = State(queue: Queue, threads: map<Tid, Thread>, current: Tid, nest: nat, due: bool)

  function Set(s: State, t: Tid, x: Thread): State {
    s.(threads := s.threads[t := x])
  }

  /* The invariant */

  ghost predicate InRow(s: State, t: Tid, p: nat) {
    t in s.threads && s.threads[t].stat == Ready && s.threads[t].prio == p
  }

  ghost predicate RowOk(s: State, p: nat)
    requires p < |s.queue.table|
  {
    Distinct(s.queue.table[p]) && forall t :: t in s.queue.table[p] <==> InRow(s, t, p)
  }

  /** A thread is in list `p` exactly when it is ready with priority `p`. */
  ghost predicate ListsOk(s: State) {
    forall p :: 0 <= p < |s.queue.table| ==> RowOk(s, p)
  }

  predicate ThreadOk(x: Thread, levels: nat) {
    x.prio < levels && x.remaining > 0 && x.slice > 0
  }

  ghost predicate ThreadsOk(s: State, idle: Tid) {
    && s.current in s.threads && idle in s.threads
    && (forall t :: t in s.threads ==> ThreadOk(s.threads[t], |s.queue.table|))
    && s.threads[s.current].stat !in {Ready, Init}
    && (forall t :: t in s.threads && s.threads[t].stat == Running ==> t == s.current)
    && s.threads[idle].stat in {Ready, Running}
  }

  ghost predicate Inv(s: State, idle: Tid) {
    IndexOk(s.queue) && ThreadsOk(s, idle) && ListsOk(s)
  }

  predicate Fits(s: State, t: Tid) {
    t in s.threads && s.threads[t].prio < |s.queue.table|
    && (TwoLevels(s.queue) ==> s.threads[t].prio / 8 < |s.queue.ready|)
  }

  lemma AllFit(s: State, t: Tid, idle: Tid)
    requires Inv(s, idle) && t in s.threads
    ensures Fits(s, t)
  {
    hide ListsOk;
    RoomFor(s.queue, s.threads[t].prio);
  }

  /* Operations */

  /** `rt_schedule_insert_thread` */
  function Enqueue(s: State, t: Tid): State
    requires Fits(s, t)
  {
    if t == s.current then Set(s, t, s.threads[t].(stat := Running))
    else Set(s, t, s.threads[t].(stat := Ready)).(queue := Insert(s.queue, t, s.threads[t].prio))
  }

  /** `rt_schedule_remove_thread` */
  function Dequeue(s: State, t: Tid): State
    requires Fits(s, t)
  {
    s.(queue := Remove(s.queue, t, s.threads[t].prio))
  }

  /** `rt_thread_resume`, and `_thread_timeout` alike. */
  function Resume(s: State, t: Tid): State
    requires Fits(s, t)
  {
    if s.threads[t].stat != Suspended then s else Enqueue(s, t)
  }

  /** `rt_thread_startup` */
  function Startup(s: State, t: Tid): State
    requires Fits(s, t)
  {
    Resume(Set(s, t, s.threads[t].(stat := Suspended, yielding := false)), t)
  }

  /** `rt_thread_suspend`, of the current thread. */
  function Suspend(s: State): State
    requires Fits(s, s.current)
  {
    if s.threads[s.current].stat !in {Ready, Running} then s
    else
      var u := Dequeue(s, s.current);
      Set(u, s.current, s.threads[s.current].(stat := Suspended))
  }

  /** `rt_thread_yield`, up to its scheduling; interrupts stay disabled over both. */
  function Yield(s: State): State
    requires s.current in s.threads
  {
    Set(s, s.current, s.threads[s.current].(remaining := s.threads[s.current].slice, yielding := true))
  }

  /** `rt_thread_detach` */
  function Detach(s: State, t: Tid): State
    requires Fits(s, t)
  {
    if s.threads[t].stat == Closed then s
    else
      var u := if s.threads[t].stat != Init then Dequeue(s, t) else s;
      Set(u, t, s.threads[t].(stat := Closed, yielding := false))
  }

  /** `rt_thread_control` with `RT_THREAD_CTRL_CHANGE_PRIORITY` */
  function ChangePriority(s: State, t: Tid, p: nat): State
    requires Fits(s, t) && p < |s.queue.table| && (TwoLevels(s.queue) ==> p / 8 < |s.queue.ready|)
  {
    if s.threads[t].stat == Ready then
      var u := Dequeue(s, t);
      var v := Set(u, t, s.threads[t].(prio := p));
      Enqueue(v, t)
    else Set(s, t, s.threads[t].(prio := p))
  }

  /* What the operations keep */

  lemma ListsFrame(s: State, u: State)
    requires ListsOk(s) && u.queue.table == s.queue.table
    requires forall t, p: nat :: InRow(u, t, p) <==> InRow(s, t, p)
    ensures ListsOk(u)
  {
    forall p | 0 <= p < |u.queue.table| ensures RowOk(u, p) {
      assert RowOk(s, p);
    }
  }

  /** One thread enters list `p`. */
  lemma ListsGain(s: State, u: State, t: Tid, p: nat)
    requires ListsOk(s) && p < |s.queue.table| && u.queue.table == s.queue.table[p := s.queue.table[p] + [t]]
    requires forall q: nat :: !InRow(s, t, q)
    requires forall x, q: nat :: InRow(u, x, q) <==> InRow(s, x, q) || (x == t && q == p)
    ensures ListsOk(u)
  {
    hide InRow;
    forall q | 0 <= q < |u.queue.table| ensures RowOk(u, q) {
      assert RowOk(s, q);
      if q == p {
        assert t !in s.queue.table[p];
        ConcatDistinct(s.queue.table[p], [t]);
      }
    }
  }

  /** One thread leaves list `p`. */
  lemma ListsLose(s: State, u: State, t: Tid, p: nat)
    requires ListsOk(s) && p < |s.queue.table| && u.queue.table == s.queue.table[p := Without(s.queue.table[p], t)]
    requires forall x, q: nat :: InRow(u, x, q) <==> InRow(s, x, q) && x != t
    requires forall q: nat :: InRow(s, t, q) ==> q == p
    ensures ListsOk(u)
  {
    hide InRow;
    forall q | 0 <= q < |u.queue.table| ensures RowOk(u, q) {
      assert RowOk(s, q);
      if q == p {
        WithoutKeepsDistinct(s.queue.table[p], t);
      } else {
        assert t !in s.queue.table[q];
      }
    }
  }

  lemma EnqueueKeepsInv(s: State, t: Tid, idle: Tid)
    requires Inv(s, idle) && t in s.threads && s.threads[t].stat in {Init, Suspended, Running}
    requires s.threads[t].stat == Running ==> t == s.current
    ensures Fits(s, t) && Inv(Enqueue(s, t), idle)
  {
    hide Insert, IndexOk;
    AllFit(s, t, idle);
    var u, p := Enqueue(s, t), s.threads[t].prio;
    if t == s.current {
      ListsFrame(s, u);
    } else {
      InsertKeepsIndex(s.queue, t, p);
      InsertTable(s.queue, t, p);
      ListsGain(s, u, t, p);
    }
  }

  lemma InsertTable(q: Queue, t: Tid, p: nat)
    requires p < |q.table| && (TwoLevels(q) ==> p / 8 < |q.ready|)
    ensures Insert(q, t, p).table == q.table[p := q.table[p] + [t]]
  {
  }

  lemma RemoveTable(q: Queue, t: Tid, p: nat)
    requires p < |q.table| && (TwoLevels(q) ==> p / 8 < |q.ready|)
    ensures Remove(q, t, p).table == q.table[p := Without(q.table[p], t)]
  {
  }

  /** Taking a thread out of the queue and making it something other than ready or running. */
  lemma LeaveKeepsInv(s: State, t: Tid, x: Thread, idle: Tid)
    requires Inv(s, idle) && t in s.threads && t != idle && x.stat in {Suspended, Closed} && ThreadOk(x, |s.queue.table|)
    ensures Fits(s, t) && Inv(Set(Dequeue(s, t), t, x), idle)
  {
    hide Remove, IndexOk;
    AllFit(s, t, idle);
    var p := s.threads[t].prio;
    var u := Set(Dequeue(s, t), t, x);
    RemoveKeepsIndex(s.queue, t, p);
    RemoveTable(s.queue, t, p);
    ListsLose(s, u, t, p);
  }

  lemma ChangePriorityKeepsInv(s: State, t: Tid, p: nat, idle: Tid)
    requires Inv(s, idle) && t in s.threads && t != idle && p < |s.queue.table|
    ensures Fits(s, t) && (TwoLevels(s.queue) ==> p / 8 < |s.queue.ready|)
    ensures Inv(ChangePriority(s, t, p), idle)
  {
    hide Insert, Remove, IndexOk, RowOk;
    AllFit(s, t, idle);
    Room(s, p, idle);
    var x := s.threads[t].(prio := p);
    if s.threads[t].stat == Ready {
      var u := Set(Dequeue(s, t), t, x.(stat := Suspended));
      LeaveKeepsInv(s, t, x.(stat := Suspended), idle);
      EnqueueKeepsInv(u, t, idle);
      assert Enqueue(u, t) == ChangePriority(s, t, p);
    } else {
      ListsFrame(s, Set(s, t, x));
    }
  }

  lemma Room(s: State, p: nat, idle: Tid)
    requires Inv(s, idle) && p < |s.queue.table|
    ensures TwoLevels(s.queue) ==> p / 8 < |s.queue.ready|
  {
    hide ListsOk;
    RoomFor(s.queue, p);
  }

  lemma SuspendKeepsInv(s: State, idle: Tid)
    requires Inv(s, idle) && s.current != idle
    ensures Fits(s, s.current) && Inv(Suspend(s), idle)
  {
    hide Remove, IndexOk, ListsOk;
    AllFit(s, s.current, idle);
    LeaveKeepsInv(s, s.current, s.threads[s.current].(stat := Suspended), idle);
  }

  lemma DetachKeepsInv(s: State, t: Tid, idle: Tid)
    requires Inv(s, idle) && t in s.threads && t != idle
    ensures Fits(s, t) && Inv(Detach(s, t), idle)
  {
    hide Remove, IndexOk, RowOk;
    AllFit(s, t, idle);
    var x := s.threads[t].(stat := Closed, yielding := false);
    LeaveKeepsInv(s, t, x, idle);
    if s.threads[t].stat == Init {
      ListsFrame(s, Set(s, t, x));
    }
  }

  lemma StartupKeepsInv(s: State, t: Tid, idle: Tid)
    requires Inv(s, idle) && t in s.threads && s.threads[t].stat == Init
    ensures Fits(s, t) && Inv(Startup(s, t), idle)
  {
    hide IndexOk, RowOk;
    AllFit(s, t, idle);
    var u := Set(s, t, s.threads[t].(stat := Suspended, yielding := false));
    ListsFrame(s, u);
    EnqueueKeepsInv(u, t, idle);
  }

  /** A change of the running thread's own counters. */
  lemma CountersKeepInv(s: State, t: Tid, x: Thread, idle: Tid)
    requires Inv(s, idle) && t in s.threads && x.prio == s.threads[t].prio && x.stat == s.threads[t].stat
    requires x.remaining > 0 && x.slice > 0
    ensures Inv(Set(s, t, x), idle)
  {
    hide IndexOk, RowOk;
    ListsFrame(s, Set(s, t, x));
  }

  /* Scheduling */

  ghost predicate Pickable(s: State, idle: Tid) {
    Inv(s, idle) && s.queue.group != 0
  }

  /** The head of the most urgent list. */
  function Candidate(s: State, idle: Tid): (t: Tid)
    requires Pickable(s, idle)
    ensures var p := Highest(s.queue); 0 <= p < |s.queue.table| && s.queue.table[p] != [] && t == s.queue.table[p][0]
  {
    HighestIs(s.queue);
    s.queue.table[Highest(s.queue)][0]
  }

  lemma CandidateIs(s: State, idle: Tid)
    requires Pickable(s, idle)
    ensures var t := Candidate(s, idle);
            Fits(s, t) && s.threads[t].stat == Ready && s.threads[t].prio == Highest(s.queue) && t != s.current
    ensures forall x :: x in s.threads && s.threads[x].stat == Ready ==> Highest(s.queue) <= s.threads[x].prio
  {
    hide Highest, ByteOk, GroupOk, OneLevelOk;
    HighestIs(s.queue);
    var p := Highest(s.queue);
    var t := Candidate(s, idle);
    assert RowOk(s, p);
    assert t in s.queue.table[p];
    AllFit(s, t, idle);
    forall x | x in s.threads && s.threads[x].stat == Ready ensures p <= s.threads[x].prio {
      assert RowOk(s, s.threads[x].prio);
      assert InRow(s, x, s.threads[x].prio);
    }
  }

  /** The current thread goes on: it is more urgent, or as urgent and not yielding. */
  predicate Stays(s: State, idle: Tid)
    requires Pickable(s, idle)
  {
    var x := s.threads[s.current];
    x.stat == Running && (x.prio < Highest(s.queue) || (x.prio == Highest(s.queue) && !x.yielding))
  }

  /** `rt_schedule` */
  function Schedule(s: State, idle: Tid): State
    requires Inv(s, idle)
  {
    if s.nest != 0 || s.queue.group == 0 then s
    else
      var x := s.threads[s.current];
      var u := if x.stat == Running then Set(s, s.current, x.(yielding := false)) else s;
      AllFit(s, s.current, idle);
      CandidateIs(s, idle);
      if Stays(s, idle) then Set(Dequeue(u, s.current), s.current, u.threads[s.current].(stat := Running))
      else SwitchTo(u, Candidate(s, idle), x.stat == Running)
  }

  function SwitchTo(s: State, to: Tid, requeue: bool): State
    requires Fits(s, s.current) && Fits(s, to)
  {
    var v := s.(current := to);
    var w := if requeue && s.current != to then Enqueue(v, s.current) else v;
    Set(Dequeue(w, to), to, w.threads[to].(stat := Running))
  }

  lemma StaysKeepsInv(s: State, idle: Tid)
    requires Pickable(s, idle) && s.nest == 0 && Stays(s, idle)
    ensures Inv(Schedule(s, idle), idle) && Schedule(s, idle).due == s.due
  {
    hide IndexOk, Highest, Remove;
    var p, u := s.threads[s.current].prio, Schedule(s, idle);
    AllFit(s, s.current, idle);
    RemoveKeepsIndex(s.queue, s.current, p);
    RemoveTable(s.queue, s.current, p);
    assert RowOk(s, p);
    assert s.current !in s.queue.table[p];
    assert u.queue.table == s.queue.table;
    ListsFrame(s, u);
  }

  lemma LeaveToRun(s: State, to: Tid, x: Thread)
    requires ListsOk(s) && IndexOk(s.queue) && Fits(s, to) && s.threads[to].stat == Ready && x.stat == Running
    ensures var u := Set(Dequeue(s, to), to, x); ListsOk(u) && IndexOk(u.queue)
  {
    hide IndexOk, Remove, RowOk;
    var u := Set(Dequeue(s, to), to, x);
    RemoveKeepsIndex(s.queue, to, s.threads[to].prio);
    RemoveTable(s.queue, to, s.threads[to].prio);
    ListsLose(s, u, to, s.threads[to].prio);
  }

  lemma JoinQueue(s: State, t: Tid, x: Thread)
    requires ListsOk(s) && IndexOk(s.queue) && Fits(s, t) && s.threads[t].stat != Ready
    requires x.stat == Ready && x.prio == s.threads[t].prio
    ensures var u := Set(s, t, x).(queue := Insert(s.queue, t, x.prio)); ListsOk(u) && IndexOk(u.queue)
  {
    hide IndexOk, Insert, RowOk;
    var u := Set(s, t, x).(queue := Insert(s.queue, t, x.prio));
    InsertKeepsIndex(s.queue, t, x.prio);
    InsertTable(s.queue, t, x.prio);
    ListsGain(s, u, t, x.prio);
  }

  lemma ListsSame(s: State, u: State)
    requires ListsOk(s) && IndexOk(s.queue) && u.queue == s.queue
    requires forall t :: t in u.threads <==> t in s.threads
    requires forall t :: t in s.threads ==> u.threads[t].stat == s.threads[t].stat && u.threads[t].prio == s.threads[t].prio
    ensures ListsOk(u) && IndexOk(u.queue)
  {
    hide RowOk, IndexOk;
    ListsFrame(s, u);
  }

  lemma SwitchKeepsLists(s: State, to: Tid, requeue: bool)
    requires ListsOk(s) && IndexOk(s.queue) && Fits(s, s.current) && Fits(s, to) && to != s.current
    requires s.threads[to].stat == Ready && s.threads[s.current].stat != Ready
    ensures ListsOk(SwitchTo(s, to, requeue)) && IndexOk(SwitchTo(s, to, requeue).queue)
    ensures SwitchTo(s, to, requeue).threads ==
            (if requeue then s.threads[s.current := s.threads[s.current].(stat := Ready)] else s.threads)
              [to := s.threads[to].(stat := Running)]
  {
    hide IndexOk, Insert, Remove, ListsOk;
    var v := s.(current := to);
    ListsSame(s, v);
    var w := if requeue then Enqueue(v, s.current) else v;
    if requeue {
      JoinQueue(v, s.current, s.threads[s.current].(stat := Ready));
      InsertKeepsIndex(s.queue, s.current, s.threads[s.current].prio);
      InsertTable(s.queue, s.current, s.threads[s.current].prio);
      RoomAfter(s.queue, w.queue, s.threads[to].prio);
    }
    LeaveToRun(w, to, w.threads[to].(stat := Running));
  }

  lemma RoomAfter(q: Queue, u: Queue, p: nat)
    requires IndexOk(q) && IndexOk(u) && |q.table| == |u.table| && p < |q.table|
    ensures TwoLevels(u) ==> p / 8 < |u.ready|
  {
    RoomFor(u, p);
  }

  /** After scheduling with the scheduler unlocked, the running thread is at least as urgent as every ready one. */
  lemma ScheduleRunsTheMostUrgent(s: State, idle: Tid)
    requires Inv(s, idle)
    ensures var u := Schedule(s, idle);
            && Inv(u, idle) && u.nest == s.nest && u.due == s.due
            && (s.nest == 0 ==>
                 && u.threads[u.current].stat == Running
                 && forall t :: t in u.threads && u.threads[t].stat == Ready ==> u.threads[u.current].prio <= u.threads[t].prio)
  {
    hide IndexOk, Highest, ListsOk, Insert, Remove, RowOk;
    if s.nest == 0 {
      if s.queue.group == 0 {
        NobodyReady(s, idle);
      } else {
        CandidateIs(s, idle);
        AllFit(s, s.current, idle);
        if Stays(s, idle) {
          StaysKeepsInv(s, idle);
        } else {
          SwitchKeepsInv(s, idle);
        }
      }
    }
  }

  lemma NobodyReady(s: State, idle: Tid)
    requires Inv(s, idle) && s.queue.group == 0
    ensures s.threads[s.current].stat == Running && forall t :: t in s.threads ==> s.threads[t].stat != Ready
  {
    hide IndexOk;
    HighestIs(s.queue);
    forall t | t in s.threads ensures s.threads[t].stat != Ready {
      assert RowOk(s, s.threads[t].prio);
      assert !InRow(s, t, s.threads[t].prio);
    }
  }

  lemma SwitchKeepsInv(s: State, idle: Tid)
    requires Pickable(s, idle) && s.nest == 0 && !Stays(s, idle)
    ensures var u := Schedule(s, idle);
            && Inv(u, idle) && u.due == s.due && u.current == Candidate(s, idle) && u.threads[u.current].stat == Running
            && u.threads[u.current].prio == Highest(s.queue)
            && forall t :: t in u.threads && u.threads[t].stat == Ready ==> u.threads[u.current].prio <= u.threads[t].prio
  {
    hide IndexOk, Highest, ListsOk, Insert, Remove, RowOk, SwitchTo;
    CandidateIs(s, idle);
    AllFit(s, s.current, idle);
    var x, to := s.threads[s.current], Candidate(s, idle);
    var v := if x.stat == Running then Set(s, s.current, x.(yielding := false)) else s;
    ListsSame(s, v);
    SwitchKeepsLists(v, to, x.stat == Running);
    SwitchShape(v, to, x.stat == Running);
  }

  lemma SwitchShape(s: State, to: Tid, requeue: bool)
    requires Fits(s, s.current) && Fits(s, to) && to != s.current
    ensures var u := SwitchTo(s, to, requeue); u.current == to && u.nest == s.nest && u.due == s.due && |u.queue.table| == |s.queue.table|
  {
  }

  /* Ticks */

  /** `rt_tick_increase`, its accounting: the last tick of a slice makes the thread yield. */
  function Tick(s: State): State
    requires s.current in s.threads && s.threads[s.current].remaining > 0
  {
    var x := s.threads[s.current];
    if x.remaining == 1 then Set(s, s.current, x.(remaining := x.slice, yielding := true)).(due := true)
    else Set(s, s.current, x.(remaining := x.remaining - 1))
  }

  /** `rt_tick_increase` at the end of a slice: interrupts have been enabled, now it schedules. */
  function EndSlice(s: State, idle: Tid): State
    requires Inv(s, idle)
  {
    Schedule(s, idle).(due := false)
  }

  lemma TickKeepsInv(s: State, idle: Tid)
    requires Inv(s, idle)
    ensures Inv(Tick(s), idle)
  {
    hide IndexOk, ListsOk;
    var x := s.threads[s.current];
    if x.remaining == 1 {
      CountersKeepInv(s, s.current, x.(remaining := x.slice, yielding := true), idle);
      MarksKeepInv(Set(s, s.current, x.(remaining := x.slice, yielding := true)), s.nest, true, idle);
    } else {
      CountersKeepInv(s, s.current, x.(remaining := x.remaining - 1), idle);
    }
  }

  lemma EndSliceKeepsInv(s: State, idle: Tid)
    requires Inv(s, idle)
    ensures Inv(EndSlice(s, idle), idle)
  {
    hide IndexOk, ListsOk, Schedule;
    ScheduleRunsTheMostUrgent(s, idle);
    MarksKeepInv(Schedule(s, idle), s.nest, false, idle);
  }

  /* Every run */

  datatype Action =
    | DoStartup(t: Tid)
    | DoSuspend
    | DoResume(t: Tid)
    | DoYield
    | DoDetach(t: Tid)
    | DoPriority(t: Tid, p: nat)
    | DoSchedule
    | DoTick
    | DoEndSlice
    | DoLock
    | DoUnlock

  /** The idle thread is never suspended, detached or re-prioritised; a tick comes when the last one is dealt with. */
  predicate Enabled(s: State, a: Action, idle: Tid) {
    match a
    case DoStartup(t) => t in s.threads && s.threads[t].stat == Init
    case DoSuspend => s.current != idle
    case DoResume(t) => t in s.threads
    case DoYield => true
    case DoDetach(t) => t in s.threads && t != idle
    case DoPriority(t, p) => t in s.threads && t != idle && p < |s.queue.table|
    case DoSchedule => true
    case DoTick => !s.due
    case DoEndSlice => s.due
    case DoLock => true
    case DoUnlock => s.nest > 0
  }

  function Step(s: State, a: Action, idle: Tid): State
    requires Inv(s, idle) && Enabled(s, a, idle)
  {
    match a
    case DoStartup(t) => AllFit(s, t, idle); Startup(s, t)
    case DoSuspend => AllFit(s, s.current, idle); Suspend(s)
    case DoResume(t) => AllFit(s, t, idle); Resume(s, t)
    case DoYield => YieldKeepsInv(s, idle); Schedule(Yield(s), idle)
    case DoDetach(t) => AllFit(s, t, idle); Detach(s, t)
    case DoPriority(t, p) => AllFit(s, t, idle); Room(s, p, idle); ChangePriority(s, t, p)
    case DoSchedule => Schedule(s, idle)
    case DoTick => Tick(s)
    case DoEndSlice => EndSlice(s, idle)
    case DoLock => s.(nest := s.nest + 1)
    case DoUnlock => s.(nest := s.nest - 1)
  }

  lemma YieldKeepsInv(s: State, idle: Tid)
    requires Inv(s, idle)
    ensures Inv(Yield(s), idle)
  {
    hide IndexOk, ListsOk;
    CountersKeepInv(s, s.current, s.threads[s.current].(remaining := s.threads[s.current].slice, yielding := true), idle);
  }

  lemma MarksKeepInv(s: State, n: nat, due: bool, idle: Tid)
    requires Inv(s, idle)
    ensures Inv(s.(nest := n, due := due), idle)
  {
    hide IndexOk, RowOk;
    ListsFrame(s, s.(nest := n, due := due));
  }

  lemma StepKeepsInv(s: State, a: Action, idle: Tid)
    requires Inv(s, idle) && Enabled(s, a, idle)
    ensures Inv(Step(s, a, idle), idle)
  {
    hide IndexOk, ListsOk, Startup, Suspend, Detach, ChangePriority, Schedule, Tick, EndSlice, Enqueue;
    match a
    case DoStartup(t) => StartupKeepsInv(s, t, idle);
    case DoSuspend => SuspendKeepsInv(s, idle);
    case DoResume(t) => AllFit(s, t, idle); if s.threads[t].stat == Suspended { EnqueueKeepsInv(s, t, idle); }
    case DoYield => YieldKeepsInv(s, idle); ScheduleRunsTheMostUrgent(Yield(s), idle);
    case DoDetach(t) => DetachKeepsInv(s, t, idle);
    case DoPriority(t, p) => ChangePriorityKeepsInv(s, t, p, idle);
    case DoSchedule => ScheduleRunsTheMostUrgent(s, idle);
    case DoTick => TickKeepsInv(s, idle);
    case DoEndSlice => EndSliceKeepsInv(s, idle);
    case DoLock => MarksKeepInv(s, s.nest + 1, s.due, idle);
    case DoUnlock => MarksKeepInv(s, s.nest - 1, s.due, idle);
  }

  ghost predicate Possible(s: State, run: seq<Action>, idle: Tid)
    requires Inv(s, idle)
    decreases |run|
  {
    run == [] || (Enabled(s, run[0], idle) && (StepKeepsInv(s, run[0], idle); Possible(Step(s, run[0], idle), run[1..], idle)))
  }

  ghost function Run(s: State, run: seq<Action>, idle: Tid): State
    requires Inv(s, idle) && Possible(s, run, idle)
    decreases |run|
  {
    if run == [] then s else (StepKeepsInv(s, run[0], idle); Run(Step(s, run[0], idle), run[1..], idle))
  }

  /** The lists, the bitmap and the thread states agree after any sequence of operations. */
  lemma {:induction false} EveryRunKeepsInv(s: State, run: seq<Action>, idle: Tid)
    requires Inv(s, idle) && Possible(s, run, idle)
    ensures Inv(Run(s, run, idle), idle)
    decreases |run|
  {
    hide Inv, Step, Enabled;
    if run != [] {
      StepKeepsInv(s, run[0], idle);
      EveryRunKeepsInv(Step(s, run[0], idle), run[1..], idle);
    }
  }
}
