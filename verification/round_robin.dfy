/**
 Round robin: a thread that is ready at the running priority gets its turn within
 the ticks left to the running thread and to the threads ahead of it.
 */
module RoundRobin {
  import opened Common
  import opened Sequences
  import opened ReadyQueue
  import opened Scheduler
  import opened SchedulerEffects

  /** The threads ahead of `t`. */
  function Ahead(q: seq<Tid>, t: Tid): (r: seq<Tid>)
    ensures forall x :: x in r ==> x in q && x != t
  {
    if q == [] || q[0] == t then [] else [q[0]] + Ahead(q[1..], t)
  }

  function Remaining(threads: map<Tid, Thread>, t: Tid): nat {
    if t in threads then threads[t].remaining else 0
  }

  function Total(threads: map<Tid, Thread>, q: seq<Tid>): nat {
    if q == [] then 0 else Remaining(threads, q[0]) + Total(threads, q[1..])
  }

  /** `t` is ready, nothing more urgent is, and the current thread is no more urgent either. */
  ghost predicate Waits(s: State, t: Tid, idle: Tid) {
    && Inv(s, idle) && s.nest == 0 && t in s.threads && s.threads[t].stat == Ready
    && s.threads[t].prio <= s.threads[s.current].prio
    && forall x :: x in s.threads && s.threads[x].stat == Ready ==> s.threads[t].prio <= s.threads[x].prio
  }

  ghost function Row(s: State, t: Tid): seq<Tid> {
    if t in s.threads && s.threads[t].prio < |s.queue.table| then s.queue.table[s.threads[t].prio] else []
  }

  /** The tick handler is about to schedule, and the current thread will give way. */
  predicate GivesWay(s: State) {
    s.due && s.current in s.threads && (s.threads[s.current].yielding || s.threads[s.current].stat == Closed)
  }

  /** The ticks left to the current thread. */
  function Left(s: State): nat {
    if GivesWay(s) then 0 else Remaining(s.threads, s.current)
  }

  ghost function Queued(s: State, t: Tid): nat {
    Total(s.threads, Ahead(Row(s, t), t))
  }

  /** The ticks that can pass before `t` runs. */
  ghost function Budget(s: State, t: Tid): nat {
    Left(s) + Queued(s, t)
  }

  /* Sequences */

  lemma {:induction false} AheadAppend(q: seq<Tid>, x: Tid, t: Tid)
    requires t in q
    ensures Ahead(q + [x], t) == Ahead(q, t)
  {
    assert (q + [x])[0] == q[0];
    if q[0] != t {
      HeadTail(q);
      AheadAppend(q[1..], x, t);
      assert (q + [x])[1..] == q[1..] + [x];
    }
  }

  lemma {:induction false} AheadWithout(q: seq<Tid>, x: Tid, t: Tid)
    requires x != t
    ensures Ahead(Without(q, x), t) == Without(Ahead(q, t), x)
  {
    if q != [] && q[0] != t && q[0] != x {
      AheadWithout(q[1..], x, t);
      assert Without(q, x)[1..] == Without(q[1..], x);
      var r := Ahead(q, t);
      assert r[1..] == Ahead(q[1..], t);
    }
  }

  lemma {:induction false} TotalWithout(threads: map<Tid, Thread>, q: seq<Tid>, x: Tid)
    ensures Total(threads, Without(q, x)) <= Total(threads, q)
  {
    if q != [] && q[0] != x {
      TotalWithout(threads, q[1..], x);
      assert Without(q, x)[1..] == Without(q[1..], x);
    }
  }

  lemma {:induction false} TotalFrame(a: map<Tid, Thread>, b: map<Tid, Thread>, q: seq<Tid>)
    requires forall x :: x in q ==> Remaining(a, x) == Remaining(b, x)
    ensures Total(a, q) == Total(b, q)
  {
    if q != [] { TotalFrame(a, b, q[1..]); }
  }

  /** A step that leaves the current thread in place and only appends to or takes from the list. */
  lemma BudgetFrame(s: State, u: State, t: Tid)
    requires u.current == s.current && t in s.threads && t in u.threads && t in Row(s, t)
    requires forall x :: x in Row(s, t) ==> Remaining(u.threads, x) == Remaining(s.threads, x)
    requires RowMoved(s, u, t)
    ensures Queued(u, t) <= Queued(s, t)
  {
    var q := Row(s, t);
    assert RowMovedBy(q, q, t, t);
    var x :| RowMovedBy(q, Row(u, t), x, t);
    AheadAppend(q, x, t);
    if x != t {
      AheadWithout(q, x, t);
      AheadAppend(Without(q, x), x, t);
    }
    var a := Ahead(q, t);
    TotalWithout(u.threads, a, x);
    TotalFrame(s.threads, u.threads, a);
  }

  /* Steps that do not dispatch */

  /** No more urgent thread becomes ready, the scheduler stays unlocked, and nobody interferes with `t`. */
  predicate Fair(s: State, a: Action, t: Tid, idle: Tid)
    requires t in s.threads
  {
    && Enabled(s, a, idle)
    && match a
       case DoStartup(x) => s.threads[x].prio >= s.threads[t].prio
       case DoResume(x) => s.threads[x].stat == Suspended ==> s.threads[x].prio >= s.threads[t].prio
       case DoDetach(x) => x != t
       case DoPriority(x, q) => x != t && (x == s.current || s.threads[x].stat == Ready ==> q >= s.threads[t].prio)
       case DoLock => false
       case DoUnlock => false
       case _ => true
  }

  lemma InOwnRow(s: State, t: Tid, idle: Tid)
    requires Waits(s, t, idle)
    ensures t in Row(s, t) && s.threads[t].prio < |s.queue.table| && forall x :: x in Row(s, t) ==> InRow(s, x, s.threads[t].prio)
  {
    hide IndexOk;
    assert RowOk(s, s.threads[t].prio);
    assert InRow(s, t, s.threads[t].prio);
  }

  /** The row of `t` is as it was, or has one more at its end, or one fewer, or both. */
  ghost predicate RowMoved(s: State, u: State, t: Tid) {
    Row(u, t) == Row(s, t) || exists x :: RowMovedBy(Row(s, t), Row(u, t), x, t)
  }

  predicate RowMovedBy(q: seq<Tid>, r: seq<Tid>, x: Tid, t: Tid) {
    r == q || r == q + [x] || (x != t && (r == Without(q, x) || r == Without(q, x) + [x]))
  }

  lemma EnqueueMoves(s: State, x: Tid, t: Tid, idle: Tid)
    requires Waits(s, t, idle) && Fits(s, x) && s.threads[x].stat != Ready && s.threads[x].prio >= s.threads[t].prio
    ensures var u := Enqueue(s, x); RowMoved(s, u, t) && u.current == s.current
  {
    hide IndexOk, Insert, ListsOk;
    InsertTable(s.queue, x, s.threads[x].prio);
    var u := Enqueue(s, x);
    assert RowMovedBy(Row(s, t), Row(u, t), x, t);
  }

  lemma DequeueMoves(s: State, x: Tid, y: Thread, t: Tid, idle: Tid)
    requires Waits(s, t, idle) && Fits(s, x) && x != t
    ensures var u := Set(Dequeue(s, x), x, y);
            u.current == s.current && RowMoved(s, u, t)
  {
    hide IndexOk, Remove, ListsOk;
    RemoveTable(s.queue, x, s.threads[x].prio);
    var u := Set(Dequeue(s, x), x, y);
    assert RowMovedBy(Row(s, t), Row(u, t), x, t);
  }

  lemma PriorityMoves(s: State, x: Tid, p: nat, t: Tid, idle: Tid)
    requires Waits(s, t, idle) && Fits(s, x) && x != t && p < |s.queue.table|
    requires TwoLevels(s.queue) ==> p / 8 < |s.queue.ready|
    ensures var u := ChangePriority(s, x, p); RowMoved(s, u, t) && u.current == s.current
  {
    hide IndexOk, Remove, Insert, ListsOk, Without;
    var u := ChangePriority(s, x, p);
    if s.threads[x].stat == Ready {
      RemoveTable(s.queue, x, s.threads[x].prio);
      var q := Remove(s.queue, x, s.threads[x].prio);
      RemoveRoom(s.queue, x, s.threads[x].prio);
      InsertTable(q, x, p);
      var r := Row(s, t);
      assert RowMovedBy(r, Row(u, t), x, t);
    } else {
      assert Row(u, t) == Row(s, t);
    }
  }

  predicate Quiet(a: Action) {
    a.DoStartup? || a.DoSuspend? || a.DoResume? || a.DoDetach? || a.DoPriority?
  }

  /** A quiet step changes one thread's state or priority, nobody's ticks. */
  lemma QuietThreads(s: State, a: Action, t: Tid, idle: Tid)
    requires Waits(s, t, idle) && Fair(s, a, t, idle) && Quiet(a)
    ensures var u := Step(s, a, idle);
            && u.current == s.current && u.nest == s.nest && t in u.threads && u.threads[t] == s.threads[t]
            && u.current in u.threads && s.threads[t].prio <= u.threads[u.current].prio && Left(u) <= Left(s)
            && (forall x :: x in u.threads && u.threads[x].stat == Ready ==> s.threads[t].prio <= u.threads[x].prio)
            && (forall x :: Remaining(u.threads, x) == Remaining(s.threads, x))
  {
    hide IndexOk, Remove, Insert, ListsOk;
  }

  lemma QuietMoves(s: State, a: Action, t: Tid, idle: Tid)
    requires Waits(s, t, idle) && Fair(s, a, t, idle) && Quiet(a)
    ensures RowMoved(s, Step(s, a, idle), t)
  {
    hide IndexOk, ListsOk, Enqueue, Dequeue, ChangePriority, RowMoved;
    match a
    case DoStartup(x) =>
      AllFit(s, x, idle);
      StartupMoves(s, x, t, idle);
    case DoSuspend =>
      AllFit(s, s.current, idle);
      if s.threads[s.current].stat == Running {
        DequeueMoves(s, s.current, s.threads[s.current].(stat := Suspended), t, idle);
      } else {
        SameMoves(s, Step(s, a, idle), t);
      }
    case DoResume(x) =>
      AllFit(s, x, idle);
      if s.threads[x].stat == Suspended { EnqueueMoves(s, x, t, idle); } else { SameMoves(s, s, t); }
    case DoDetach(x) =>
      AllFit(s, x, idle);
      var y := s.threads[x].(stat := Closed, yielding := false);
      if s.threads[x].stat == Closed {
        SameMoves(s, s, t);
      } else if s.threads[x].stat == Init {
        SameMoves(s, Set(s, x, y), t);
      } else {
        DequeueMoves(s, x, y, t, idle);
      }
    case DoPriority(x, p) =>
      AllFit(s, x, idle);
      Room(s, p, idle);
      PriorityMoves(s, x, p, t, idle);
  }

  lemma SameMoves(s: State, u: State, t: Tid)
    requires Row(u, t) == Row(s, t)
    ensures RowMoved(s, u, t)
  {
  }

  lemma StartupMoves(s: State, x: Tid, t: Tid, idle: Tid)
    requires Waits(s, t, idle) && Fits(s, x) && s.threads[x].stat == Init && s.threads[x].prio >= s.threads[t].prio
    ensures RowMoved(s, Startup(s, x), t)
  {
    hide IndexOk, Insert, ListsOk;
    InsertTable(s.queue, x, s.threads[x].prio);
    var u := Startup(s, x);
    assert RowMovedBy(Row(s, t), Row(u, t), x, t);
  }

  lemma QuietKeepsBudget(s: State, a: Action, t: Tid, idle: Tid)
    requires Waits(s, t, idle) && Fair(s, a, t, idle) && Quiet(a)
    ensures Waits(Step(s, a, idle), t, idle) && Budget(Step(s, a, idle), t) <= Budget(s, t)
  {
    hide Inv, Step, Ahead, Total, Left, Queued;
    StepKeepsInv(s, a, idle);
    QuietThreads(s, a, t, idle);
    QuietMoves(s, a, t, idle);
    InOwnRow(s, t, idle);
    BudgetFrame(s, Step(s, a, idle), t);
  }

  /* Steps that schedule */

  /** What a switch does to the row of `t`: its head runs, and the thread that ran goes to its end. */
  lemma SwitchRow(s: State, t: Tid, idle: Tid)
    requires Waits(s, t, idle)
    ensures s.queue.group != 0 && Highest(s.queue) == s.threads[t].prio && Row(s, t) != [] && Candidate(s, idle) == Row(s, t)[0]
  {
    hide IndexOk, Highest;
    InOwnRow(s, t, idle);
    HighestIs(s.queue);
    var p := s.threads[t].prio;
    CandidateIs(s, idle);
    assert Candidate(s, idle) in s.threads;
  }

  lemma AheadOfHead(q: seq<Tid>, from: Tid, t: Tid, requeue: bool)
    requires q != [] && t in q && q[0] != t
    ensures var a := if requeue then q + [from] else q;
            Ahead(Without(a, q[0]), t) == Ahead(q, t)[1..] && Ahead(q, t) != [] && Ahead(q, t)[0] == q[0]
  {
    var a := if requeue then q + [from] else q;
    assert a[0] == q[0];
    assert Without(a, q[0]) == a[1..];
    HeadTail(q);
    if requeue {
      assert a[1..] == q[1..] + [from];
      AheadAppend(q[1..], from, t);
    }
    assert ([q[0]] + Ahead(q[1..], t))[1..] == Ahead(q[1..], t);
  }

  /** A switch dispatches `t`, or the head of its row in front of it: the rest of the running slice is spent. */
  lemma SwitchSpends(s: State, t: Tid, idle: Tid)
    requires Waits(s, t, idle) && s.queue.group != 0 && !Stays(s, idle)
    ensures var u := Schedule(s, idle);
            u.current == t || (Waits(u, t, idle) && Remaining(u.threads, u.current) + Queued(u, t) == Queued(s, t))
  {
    hide IndexOk, Highest, ListsOk, SwitchTo, Total, Ahead, Candidate;
    SwitchRow(s, t, idle);
    InOwnRow(s, t, idle);
    CandidateIs(s, idle);
    AllFit(s, s.current, idle);
    SwitchKeepsInv(s, idle);
    ScheduleRunsTheMostUrgent(s, idle);
    var x, to, u := s.threads[s.current], Candidate(s, idle), Schedule(s, idle);
    if to != t {
      var v := if x.stat == Running then Set(s, s.current, x.(yielding := false)) else s;
      SwitchedThreads(s, t, idle);
      SwitchTable(v, to, x.stat == Running);
      AheadOfHead(Row(s, t), s.current, t, x.stat == Running && x.prio == s.threads[t].prio);
      SplitTotal(s.threads, Ahead(Row(s, t), t));
      TotalFrame(s.threads, u.threads, Ahead(Row(s, t), t)[1..]);
    }
  }

  lemma SplitTotal(threads: map<Tid, Thread>, q: seq<Tid>)
    requires q != []
    ensures Total(threads, q) == Remaining(threads, q[0]) + Total(threads, q[1..])
  {
  }

  lemma SwitchedThreads(s: State, t: Tid, idle: Tid)
    requires Waits(s, t, idle) && s.queue.group != 0 && !Stays(s, idle) && Candidate(s, idle) != t
    ensures var u := Schedule(s, idle);
            && u.threads.Keys == s.threads.Keys && u.threads[t] == s.threads[t]
            && forall x :: Remaining(u.threads, x) == Remaining(s.threads, x)
  {
    hide IndexOk, Highest, ListsOk, SwitchTo, Candidate;
    CandidateIs(s, idle);
    AllFit(s, s.current, idle);
    var x, to := s.threads[s.current], Candidate(s, idle);
    var v := if x.stat == Running then Set(s, s.current, x.(yielding := false)) else s;
    ListsSame(s, v);
    SwitchKeepsLists(v, to, x.stat == Running);
  }

  /** A new slice and the wish to yield: whoever runs next, the rest of the old slice is spent. */
  lemma YieldSpends(s: State, t: Tid, idle: Tid)
    requires Waits(s, t, idle)
    ensures Inv(Yield(s), idle)
    ensures var u := Schedule(Yield(s), idle);
            u.current == t || (Waits(u, t, idle) && Budget(u, t) + Left(s) <= Budget(s, t))
  {
    hide IndexOk, Highest, ListsOk, Schedule, Total, Ahead;
    var v := Yield(s);
    YieldKeepsInv(s, idle);
    assert Waits(v, t, idle);
    SwitchRow(v, t, idle);
    SwitchSpends(v, t, idle);
    InOwnRow(s, t, idle);
    TotalFrame(s.threads, v.threads, Ahead(Row(s, t), t));
  }

  lemma ScheduleSpends(s: State, t: Tid, idle: Tid)
    requires Waits(s, t, idle)
    ensures var u := Schedule(s, idle);
            u.current == t || (Waits(u, t, idle) && Remaining(u.threads, u.current) + Queued(u, t) <= Budget(s, t))
  {
    hide IndexOk, Highest, ListsOk, Total, Ahead;
    SwitchRow(s, t, idle);
    ScheduleRunsTheMostUrgent(s, idle);
    if Stays(s, idle) {
      AllFit(s, s.current, idle);
      var u := Schedule(s, idle);
      RemoveTable(s.queue, s.current, s.threads[s.current].prio);
      InOwnRow(s, t, idle);
      assert s.current !in Row(s, t);
      TotalFrame(s.threads, u.threads, Ahead(Row(s, t), t));
    } else {
      SwitchSpends(s, t, idle);
    }
  }

  /** The scheduling that a tick left open. */
  lemma EndSliceSpends(s: State, t: Tid, idle: Tid)
    requires Waits(s, t, idle)
    ensures var u := EndSlice(s, idle); u.current == t || (Waits(u, t, idle) && Budget(u, t) <= Budget(s, t))
  {
    hide IndexOk, ListsOk, Schedule, Total, Ahead;
    ScheduleSpends(s, t, idle);
    EndSliceKeepsInv(s, idle);
  }

  lemma TickSpends(s: State, t: Tid, idle: Tid)
    requires Waits(s, t, idle) && !s.due
    ensures Waits(Tick(s), t, idle) && Budget(Tick(s), t) + 1 == Budget(s, t)
  {
    hide IndexOk, ListsOk, Total, Ahead;
    TickKeepsInv(s, idle);
    InOwnRow(s, t, idle);
    assert s.current !in Row(s, t);
    TotalFrame(s.threads, Tick(s).threads, Ahead(Row(s, t), t));
  }

  /** Whatever happens, `t` is dispatched or its budget has not grown, and every tick has taken one from it. */
  lemma StepSpends(s: State, a: Action, t: Tid, idle: Tid)
    requires Waits(s, t, idle) && Fair(s, a, t, idle)
    ensures var u := Step(s, a, idle);
            u.current == t || (Waits(u, t, idle) && Budget(u, t) + (if a.DoTick? then 1 else 0) <= Budget(s, t))
  {
    hide IndexOk, ListsOk, Schedule, Tick, EndSlice, Queued;
    if Quiet(a) {
      QuietKeepsBudget(s, a, t, idle);
    } else {
      match a
      case DoYield => YieldSpends(s, t, idle); assert Step(s, a, idle) == Schedule(Yield(s), idle);
      case DoSchedule => ScheduleSpends(s, t, idle);
      case DoTick => TickSpends(s, t, idle);
      case DoEndSlice => EndSliceSpends(s, t, idle);
    }
  }

  function Ticks(run: seq<Action>): nat {
    if run == [] then 0 else (if run[0].DoTick? then 1 else 0) + Ticks(run[1..])
  }

  /** Every step of the run is fair to `t`, and `t` is never dispatched. */
  ghost predicate PassedOver(s: State, run: seq<Action>, t: Tid, idle: Tid)
    requires Waits(s, t, idle)
    decreases |run|
  {
    run == [] ||
    (&& Fair(s, run[0], t, idle)
     && (StepSpends(s, run[0], t, idle);
         var u := Step(s, run[0], idle); u.current != t && PassedOver(u, run[1..], t, idle)))
  }

  /**
   A run that passes `t` over has at most as many ticks as the budget it began
   with, and fewer if no tick is still waiting to schedule when it ends.
   */
  lemma {:induction false} TurnComesInTime(s: State, run: seq<Action>, t: Tid, idle: Tid)
    requires Waits(s, t, idle) && PassedOver(s, run, t, idle)
    ensures Possible(s, run, idle)
    ensures Ticks(run) + Left(Run(s, run, idle)) <= Budget(s, t)
    ensures !Run(s, run, idle).due ==> Ticks(run) < Budget(s, t)
    decreases |run|
  {
    hide Step, Total, Ahead, IndexOk, ListsOk;
    if run != [] {
      StepKeepsInv(s, run[0], idle);
      StepSpends(s, run[0], t, idle);
      TurnComesInTime(Step(s, run[0], idle), run[1..], t, idle);
    }
  }
}
