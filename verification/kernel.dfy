/** The single-core scheduler as an object: its lists, bitmap words and thread fields are updated in place. */
module Kernel {
  import opened Common
  import opened Sequences
  import opened Words
  import opened Ffs
  import opened ReadyQueue
  import opened Scheduler

  /** Only the idle thread runs, everybody else waits to be started. */
  function Booted(levels: nat, threads: map<Tid, Thread>, idle: Tid): State {
    State(Queue(seq(levels, i => []), 0, seq(32, i => 0)), threads, idle, 0, false)
  }

  lemma BootedIsGood(levels: nat, threads: map<Tid, Thread>, idle: Tid)
    requires 0 < levels <= 256 && idle in threads && threads[idle].stat == Running
    requires forall t :: t in threads ==> ThreadOk(threads[t], levels) && (t != idle ==> threads[t].stat == Init)
    ensures Inv(Booted(levels, threads, idle), idle)
  {
    hide Bit;
    var s := Booted(levels, threads, idle);
    assert forall p :: 0 <= p < levels ==> s.queue.table[p] == [];
    EmptyIndex(s.queue);
    forall p | 0 <= p < levels ensures RowOk(s, p) {}
  }

  lemma EmptyIndex(q: Queue)
    requires 0 < |q.table| <= 256 && q.group == 0 && |q.ready| == 32
    requires (forall p :: 0 <= p < |q.table| ==> q.table[p] == []) && forall n :: 0 <= n < 32 ==> q.ready[n] == 0
    ensures IndexOk(q)
  {
    hide Bit;
    NoBitsZero(q.group);
    assert forall i: nat :: !Bit(q.group, i);
    assert OneLevelOk(q);
    assert GroupOk(q);
    assert Sized(q);
    forall n | 0 <= n < 32 ensures ByteOk(q, n) {
      NoBitsZero(q.ready[n]);
      forall i: nat ensures Bit(q.ready[n], i) <==> i < 8 && 8 * n + i < |q.table| && q.table[8 * n + i] != [] {
        assert !Bit(q.ready[n], i);
      }
    }
  }

  class Core {
    var table: seq<seq<Tid>>
    var group: nat
    var ready: seq<nat>
    var threads: map<Tid, Thread>
    var current: Tid
    var nest: nat
    var due: bool
    const idle: Tid

    ghost function Abs(): State
      reads this
    {
      State(Queue(table, group, ready), threads, current, nest, due)
    }

    ghost predicate Valid()
      reads this
    {
      Inv(Abs(), idle)
    }

    constructor (levels: nat, all: map<Tid, Thread>, idleThread: Tid)
      requires 0 < levels <= 256 && idleThread in all && all[idleThread].stat == Running
      requires forall t :: t in all ==> ThreadOk(all[t], levels) && (t != idleThread ==> all[t].stat == Init)
      ensures Valid() && idle == idleThread && Abs() == Booted(levels, all, idleThread)
    {
      hide Inv;
      table, group, ready := seq(levels, i => []), 0, seq(32, i => 0);
      threads, current, nest, due, idle := all, idleThread, 0, false, idleThread;
      new;
      BootedIsGood(levels, all, idleThread);
      assert Abs() == Booted(levels, all, idleThread);
    }

    /** `rt_schedule_insert_thread` */
    method InsertThread(t: Tid)
      requires Fits(Abs(), t)
      modifies this
      ensures Abs() == Enqueue(old(Abs()), t)
    {
      hide SetIn;
      if t == current {
        threads := threads[t := threads[t].(stat := Running)];
        return;
      }
      var p := threads[t].prio;
      threads := threads[t := threads[t].(stat := Ready)];
      if |table| > 32 {
        ready := ready[p / 8 := SetIn(ready[p / 8], p % 8)];
        group := SetIn(group, p / 8);
      } else {
        group := SetIn(group, p);
      }
      table := table[p := table[p] + [t]];
    }

    /** `rt_schedule_remove_thread` */
    method RemoveThread(t: Tid)
      requires Fits(Abs(), t)
      modifies this
      ensures Abs() == Dequeue(old(Abs()), t)
    {
      hide ClearIn, Without;
      var p := threads[t].prio;
      table := table[p := Without(table[p], t)];
      if table[p] == [] {
        if |table| > 32 {
          ready := ready[p / 8 := ClearIn(ready[p / 8], p % 8)];
          if ready[p / 8] == 0 {
            group := ClearIn(group, p / 8);
          }
        } else {
          group := ClearIn(group, p);
        }
      }
    }

    /** `_scheduler_get_highest_priority_thread` */
    method HighestThread() returns (t: Tid, p: nat)
      requires Valid() && group != 0
      ensures LeastNonEmpty(Abs().queue, p) && t == table[p][0] && p == Highest(Abs().queue) && t == Candidate(Abs(), idle)
    {
      hide ByBytes, ListsOk, ThreadsOk;
      HighestIs(Abs().queue);
      if |table| > 32 {
        var number := ByBytes(group) - 1;
        p := number * 8 + ByBytes(ready[number]) - 1;
      } else {
        p := ByBytes(group) - 1;
      }
      t := table[p][0];
    }

    /** `rt_schedule` */
    method Reschedule()
      requires Valid()
      modifies this
      ensures Valid() && Abs() == Schedule(old(Abs()), idle)
      ensures nest == 0 ==> threads[current].stat == Running
      ensures nest == 0 ==> forall t :: t in threads && threads[t].stat == Ready ==> threads[current].prio <= threads[t].prio
    {
      hide IndexOk, ListsOk, Highest, Enqueue, Remove, Candidate;
      ghost var s := Abs();
      ScheduleRunsTheMostUrgent(s, idle);
      if nest != 0 || group == 0 {
        return;
      }
      CandidateIs(s, idle);
      AllFit(s, s.current, idle);
      var to, highest := HighestThread();
      var from, requeue := current, false;
      if threads[from].stat == Running {
        if threads[from].prio < highest || (threads[from].prio == highest && !threads[from].yielding) {
          to := from;
        } else {
          requeue := true;
        }
        threads := threads[from := threads[from].(yielding := false)];
      }
      if to != from {
        Switch(from, to, requeue);
      } else {
        RemoveThread(from);
        threads := threads[from := threads[from].(stat := Running)];
      }
    }

    method Switch(from: Tid, to: Tid, requeue: bool)
      requires from == current && to != from && Fits(Abs(), from) && Fits(Abs(), to)
      modifies this
      ensures Abs() == SwitchTo(old(Abs()), to, requeue)
    {
      hide SetIn, ClearIn, Without;
      current := to;
      if requeue {
        InsertThread(from);
      }
      RemoveThread(to);
      threads := threads[to := threads[to].(stat := Running)];
    }

    /** `rt_thread_resume`; `_thread_timeout` does the same to a suspended thread. */
    method ResumeThread(t: Tid) returns (ok: bool)
      requires Valid() && Enabled(Abs(), DoResume(t), idle)
      modifies this
      ensures Valid() && Abs() == Step(old(Abs()), DoResume(t), idle) && ok == (old(threads)[t].stat == Suspended)
    {
      hide Inv, Enqueue;
      StepKeepsInv(Abs(), DoResume(t), idle);
      AllFit(Abs(), t, idle);
      ok := threads[t].stat == Suspended;
      if ok {
        InsertThread(t);
      }
    }

    /** `rt_thread_startup`, up to its scheduling. */
    method StartThread(t: Tid)
      requires Valid() && Enabled(Abs(), DoStartup(t), idle)
      modifies this
      ensures Valid() && Abs() == Step(old(Abs()), DoStartup(t), idle)
    {
      hide Inv, Enqueue;
      StepKeepsInv(Abs(), DoStartup(t), idle);
      AllFit(Abs(), t, idle);
      threads := threads[t := threads[t].(stat := Suspended, yielding := false)];
      InsertThread(t);
    }

    /** `rt_thread_suspend` */
    method SuspendSelf() returns (ok: bool)
      requires Valid() && Enabled(Abs(), DoSuspend, idle)
      modifies this
      ensures Valid() && Abs() == Step(old(Abs()), DoSuspend, idle)
    {
      hide IndexOk, ListsOk, Remove;
      StepKeepsInv(Abs(), DoSuspend, idle);
      AllFit(Abs(), current, idle);
      ok := threads[current].stat in {Ready, Running};
      if ok {
        RemoveThread(current);
        threads := threads[current := threads[current].(stat := Suspended)];
      }
    }

    /** `rt_thread_detach` */
    method DetachThread(t: Tid)
      requires Valid() && Enabled(Abs(), DoDetach(t), idle)
      modifies this
      ensures Valid() && Abs() == Step(old(Abs()), DoDetach(t), idle)
    {
      hide Inv, Remove;
      StepKeepsInv(Abs(), DoDetach(t), idle);
      AllFit(Abs(), t, idle);
      if threads[t].stat == Closed {
        return;
      }
      if threads[t].stat != Init {
        RemoveThread(t);
      }
      threads := threads[t := threads[t].(stat := Closed, yielding := false)];
    }

    /** `rt_thread_control` with `RT_THREAD_CTRL_CHANGE_PRIORITY` */
    method SetPriority(t: Tid, p: nat)
      requires Valid() && Enabled(Abs(), DoPriority(t, p), idle)
      modifies this
      ensures Valid() && Abs() == Step(old(Abs()), DoPriority(t, p), idle)
    {
      hide Inv, SetIn, ClearIn, Without;
      StepKeepsInv(Abs(), DoPriority(t, p), idle);
      AllFit(Abs(), t, idle);
      Room(Abs(), p, idle);
      if threads[t].stat == Ready {
        RemoveThread(t);
        threads := threads[t := threads[t].(prio := p)];
        InsertThread(t);
      } else {
        threads := threads[t := threads[t].(prio := p)];
      }
    }

    /** `rt_thread_yield` */
    method YieldSelf()
      requires Valid()
      modifies this
      ensures Valid() && Abs() == Step(old(Abs()), DoYield, idle)
    {
      hide IndexOk, ListsOk, Schedule;
      YieldKeepsInv(Abs(), idle);
      threads := threads[current := threads[current].(remaining := threads[current].slice, yielding := true)];
      Reschedule();
    }

    /** `rt_tick_increase`, with interrupts disabled: the time slice. */
    method TickIncrease()
      requires Valid() && !due
      modifies this
      ensures Valid() && Abs() == Tick(old(Abs()))
    {
      hide IndexOk, ListsOk;
      TickKeepsInv(Abs(), idle);
      var x := threads[current];
      x := x.(remaining := x.remaining - 1);
      if x.remaining == 0 {
        x := x.(remaining := x.slice, yielding := true);
        due := true;
      }
      threads := threads[current := x];
    }

    /** `rt_tick_increase`, with interrupts enabled again: the scheduling at the end of a slice. */
    method ScheduleAtEnd()
      requires Valid() && due
      modifies this
      ensures Valid() && Abs() == EndSlice(old(Abs()), idle)
    {
      hide IndexOk, ListsOk, Schedule;
      EndSliceKeepsInv(Abs(), idle);
      Reschedule();
      due := false;
    }
  }
}
