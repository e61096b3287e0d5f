/**
 What each scheduler operation does to whom: the new state and priority of the
 thread it is about, where in the lists that thread ends up, who runs next, and
 that every other thread is left alone.
 */
module SchedulerEffects {
  import opened Common
  import opened Sequences
  import opened ReadyQueue
  import opened Scheduler

  /** The operation is about one thread and does not schedule. */
  predicate AboutOne(a: Action) {
    a.DoStartup? || a.DoSuspend? || a.DoResume? || a.DoDetach? || a.DoPriority?
  }

  function About(s: State, a: Action): Tid
    requires AboutOne(a)
  {
    if a.DoSuspend? then s.current else a.t
  }

  /** The fields of that thread afterwards. */
  function Becomes(s: State, a: Action): Thread
    requires AboutOne(a) && About(s, a) in s.threads
  {
    var t := About(s, a);
    var x := s.threads[t];
    match a
    case DoStartup(_) => x.(stat := Ready, yielding := false)
    case DoSuspend => if x.stat == Running then x.(stat := Suspended) else x
    case DoResume(_) => if x.stat != Suspended then x else if t == s.current then x.(stat := Running) else x.(stat := Ready)
    case DoDetach(_) => if x.stat == Closed then x else x.(stat := Closed, yielding := false)
    case DoPriority(_, p) => x.(prio := p)
    case _ => x
  }

  lemma OneChanges(s: State, a: Action, idle: Tid)
    requires Inv(s, idle) && Enabled(s, a, idle) && AboutOne(a)
    ensures var u, t := Step(s, a, idle), About(s, a);
            && t in s.threads && u.threads == s.threads[t := Becomes(s, a)]
            && u.current == s.current && u.nest == s.nest && u.due == s.due && |u.queue.table| == |s.queue.table|
  {
    hide IndexOk, Insert, Remove, ListsOk;
    var t := About(s, a);
    AllFit(s, t, idle);
    match a
    case DoStartup(_) => InsertTable(s.queue, t, s.threads[t].prio);
    case DoSuspend => RemoveTable(s.queue, t, s.threads[t].prio);
    case DoResume(_) => InsertTable(s.queue, t, s.threads[t].prio);
    case DoDetach(_) => RemoveTable(s.queue, t, s.threads[t].prio);
    case DoPriority(_, p) => PriorityTable(s, t, p, idle);
  }

  lemma PriorityTable(s: State, t: Tid, p: nat, idle: Tid)
    requires Inv(s, idle) && t in s.threads && p < |s.queue.table| && Fits(s, t)
    ensures TwoLevels(s.queue) ==> p / 8 < |s.queue.ready|
    ensures var u := ChangePriority(s, t, p);
            && u.threads == s.threads[t := s.threads[t].(prio := p)]
            && (s.threads[t].stat == Ready ==>
                 var a := s.queue.table[s.threads[t].prio := Without(s.queue.table[s.threads[t].prio], t)];
                 u.queue.table == a[p := a[p] + [t]])
            && (s.threads[t].stat != Ready ==> u.queue == s.queue)
            && u.current == s.current && u.nest == s.nest && u.due == s.due
  {
    hide IndexOk, Insert, Remove, ListsOk, Without;
    Room(s, p, idle);
    if s.threads[t].stat == Ready {
      var q := Remove(s.queue, t, s.threads[t].prio);
      RemoveTable(s.queue, t, s.threads[t].prio);
      RemoveRoom(s.queue, t, s.threads[t].prio);
      InsertTable(q, t, p);
    }
  }

  lemma RemoveRoom(q: Queue, t: Tid, p: nat)
    requires p < |q.table| && (TwoLevels(q) ==> p / 8 < |q.ready|)
    ensures |Remove(q, t, p).table| == |q.table| && |Remove(q, t, p).ready| == |q.ready|
  {
  }

  /** The thread joins the end of the list of its priority. */
  predicate Joining(s: State, a: Action)
    requires AboutOne(a) && About(s, a) in s.threads
  {
    var x := s.threads[About(s, a)];
    a.DoStartup? || (a.DoResume? && x.stat == Suspended && a.t != s.current) || (a.DoPriority? && x.stat == Ready)
  }

  /** The thread goes to the end of its new list, or out of its old one; all others keep their order. */
  lemma OneMoves(s: State, a: Action, idle: Tid, p: nat)
    requires Inv(s, idle) && Enabled(s, a, idle) && AboutOne(a) && p < |s.queue.table|
    ensures var u, t := Step(s, a, idle), About(s, a);
            && t in s.threads && p < |u.queue.table|
            && u.queue.table[p] ==
                 (if InRow(s, t, p) && (Joining(s, a) || Becomes(s, a).stat != Ready) then Without(s.queue.table[p], t) else s.queue.table[p])
                 + (if Joining(s, a) && Becomes(s, a).prio == p then [t] else [])
  {
    hide IndexOk, Insert, Remove, Without;
    var t := About(s, a);
    AllFit(s, t, idle);
    assert RowOk(s, p) && RowOk(s, s.threads[t].prio);
    match a
    case DoStartup(_) => InsertTable(s.queue, t, s.threads[t].prio);
    case DoSuspend => RemoveTable(s.queue, t, s.threads[t].prio);
    case DoResume(_) => InsertTable(s.queue, t, s.threads[t].prio);
    case DoDetach(_) => RemoveTable(s.queue, t, s.threads[t].prio);
    case DoPriority(_, q) => PriorityTable(s, t, q, idle);
  }

  /* Scheduling */

  /** List `p` is the first that is not empty. */
  ghost predicate FirstList(q: Queue, p: nat) {
    p < |q.table| && q.table[p] != [] && forall i :: 0 <= i < p ==> q.table[i] == []
  }

  lemma FirstListIs(s: State, idle: Tid, p: nat)
    requires Inv(s, idle) && FirstList(s.queue, p)
    ensures s.queue.group != 0 && Highest(s.queue) == p
  {
    hide IndexOk, ListsOk, Highest;
    HighestIs(s.queue);
  }

  /** Nobody is ready, or the scheduler is locked: nothing happens. */
  lemma NothingToDo(s: State, idle: Tid)
    requires Inv(s, idle) && (s.nest != 0 || forall i :: 0 <= i < |s.queue.table| ==> s.queue.table[i] == [])
    ensures Schedule(s, idle) == s
  {
    hide IndexOk, ListsOk, Highest;
    HighestIs(s.queue);
  }

  /**
   Otherwise the running thread goes on if it is more urgent than the first list,
   or as urgent and not yielding; if not, the head of that list runs, and the
   thread that ran, if it still can, joins the end of the list of its priority. No
   other thread changes, and nobody's ticks do.
   */
  lemma WhoRunsNext(s: State, idle: Tid, p: nat)
    requires Inv(s, idle) && s.nest == 0 && FirstList(s.queue, p)
    ensures var u, x, to := Schedule(s, idle), s.threads[s.current], s.queue.table[p][0];
            var stays := x.stat == Running && (x.prio < p || (x.prio == p && !x.yielding));
            var left := if x.stat == Running then x.(stat := Ready, yielding := false) else x;
            && u.nest == s.nest && u.due == s.due && to in s.threads && |u.queue.table| == |s.queue.table|
            && (stays ==>
                 && u.current == s.current && u.queue.table == s.queue.table
                 && u.threads == s.threads[s.current := x.(yielding := false)])
            && (!stays ==>
                 && u.current == to
                 && u.threads == s.threads[s.current := left][to := s.threads[to].(stat := Running)]
                 && forall i :: 0 <= i < |s.queue.table| ==> ListAfter(s, u, p, i))
  {
    hide IndexOk, ListsOk, Highest, Insert, Remove, SwitchTo, ListAfter;
    FirstListIs(s, idle, p);
    CandidateIs(s, idle);
    AllFit(s, s.current, idle);
    var x := s.threads[s.current];
    if Stays(s, idle) {
      RemoveTable(s.queue, s.current, x.prio);
      CurrentIsNotQueued(s, x.prio, idle);
    } else {
      Switches(s, idle, p);
    }
  }

  /** The head of list `p` is gone, and the thread that ran is at the end of its own if it still can run. */
  predicate ListAfter(s: State, u: State, p: nat, i: nat)
    requires i < |s.queue.table| == |u.queue.table| && s.current in s.threads && (i == p ==> s.queue.table[i] != [])
  {
    var x := s.threads[s.current];
    u.queue.table[i] == (if i == p then s.queue.table[i][1..] else s.queue.table[i])
                        + (if x.stat == Running && x.prio == i then [s.current] else [])
  }

  lemma Switches(s: State, idle: Tid, p: nat)
    requires Inv(s, idle) && s.nest == 0 && FirstList(s.queue, p) && s.queue.group != 0 && Highest(s.queue) == p && !Stays(s, idle)
    ensures var u, x, to := Schedule(s, idle), s.threads[s.current], s.queue.table[p][0];
            var left := if x.stat == Running then x.(stat := Ready, yielding := false) else x;
            && u.nest == s.nest && u.due == s.due && to in s.threads && |u.queue.table| == |s.queue.table|
            && u.current == to
            && u.threads == s.threads[s.current := left][to := s.threads[to].(stat := Running)]
            && forall i :: 0 <= i < |s.queue.table| ==> ListAfter(s, u, p, i)
  {
    hide IndexOk, ListsOk, Highest, Insert, Remove, SwitchTo;
    CandidateIs(s, idle);
    AllFit(s, s.current, idle);
    var x, to := s.threads[s.current], s.queue.table[p][0];
    var v := if x.stat == Running then Set(s, s.current, x.(yielding := false)) else s;
    ListsSame(s, v);
    SwitchKeepsLists(v, to, x.stat == Running);
    SwitchShape(v, to, x.stat == Running);
    SwitchTable(v, to, x.stat == Running);
    HeadGoes(s.queue.table[p], s.current);
  }

  lemma CurrentIsNotQueued(s: State, p: nat, idle: Tid)
    requires Inv(s, idle) && p < |s.queue.table|
    ensures s.current !in s.queue.table[p]
  {
    hide IndexOk;
    assert RowOk(s, p);
    assert !InRow(s, s.current, p);
  }

  lemma HeadGoes(q: seq<Tid>, t: Tid)
    requires q != []
    ensures Without(q, q[0]) == q[1..] && Without(q + [t], q[0]) == q[1..] + [t]
  {
  }

  lemma SwitchTable(s: State, to: Tid, requeue: bool)
    requires Fits(s, s.current) && Fits(s, to) && to != s.current
    ensures var p, q := s.threads[s.current].prio, s.threads[to].prio;
            var a := if requeue then s.queue.table[p := s.queue.table[p] + [s.current]] else s.queue.table;
            SwitchTo(s, to, requeue).queue.table == a[q := Without(a[q], to)]
  {
    hide Insert, Remove;
    var v := s.(current := to);
    var p := s.threads[s.current].prio;
    InsertTable(s.queue, s.current, p);
    InsertRoom(s.queue, s.current, p);
    var w := if requeue then Enqueue(v, s.current) else v;
    RemoveTable(w.queue, to, s.threads[to].prio);
  }

  lemma InsertRoom(q: Queue, x: Tid, p: nat)
    requires p < |q.table| && (TwoLevels(q) ==> p / 8 < |q.ready|)
    ensures |Insert(q, x, p).table| == |q.table| && |Insert(q, x, p).ready| == |q.ready|
  {
  }

  /** A tick takes one from the running slice; the last one gives a new slice and leaves the scheduling due. */
  lemma TickEffect(s: State, idle: Tid)
    requires Inv(s, idle)
    ensures var u, x := Tick(s), s.threads[s.current];
            && u.queue == s.queue && u.current == s.current && u.nest == s.nest
            && u.due == (s.due || x.remaining == 1)
            && u.threads == s.threads[s.current := x.(remaining := if x.remaining == 1 then x.slice else x.remaining - 1,
                                                      yielding := x.yielding || x.remaining == 1)]
  {
    hide IndexOk, ListsOk;
    assert s.threads[s.current].remaining > 0;
  }
}
