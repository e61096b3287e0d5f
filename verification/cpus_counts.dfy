/**
 The counters of the global lock, counted from the calls: for every thread its
 `plain`, `critical` and `spin` nesting is the number of calls that raise it less
 the number of calls that lower it, made on the CPU it ran on at the time.
 */
module CpusCounts {
  import opened Common
  import opened CpusLock

  datatype Count = Count(plain: int, critical: int, spin: int) {
    function Plus(c: Count): Count {
      Count(plain + c.plain, critical + c.critical, spin + c.spin)
    }
  }

  const NONE := Count(0, 0, 0)

  /** What a call adds to the nesting of the thread that makes it. */
  function Adds(a: Action): Count {
    match a
    case Lock(_) => Count(1, 0, 0)
    case Unlock(_) => Count(-1, 0, 0)
    case EnterCritical(_) => Count(0, 1, 0)
    case ExitCritical(_) => Count(0, -1, 0)
    case SpinLock(_) => Count(0, 0, 1)
    case SpinUnlock(_) => Count(0, 0, -1)
    case IrqExit(_) => Count(1, 0, 0)
    case IrqSwitch(_, _) => Count(-1, 0, 0)
    case IrqReturn(_) => Count(-1, 0, 0)
    case _ => NONE
  }

  /** Which thread is on which CPU, before and after a call. */
  function Placed(at: seq<Tid>, a: Action): (r: seq<Tid>)
    ensures |r| == |at|
  {
    if (a.Switch? || a.IrqSwitch?) && a.i < |at| then at[a.i := a.to] else at
  }

  function PlacedAfter(at: seq<Tid>, run: seq<Action>): (r: seq<Tid>)
    ensures |r| == |at|
    decreases |run|
  {
    if run == [] then at else PlacedAfter(Placed(at, run[0]), run[1..])
  }

  function By(at: seq<Tid>, a: Action, t: Tid): Count {
    if a.i < |at| && at[a.i] == t then Adds(a) else NONE
  }

  /** The calls of `t` in the run, added up. */
  function Tally(at: seq<Tid>, run: seq<Action>, t: Tid): Count
    decreases |run|
  {
    if run == [] then NONE else By(at, run[0], t).Plus(Tally(Placed(at, run[0]), run[1..], t))
  }

  /** The interrupts entered on CPU `i` less those left. */
  function Depth(run: seq<Action>, i: nat): int
    decreases |run|
  {
    if run == [] then 0
    else
      (if run[0].i != i then 0 else if run[0].IrqEnter? then 1 else if run[0].IrqLeave? || run[0].IrqExit? then -1 else 0)
      + Depth(run[1..], i)
  }

  /* What one step adds */

  ghost function Seats(s: State): (r: seq<Tid>)
    ensures |r| == |s.cpus| && forall i :: 0 <= i < |r| ==> r[i] == s.cpus[i].current
  {
    seq(|s.cpus|, i requires 0 <= i < |s.cpus| => s.cpus[i].current)
  }

  /** The thread has called `rt_enter_critical` and still spins for the lock. */
  ghost predicate Entering(s: State, t: Tid) {
    exists i :: 0 <= i < |s.cpus| && s.cpus[i].current == t && s.cpus[i].pc == Spinning(ForCritical)
  }

  ghost function Nesting(s: State, t: Tid): Count
    requires t in s.threads
  {
    var x := s.threads[t];
    Count(x.plain, x.critical + (if Entering(s, t) then 1 else 0), x.spin)
  }

  lemma EnteringAt(s: State, i: nat)
    requires ThreadsOk(s) && i < |s.cpus|
    ensures Entering(s, s.cpus[i].current) <==> s.cpus[i].pc == Spinning(ForCritical)
  {
  }

  lemma EnteringElsewhere(s: State, u: State, i: nat, t: Tid)
    requires |s.cpus| == |u.cpus| && i < |s.cpus| && s.cpus[i].current != t && u.cpus[i].current != t
    requires forall j :: 0 <= j < |s.cpus| && j != i ==> u.cpus[j] == s.cpus[j]
    ensures Entering(u, t) <==> Entering(s, t)
  {
  }

  lemma NotEntering(s: State, t: Tid)
    requires !RunsOn(s, t)
    ensures !Entering(s, t)
  {
  }

  /** The nesting of the thread on CPU `i`. */
  function NestingAt(s: State, i: nat): Count
    requires Sited(s, i)
  {
    var x := Self(s, i);
    Count(x.plain, x.critical + (if s.cpus[i].pc == Spinning(ForCritical) then 1 else 0), x.spin)
  }

  lemma SelfFields(s: State, a: Action)
    requires Inv(s) && Enabled(s, a) && !a.Switch? && !a.IrqSwitch?
    ensures var u := Step(s, a);
            && Sited(s, a.i) && Sited(u, a.i) && u.cpus[a.i].current == s.cpus[a.i].current
            && NestingAt(u, a.i) == NestingAt(s, a.i).Plus(Adds(a))
  {
    hide ThreadsOk, LockOk;
    CountersCover(s, a.i);
  }

  lemma SelfCounts(s: State, a: Action)
    requires Inv(s) && Enabled(s, a) && !a.Switch? && !a.IrqSwitch?
    ensures var u := Step(s, a);
            && Sited(s, a.i) && Sited(u, a.i) && u.cpus[a.i].current == s.cpus[a.i].current
            && Nesting(u, s.cpus[a.i].current) == Nesting(s, s.cpus[a.i].current).Plus(Adds(a))
  {
    hide LockOk, ThreadsOk, Entering, Step, Enabled;
    StepKeepsInv(s, a);
    SelfFields(s, a);
    EnteringAt(s, a.i);
    EnteringAt(Step(s, a), a.i);
  }

  lemma SwitchCounts(s: State, a: Action)
    requires Inv(s) && Enabled(s, a) && (a.Switch? || a.IrqSwitch?)
    ensures var u, t := Step(s, a), s.cpus[a.i].current;
            && t in s.threads && t in u.threads && a.to in s.threads && a.to in u.threads
            && Nesting(u, t) == Nesting(s, t).Plus(Adds(a)) && Nesting(u, a.to) == Nesting(s, a.to)
  {
    hide LockOk, ThreadsOk, Entering, Step, RunsOn;
    var u, t := Step(s, a), s.cpus[a.i].current;
    StepKeepsInv(s, a);
    SwitchFields(s, a);
    EnteringAt(s, a.i);
    EnteringAt(u, a.i);
    NotEntering(s, a.to);
    SwitchedOff(s, a);
    NotEntering(u, t);
  }

  lemma SwitchFields(s: State, a: Action)
    requires Inv(s) && Enabled(s, a) && (a.Switch? || a.IrqSwitch?)
    ensures var u, t := Step(s, a), s.cpus[a.i].current;
            && a.i < |u.cpus| && u.cpus[a.i].current == a.to && u.cpus[a.i].pc == Running && !s.cpus[a.i].pc.Spinning?
            && t in s.threads && t in u.threads && a.to in u.threads && a.to != t && u.threads[a.to] == s.threads[a.to]
            && u.threads[t].plain == s.threads[t].plain + Adds(a).plain
            && u.threads[t].critical == s.threads[t].critical && u.threads[t].spin == s.threads[t].spin
  {
    hide ThreadsOk, LockOk;
    CountersCover(s, a.i);
    NotOnBoth(s, a);
  }

  lemma SwitchedOff(s: State, a: Action)
    requires Inv(s) && Enabled(s, a) && (a.Switch? || a.IrqSwitch?)
    ensures !RunsOn(Step(s, a), s.cpus[a.i].current)
  {
    hide LockOk;
    assert a.to != s.cpus[a.i].current;
  }

  /** A step touches its own CPU and the threads that come and go there, nothing else. */
  lemma StepFrame(s: State, a: Action)
    requires Inv(s) && Enabled(s, a)
    ensures var u := Step(s, a);
            && |u.cpus| == |s.cpus| && a.i < |s.cpus| && u.threads.Keys == s.threads.Keys
            && (forall j :: 0 <= j < |s.cpus| && j != a.i ==> u.cpus[j] == s.cpus[j])
            && (forall t :: t in s.threads && t != s.cpus[a.i].current ==> u.threads[t] == s.threads[t])
            && Seats(u) == Placed(Seats(s), a)
            && u.cpus[a.i].irq == s.cpus[a.i].irq + Depth([a], a.i)
  {
    hide LockOk, ThreadsOk, RunsOn;
    CountersCover(s, a.i);
    if !a.Switch? && !a.IrqSwitch? {
      SelfFrame(s, a);
    } else {
      assert Depth([a], a.i) == 0 by { assert Depth([], a.i) == 0; }
    }
  }

  lemma SelfFrame(s: State, a: Action)
    requires Inv(s) && Enabled(s, a) && !a.Switch? && !a.IrqSwitch?
    ensures OnlySelf(s, Step(s, a), a.i) && Step(s, a).cpus[a.i].irq == s.cpus[a.i].irq + Depth([a], a.i)
  {
    hide LockOk, ThreadsOk, OnlySelf;
    SelfShape(s, a);
    CountersCover(s, a.i);
    assert Depth([], a.i) == 0;
  }

  lemma StepCounts(s: State, a: Action, t: Tid)
    requires Inv(s) && Enabled(s, a) && t in s.threads
    ensures t in Step(s, a).threads && Nesting(Step(s, a), t) == Nesting(s, t).Plus(By(Seats(s), a, t))
  {
    hide Inv, Step, Entering;
    var u := Step(s, a);
    StepFrame(s, a);
    if t == s.cpus[a.i].current || ((a.Switch? || a.IrqSwitch?) && t == a.to) {
      if a.Switch? || a.IrqSwitch? {
        SwitchCounts(s, a);
        NotOnBoth(s, a);
      } else {
        SelfCounts(s, a);
      }
    } else {
      assert Seats(u)[a.i] == u.cpus[a.i].current;
      EnteringElsewhere(s, u, a.i, t);
    }
  }

  lemma NotOnBoth(s: State, a: Action)
    requires Enabled(s, a) && (a.Switch? || a.IrqSwitch?)
    ensures a.to != s.cpus[a.i].current
  {
  }

  /* Every run */

  lemma {:induction false} EveryRunCounts(s: State, run: seq<Action>, t: Tid)
    requires Inv(s) && Possible(s, run) && t in s.threads
    ensures var e := Run(s, run);
            && Seats(e) == PlacedAfter(Seats(s), run)
            && t in e.threads && Nesting(e, t) == Nesting(s, t).Plus(Tally(Seats(s), run, t))
            && forall i :: 0 <= i < |s.cpus| ==> i < |e.cpus| && e.cpus[i].irq == s.cpus[i].irq + Depth(run, i)
    decreases |run|
  {
    hide Inv, Step, Nesting, Enabled, Adds;
    if run != [] {
      var u := Step(s, run[0]);
      StepKeepsInv(s, run[0]);
      StepFrame(s, run[0]);
      StepCounts(s, run[0], t);
      EveryRunCounts(u, run[1..], t);
      forall i | 0 <= i < |s.cpus| ensures u.cpus[i].irq + Depth(run[1..], i) == s.cpus[i].irq + Depth(run, i) {
        DepthOne(run, i);
      }
    }
  }

  lemma DepthOne(run: seq<Action>, i: nat)
    requires run != []
    ensures Depth(run, i) == Depth([run[0]], i) + Depth(run[1..], i)
    ensures run[0].i != i ==> Depth([run[0]], i) == 0
  {
    assert Depth([run[0]][1..], i) == 0;
  }

  /** The machine as it starts. */
  ghost predicate Fresh(s: State) {
    && Inv(s) && (forall i :: 0 <= i < |s.cpus| ==> s.cpus[i].pc == Running && s.cpus[i].irq == 0)
    && forall t :: t in s.threads ==> s.threads[t] == Thread(0, 0, 0, 0, 0)
  }

  /**
   All that the kernel keeps of a thread, from the calls alone: how often it has
   asked for the lock, and the scheduler count, which is one for the lock and one
   for every critical section and spinlock it is in.
   */
  lemma CountersAreTheCalls(s: State, run: seq<Action>, t: Tid)
    requires Fresh(s) && Possible(s, run) && t in s.threads
    ensures var e, n := Run(s, run), Tally(Seats(s), run, t);
            && t in e.threads && e.threads[t].spin == n.spin
            && e.threads[t].cpus == n.plain + n.critical
            && e.threads[t].sched == (if n.plain + n.critical > 0 then 1 else 0)
                                     + n.critical + n.spin - (if Entering(e, t) then 1 else 0)
  {
    hide Step, LockOk, ThreadsOk, Entering, Tally, PlacedAfter, Depth;
    var e := Run(s, run);
    EveryRunKeepsInv(s, run);
    EveryRunCounts(s, run, t);
    StartsOutside(s, t);
    RequestsAre(e, t);
  }

  lemma StartsOutside(s: State, t: Tid)
    requires Fresh(s)
    ensures !Entering(s, t)
  {
  }

  lemma RequestsAre(s: State, t: Tid)
    requires ThreadsOk(s) && t in s.threads
    ensures var n := Nesting(s, t); s.threads[t].cpus == n.plain + n.critical && Balanced(s.threads[t])
  {
    hide Entering;
    if RunsOn(s, t) {
      var i :| 0 <= i < |s.cpus| && s.cpus[i].current == t;
      CountersCover(s, i);
      EnteringAt(s, i);
    } else {
      NotEntering(s, t);
    }
  }

  /**
   Nobody is switched out of a critical section, with a spinlock or inside an
   interrupt: at a switch, the thread that leaves CPU `a.i` has made as many
   exits as entries and as many spinlock releases as takes.
   */
  lemma SwitchedOutWithNothingOpen(s: State, run: seq<Action>, a: Action)
    requires Fresh(s) && Possible(s, run) && Enabled(Run(s, run), a) && (a.Switch? || a.IrqSwitch?)
    ensures a.i < |s.cpus| && Depth(run, a.i) == 0
    ensures var n := Tally(Seats(s), run, PlacedAfter(Seats(s), run)[a.i]);
            n.critical == 0 && n.spin == 0 && n.plain > 0
  {
    hide Step, LockOk, ThreadsOk, Entering, Tally, Depth, PlacedAfter, RunsOn;
    var e := Run(s, run);
    EveryRunKeepsInv(s, run);
    KnownThroughout(s, run);
    var t := e.cpus[a.i].current;
    NothingOpen(e, a);
    EveryRunCounts(s, run, t);
    assert Seats(e)[a.i] == t;
    StartsOutside(s, t);
  }

  lemma NothingOpen(s: State, a: Action)
    requires Inv(s) && Enabled(s, a) && (a.Switch? || a.IrqSwitch?)
    ensures s.cpus[a.i].irq == 0 && s.cpus[a.i].current in s.threads
    ensures var n := Nesting(s, s.cpus[a.i].current); n.critical == 0 && n.spin == 0 && n.plain > 0
  {
    hide Step, LockOk, ThreadsOk, Entering;
    OutgoingIsAtRest(s, a);
    CountersCover(s, a.i);
    EnteringAt(s, a.i);
  }

  lemma {:induction false} KnownThroughout(s: State, run: seq<Action>)
    requires Inv(s) && Possible(s, run)
    ensures Run(s, run).threads.Keys == s.threads.Keys && |Run(s, run).cpus| == |s.cpus|
    decreases |run|
  {
    hide Inv, Step, Enabled;
    if run != [] {
      StepKeepsInv(s, run[0]);
      StepFrame(s, run[0]);
      KnownThroughout(Step(s, run[0]), run[1..]);
    }
  }
}
