/**
 The global lock of a multi-core kernel. It belongs to no thread for good: a
 thread counts how often it has asked for it, and a context switch hands it from
 the outgoing thread to the incoming one on the same CPU. The counters are raised
 before the CPU spins for the lock, so spinning is a state of its own.
 */
module CpusLock {
  import opened Common
  import opened Sequences

  /** What the CPU does with the lock once it has it. */
  datatype Purpose = ForPlain | ForCritical | ForIrq

  /** `Tail` is the end of an interrupt, inside `rt_scheduler_do_irq_switch`. */
  datatype Pc = Running | Spinning(next: Purpose) | Tail

  /** `plain` counts the calls of `rt_cpus_lock` not yet undone; it has no field in the kernel. */
  datatype Thread = Thread(cpus: nat, sched: nat, critical: nat, spin: nat, plain: nat)

  datatype Cpu = Cpu(current: Tid, pc: Pc, irq: nat)

  datatype State = State(lock: bool, cpus: seq<Cpu>, threads: map<Tid, Thread>)

  datatype Action =
    | Lock(i: nat)
    | Acquire(i: nat)
    | Unlock(i: nat)
    | EnterCritical(i: nat)
    | ExitCritical(i: nat)
    | SpinLock(i: nat)
    | SpinUnlock(i: nat)
    | Switch(i: nat, to: Tid)
    | IrqEnter(i: nat)
    | IrqLeave(i: nat)
    | IrqExit(i: nat)
    | IrqSwitch(i: nat, to: Tid)
    | IrqReturn(i: nat)

  predicate Sited(s: State, i: nat) {
    i < |s.cpus| && s.cpus[i].current in s.threads
  }

  function Self(s: State, i: nat): Thread
    requires Sited(s, i)
  {
    s.threads[s.cpus[i].current]
  }

  function Set(s: State, i: nat, x: Thread, pc: Pc): State
    requires Sited(s, i)
  {
    s.(threads := s.threads[s.cpus[i].current := x], cpus := s.cpus[i := s.cpus[i].(pc := pc)])
  }

  predicate RunsOn(s: State, t: Tid) {
    exists i :: 0 <= i < |s.cpus| && s.cpus[i].current == t
  }

  /** Both counters, as raised by a request for the lock. */
  function Raised(x: Thread): Thread {
    x.(cpus := x.cpus + 1, sched := if x.cpus == 0 then x.sched + 1 else x.sched)
  }

  /** Both counters, as lowered by giving up one request. */
  function Lowered(x: Thread): Thread
    requires x.cpus > 0 && x.sched > 0
  {
    x.(cpus := x.cpus - 1, sched := if x.cpus == 1 then x.sched - 1 else x.sched)
  }

  function Critical(x: Thread): Thread {
    x.(critical := x.critical + 1, sched := x.sched + 1)
  }

  /** What a caller owes, and what the kernel itself checks before a switch. */
  predicate Enabled(s: State, a: Action) {
    Sited(s, a.i) &&
    var c, x := s.cpus[a.i], Self(s, a.i);
    match a
    case Lock(_) => c.pc.Running?
    case Acquire(_) => c.pc.Spinning? && !s.lock
    case Unlock(_) => c.pc.Running? && x.plain > 0
    case EnterCritical(_) => c.pc.Running?
    case ExitCritical(_) => c.pc.Running? && x.critical > 0
    case SpinLock(_) => c.pc.Running?
    case SpinUnlock(_) => c.pc.Running? && x.spin > 0
    case Switch(_, to) => c.pc.Running? && c.irq == 0 && x.plain > 0 && x.sched == 1 && to in s.threads && !RunsOn(s, to)
    case IrqEnter(_) => c.pc.Running? && x.plain == 0
    case IrqLeave(_) => c.pc.Running? && c.irq > 1
    case IrqExit(_) => c.pc.Running? && c.irq == 1 && x.plain == 0
    case IrqSwitch(_, to) => c.pc.Tail? && x.sched == 1 && to in s.threads && !RunsOn(s, to)
    case IrqReturn(_) => c.pc.Tail?
  }

  /* The invariant */

  /** The CPU has the lock: its current thread has asked for it, and it no longer spins. */
  ghost predicate Holds(s: State, i: nat) {
    Sited(s, i) && Self(s, i).cpus > 0 && !s.cpus[i].pc.Spinning?
  }

  ghost predicate LockOk(s: State) {
    && (s.lock <==> exists i :: 0 <= i < |s.cpus| && Holds(s, i))
    && (forall i, j :: 0 <= i < j < |s.cpus| ==> !(Holds(s, i) && Holds(s, j)))
  }

  /** The scheduler count is made of the lock, the critical nesting and the spinlock nesting. */
  predicate Balanced(x: Thread) {
    x.sched == (if x.cpus > 0 then 1 else 0) + x.critical + x.spin
  }

  /** A thread that runs nowhere is in no critical section and holds no spinlock. */
  predicate AtRest(x: Thread) {
    x.critical == 0 && x.spin == 0 && x.cpus == x.plain
  }

  predicate CpuOk(c: Cpu, x: Thread) {
    && x.cpus == x.plain + x.critical + (if c.pc == Spinning(ForCritical) then 1 else 0)
    && (c.pc.Spinning? ==> x.cpus == 1 && x.critical == 0)
    && (c.pc.Tail? || c.pc == Spinning(ForIrq) ==> x.plain == 1 && c.irq == 0)
  }

  ghost predicate ThreadsOk(s: State) {
    && (forall i :: 0 <= i < |s.cpus| ==> Sited(s, i) && CpuOk(s.cpus[i], Self(s, i)))
    && (forall i, j :: 0 <= i < j < |s.cpus| ==> s.cpus[i].current != s.cpus[j].current)
    && (forall t :: t in s.threads ==> Balanced(s.threads[t]) && (!RunsOn(s, t) ==> AtRest(s.threads[t])))
  }

  ghost predicate Inv(s: State) {
    ThreadsOk(s) && LockOk(s)
  }

  /* Steps */

  /** `rt_cpus_lock_status_restore`: the lock goes to the incoming thread, or is let go. */
  function Restored(s: State, i: nat, to: Tid): State
    requires i < |s.cpus| && to in s.threads
  {
    s.(cpus := s.cpus[i := s.cpus[i].(current := to)], lock := s.lock && s.threads[to].cpus > 0)
  }

  /** The lock is let go with the last request. */
  function Released(s: State, i: nat, x: Thread): State
    requires Sited(s, i)
  {
    Set(s, i, x, Running).(lock := s.lock && x.cpus > 0)
  }

  lemma CountersCover(s: State, i: nat)
    requires ThreadsOk(s) && i < |s.cpus|
    ensures Sited(s, i) && Balanced(Self(s, i)) && CpuOk(s.cpus[i], Self(s, i))
  {
  }

  /** The step a CPU takes; other CPUs may take theirs in between. */
  function Step(s: State, a: Action): State
    requires Inv(s) && Enabled(s, a)
  {
    CountersCover(s, a.i);
    var i, c, x := a.i, s.cpus[a.i], Self(s, a.i);
    match a
    case Lock(_) =>
      Set(s, i, Raised(x).(plain := x.plain + 1), if x.cpus == 0 then Spinning(ForPlain) else Running)
    case Acquire(_) =>
      Set(s, i, if c.pc.next.ForCritical? then Critical(x) else x, if c.pc.next.ForIrq? then Tail else Running).(lock := true)
    case Unlock(_) =>
      Released(s, i, Lowered(x).(plain := x.plain - 1))
    case EnterCritical(_) =>
      if x.cpus == 0 then Set(s, i, Raised(x), Spinning(ForCritical)) else Set(s, i, Critical(Raised(x)), Running)
    case ExitCritical(_) =>
      Released(s, i, Lowered(x.(sched := x.sched - 1, critical := x.critical - 1)))
    case SpinLock(_) =>
      Set(s, i, x.(spin := x.spin + 1, sched := x.sched + 1), Running)
    case SpinUnlock(_) =>
      Set(s, i, x.(spin := x.spin - 1, sched := x.sched - 1), Running)
    case Switch(_, to) =>
      Restored(s, i, to)
    case IrqEnter(_) =>
      s.(cpus := s.cpus[i := c.(irq := c.irq + 1)])
    case IrqLeave(_) =>
      s.(cpus := s.cpus[i := c.(irq := c.irq - 1)])
    case IrqExit(_) =>
      var u := s.(cpus := s.cpus[i := c.(irq := 0)]);
      Set(u, i, Raised(x).(plain := 1), if x.cpus == 0 then Spinning(ForIrq) else Tail)
    case IrqSwitch(_, to) =>
      Restored(Set(s, i, x.(cpus := x.cpus - 1, sched := x.sched - 1, plain := x.plain - 1), Running), i, to)
    case IrqReturn(_) =>
      Released(s, i, Lowered(x).(plain := x.plain - 1))
  }

  /** Only the thread on CPU `i` changed, it is still there, and its counters are in order. */
  ghost predicate OnlySelf(s: State, t: State, i: nat) {
    && Sited(s, i) && Sited(t, i) && |t.cpus| == |s.cpus|
    && t.cpus == s.cpus[i := t.cpus[i]] && t.cpus[i].current == s.cpus[i].current
    && t.threads == s.threads[s.cpus[i].current := Self(t, i)]
    && Balanced(Self(t, i)) && CpuOk(t.cpus[i], Self(t, i))
  }

  lemma SelfStepThreads(s: State, t: State, i: nat)
    requires ThreadsOk(s) && OnlySelf(s, t, i)
    ensures ThreadsOk(t) && OthersHold(s, t, i)
  {
    forall j | 0 <= j < |t.cpus| ensures Sited(t, j) && CpuOk(t.cpus[j], Self(t, j)) {
      assert Sited(s, j) && CpuOk(s.cpus[j], Self(s, j));
    }
    forall x | x in t.threads && !RunsOn(t, x) ensures AtRest(t.threads[x]) {
      assert !RunsOn(s, x) by {
        assert forall j :: 0 <= j < |s.cpus| ==> s.cpus[j].current == t.cpus[j].current;
      }
      assert x != t.cpus[i].current;
    }
    OthersKeep(s, t, i);
  }

  /** The lock is untouched, taken while free, or let go by its holder. */
  ghost predicate LockMoves(s: State, t: State, i: nat) {
    || ((Holds(t, i) <==> Holds(s, i)) && t.lock == s.lock)
    || (!s.lock && t.lock && Holds(t, i))
    || (Holds(s, i) && !Holds(t, i) && !t.lock)
  }

  ghost predicate OthersHold(s: State, t: State, i: nat) {
    |t.cpus| == |s.cpus| && forall j :: 0 <= j < |s.cpus| && j != i ==> (Holds(t, j) <==> Holds(s, j))
  }

  lemma LockStep(s: State, t: State, i: nat)
    requires LockOk(s) && i < |s.cpus| && OthersHold(s, t, i) && LockMoves(s, t, i)
    ensures LockOk(t)
  {
    hide Holds;
    if t.lock && !Holds(t, i) {
      var j :| 0 <= j < |s.cpus| && Holds(s, j);
      assert Holds(t, j);
    }
    forall j, k | 0 <= j < k < |t.cpus| ensures !(Holds(t, j) && Holds(t, k)) {
      assert j != i ==> (Holds(t, j) <==> Holds(s, j));
      assert k != i ==> (Holds(t, k) <==> Holds(s, k));
    }
    forall j | 0 <= j < |t.cpus| && Holds(t, j) ensures t.lock {
      assert j != i ==> Holds(s, j);
      assert Holds(s, i) && Holds(s, j) ==> i == j;
    }
  }

  lemma OthersKeep(s: State, t: State, i: nat)
    requires ThreadsOk(s) && i < |s.cpus| && |t.cpus| == |s.cpus| && Sited(s, i)
    requires forall j :: 0 <= j < |s.cpus| && j != i ==> t.cpus[j] == s.cpus[j]
    requires forall x :: x in s.threads && x != s.cpus[i].current ==> x in t.threads && t.threads[x] == s.threads[x]
    ensures OthersHold(s, t, i)
  {
    forall j | 0 <= j < |s.cpus| && j != i ensures Holds(t, j) <==> Holds(s, j) {
      assert Sited(s, j) && s.cpus[j].current != s.cpus[i].current;
    }
  }

  lemma SelfShape(s: State, a: Action)
    requires Inv(s) && Enabled(s, a) && !a.Switch? && !a.IrqSwitch?
    ensures OnlySelf(s, Step(s, a), a.i)
  {
    hide LockOk;
    CountersCover(s, a.i);
  }

  /** A step of CPU `i` that keeps its thread in place. */
  lemma SelfStep(s: State, a: Action)
    requires Inv(s) && Enabled(s, a) && !a.Switch? && !a.IrqSwitch?
    ensures Inv(Step(s, a))
  {
    hide LockOk, Step, ThreadsOk, OnlySelf;
    SelfShape(s, a);
    SelfStepThreads(s, Step(s, a), a.i);
    SelfMovesLock(s, a);
    LockStep(s, Step(s, a), a.i);
  }

  lemma HoldsLock(s: State, i: nat)
    requires LockOk(s) && i < |s.cpus| && Holds(s, i)
    ensures s.lock
  {
  }

  lemma SelfMovesLock(s: State, a: Action)
    requires Inv(s) && Enabled(s, a) && !a.Switch? && !a.IrqSwitch?
    ensures LockMoves(s, Step(s, a), a.i)
  {
    hide LockOk;
    CountersCover(s, a.i);
    if Holds(s, a.i) {
      HoldsLock(s, a.i);
    }
  }

  /* Context switches */

  /** A switch is made only outside critical sections and spinlocks. */
  lemma OutgoingIsAtRest(s: State, a: Action)
    requires Inv(s) && Enabled(s, a) && (a.Switch? || a.IrqSwitch?)
    ensures Holds(s, a.i) && Self(s, a.i).critical == 0 && Self(s, a.i).spin == 0
    ensures AtRest(Step(s, a).threads[s.cpus[a.i].current])
    ensures Balanced(Step(s, a).threads[s.cpus[a.i].current])
  {
    hide LockOk;
    CountersCover(s, a.i);
    assert a.to != s.cpus[a.i].current;
  }

  lemma SwitchKeepsThreads(s: State, a: Action)
    requires Inv(s) && Enabled(s, a) && (a.Switch? || a.IrqSwitch?)
    ensures ThreadsOk(Step(s, a))
  {
    hide LockOk;
    var i, to, t := a.i, a.to, Step(s, a);
    CountersCover(s, i);
    OutgoingIsAtRest(s, a);
    forall j | 0 <= j < |t.cpus| ensures Sited(t, j) && CpuOk(t.cpus[j], Self(t, j)) {
      assert Sited(s, j) && CpuOk(s.cpus[j], Self(s, j));
      assert j == i ==> Self(t, j) == s.threads[to];
    }
    forall x | x in t.threads ensures Balanced(t.threads[x]) && (!RunsOn(t, x) ==> AtRest(t.threads[x])) {
      if x != s.cpus[i].current && !RunsOn(t, x) {
        StillOff(s, t, i, x);
      }
    }
  }

  lemma StillOff(s: State, t: State, i: nat, x: Tid)
    requires i < |s.cpus| == |t.cpus| && !RunsOn(t, x) && x != s.cpus[i].current
    requires forall j :: 0 <= j < |s.cpus| && j != i ==> t.cpus[j].current == s.cpus[j].current
    ensures !RunsOn(s, x)
  {
  }

  /** The incoming thread gets the lock if it had asked for it; otherwise the lock is let go. */
  lemma SwitchMovesLock(s: State, a: Action)
    requires Inv(s) && Enabled(s, a) && (a.Switch? || a.IrqSwitch?)
    ensures LockMoves(s, Step(s, a), a.i) && OthersHold(s, Step(s, a), a.i)
    ensures Step(s, a).lock <==> s.threads[a.to].cpus > 0
  {
    hide LockOk;
    OutgoingIsAtRest(s, a);
    HoldsLock(s, a.i);
    OthersKeep(s, Step(s, a), a.i);
  }

  lemma StepKeepsInv(s: State, a: Action)
    requires Inv(s) && Enabled(s, a)
    ensures Inv(Step(s, a))
  {
    hide Step, ThreadsOk, LockOk;
    if a.Switch? || a.IrqSwitch? {
      SwitchKeepsThreads(s, a);
      SwitchMovesLock(s, a);
      LockStep(s, Step(s, a), a.i);
    } else {
      SelfStep(s, a);
    }
  }

  ghost predicate Possible(s: State, run: seq<Action>)
    requires Inv(s)
    decreases |run|
  {
    run == [] || (Enabled(s, run[0]) && (StepKeepsInv(s, run[0]); Possible(Step(s, run[0]), run[1..])))
  }

  ghost function Run(s: State, run: seq<Action>): State
    requires Inv(s) && Possible(s, run)
    decreases |run|
  {
    if run == [] then s else (StepKeepsInv(s, run[0]); Run(Step(s, run[0]), run[1..]))
  }

  /** In every interleaving of the CPUs the counters and the lock agree. */
  lemma {:induction false} EveryRunKeepsInv(s: State, run: seq<Action>)
    requires Inv(s) && Possible(s, run)
    ensures Inv(Run(s, run))
    decreases |run|
  {
    if run != [] {
      StepKeepsInv(s, run[0]);
      EveryRunKeepsInv(Step(s, run[0]), run[1..]);
    }
  }

  /** The lock is held exactly when one CPU's thread has asked for it and no longer spins, never two. */
  lemma {:induction false} OneHolder(s: State, run: seq<Action>)
    requires Inv(s) && Possible(s, run)
    ensures var t := Run(s, run);
            t.lock <==> exists i :: 0 <= i < |t.cpus| && Holds(t, i) && forall j :: 0 <= j < |t.cpus| && j != i ==> !Holds(t, j)
  {
    hide Holds, ThreadsOk;
    EveryRunKeepsInv(s, run);
    var t := Run(s, run);
    if t.lock {
      var i :| 0 <= i < |t.cpus| && Holds(t, i);
      forall j | 0 <= j < |t.cpus| && j != i ensures !Holds(t, j) {
        assert i < j ==> !(Holds(t, i) && Holds(t, j));
      }
    }
  }

  /** Any number of CPUs, each running a thread of its own, nothing locked. */
  lemma StartIsGood(s: State)
    requires !s.lock
    requires forall i :: 0 <= i < |s.cpus| ==> Sited(s, i) && s.cpus[i].pc == Running
    requires forall i, j :: 0 <= i < j < |s.cpus| ==> s.cpus[i].current != s.cpus[j].current
    requires forall t :: t in s.threads ==> s.threads[t] == Thread(0, 0, 0, 0, 0)
    ensures Inv(s)
  {
  }

  class Smp {
    var lock: bool
    var cpus: seq<Cpu>
    var threads: map<Tid, Thread>

    ghost function Abs(): State
      reads this
    {
      State(lock, cpus, threads)
    }

    ghost predicate Valid()
      reads this
    {
      Inv(Abs())
    }

    constructor (boot: seq<Tid>, all: set<Tid>)
      requires Distinct(boot) && forall t :: t in boot ==> t in all
      ensures Valid() && !lock && |cpus| == |boot| && threads.Keys == all
    {
      lock := false;
      cpus := seq(|boot|, i requires 0 <= i < |boot| => Cpu(boot[i], Running, 0));
      threads := map t | t in all :: Thread(0, 0, 0, 0, 0);
      new;
      StartIsGood(Abs());
    }

    method Update(i: nat, x: Thread, pc: Pc)
      requires Sited(Abs(), i)
      modifies `threads, `cpus
      ensures Abs() == Set(old(Abs()), i, x, pc)
    {
      threads := threads[cpus[i].current := x];
      cpus := cpus[i := cpus[i].(pc := pc)];
    }

    /** `rt_cpus_lock`, up to the spin. */
    method CpusLock(i: nat)
      requires Valid() && Enabled(Abs(), Lock(i))
      modifies this
      ensures Valid() && Abs() == Step(old(Abs()), Lock(i))
    {
      hide Inv;
      StepKeepsInv(Abs(), Lock(i));
      var x := threads[cpus[i].current];
      var nest := x.cpus;
      x := x.(cpus := x.cpus + 1, plain := x.plain + 1);
      if nest == 0 {
        x := x.(sched := x.sched + 1);
        Update(i, x, Spinning(ForPlain));
      } else {
        Update(i, x, Running);
      }
    }

    /** `rt_hw_spin_lock` returns, and its caller goes on. */
    method SpinEnds(i: nat)
      requires Valid() && Enabled(Abs(), Acquire(i))
      modifies this
      ensures Valid() && Abs() == Step(old(Abs()), Acquire(i))
    {
      hide Inv;
      StepKeepsInv(Abs(), Acquire(i));
      lock := true;
      var x := threads[cpus[i].current];
      match cpus[i].pc.next {
        case ForPlain => Update(i, x, Running);
        case ForCritical => Update(i, x.(critical := x.critical + 1, sched := x.sched + 1), Running);
        case ForIrq => Update(i, x, Tail);
      }
    }

    /** The end of `rt_cpus_unlock` and of `rt_exit_critical`: the last request lets the lock go. */
    method GiveUp(i: nat, x: Thread)
      requires Sited(Abs(), i) && x.cpus > 0 && x.sched > 0
      modifies this
      ensures Abs() == Released(old(Abs()), i, Lowered(x))
    {
      var y := x.(cpus := x.cpus - 1);
      if y.cpus == 0 {
        y := y.(sched := y.sched - 1);
        lock := false;
      }
      Update(i, y, Running);
    }

    /** `rt_cpus_unlock` */
    method CpusUnlock(i: nat)
      requires Valid() && Enabled(Abs(), Unlock(i))
      modifies this
      ensures Valid() && Abs() == Step(old(Abs()), Unlock(i))
    {
      hide Inv;
      StepKeepsInv(Abs(), Unlock(i));
      CountersAre(Abs(), i);
      var x := threads[cpus[i].current];
      GiveUp(i, x.(plain := x.plain - 1));
    }

    /** `rt_enter_critical`, up to the spin if there is one. */
    method Enter(i: nat)
      requires Valid() && Enabled(Abs(), EnterCritical(i))
      modifies this
      ensures Valid() && Abs() == Step(old(Abs()), EnterCritical(i))
    {
      hide Inv;
      StepKeepsInv(Abs(), EnterCritical(i));
      var x := threads[cpus[i].current];
      var nest := x.cpus;
      x := x.(cpus := x.cpus + 1);
      if nest == 0 {
        Update(i, x.(sched := x.sched + 1), Spinning(ForCritical));
      } else {
        Update(i, x.(critical := x.critical + 1, sched := x.sched + 1), Running);
      }
    }

    /** `rt_exit_critical`; says whether it goes on to reschedule. */
    method Exit(i: nat) returns (again: bool)
      requires Valid() && Enabled(Abs(), ExitCritical(i))
      modifies this
      ensures Valid() && Abs() == Step(old(Abs()), ExitCritical(i)) && Sited(Abs(), i)
      ensures again <==> Self(Abs(), i).cpus == 0 && Self(Abs(), i).critical == 0 && Self(Abs(), i).spin == 0
    {
      hide Inv;
      StepKeepsInv(Abs(), ExitCritical(i));
      CountersAre(Abs(), i);
      var x := threads[cpus[i].current];
      GiveUp(i, x.(sched := x.sched - 1, critical := x.critical - 1));
      CountersAre(Abs(), i);
      again := threads[cpus[i].current].sched <= 0;
    }

    /** `_cpu_preempt_disable` */
    method PreemptDisable(i: nat)
      requires Valid() && Enabled(Abs(), SpinLock(i))
      modifies this
      ensures Valid() && Abs() == Step(old(Abs()), SpinLock(i))
    {
      hide Inv;
      StepKeepsInv(Abs(), SpinLock(i));
      var x := threads[cpus[i].current];
      Update(i, x.(spin := x.spin + 1, sched := x.sched + 1), Running);
    }

    /** `_cpu_preempt_enable`, up to the reschedule. */
    method PreemptEnable(i: nat)
      requires Valid() && Enabled(Abs(), SpinUnlock(i))
      modifies this
      ensures Valid() && Abs() == Step(old(Abs()), SpinUnlock(i))
    {
      hide Inv;
      StepKeepsInv(Abs(), SpinUnlock(i));
      CountersAre(Abs(), i);
      var x := threads[cpus[i].current];
      Update(i, x.(spin := x.spin - 1, sched := x.sched - 1), Running);
    }

    /** `rt_cpus_lock_status_restore` */
    method StatusRestore(i: nat, to: Tid)
      requires i < |cpus| && to in threads
      modifies `cpus, `lock
      ensures Abs() == Restored(old(Abs()), i, to)
    {
      cpus := cpus[i := cpus[i].(current := to)];
      if threads[to].cpus == 0 {
        lock := false;
      }
    }

    /** The switch in `rt_schedule`; says whether the scheduler was unlocked enough to make it. */
    method Schedule(i: nat, to: Tid) returns (ok: bool)
      requires Valid() && Sited(Abs(), i) && cpus[i].pc.Running? && threads[cpus[i].current].plain > 0
      requires to in threads && !RunsOn(Abs(), to)
      modifies this
      ensures Valid() && ok == Enabled(old(Abs()), Switch(i, to))
      ensures Abs() == if ok then Step(old(Abs()), Switch(i, to)) else old(Abs())
    {
      hide Inv, RunsOn;
      ok := cpus[i].irq == 0 && threads[cpus[i].current].sched == 1;
      if ok {
        StepKeepsInv(Abs(), Switch(i, to));
        StatusRestore(i, to);
      }
    }

    /** The request for the lock at the end of an interrupt, up to the spin. */
    method IrqLock(i: nat)
      requires Valid() && Enabled(Abs(), IrqExit(i))
      modifies this
      ensures Valid() && Abs() == Step(old(Abs()), IrqExit(i))
    {
      hide Inv;
      StepKeepsInv(Abs(), IrqExit(i));
      cpus := cpus[i := cpus[i].(irq := 0)];
      var x := threads[cpus[i].current];
      var nest := x.cpus;
      x := x.(cpus := x.cpus + 1, plain := x.plain + 1);
      if nest == 0 {
        Update(i, x.(sched := x.sched + 1), Spinning(ForIrq));
      } else {
        Update(i, x, Tail);
      }
    }

    /** The switch in `rt_scheduler_do_irq_switch`: the outgoing thread first takes back the request made for it. */
    method IrqSchedule(i: nat, to: Tid) returns (ok: bool)
      requires Valid() && Sited(Abs(), i) && cpus[i].pc.Tail? && to in threads && !RunsOn(Abs(), to)
      modifies this
      ensures Valid() && ok == Enabled(old(Abs()), IrqSwitch(i, to))
      ensures Abs() == Step(old(Abs()), if ok then IrqSwitch(i, to) else IrqReturn(i))
    {
      hide Inv, RunsOn, Balanced, CpuOk;
      CountersAre(Abs(), i);
      IrqCounts(Abs(), i);
      var x := threads[cpus[i].current];
      ok := x.sched == 1;
      if ok {
        StepKeepsInv(Abs(), IrqSwitch(i, to));
        Update(i, x.(cpus := x.cpus - 1, sched := x.sched - 1, plain := x.plain - 1), Running);
        StatusRestore(i, to);
      } else {
        StepKeepsInv(Abs(), IrqReturn(i));
        GiveUp(i, x.(plain := x.plain - 1));
      }
    }
  }

  /** At the end of an interrupt the request made there is still counted. */
  lemma IrqCounts(s: State, i: nat)
    requires Sited(s, i) && s.cpus[i].pc.Tail? && Balanced(Self(s, i)) && CpuOk(s.cpus[i], Self(s, i))
    ensures Self(s, i).cpus > 0 && Self(s, i).sched > 0 && Self(s, i).plain > 0
  {
  }

  lemma CountersAre(s: State, i: nat)
    requires Inv(s) && i < |s.cpus|
    ensures Sited(s, i) && Balanced(Self(s, i)) && CpuOk(s.cpus[i], Self(s, i))
  {
    CountersCover(s, i);
  }
}
