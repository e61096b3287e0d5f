/**
 Mailboxes: a ring of words with two suspended-thread lists, one for receivers
 and one for senders. Every stretch with interrupts disabled is one step.
 */
module Mailbox {
  import opened Common
  import opened DeliveryOrder
  import opened Sequences
  import opened WaitQueue

  const ENTRY_MAX: nat := 0xFFFF

  datatype Outcome = Accepted | Full | Mail(value: int) | TimedOut | Suspended | Done

  /** An interrupt handler is an execution context with an identity of its own that only calls with timeout 0. */
  datatype Action =
    | Send(caller: Tid, value: int, timeout: int, prio: Priorities)
    | Urgent(urgent: int)
    | Receive(caller: Tid, timeout: int, prio: Priorities)
    | Expire(thread: Tid)
    | Reset

  /** The mailbox as its users see it; the log holds its contents and what went through it. */
  datatype State = State(size: nat, order: Order, log: Log<int>, receivers: Channel, senders: Channel) {
    function Count(): nat { |log.queued| }
  }

  function Empty(size: nat, order: Order): State {
    State(size, order, Nothing(), Channel([], {}), Channel([], {}))
  }

  /** The caller is running, and owes a re-check to `mine` at most. */
  predicate MayCall(caller: Tid, mine: Channel, other: Channel) {
    caller !in mine.waiting && other.Idle(caller)
  }

  predicate Enabled(s: State, a: Action) {
    match a
    case Send(caller, _, _, _) => MayCall(caller, s.senders, s.receivers)
    case Receive(caller, _, _) => MayCall(caller, s.receivers, s.senders)
    case Expire(t) => t in s.receivers.waiting || t in s.senders.waiting
    case Urgent(_) => true
    case Reset => true
  }

  function Step(s: State, a: Action): (State, Outcome)
    requires Enabled(s, a)
  {
    match a
    case Send(caller, value, timeout, prio) =>
      if s.Count() < s.size then
        (s.(log := s.log.Send(value, false), senders := s.senders.Recheck(caller), receivers := s.receivers.Wake()), Accepted)
      else if timeout == 0 then
        (s.(senders := s.senders.Recheck(caller)), Full)
      else
        (s.(senders := s.senders.Block(caller, prio, s.order)), Suspended)
    case Urgent(value) =>
      if s.Count() < s.size then
        (s.(log := s.log.Send(value, true), receivers := s.receivers.Wake()), Accepted)
      else
        (s, Full)
    case Receive(caller, timeout, prio) =>
      if s.Count() > 0 then
        (s.(log := s.log.Take(), receivers := s.receivers.Recheck(caller), senders := s.senders.Wake()), Mail(s.log.queued[0].body))
      else if timeout == 0 then
        (s.(receivers := s.receivers.Recheck(caller)), TimedOut)
      else
        (s.(receivers := s.receivers.Block(caller, prio, s.order)), Suspended)
    case Expire(t) =>
      (s.(receivers := s.receivers.Expire(t), senders := s.senders.Expire(t)), TimedOut)
    case Reset =>
      (s.(log := s.log.Drop(), receivers := s.receivers.Flush(), senders := s.senders.Flush()), Done)
  }

  /** No wake-up is lost, and every accepted mail is received once, in order, or dropped by a reset, or still there. */
  ghost predicate Inv(s: State) {
    Awake(s) && Good(s.log)
  }

  ghost predicate Awake(s: State) {
    && s.Count() <= s.size
    && s.receivers.Valid() && s.receivers.NoLostWakeup(s.Count())
    && s.senders.Valid() && s.senders.NoLostWakeup(s.size - s.Count())
  }

  lemma StepKeepsLog(s: State, a: Action)
    requires Good(s.log) && Enabled(s, a)
    ensures Good(Step(s, a).0.log)
  {
    hide Good;
    match a
    case Send(caller, value, timeout, prio) => SendGood(s.log, value, false);
    case Urgent(value) => SendGood(s.log, value, true);
    case Receive(caller, timeout, prio) => if s.Count() > 0 { TakeGood(s.log); }
    case Expire(t) =>
    case Reset => DropGood(s.log);
  }

  lemma StepKeepsInv(s: State, a: Action)
    requires Inv(s) && Enabled(s, a)
    ensures Inv(Step(s, a).0)
  {
    hide Good, Awake;
    StepKeepsLog(s, a);
    StepKeepsAwake(s, a);
  }

  lemma StepKeepsAwake(s: State, a: Action)
    requires Awake(s) && Enabled(s, a)
    ensures Awake(Step(s, a).0)
  {
    match a
    case Send(caller, value, timeout, prio) =>
      RecheckKeeps(s.senders, caller, s.size - s.Count());
      WakeKeeps(s.receivers, s.Count());
      if s.Count() == s.size && timeout != 0 {
        BlockKeeps(s.senders, caller, prio, s.order);
      }
    case Urgent(value) =>
      WakeKeeps(s.receivers, s.Count());
    case Receive(caller, timeout, prio) =>
      RecheckKeeps(s.receivers, caller, s.Count());
      WakeKeeps(s.senders, s.size - s.Count());
      if s.Count() == 0 && timeout != 0 {
        BlockKeeps(s.receivers, caller, prio, s.order);
      }
    case Expire(t) =>
      ExpireKeeps(s.receivers, t, s.Count());
      ExpireKeeps(s.senders, t, s.size - s.Count());
    case Reset =>
  }

  ghost predicate Legal(s: State, run: seq<Action>)
    decreases |run|
  {
    run == [] || (Enabled(s, run[0]) && Legal(Step(s, run[0]).0, run[1..]))
  }

  ghost function After(s: State, run: seq<Action>): State
    requires Legal(s, run)
    decreases |run|
  {
    if run == [] then s else After(Step(s, run[0]).0, run[1..])
  }

  /** No wake-up is lost and no accepted mail vanishes, in any run of any length. */
  lemma {:induction false} EveryRunKeepsInv(s: State, run: seq<Action>)
    requires Inv(s) && Legal(s, run)
    ensures Inv(After(s, run))
    decreases |run|
  {
    if run != [] {
      StepKeepsInv(s, run[0]);
      EveryRunKeepsInv(Step(s, run[0]).0, run[1..]);
    }
  }

  /** What the invariant means to a suspended thread when nobody has been resumed. */
  lemma QuietMeansNothingToDo(size: nat, order: Order, run: seq<Action>)
    requires Legal(Empty(size, order), run)
    ensures var s := After(Empty(size, order), run);
            && (s.receivers.waiting != [] && s.receivers.pending == {} ==> s.Count() == 0)
            && (s.senders.waiting != [] && s.senders.pending == {} ==> s.Count() == s.size)
  {
    NothingIsGood<int>();
    EveryRunKeepsInv(Empty(size, order), run);
  }

  /**
   Order, in every run: the box holds the urgent mail, latest first, and then the
   ordinary mail, earliest first; ordinary mail is received in the order it was
   accepted, and a receiver is given the latest urgent mail, or else the earliest.
   */
  lemma EveryRunKeepsOrder(s: State, run: seq<Action>)
    requires Inv(s) && Legal(s, run)
    ensures var e := After(s, run);
            && Ordered(e.log) && Conserved(e.log)
            && forall m :: m in e.log.queued ==>
                 var h := e.log.queued[0];
                 (m.urgent ==> h.urgent && h.serial >= m.serial) && (!h.urgent ==> !m.urgent && h.serial <= m.serial)
  {
    hide Ordered, Conserved;
    EveryRunKeepsInv(s, run);
    var e := After(s, run);
    forall m | m in e.log.queued ensures var h := e.log.queued[0];
      (m.urgent ==> h.urgent && h.serial >= m.serial) && (!h.urgent ==> !m.urgent && h.serial <= m.serial)
    {
      NextOut(e.log, m);
    }
  }

  ghost predicate Plain(run: seq<Action>) {
    forall i :: 0 <= i < |run| ==> !run[i].Urgent? && !run[i].Reset?
  }

  ghost predicate AllPlain(s: State) {
    (forall i :: 0 <= i < |s.log.sent| ==> !s.log.sent[i].urgent) && s.log.dropped == []
  }

  lemma {:induction false} PlainStaysPlain(s: State, run: seq<Action>)
    requires Legal(s, run) && Plain(run) && AllPlain(s)
    ensures AllPlain(After(s, run))
    decreases |run|
  {
    if run != [] {
      var n := Step(s, run[0]).0;
      assert !run[0].Urgent? && !run[0].Reset?;
      assert AllPlain(n);
      PlainStaysPlain(n, run[1..]);
    }
  }

  /** So without urgent mail and resets, mail comes out in exactly the order it was accepted. */
  lemma PlainRunsAreFifo(s: State, run: seq<Action>)
    requires Inv(s) && Legal(s, run) && Plain(run) && AllPlain(s)
    ensures var l := After(s, run).log; l.sent == l.received + l.queued
  {
    EveryRunKeepsInv(s, run);
    PlainStaysPlain(s, run);
    PlainIsFifo(After(s, run).log);
  }

  function Wrap(i: nat, size: nat): nat
    requires i < 2 * size
  {
    if i >= size then i - size else i
  }

  /** `n` words read from `out`, wrapping at the end of the pool. */
  ghost function Ring(pool: seq<int>, out: nat, n: nat): (s: seq<int>)
    requires n <= |pool| && (|pool| > 0 ==> out < |pool|)
    ensures |s| == n && forall i :: 0 <= i < n ==> s[i] == pool[Wrap(out + i, |pool|)]
  {
    seq(n, i requires 0 <= i < n => pool[Wrap(out + i, |pool|)])
  }

  ghost function Bodies(q: seq<Item<int>>): (s: seq<int>)
    ensures |s| == |q| && forall i :: 0 <= i < |q| ==> s[i] == q[i].body
  {
    seq(|q|, i requires 0 <= i < |q| => q[i].body)
  }

  lemma BodiesSent(l: Log<int>, v: int, urgent: bool)
    ensures Bodies(l.Send(v, urgent).queued) == if urgent then [v] + Bodies(l.queued) else Bodies(l.queued) + [v]
  {
  }

  class Box {
    const size: nat
    const order: Order
    const pool: array<int>
    var entry: nat
    var inOffset: nat
    var outOffset: nat
    var receivers: seq<Tid>
    var senders: seq<Tid>
    ghost var resumedReceivers: set<Tid>
    ghost var resumedSenders: set<Tid>
    ghost var log: Log<int>

    ghost predicate Shaped()
      reads this
    {
      && pool.Length == size <= ENTRY_MAX
      && entry <= size
      && (size == 0 ==> inOffset == 0 && outOffset == 0)
      && (size > 0 ==> outOffset < size && inOffset == Wrap(outOffset + entry, size))
    }

    ghost function Contents(): (s: seq<int>)
      requires Shaped()
      reads this, pool
    {
      Ring(pool[..], outOffset, entry)
    }

    /** The ring holds the mail of the log, in order. */
    ghost predicate Valid()
      reads this, pool
    {
      Shaped() && Contents() == Bodies(log.queued)
    }

    ghost function Model(): State
      requires Valid()
      reads this, pool
    {
      State(size, order, log, Channel(receivers, resumedReceivers), Channel(senders, resumedSenders))
    }

    constructor (size: nat, order: Order)
      requires size <= ENTRY_MAX
      ensures Valid() && fresh(pool) && Model() == Empty(size, order)
    {
      this.size, this.order := size, order;
      pool := new int[size](_ => 0);
      entry, inOffset, outOffset := 0, 0, 0;
      receivers, senders := [], [];
      resumedReceivers, resumedSenders := {}, {};
      log := Nothing();
    }

    /** The ring half of a send; the overflow branch after the write cannot be taken. */
    method Append(value: int)
      requires Shaped() && entry < size
      modifies pool, `inOffset, `entry
      ensures Shaped() && Contents() == old(Contents()) + [value]
    {
      pool[inOffset] := value;
      inOffset := inOffset + 1;
      if inOffset >= size {
        inOffset := 0;
      }
      if entry < ENTRY_MAX {
        entry := entry + 1;
      } else {
        assert false;
      }
      assert Contents() == old(Contents()) + [value];
    }

    /** The ring half of an urgent send: the read offset steps back. */
    method Prepend(value: int)
      requires Shaped() && entry < size
      modifies pool, `outOffset, `entry
      ensures Shaped() && Contents() == [value] + old(Contents())
    {
      if outOffset > 0 {
        outOffset := outOffset - 1;
      } else {
        outOffset := size - 1;
      }
      pool[outOffset] := value;
      entry := entry + 1;
      assert Contents() == [value] + old(Contents());
    }

    method Pop() returns (value: int)
      requires Shaped() && entry > 0
      modifies `outOffset, `entry
      ensures Shaped() && value == old(Contents())[0] && Contents() == old(Contents())[1..]
    {
      value := pool[outOffset];
      outOffset := outOffset + 1;
      if outOffset >= size {
        outOffset := 0;
      }
      if entry > 0 {
        entry := entry - 1;
      }
      assert Contents() == old(Contents())[1..];
    }

    /** One pass through the critical section of `rt_mb_send_wait`, first or repeated. */
    method Send(caller: Tid, value: int, timeout: int, prio: Priorities) returns (r: Outcome)
      requires Valid() && Enabled(Model(), Action.Send(caller, value, timeout, prio))
      modifies this, pool
      ensures Valid() && (Model(), r) == old(Step(Model(), Action.Send(caller, value, timeout, prio)))
    {
      hide Bodies, Insert, Ring;
      if entry == size {
        if timeout == 0 {
          resumedSenders := resumedSenders - {caller};
          return Full;
        }
        senders := Enqueue(senders, caller, prio, order);
        resumedSenders := resumedSenders - {caller};
        return Suspended;
      }
      Append(value);
      BodiesSent(log, value, false);
      log := log.Send(value, false);
      resumedSenders := resumedSenders - {caller};
      if receivers != [] {
        resumedReceivers := resumedReceivers + {receivers[0]};
        receivers := receivers[1..];
      }
      r := Accepted;
    }

    method Urgent(value: int) returns (r: Outcome)
      requires Valid()
      modifies this, pool
      ensures Valid() && (Model(), r) == old(Step(Model(), Action.Urgent(value)))
    {
      hide Bodies, Ring;
      if entry == size {
        return Full;
      }
      Prepend(value);
      BodiesSent(log, value, true);
      log := log.Send(value, true);
      if receivers != [] {
        resumedReceivers := resumedReceivers + {receivers[0]};
        receivers := receivers[1..];
      }
      r := Accepted;
    }

    method Receive(caller: Tid, timeout: int, prio: Priorities) returns (r: Outcome)
      requires Valid() && Enabled(Model(), Action.Receive(caller, timeout, prio))
      modifies this
      ensures Valid() && (Model(), r) == old(Step(Model(), Action.Receive(caller, timeout, prio)))
    {
      if entry == 0 {
        if timeout == 0 {
          resumedReceivers := resumedReceivers - {caller};
          return TimedOut;
        }
        receivers := Enqueue(receivers, caller, prio, order);
        resumedReceivers := resumedReceivers - {caller};
        return Suspended;
      }
      var value := Pop();
      log := log.Take();
      resumedReceivers := resumedReceivers - {caller};
      if senders != [] {
        resumedSenders := resumedSenders + {senders[0]};
        senders := senders[1..];
      }
      r := Mail(value);
    }

    /** The thread timer fires while its thread is still suspended here. */
    method Expire(t: Tid) returns (r: Outcome)
      requires Valid() && Enabled(Model(), Action.Expire(t))
      modifies this
      ensures Valid() && (Model(), r) == old(Step(Model(), Action.Expire(t)))
    {
      receivers := Without(receivers, t);
      senders := Without(senders, t);
      r := TimedOut;
    }

    method Reset() returns (r: Outcome)
      requires Valid()
      modifies this
      ensures Valid() && (Model(), r) == old(Step(Model(), Action.Reset))
    {
      log := log.Drop();
      receivers, senders := [], [];
      entry, inOffset, outOffset := 0, 0, 0;
      r := Done;
    }
  }
}
