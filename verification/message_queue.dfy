/**
 Message queues: fixed-size nodes linked into a queue and a free list. Payloads
 are copied with interrupts enabled, so a node is for a while in neither list,
 and other calls run between any two copied bytes.
 */
module MessageQueue {
  import opened Arithmetic
  import opened Common
  import opened DeliveryOrder
  import opened Links
  import opened Sequences
  import opened WaitQueue

  type Node = nat

  const ENTRY_MAX: nat := 0xFFFF

  /** A linked message; its serial number is its place in the order of linking. */
  type Message = Item<seq<Byte>>

  /** What the call that took a node out of the lists is doing with it. */
  datatype Phase =
    | Filling(bytes: seq<Byte>, urgent: bool, copied: int)   // -1: `next` not yet cleared
    | Draining(msg: Message, want: nat, buffer: seq<Byte>)

  datatype Outcome =
    | Refused | Full | TimedOut | Suspended | Working(node: Node) | Linked | Delivered(msg: Message, buffer: seq<Byte>) | Done

  datatype Action =
    | Send(caller: Tid, bytes: seq<Byte>, urgent: bool, timeout: int, prio: Priorities)
    | CopyIn(node: Node)
    | Link(node: Node)
    | Receive(caller: Tid, size: nat, timeout: int, prio: Priorities)
    | CopyOut(node: Node)
    | Release(node: Node)
    | Expire(thread: Tid)
    | Reset

  datatype State = State(
    max: nat, msgSize: nat, order: Order,
    queue: seq<Node>, free: seq<Node>, held: map<Node, Phase>,
    body: seq<seq<Byte>>,
    receivers: Channel, senders: Channel,
    log: Log<seq<Byte>>)

  predicate Enabled(s: State, a: Action) {
    match a
    case Send(t, bytes, urgent, _, _) =>
      t !in s.senders.waiting && s.receivers.Idle(t) && bytes != [] && (urgent ==> s.senders.Idle(t))
    case CopyIn(n) =>
      n in s.held && n < |s.body| && s.held[n].Filling?
      && -1 <= s.held[n].copied < |s.held[n].bytes| && s.held[n].copied < |s.body[n]|
    case Link(n) => n in s.held && s.held[n].Filling? && s.held[n].copied == |s.held[n].bytes|
    case Receive(t, size, _, _) =>
      t !in s.receivers.waiting && s.senders.Idle(t) && size > 0 && |s.queue| == |s.log.queued|
    case CopyOut(n) =>
      n in s.held && n < |s.body| && s.held[n].Draining?
      && |s.held[n].buffer| < s.held[n].want && |s.held[n].buffer| < |s.body[n]|
    case Release(n) => n in s.held && s.held[n].Draining? && |s.held[n].buffer| == s.held[n].want
    case Expire(t) => t in s.receivers.waiting || t in s.senders.waiting
    case Reset => true
  }

  function Step(s: State, a: Action): (State, Outcome)
    requires Enabled(s, a)
  {
    match a
    case Send(t, bytes, urgent, timeout, prio) =>
      if |bytes| > s.msgSize then (s, Refused)
      else if s.free != [] then
        (s.(free := s.free[1..], senders := s.senders.Recheck(t),
            held := s.held[s.free[0] := Filling(bytes, urgent, if urgent then 0 else -1)]), Working(s.free[0]))
      else if urgent || timeout == 0 then (s.(senders := s.senders.Recheck(t)), Full)
      else (s.(senders := s.senders.Block(t, prio, s.order)), Suspended)
    case CopyIn(n) =>
      var p := s.held[n];
      (s.(held := s.held[n := p.(copied := p.copied + 1)],
          body := if p.copied < 0 then s.body else s.body[n := s.body[n][p.copied := p.bytes[p.copied]]]), Working(n))
    case Link(n) =>
      var p := s.held[n];
      (s.(held := s.held - {n}, log := s.log.Send(p.bytes, p.urgent), receivers := s.receivers.Wake(),
          queue := if p.urgent then [n] + s.queue else s.queue + [n]), Linked)
    case Receive(t, size, timeout, prio) =>
      if s.queue != [] then
        var p := Draining(s.log.queued[0], Min(size, s.msgSize), []);
        (s.(queue := s.queue[1..], log := s.log.Take(), held := s.held[s.queue[0] := p],
            receivers := s.receivers.Recheck(t)), Working(s.queue[0]))
      else if timeout == 0 then (s.(receivers := s.receivers.Recheck(t)), TimedOut)
      else (s.(receivers := s.receivers.Block(t, prio, s.order)), Suspended)
    case CopyOut(n) =>
      var p := s.held[n];
      (s.(held := s.held[n := p.(buffer := p.buffer + [s.body[n][|p.buffer|]])]), Working(n))
    case Release(n) =>
      var p := s.held[n];
      (s.(held := s.held - {n}, free := [n] + s.free, senders := s.senders.Wake()), Delivered(p.msg, p.buffer))
    case Expire(t) =>
      (s.(receivers := s.receivers.Expire(t), senders := s.senders.Expire(t)), TimedOut)
    case Reset =>
      (s.(queue := [], free := Reverse(s.queue) + s.free, log := s.log.Drop(),
          receivers := s.receivers.Flush(), senders := s.senders.Flush()), Done)
  }

  /** Each node is in exactly one place: linked in the queue, on the free list, or in one call's hands. */
  ghost predicate Partitioned(s: State) {
    && Distinct(s.queue) && Distinct(s.free)
    && (forall n :: n in s.queue ==> n < s.max && n !in s.free && n !in s.held)
    && (forall n :: n in s.free ==> n < s.max && n !in s.held)
    && (forall n :: n in s.held ==> n < s.max)
    && (forall n: Node :: n < s.max ==> n in s.queue || n in s.free || n in s.held)
  }

  /** The bytes of a message stay in its node from the first copied byte to the last one read. */
  ghost predicate Intact(s: State) {
    && |s.log.queued| == |s.queue| && |s.body| == s.max
    && (forall n :: 0 <= n < s.max ==> |s.body[n]| == s.msgSize)
    && (forall i :: 0 <= i < |s.queue| ==> s.queue[i] < s.max && s.log.queued[i].body <= s.body[s.queue[i]])
    && (forall n :: n in s.held ==> n < s.max && HoldIntact(s.held[n], s.body[n]))
  }

  ghost predicate HoldIntact(p: Phase, body: seq<Byte>) {
    match p
    case Filling(bytes, _, copied) =>
      -1 <= copied <= |bytes| <= |body| && forall i :: 0 <= i < copied ==> body[i] == bytes[i]
    case Draining(msg, want, buffer) =>
      |buffer| <= want <= |body| && buffer <= body && msg.body <= body
  }

  ghost predicate Awake(s: State) {
    && s.receivers.Valid() && s.receivers.NoLostWakeup(|s.queue|)
    && s.senders.Valid() && s.senders.NoLostWakeup(|s.free|)
  }

  /** Nodes, bytes and wake-ups are in order, and so is what has been and will be delivered. */
  ghost predicate Inv(s: State) {
    Partitioned(s) && Intact(s) && Awake(s) && Good(s.log)
  }

  function Empty(max: nat, msgSize: nat, order: Order, body: seq<seq<Byte>>): State {
    State(max, msgSize, order, [], seq(max, i requires 0 <= i < max => max - 1 - i as Node), map[], body,
          Channel([], {}), Channel([], {}), Nothing())
  }

  lemma EmptyIsGood(max: nat, msgSize: nat, order: Order, body: seq<seq<Byte>>)
    requires |body| == max && forall n :: 0 <= n < max ==> |body[n]| == msgSize
    ensures Inv(Empty(max, msgSize, order, body))
  {
    EmptyIsPartitioned(max, msgSize, order, body);
    NothingIsGood<seq<Byte>>();
  }

  lemma EmptyIsPartitioned(max: nat, msgSize: nat, order: Order, body: seq<seq<Byte>>)
    ensures Partitioned(Empty(max, msgSize, order, body))
  {
    var free := Empty(max, msgSize, order, body).free;
    forall n: Node | n < max ensures n in free {
      assert free[max - 1 - n] == n;
    }
  }

  lemma StepKeepsPartition(s: State, a: Action)
    requires Partitioned(s) && Enabled(s, a)
    ensures Partitioned(Step(s, a).0)
  {
    match a
    case Send(t, bytes, urgent, timeout, prio) =>
      if |bytes| <= s.msgSize && s.free != [] { HeadTail(s.free); }
    case Receive(t, size, timeout, prio) =>
      if s.queue != [] { HeadTail(s.queue); }
    case Reset =>
      ResetKeepsPartition(s);
    case _ =>
  }

  lemma ResetKeepsPartition(s: State)
    requires Partitioned(s)
    ensures Partitioned(Step(s, Reset).0)
  {
    ReverseElements(s.queue);
    ConcatDistinct(Reverse(s.queue), s.free);
  }

  lemma StepKeepsIntact(s: State, a: Action)
    requires Partitioned(s) && Intact(s) && Enabled(s, a)
    ensures Intact(Step(s, a).0)
  {
    match a
    case CopyIn(n) => CopyInKeepsIntact(s, n);
    case Link(n) => LinkKeepsIntact(s, n);
    case Receive(t, size, timeout, prio) => ReceiveKeepsIntact(s, a);
    case CopyOut(n) => CopyOutKeepsIntact(s, n);
    case _ =>
  }

  lemma ReceiveKeepsIntact(s: State, a: Action)
    requires Intact(s) && a.Receive? && Enabled(s, a)
    ensures Intact(Step(s, a).0)
  {
    if s.queue != [] {
      var m := Step(s, a).0;
      assert forall i :: 0 <= i < |m.queue| ==> m.queue[i] == s.queue[i + 1] && m.log.queued[i] == s.log.queued[i + 1];
      assert s.log.queued[0].body <= s.body[s.queue[0]];
    }
  }

  lemma CopyOutKeepsIntact(s: State, n: Node)
    requires Intact(s) && Enabled(s, CopyOut(n))
    ensures Intact(Step(s, CopyOut(n)).0)
  {
    assert HoldIntact(s.held[n], s.body[n]);
  }

  lemma CopyInKeepsIntact(s: State, n: Node)
    requires Partitioned(s) && Intact(s) && Enabled(s, CopyIn(n))
    ensures Intact(Step(s, CopyIn(n)).0)
  {
    var m := Step(s, CopyIn(n)).0;
    assert HoldIntact(s.held[n], s.body[n]);
    assert forall i :: 0 <= i < |s.queue| ==> s.queue[i] in s.queue && m.body[s.queue[i]] == s.body[s.queue[i]];
  }

  lemma LinkKeepsIntact(s: State, n: Node)
    requires Intact(s) && Enabled(s, Link(n))
    ensures Intact(Step(s, Link(n)).0)
  {
    hide HoldIntact;
    var m := Step(s, Link(n)).0;
    forall i | 0 <= i < |m.queue| ensures m.queue[i] < s.max && m.log.queued[i].body <= s.body[m.queue[i]] {
      LinkedIntact(s, n, i);
    }
  }

  lemma LinkedIntact(s: State, n: Node, i: nat)
    requires Intact(s) && Enabled(s, Link(n)) && i < |Step(s, Link(n)).0.queue|
    ensures var m := Step(s, Link(n)).0;
            |m.log.queued| == |m.queue| && m.queue[i] < s.max && m.log.queued[i].body <= s.body[m.queue[i]]
  {
    var m, p := Step(s, Link(n)).0, s.held[n];
    assert HoldIntact(p, s.body[n]);
    assert p.bytes <= s.body[n];
    var j := if p.urgent then i - 1 else i;
    if 0 <= j < |s.queue| {
      assert m.queue[i] == s.queue[j] && m.log.queued[i] == s.log.queued[j];
    }
  }

  lemma StepKeepsAwake(s: State, a: Action)
    requires Awake(s) && Enabled(s, a)
    ensures Awake(Step(s, a).0)
  {
    match a
    case Send(t, bytes, urgent, timeout, prio) =>
      RecheckKeeps(s.senders, t, |s.free|);
      BlockKeeps(s.senders, t, prio, s.order);
    case Link(n) => WakeKeeps(s.receivers, |s.queue|);
    case Receive(t, size, timeout, prio) =>
      RecheckKeeps(s.receivers, t, |s.queue|);
      BlockKeeps(s.receivers, t, prio, s.order);
    case Release(n) => WakeKeeps(s.senders, |s.free|);
    case Expire(t) =>
      ExpireKeeps(s.receivers, t, |s.queue|);
      ExpireKeeps(s.senders, t, |s.free|);
    case _ =>
  }

  lemma StepKeepsLog(s: State, a: Action)
    requires Good(s.log) && Enabled(s, a)
    ensures Good(Step(s, a).0.log)
  {
    hide Good;
    match a
    case Link(n) => SendGood(s.log, s.held[n].bytes, s.held[n].urgent);
    case Receive(t, size, timeout, prio) => if s.queue != [] { TakeGood(s.log); }
    case Reset => DropGood(s.log);
    case _ =>
  }

  ghost predicate Legal(s: State, run: seq<Action>)
    decreases |run|
  {
    run == [] || (Enabled(s, run[0]) && Legal(Step(s, run[0]).0, run[1..]))
  }

  ghost function After(s: State, run: seq<Action>): State
    requires Legal(s, run)
    decreases |run|
  {
    if run == [] then s else After(Step(s, run[0]).0, run[1..])
  }

  lemma StepKeepsInv(s: State, a: Action)
    requires Inv(s) && Enabled(s, a)
    ensures Inv(Step(s, a).0)
  {
    StepKeepsPartition(s, a);
    StepKeepsIntact(s, a);
    StepKeepsAwake(s, a);
    StepKeepsLog(s, a);
  }

  /** Every interleaving of senders, urgent senders, receivers, timeouts and resets. */
  lemma {:induction false} EveryRunKeepsInv(s: State, run: seq<Action>)
    requires Inv(s) && Legal(s, run)
    ensures Inv(After(s, run))
    decreases |run|
  {
    if run != [] {
      StepKeepsInv(s, run[0]);
      EveryRunKeepsInv(Step(s, run[0]).0, run[1..]);
    }
  }

  /**
   Order, in every run: the queue holds the urgent messages, latest first, and
   then the ordinary ones, earliest first; ordinary messages are received in the
   order they were linked, and none is overtaken by one that was linked later; and
   a receiver is always given the latest urgent message, or else the earliest one.
   */
  lemma EveryRunKeepsOrder(s: State, run: seq<Action>)
    requires Inv(s) && Legal(s, run)
    ensures var e := After(s, run);
            && Ordered(e.log) && Conserved(e.log) && |e.queue| == |e.log.queued|
            && (e.queue != [] ==> forall m :: m in e.log.queued ==>
                 var h := e.log.queued[0];
                 (m.urgent ==> h.urgent && h.serial >= m.serial) && (!h.urgent ==> !m.urgent && h.serial <= m.serial))
  {
    hide Ordered, Conserved;
    EveryRunKeepsInv(s, run);
    var e := After(s, run);
    forall m | m in e.log.queued ensures var h := e.log.queued[0];
      (m.urgent ==> h.urgent && h.serial >= m.serial) && (!h.urgent ==> !m.urgent && h.serial <= m.serial)
    {
      NextOut(e.log, m);
    }
  }

  ghost predicate Plain(run: seq<Action>) {
    forall i :: 0 <= i < |run| ==> !run[i].Reset? && !(run[i].Send? && run[i].urgent)
  }

  /** Nothing urgent was ever sent or is about to be, and nothing dropped. */
  ghost predicate AllPlain(s: State) {
    && (forall n :: n in s.held && s.held[n].Filling? ==> !s.held[n].urgent)
    && (forall i :: 0 <= i < |s.log.sent| ==> !s.log.sent[i].urgent) && s.log.dropped == []
  }

  lemma {:induction false} PlainStaysPlain(s: State, run: seq<Action>)
    requires Legal(s, run) && Plain(run) && AllPlain(s)
    ensures AllPlain(After(s, run))
    decreases |run|
  {
    if run != [] {
      var n := Step(s, run[0]).0;
      assert !run[0].Reset? && !(run[0].Send? && run[0].urgent);
      assert AllPlain(n);
      PlainStaysPlain(n, run[1..]);
    }
  }

  /** So without urgent messages and resets, messages leave in exactly the order in which they were linked. */
  lemma PlainRunsAreFifo(s: State, run: seq<Action>)
    requires Inv(s) && Legal(s, run) && Plain(run) && AllPlain(s)
    ensures var l := After(s, run).log; l.sent == l.received + l.queued
  {
    EveryRunKeepsInv(s, run);
    PlainStaysPlain(s, run);
    PlainIsFifo(After(s, run).log);
  }

  /** No node is ever lost or duplicated; in particular the 16-bit counter cannot overflow while one is in hand. */
  lemma NodesAreConserved(s: State)
    requires Partitioned(s)
    ensures |s.queue| + |s.free| + |s.held| == s.max
  {
    DistinctSize(s.queue);
    DistinctSize(s.free);
    NodesCover(s);
    SizesAdd(Elements(s.queue), Elements(s.free), s.held.Keys);
  }

  lemma NodesCover(s: State)
    requires Partitioned(s)
    ensures Elements(s.queue) + Elements(s.free) + s.held.Keys == Upto(s.max)
    ensures Elements(s.queue) !! Elements(s.free) && Elements(s.queue) !! s.held.Keys && Elements(s.free) !! s.held.Keys
  {
    hide Distinct;
  }

  lemma SizesAdd(a: set<Node>, b: set<Node>, c: set<Node>)
    requires a !! b && a !! c && b !! c
    ensures |a + b + c| == |a| + |b| + |c|
  {
    assert |a + b| == |a| + |b|;
  }

  function Last(q: seq<Node>): int { if q == [] then NULL else q[|q| - 1] }

  predicate Cleared(p: Phase) {
    p.Filling? && !p.urgent && p.copied >= 0
  }

  /** The pointers in the pool say what the two lists say. */
  ghost predicate Coupled(s: State, next: seq<int>, body: seq<seq<Byte>>, head: int, tail: int, free: int) {
    && body == s.body
    && Chain(next, s.queue, head) && tail == Last(s.queue)
    && Chain(next, s.free, free)
    && forall n :: n in s.held && Cleared(s.held[n]) ==> n < |next| && next[n] == NULL
  }

  class Queue {
    const max: nat
    const msgSize: nat
    const order: Order
    const next: array<int>
    const body: array<seq<Byte>>
    var entry: nat
    var head: int
    var tail: int
    var free: int
    var receivers: seq<Tid>
    var senders: seq<Tid>
    ghost var model: State

    ghost predicate Valid()
      reads this, next, body
    {
      && Partitioned(model)
      && model.max == max <= ENTRY_MAX && model.msgSize == msgSize && model.order == order
      && next.Length == max && body.Length == max
      && Coupled(model, next[..], body[..], head, tail, free)
      && entry == |model.queue|
      && receivers == model.receivers.waiting && senders == model.senders.waiting
    }

    /** `rt_mq_init`: the pool is pushed on the free list node by node. */
    constructor (max: nat, msgSize: nat, order: Order)
      requires max <= ENTRY_MAX
      ensures Valid() && fresh(next) && fresh(body)
      ensures model == Empty(max, msgSize, order, body[..])
    {
      this.max, this.msgSize, this.order := max, msgSize, order;
      next := new int[max](_ => NULL);
      body := new seq<Byte>[max](_ => seq(msgSize, _ => 0));
      entry, head, tail, free := 0, NULL, NULL, NULL;
      receivers, senders := [], [];
      new;
      ghost var nodes: seq<Node> := [];
      for temp := 0 to max
        invariant this.max == max && this.msgSize == msgSize && this.order == order && next.Length == max
        invariant entry == 0 && head == NULL && tail == NULL && receivers == [] && senders == []
        invariant |nodes| == temp && forall i :: 0 <= i < temp ==> nodes[i] == temp - 1 - i
        invariant Chain(next[..], nodes, free)
        modifies next, `free
      {
        ChainPush(next[..], nodes, free, temp);
        next[temp] := free;
        free := temp;
        nodes := [temp] + nodes;
      }
      model := Empty(max, msgSize, order, body[..]);
      assert nodes == model.free;
      EmptyIsPartitioned(max, msgSize, order, body[..]);
    }

    /** The first critical section of `rt_mq_send_wait` and of `rt_mq_urgent`. */
    method Send(t: Tid, bytes: seq<Byte>, urgent: bool, timeout: int, prio: Priorities) returns (r: Outcome)
      requires Valid() && Enabled(model, Action.Send(t, bytes, urgent, timeout, prio))
      modifies this
      ensures Valid() && (model, r) == old(Step(model, Action.Send(t, bytes, urgent, timeout, prio)))
    {
      if |bytes| > msgSize {
        return Refused;
      }
      ghost var a := Action.Send(t, bytes, urgent, timeout, prio);
      StepKeepsPartition(model, a);
      if free == NULL {
        if urgent || timeout == 0 {
          r := Full;
        } else {
          senders := Enqueue(senders, t, prio, order);
          r := Suspended;
        }
      } else {
        ChainPop(next[..], model.free, free);
        r := Working(free);
        free := next[free];
      }
      model := Step(model, a).0;
    }

    /** One unlocked store: clearing the link first, then one payload byte at a time. */
    method CopyIn(n: Node, ghost urgent: bool, bytes: seq<Byte>, copied: int)
      requires Valid() && Enabled(model, Action.CopyIn(n))
      requires model.held[n] == Filling(bytes, urgent, copied)
      modifies this, next, body
      ensures Valid() && model == old(Step(model, Action.CopyIn(n)).0)
    {
      StepKeepsPartition(model, Action.CopyIn(n));
      if copied < 0 {
        ChainFrame(next[..], model.queue, head, n, NULL);
        ChainFrame(next[..], model.free, free, n, NULL);
        next[n] := NULL;
      } else {
        body[n] := body[n][copied := bytes[copied]];
      }
      model := Step(model, Action.CopyIn(n)).0;
    }

    /** Linking at the front, with the head and tail pointers kept in step. */
    method LinkFirst(n: Node)
      requires next.Length == model.max && Partitioned(model) && Coupled(model, next[..], body[..], head, tail, free)
      requires Enabled(model, Action.Link(n)) && model.held[n].urgent
      modifies next, `head, `tail
      ensures Coupled(Step(model, Action.Link(n)).0, next[..], body[..], head, tail, free)
    {
      ChainPush(next[..], model.queue, head, n);
      ChainFrame(next[..], model.free, free, n, head);
      next[n] := head;
      head := n;
      if tail == NULL {
        tail := n;
      }
      hide Chain, Partitioned;
      LinkCoupled(model, n, old(next[..]), next[..], head, tail, free);
    }

    /** Linking at the back. */
    method LinkLast(n: Node)
      requires next.Length == model.max && Partitioned(model) && Coupled(model, next[..], body[..], head, tail, free)
      requires Enabled(model, Action.Link(n)) && !model.held[n].urgent && model.held[n].copied >= 0
      modifies next, `head, `tail
      ensures Coupled(Step(model, Action.Link(n)).0, next[..], body[..], head, tail, free)
    {
      if tail != NULL {
        ChainAppend(next[..], model.queue, head, n);
        ChainFrame(next[..], model.free, free, tail, n);
        next[tail] := n;
      }
      tail := n;
      if head == NULL {
        head := n;
      }
      LinkCoupled(model, n, old(next[..]), next[..], head, tail, free);
    }

    /** The second critical section of a send; the counter's overflow branch cannot be taken. */
    method Link(n: Node, urgent: bool) returns (r: Outcome)
      requires Valid() && Enabled(model, Action.Link(n)) && model.held[n].urgent == urgent
      modifies this, next
      ensures Valid() && (model, r) == old(Step(model, Action.Link(n)))
    {
      hide Partitioned, Coupled;
      StepKeepsPartition(model, Action.Link(n));
      NodesAreConserved(model);
      if urgent {
        LinkFirst(n);
      } else {
        LinkLast(n);
      }
      if entry < ENTRY_MAX {
        entry := entry + 1;
      } else {
        assert false;
      }
      if receivers != [] {
        receivers := receivers[1..];
      }
      model := Step(model, Action.Link(n)).0;
      r := Linked;
    }

    /** The first critical section of `rt_mq_recv`. */
    method Receive(t: Tid, size: nat, timeout: int, prio: Priorities) returns (r: Outcome)
      requires Valid() && Enabled(model, Action.Receive(t, size, timeout, prio))
      modifies this
      ensures Valid() && (model, r) == old(Step(model, Action.Receive(t, size, timeout, prio)))
    {
      ghost var a := Action.Receive(t, size, timeout, prio);
      StepKeepsPartition(model, a);
      if entry == 0 {
        if timeout == 0 {
          r := TimedOut;
        } else {
          receivers := Enqueue(receivers, t, prio, order);
          r := Suspended;
        }
      } else {
        ChainPop(next[..], model.queue, head);
        var msg := head;
        head := next[msg];
        if tail == msg {
          tail := NULL;
        }
        if entry > 0 {
          entry := entry - 1;
        }
        r := Working(msg);
      }
      model := Step(model, a).0;
    }

    /** One unlocked load of a payload byte. */
    method CopyOut(n: Node, k: nat) returns (b: Byte)
      requires Valid() && Enabled(model, Action.CopyOut(n)) && k == |model.held[n].buffer|
      modifies this
      ensures Valid() && model == old(Step(model, Action.CopyOut(n)).0)
      ensures model.held[n].buffer == old(model.held[n].buffer) + [b]
    {
      StepKeepsPartition(model, Action.CopyOut(n));
      b := body[n][k];
      model := Step(model, Action.CopyOut(n)).0;
    }

    /** The second critical section of `rt_mq_recv`. */
    method Release(n: Node)
      requires Valid() && Enabled(model, Action.Release(n))
      modifies this, next
      ensures Valid() && model == old(Step(model, Action.Release(n)).0)
    {
      StepKeepsPartition(model, Action.Release(n));
      ChainPush(next[..], model.free, free, n);
      ChainFrame(next[..], model.queue, head, n, free);
      next[n] := free;
      free := n;
      if senders != [] {
        senders := senders[1..];
      }
      model := Step(model, Action.Release(n)).0;
    }

    method Expire(t: Tid)
      requires Valid() && Enabled(model, Action.Expire(t))
      modifies this
      ensures Valid() && model == old(Step(model, Action.Expire(t)).0)
    {
      StepKeepsPartition(model, Action.Expire(t));
      receivers := Without(receivers, t);
      senders := Without(senders, t);
      model := Step(model, Action.Expire(t)).0;
    }

    method Reset()
      requires Enabled(model, Action.Reset) && Valid()
      modifies this, next
      ensures Valid() && model == old(Step(model, Action.Reset).0)
    {
      hide Partitioned, HalfReset, Coupled, Chain, Reverse;
      StepKeepsPartition(model, Action.Reset);
      receivers, senders := [], [];
      ghost var i := 0;
      HalfResetStart(model, next[..], body[..], head, tail, free);
      while head != NULL
        invariant model == old(model) && next.Length == max
        invariant receivers == [] && senders == []
        invariant i <= |model.queue| && HalfReset(model, i, next[..], body[..], head, tail, free)
        decreases |model.queue| - i
      {
        var msg := head;
        ghost var was := next[..];
        HalfResetStep(model, i, was, body[..], head, tail, free);
        head := next[msg];
        if tail == msg {
          tail := NULL;
        }
        next[msg] := free;
        assert next[..] == was[msg := free];
        free := msg;
        i := i + 1;
      }
      HalfResetEnd(model, i, next[..], body[..], head, tail, free);
      entry := 0;
      model := Step(model, Action.Reset).0;
    }
  }

  /** The reset loop after `i` nodes have moved from the queue to the free list. */
  ghost predicate HalfReset(s: State, i: nat, next: seq<int>, body: seq<seq<Byte>>, head: int, tail: int, free: int) {
    && i <= |s.queue| && |next| == s.max && body == s.body
    && Chain(next, s.queue[i..], head) && tail == Last(s.queue[i..])
    && Chain(next, Reverse(s.queue[..i]) + s.free, free)
    && forall n :: n in s.held && Cleared(s.held[n]) ==> n < |next| && next[n] == NULL
  }

  lemma HalfResetStart(s: State, next: seq<int>, body: seq<seq<Byte>>, head: int, tail: int, free: int)
    requires Coupled(s, next, body, head, tail, free) && |next| == s.max
    ensures HalfReset(s, 0, next, body, head, tail, free)
  {
    assert Reverse(s.queue[..0]) + s.free == s.free;
    assert s.queue[0..] == s.queue;
  }

  lemma HalfResetStep(s: State, i: nat, next: seq<int>, body: seq<seq<Byte>>, head: int, tail: int, free: int)
    requires Partitioned(s) && HalfReset(s, i, next, body, head, tail, free) && head != NULL
    ensures i < |s.queue| && 0 <= head < |next|
    ensures HalfReset(s, i + 1, next[head := free], body, next[head], if tail == head then NULL else tail, head)
  {
    ChainPop(next, s.queue[i..], head);
    ResetMoves(s, i);
    ChainFrame(next, s.queue[i + 1..], next[head], head, free);
    ChainPush(next, Reverse(s.queue[..i]) + s.free, free, head);
    assert head in s.queue;
  }

  lemma HalfResetEnd(s: State, i: nat, next: seq<int>, body: seq<seq<Byte>>, head: int, tail: int, free: int)
    requires HalfReset(s, i, next, body, head, tail, free) && head == NULL
    ensures Coupled(Step(s, Reset).0, next, body, head, tail, free)
  {
    assert s.queue[..i] == s.queue;
  }

  lemma LinkCoupled(s: State, n: Node, was: seq<int>, next: seq<int>, head: int, tail: int, free: int)
    requires Partitioned(s) && Enabled(s, Link(n)) && |was| == |next| == s.max
    requires forall x :: x in s.held && Cleared(s.held[x]) ==> x < |was| && was[x] == NULL
    requires var q := if s.held[n].urgent then [n] + s.queue else s.queue + [n];
             Chain(next, q, head) && tail == Last(q)
    requires Chain(next, s.free, free)
    requires forall x :: 0 <= x < |next| && x != n && x !in s.queue ==> next[x] == was[x]
    ensures Coupled(Step(s, Link(n)).0, next, s.body, head, tail, free)
  {
  }

  lemma ResetMoves(s: State, i: nat)
    requires Partitioned(s) && i < |s.queue|
    ensures s.queue[i] !in s.queue[i + 1..] && s.queue[i] !in Reverse(s.queue[..i]) + s.free
    ensures s.queue[i..][1..] == s.queue[i + 1..]
    ensures [s.queue[i]] + (Reverse(s.queue[..i]) + s.free) == Reverse(s.queue[..i + 1]) + s.free
  {
    ReverseElements(s.queue[..i]);
    assert s.queue[i] in s.queue;
    assert [s.queue[i]] + Reverse(s.queue[..i]) == Reverse(s.queue[..i + 1]);
  }
}
