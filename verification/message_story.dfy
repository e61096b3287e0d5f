/**
 The message queue seen by its callers: how each call is answered, and what
 becomes of the bytes of a send. The story of a run is told from the calls and
 their answers alone, without a look into the queue.
 */
module MessageStory {
  import opened Arithmetic
  import opened Common
  import opened DeliveryOrder
  import opened MessageQueue
  import opened Sequences
  import opened WaitQueue

  /** When a send is answered how, and who waits afterwards. */
  lemma SendAnswers(s: State, a: Action)
    requires a.Send? && Enabled(s, a)
    ensures var (u, r) := Step(s, a);
            && (r == Refused <==> |a.bytes| > s.msgSize) && (r == Refused ==> u == s)
            && (r.Working? <==> |a.bytes| <= s.msgSize && s.free != [])
            && (r == Full <==> |a.bytes| <= s.msgSize && s.free == [] && (a.urgent || a.timeout == 0))
            && (r == Suspended <==> |a.bytes| <= s.msgSize && s.free == [] && !a.urgent && a.timeout != 0)
            && (r.Working? ==> s.free == [r.node] + u.free)
            && (r == Suspended ==> Joins(s.senders.waiting, u.senders.waiting, a.caller, a.prio, s.order))
            && (r != Suspended ==> u.senders.waiting == s.senders.waiting)
            && (r != Refused ==> u.senders.pending == s.senders.pending - {a.caller})
            && u.receivers == s.receivers && u.queue == s.queue && u.log == s.log && u.body == s.body
  {
    hide Joins, Insert;
    InsertJoins(s.senders.waiting, a.caller, a.prio, s.order);
  }

  lemma ReceiveAnswers(s: State, a: Action)
    requires a.Receive? && Enabled(s, a)
    ensures var (u, r) := Step(s, a);
            && (r.Working? <==> s.queue != [])
            && (r == TimedOut <==> s.queue == [] && a.timeout == 0)
            && (r == Suspended <==> s.queue == [] && a.timeout != 0)
            && (r.Working? ==> s.queue == [r.node] + u.queue)
            && (r == Suspended ==> Joins(s.receivers.waiting, u.receivers.waiting, a.caller, a.prio, s.order))
            && (r != Suspended ==> u.receivers.waiting == s.receivers.waiting)
            && u.receivers.pending == s.receivers.pending - {a.caller}
            && u.senders == s.senders && u.free == s.free && u.body == s.body
  {
    hide Joins, Insert;
    InsertJoins(s.receivers.waiting, a.caller, a.prio, s.order);
  }

  /** Linking and releasing resume one waiter on the other side; expiry and reset take waiters off. */
  lemma OtherAnswers(s: State, a: Action)
    requires !a.Send? && !a.Receive? && Enabled(s, a)
    ensures var u := Step(s, a).0;
            && (if a.Link? then FirstIsResumed(s.receivers, u.receivers) else u.receivers.pending == s.receivers.pending)
            && (if a.Release? then FirstIsResumed(s.senders, u.senders) else u.senders.pending == s.senders.pending)
            && (a.CopyIn? || a.CopyOut? ==> u.receivers == s.receivers && u.senders == s.senders)
            && (a.Link? ==> u.senders == s.senders) && (a.Release? ==> u.receivers == s.receivers)
            && (a.Expire? ==>
                 && Leaves(s.receivers.waiting, u.receivers.waiting, a.thread)
                 && Leaves(s.senders.waiting, u.senders.waiting, a.thread))
            && (a.Reset? ==> u.queue == [] && u.receivers.waiting == [] && u.senders.waiting == [])
  {
    hide FirstIsResumed, Leaves, Without;
    WakeResumes(s.receivers);
    WakeResumes(s.senders);
    if a.Expire? {
      WithoutLeaves(s.receivers.waiting, a.thread);
      WithoutLeaves(s.senders.waiting, a.thread);
    }
  }

  /** What the call that holds a node came for, as it was called. */
  datatype Call = Sending(bytes: seq<Byte>, urgent: bool) | Receiving(size: nat, turn: nat)

  /**
   What an observer of the calls and their answers has written down: the calls
   that hold a node, what was linked, and how many receivers were given a node.
   */
  datatype Story = Story(calls: map<Node, Call>, linked: seq<(seq<Byte>, bool)>, turns: nat)

  function Told(y: Story, a: Action, r: Outcome): Story {
    match a
    case Send(_, bytes, urgent, _, _) =>
      if r.Working? then y.(calls := y.calls[r.node := Sending(bytes, urgent)]) else y
    case Receive(_, size, _, _) =>
      if r.Working? then y.(calls := y.calls[r.node := Receiving(size, y.turns)], turns := y.turns + 1) else y
    case Link(n) =>
      if n in y.calls && y.calls[n].Sending? then
        y.(calls := y.calls - {n}, linked := y.linked + [(y.calls[n].bytes, y.calls[n].urgent)])
      else y
    case Release(n) => y.(calls := y.calls - {n})
    case _ => y
  }

  ghost function ToldAfter(y: Story, s: State, run: seq<Action>): Story
    requires Legal(s, run)
    decreases |run|
  {
    if run == [] then y else ToldAfter(Told(y, run[0], Step(s, run[0]).1), Step(s, run[0]).0, run[1..])
  }

  /** A held node does what its caller asked for. */
  ghost predicate AsAsked(p: Phase, c: Call, s: State) {
    match c
    case Sending(bytes, urgent) => p.Filling? && p.bytes == bytes && p.urgent == urgent
    case Receiving(size, turn) =>
      p.Draining? && p.want == Min(size, s.msgSize) && turn < |s.log.received| && p.msg == s.log.received[turn]
  }

  /** The story and the queue agree. */
  ghost predicate Agrees(s: State, y: Story) {
    CallsAgree(s, y) && LogAgrees(s, y)
  }

  ghost predicate CallsAgree(s: State, y: Story) {
    && (forall n :: n in s.held <==> n in y.calls)
    && (forall n :: n in s.held ==> AsAsked(s.held[n], y.calls[n], s))
  }

  ghost predicate LogAgrees(s: State, y: Story) {
    && |s.log.received| == y.turns && |s.log.sent| == |y.linked|
    && forall i :: 0 <= i < |y.linked| ==> (s.log.sent[i].body, s.log.sent[i].urgent) == y.linked[i]
  }

  /** The log only grows, and an answer says how. */
  lemma StepGrowsLog(s: State, a: Action, y: Story)
    requires LogAgrees(s, y) && Enabled(s, a) && (a.Link? ==> a.node in y.calls && AsAsked(s.held[a.node], y.calls[a.node], s))
    ensures var (u, r) := Step(s, a); LogAgrees(u, Told(y, a, r)) && s.log.received <= u.log.received && u.msgSize == s.msgSize
  {
    hide AsAsked;
    if a.Link? {
      AskedToSend(s.held[a.node], y.calls[a.node], s);
    }
  }

  lemma AskedToSend(p: Phase, c: Call, s: State)
    requires AsAsked(p, c, s) && p.Filling?
    ensures c == Sending(p.bytes, p.urgent)
  {
  }

  /** What a step does to one held node. */
  lemma StepKeepsCall(s: State, a: Action, y: Story, n: Node)
    requires CallsAgree(s, y) && LogAgrees(s, y) && Enabled(s, a) && s.log.received <= Step(s, a).0.log.received
    ensures var (u, r) := Step(s, a);
            var z := Told(y, a, r);
            && (n in u.held <==> n in z.calls) && (n in u.held ==> AsAsked(u.held[n], z.calls[n], u))
  {
    var (u, r) := Step(s, a);
    if n in s.held {
      assert AsAsked(s.held[n], y.calls[n], s);
    }
  }

  lemma StepAgrees(s: State, a: Action, y: Story)
    requires Agrees(s, y) && Enabled(s, a)
    ensures var (u, r) := Step(s, a); Agrees(u, Told(y, a, r))
  {
    hide Step, Told, LogAgrees, AsAsked;
    var (u, r) := Step(s, a);
    StepGrowsLog(s, a, y);
    forall n ensures var z := Told(y, a, r);
                     (n in u.held <==> n in z.calls) && (n in u.held ==> AsAsked(u.held[n], z.calls[n], u)) {
      StepKeepsCall(s, a, y, n);
    }
  }

  lemma {:induction false} EveryRunAgrees(s: State, run: seq<Action>, y: Story)
    requires Agrees(s, y) && Legal(s, run)
    ensures Agrees(After(s, run), ToldAfter(y, s, run))
    decreases |run|
  {
    hide Agrees, Step, Told;
    if run != [] {
      StepAgrees(s, run[0], y);
      EveryRunAgrees(Step(s, run[0]).0, run[1..], Told(y, run[0], Step(s, run[0]).1));
    }
  }

  lemma SentOnce(l: Log<seq<Byte>>, m: Message)
    requires Conserved(l) && m in l.received
    ensures m.serial < |l.sent| && l.sent[m.serial] == m
  {
    assert m in multiset(l.received);
    assert m in multiset(l.sent);
    var k :| 0 <= k < |l.sent| && l.sent[k] == m;
  }

  /**
   From one call to the other, in every run: a delivery hands over exactly as many
   bytes as its receiver asked for and a node holds; they are the bytes with which
   the call that linked the message was made; and the receiver whose turn it is
   gets the message whose turn it is.
   */
  lemma DeliveryCarriesTheSendersBytes(s: State, run: seq<Action>, y: Story, n: Node)
    requires Inv(s) && Agrees(s, y) && Legal(s, run) && Enabled(After(s, run), Release(n))
    ensures var e, z := After(s, run), ToldAfter(y, s, run);
            var d := Step(e, Release(n)).1;
            && n in z.calls && z.calls[n].Receiving? && d.Delivered?
            && |d.buffer| == Min(z.calls[n].size, e.msgSize)
            && z.calls[n].turn < |e.log.received| && d.msg == e.log.received[z.calls[n].turn]
            && d.msg.serial < |z.linked| && z.linked[d.msg.serial] == (d.msg.body, d.msg.urgent)
            && forall i :: 0 <= i < Min(|d.buffer|, |d.msg.body|) ==> d.buffer[i] == d.msg.body[i]
  {
    hide Inv, Agrees;
    EveryRunKeepsInv(s, run);
    EveryRunAgrees(s, run, y);
    DeliveryIs(After(s, run), ToldAfter(y, s, run), n);
  }

  lemma DeliveryIs(e: State, z: Story, n: Node)
    requires Inv(e) && Agrees(e, z) && Enabled(e, Release(n))
    ensures var d := Step(e, Release(n)).1;
            && n in z.calls && z.calls[n].Receiving? && d.Delivered?
            && |d.buffer| == Min(z.calls[n].size, e.msgSize)
            && z.calls[n].turn < |e.log.received| && d.msg == e.log.received[z.calls[n].turn]
            && d.msg.serial < |z.linked| && z.linked[d.msg.serial] == (d.msg.body, d.msg.urgent)
            && forall i :: 0 <= i < Min(|d.buffer|, |d.msg.body|) ==> d.buffer[i] == d.msg.body[i]
  {
    hide Partitioned, Awake, Ordered, Conserved;
    assert HoldIntact(e.held[n], e.body[n]);
    assert AsAsked(e.held[n], z.calls[n], e);
    SentOnce(e.log, e.held[n].msg);
  }

  /** Nothing has been told of an empty queue. */
  lemma EmptyAgrees(max: nat, msgSize: nat, order: Order, body: seq<seq<Byte>>)
    ensures Agrees(Empty(max, msgSize, order, body), Story(map[], [], 0))
  {
  }

  /** Only a reset drops messages, and it drops what is queued. */
  lemma OnlyResetDrops(s: State, a: Action)
    requires Enabled(s, a)
    ensures Step(s, a).0.log.dropped == if a.Reset? then s.log.dropped + s.log.queued else s.log.dropped
  {
  }
}
