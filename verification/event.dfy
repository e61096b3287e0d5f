/**
 Event flags: a word of bits, and threads waiting for all or for any of the bits
 they name. A send serves the waiters in list order.
 */
module Event {
  import opened Common
  import opened Sequences
  import opened WaitQueue
  import opened Bits

  /** `event_set` and `event_info` of a thread; `all` is `RT_EVENT_FLAG_AND`, which wins over `RT_EVENT_FLAG_OR`. */
  datatype Request = Request(bits: bv32, all: bool, clear: bool)

  predicate Satisfied(r: Request, flags: bv32) {
    if r.all then And(r.bits, flags) == r.bits else And(r.bits, flags) != 0
  }

  /** What an immediate receive leaves in the event object. */
  function Remaining(r: Request, flags: bv32): bv32 {
    if r.clear then Drop(flags, r.bits) else flags
  }

  /** `resumed` holds the original requests of threads that were served but have not returned yet. */
  datatype State = State(flags: bv32, waiting: seq<Tid>, info: map<Tid, Request>, resumed: map<Tid, Request>)

  datatype Outcome = Got(bits: bv32) | Error | TimedOut | Waits

  /** The outcome an immediate receive reports. */
  function Received(r: Request, flags: bv32): bv32 {
    And(flags, r.bits)
  }

  /** Offers the flags to a waiter as if it came to receive just now. */
  function Offer(s: State, t: Tid): State {
    if t in s.info && Satisfied(s.info[t], s.flags) then
      var r := s.info[t];
      State(Remaining(r, s.flags), Without(s.waiting, t), s.info[t := r.(bits := Received(r, s.flags))], s.resumed[t := r])
    else s
  }

  /** The left fold of `Offer` over a list of threads. */
  function Fold(s: State, q: seq<Tid>): State
    decreases |q|
  {
    if q == [] then s else Fold(Offer(s, q[0]), q[1..])
  }

  function Sent(s: State, bits: bv32): State {
    if bits == 0 then s else Fold(s.(flags := Or(s.flags, bits)), s.waiting)
  }

  function Receive(s: State, t: Tid, r: Request, wait: bool, prio: Priorities, order: Order): (State, Outcome) {
    if r.bits == 0 then (s, Error)
    else if Satisfied(r, s.flags) then
      (s.(flags := Remaining(r, s.flags), info := s.info[t := r.(bits := Received(r, s.flags))]), Got(Received(r, s.flags)))
    else if !wait then (s, TimedOut)
    else (s.(info := s.info[t := r], waiting := Insert(s.waiting, t, prio, order)), Waits)
  }

  function Expire(s: State, t: Tid): State {
    s.(waiting := Without(s.waiting, t))
  }

  function Reset(s: State): State {
    s.(waiting := [], flags := 0)
  }

  /** A served thread goes on and reports its bits. */
  function Return(s: State, t: Tid): (State, Outcome)
    requires t in s.info
  {
    (s.(resumed := s.resumed - {t}), Got(s.info[t].bits))
  }

  /* Less satisfies less */

  /** A request that the whole does not satisfy, no part of it satisfies. */
  lemma LessSatisfiesLess(r: Request, less: bv32, flags: bv32)
    requires Within(less, flags) && !Satisfied(r, flags)
    ensures !Satisfied(r, less)
  {
    hide And;
    if r.all {
      if Within(r.bits, less) { WithinTrans(r.bits, less, flags); }
    } else {
      NoneOfLess(r.bits, less, flags);
    }
  }

  lemma RemainingWithin(r: Request, flags: bv32)
    ensures Within(Remaining(r, flags), flags)
  {
    hide And, Drop;
    DropWithin(flags, r.bits);
  }

  /** Clearing what one request gets leaves nothing of it to another. */
  lemma ClearedIsGone(r: Request, flags: bv32, later: bv32)
    requires r.clear && Within(later, Remaining(r, flags))
    ensures And(Received(r, flags), later) == 0
  {
    hide And, Drop;
    DroppedIsGone(flags, r.bits);
    NoneOfLess(Received(r, flags), later, Remaining(r, flags));
  }

  /* Serving the waiters */

  ghost predicate Unserved(s: State, t: Tid) {
    t in s.info && !Satisfied(s.info[t], s.flags)
  }

  lemma OfferPasses(s: State, t: Tid, x: Tid)
    requires Unserved(s, x) && x != t
    ensures Unserved(Offer(s, t), x)
  {
    if t in s.info && Satisfied(s.info[t], s.flags) {
      RemainingWithin(s.info[t], s.flags);
      LessSatisfiesLess(s.info[x], Remaining(s.info[t], s.flags), s.flags);
    }
  }

  lemma OfferSelf(s: State, t: Tid)
    requires Distinct(s.waiting) && t in s.info
    ensures t in Offer(s, t).waiting ==> Unserved(Offer(s, t), t)
    ensures Distinct(Offer(s, t).waiting)
  {
    hide Satisfied, Remaining, Received;
    WithoutKeepsDistinct(s.waiting, t);
  }

  /** Whoever has been passed over stays unsatisfied, for the flags only shrink. */
  lemma {:induction false} FoldServesAll(s: State, q: seq<Tid>)
    requires Distinct(s.waiting) && Distinct(q)
    requires forall t :: t in s.waiting ==> t in q || Unserved(s, t)
    requires forall t :: t in q ==> t in s.info
    ensures forall t :: t in Fold(s, q).waiting ==> Unserved(Fold(s, q), t) && t in s.waiting
    ensures Distinct(Fold(s, q).waiting)
    decreases |q|
  {
    hide Satisfied, Remaining, Received, Unserved, Distinct;
    if q != [] {
      HeadTail(q);
      var u := Offer(s, q[0]);
      OfferSelf(s, q[0]);
      forall t | t in u.waiting ensures t in q[1..] || Unserved(u, t) {
        if t !in q { OfferPasses(s, q[0], t); }
      }
      FoldServesAll(u, q[1..]);
    }
  }

  /* The invariant */

  /** The bits a served thread was given answer its request. */
  ghost predicate Answers(r: Request, bits: bv32) {
    Within(bits, r.bits) && bits != 0 && (r.all ==> bits == r.bits)
  }

  lemma ServedIsAnswered(r: Request, flags: bv32)
    requires Satisfied(r, flags) && r.bits != 0
    ensures Answers(r, Received(r, flags))
  {
    hide And;
    AndWithin(flags, r.bits);
    AndCommutes(flags, r.bits);
  }

  /** No suspended thread could go on; whoever was resumed has its answer in `event_set`. */
  ghost predicate Inv(s: State) {
    && Distinct(s.waiting)
    && (forall t :: t in s.waiting ==> Unserved(s, t) && t !in s.resumed && s.info[t].bits != 0)
    && (forall t :: t in s.resumed ==> t in s.info && Answers(s.resumed[t], s.info[t].bits))
  }

  /** The part of the invariant that every single offer keeps. */
  ghost predicate Sane(s: State) {
    && (forall t :: t in s.waiting ==> t in s.info && t !in s.resumed && s.info[t].bits != 0)
    && (forall t :: t in s.resumed ==> t in s.info && Answers(s.resumed[t], s.info[t].bits))
  }

  lemma OfferIsSane(s: State, t: Tid)
    requires Sane(s) && Distinct(s.waiting) && t in s.waiting
    ensures Sane(Offer(s, t)) && forall x :: x in s.waiting && x != t ==> x in Offer(s, t).waiting
  {
    hide Satisfied, Remaining, Received, Answers, Distinct;
    if Satisfied(s.info[t], s.flags) {
      ServedIsAnswered(s.info[t], s.flags);
      WithoutKeepsDistinct(s.waiting, t);
    }
  }

  lemma {:induction false} FoldIsSane(s: State, q: seq<Tid>)
    requires Sane(s) && Distinct(s.waiting) && Distinct(q) && forall t :: t in q ==> t in s.waiting
    ensures Sane(Fold(s, q))
    decreases |q|
  {
    hide Sane, Distinct, Offer;
    if q != [] {
      HeadTail(q);
      InfoOf(s, q[0]);
      OfferSelf(s, q[0]);
      OfferIsSane(s, q[0]);
      FoldIsSane(Offer(s, q[0]), q[1..]);
    }
  }

  lemma InfoOf(s: State, t: Tid)
    requires Sane(s) && t in s.waiting
    ensures t in s.info
  {
  }

  lemma SendKeepsInv(s: State, bits: bv32)
    requires Inv(s)
    ensures Inv(Sent(s, bits))
  {
    hide Satisfied, Remaining, Received, Answers, Distinct, Or, Fold;
    var u := s.(flags := Or(s.flags, bits));
    if bits != 0 {
      FoldServesAll(u, s.waiting);
      FoldIsSane(u, s.waiting);
    }
  }

  lemma ReceiveKeepsInv(s: State, t: Tid, r: Request, wait: bool, prio: Priorities, order: Order)
    requires Inv(s) && t !in s.waiting && t !in s.resumed
    ensures Inv(Receive(s, t, r, wait, prio, order).0)
    ensures Receive(s, t, r, wait, prio, order).1.Got? ==> Answers(r, Receive(s, t, r, wait, prio, order).1.bits)
  {
    hide Remaining, Received, Answers, Distinct, Satisfied;
    var u := Receive(s, t, r, wait, prio, order).0;
    InsertKeepsDistinct(s.waiting, t, prio, order);
    if r.bits != 0 && Satisfied(r, s.flags) {
      ServedIsAnswered(r, s.flags);
      RemainingWithin(r, s.flags);
      forall x | x in u.waiting ensures Unserved(u, x) {
        LessSatisfiesLess(s.info[x], u.flags, s.flags);
      }
    }
  }

  datatype Action =
    | Send(bits: bv32)
    | Recv(t: Tid, r: Request, wait: bool, prio: Priorities, order: Order)
    | Timeout(t: Tid)
    | Resetting
    | Returning(t: Tid)

  predicate Enabled(s: State, a: Action) {
    match a
    case Send(_) => true
    case Recv(t, _, _, _, _) => t !in s.waiting && t !in s.resumed
    case Timeout(t) => t in s.waiting
    case Resetting => true
    case Returning(t) => t in s.resumed && t in s.info
  }

  function Step(s: State, a: Action): State
    requires Enabled(s, a)
  {
    match a
    case Send(bits) => Sent(s, bits)
    case Recv(t, r, wait, prio, order) => Receive(s, t, r, wait, prio, order).0
    case Timeout(t) => Expire(s, t)
    case Resetting => Reset(s)
    case Returning(t) => Return(s, t).0
  }

  lemma StepKeepsInv(s: State, a: Action)
    requires Inv(s) && Enabled(s, a)
    ensures Inv(Step(s, a))
  {
    hide Sent, Receive, Distinct, Satisfied;
    match a
    case Send(bits) => SendKeepsInv(s, bits);
    case Recv(t, r, wait, prio, order) => ReceiveKeepsInv(s, t, r, wait, prio, order);
    case Timeout(t) => WithoutKeepsDistinct(s.waiting, t);
    case Resetting => assert Distinct<Tid>([]) by { EmptyDistinct(); }
    case Returning(t) =>
  }

  lemma EmptyDistinct()
    ensures Distinct<Tid>([])
  {
  }

  ghost predicate Possible(s: State, run: seq<Action>)
    decreases |run|
  {
    run == [] || (Enabled(s, run[0]) && Possible(Step(s, run[0]), run[1..]))
  }

  ghost function Run(s: State, run: seq<Action>): State
    requires Possible(s, run)
    decreases |run|
  {
    if run == [] then s else Run(Step(s, run[0]), run[1..])
  }

  /** In no reachable state is a suspended thread's condition met. */
  lemma {:induction false} EveryRunKeepsInv(s: State, run: seq<Action>)
    requires Inv(s) && Possible(s, run)
    ensures Inv(Run(s, run))
    decreases |run|
  {
    hide Inv;
    if run != [] {
      StepKeepsInv(s, run[0]);
      EveryRunKeepsInv(Step(s, run[0]), run[1..]);
    }
  }

  /* One send, several receivers */

  lemma {:induction false} FoldFrame(s: State, q: seq<Tid>, t: Tid)
    requires t !in q
    ensures var u := Fold(s, q);
            && (t in u.info <==> t in s.info) && (t in s.info ==> u.info[t] == s.info[t])
            && (t in u.resumed <==> t in s.resumed)
    decreases |q|
  {
    hide Satisfied, Remaining, Received;
    if q != [] {
      HeadTail(q);
      FoldFrame(Offer(s, q[0]), q[1..], t);
    }
  }

  /** The thread is served by this fold. */
  ghost predicate ServedBy(s: State, q: seq<Tid>, t: Tid) {
    t in q && t in s.info && t !in s.resumed && t in Fold(s, q).resumed && t in Fold(s, q).info
  }

  lemma ServedFirst(s: State, q: seq<Tid>)
    requires Distinct(q) && q != [] && ServedBy(s, q, q[0])
    ensures Satisfied(s.info[q[0]], s.flags) && Fold(s, q).info[q[0]].bits == Received(s.info[q[0]], s.flags)
    ensures Offer(s, q[0]).flags == Remaining(s.info[q[0]], s.flags)
  {
    hide Satisfied, Remaining, Received;
    HeadTail(q);
    FoldFrame(Offer(s, q[0]), q[1..], q[0]);
  }

  lemma ServedLater(s: State, q: seq<Tid>, t: Tid)
    requires Distinct(q) && q != [] && ServedBy(s, q, t) && t != q[0]
    ensures ServedBy(Offer(s, q[0]), q[1..], t) && Offer(s, q[0]).info[t] == s.info[t]
  {
    hide Satisfied, Remaining, Received;
    HeadTail(q);
  }

  lemma OfferShrinks(s: State, t: Tid)
    ensures Within(Offer(s, t).flags, s.flags)
  {
    hide And, Remaining, Satisfied;
    if t in s.info && Satisfied(s.info[t], s.flags) {
      RemainingWithin(s.info[t], s.flags);
    } else {
      DropWithin(s.flags, 0);
    }
  }

  lemma {:induction false} ServedFromFlags(s: State, q: seq<Tid>, t: Tid)
    requires Distinct(q) && ServedBy(s, q, t)
    ensures Within(Fold(s, q).info[t].bits, s.flags)
    decreases |q|
  {
    hide And, Distinct, Within, Satisfied, Offer;
    if t == q[0] {
      ServedFirst(s, q);
      AndWithin(s.flags, s.info[t].bits);
    } else {
      ServedLater(s, q, t);
      TailDistinct(q);
      ServedFromFlags(Offer(s, q[0]), q[1..], t);
      OfferShrinks(s, q[0]);
      WithinTrans(Fold(s, q).info[t].bits, Offer(s, q[0]).flags, s.flags);
    }
  }

  lemma TailDistinct(q: seq<Tid>)
    requires Distinct(q) && q != []
    ensures Distinct(q[1..])
  {
    HeadTail(q);
  }

  /** Of the receivers of one send, what one of them clears none behind it is given. */
  lemma {:induction false} ClearedBitsGoToOne(s: State, q: seq<Tid>, i: nat, j: nat)
    requires Distinct(q) && i < j < |q| && ServedBy(s, q, q[i]) && ServedBy(s, q, q[j]) && s.info[q[i]].clear
    ensures And(Fold(s, q).info[q[i]].bits, Fold(s, q).info[q[j]].bits) == 0
    decreases i
  {
    hide And, Within, Satisfied, Offer, Remaining, Received;
    var u := Offer(s, q[0]);
    TailDistinct(q);
    ServedLater(s, q, q[j]);
    assert q[1..][j - 1] == q[j];
    if i == 0 {
      ServedFirst(s, q);
      ServedFromFlags(u, q[1..], q[j]);
      ClearedIsGone(s.info[q[0]], s.flags, Fold(s, q).info[q[j]].bits);
    } else {
      ServedLater(s, q, q[i]);
      assert q[1..][i - 1] == q[i];
      ClearedBitsGoToOne(u, q[1..], i - 1, j - 1);
    }
  }

  class EventObject {
    var flags: bv32
    var waiting: seq<Tid>
    var info: map<Tid, Request>
    ghost var resumed: map<Tid, Request>

    ghost function Abs(): State
      reads this
    {
      State(flags, waiting, info, resumed)
    }

    ghost predicate Valid()
      reads this
    {
      Inv(Abs())
    }

    constructor ()
      ensures Valid() && Abs() == State(0, [], map[], map[])
    {
      flags, waiting, info, resumed := 0, [], map[], map[];
    }

    /** `rt_event_send`: one walk along the list. */
    method SendBits(bits: bv32) returns (ok: bool)
      requires Valid()
      modifies this
      ensures Valid() && Abs() == Sent(old(Abs()), bits) && ok == (bits != 0)
    {
      hide Inv, Offer, Satisfied, Or;
      ok := bits != 0;
      if !ok {
        return;
      }
      SendKeepsInv(Abs(), bits);
      HaveInfo(Abs());
      var q, n := waiting, 0;
      flags := Or(flags, bits);
      ghost var start := Abs();
      while n < |q|
        invariant n <= |q| && Fold(Abs(), q[n..]) == Fold(start, q)
        invariant forall t :: t in q ==> t in info
      {
        assert q[n..][1..] == q[n + 1..];
        assert q[n] in q;
        Serve(q[n]);
        n := n + 1;
      }
    }

    /** One waiter: tested in `event_info` order, narrowed if any bit will do, cleared, resumed. */
    method Serve(t: Tid)
      requires t in info
      modifies this
      ensures Abs() == Offer(old(Abs()), t) && info.Keys == old(info.Keys)
    {
      hide And, Drop;
      var r := info[t];
      var ok := false;
      AndCommutes(r.bits, flags);
      DropWhatIsThere(flags, r.bits);
      if r.all {
        if And(r.bits, flags) == r.bits {
          ok := true;
        }
      } else if And(r.bits, flags) != 0 {
        info := info[t := r.(bits := And(r.bits, flags))];
        ok := true;
      }
      if ok {
        if r.clear {
          flags := Drop(flags, info[t].bits);
        }
        waiting := Without(waiting, t);
        resumed := resumed[t := r];
        assert info == old(info)[t := r.(bits := Received(r, old(flags)))];
      }
    }

    /** `rt_event_recv`, up to the point where it returns or the thread is suspended. */
    method ReceiveBits(t: Tid, r: Request, wait: bool, prio: Priorities, order: Order) returns (o: Outcome)
      requires Valid() && Enabled(Abs(), Recv(t, r, wait, prio, order))
      modifies this
      ensures Valid() && (Abs(), o) == Receive(old(Abs()), t, r, wait, prio, order)
    {
      hide Inv, And, Drop;
      ReceiveKeepsInv(Abs(), t, r, wait, prio, order);
      if r.bits == 0 {
        return Error;
      }
      var ok := false;
      AndCommutes(r.bits, flags);
      if r.all {
        ok := And(flags, r.bits) == r.bits;
      } else {
        ok := And(flags, r.bits) != 0;
      }
      if ok {
        o := Got(And(flags, r.bits));
        info := info[t := r.(bits := And(flags, r.bits))];
        if r.clear {
          flags := Drop(flags, r.bits);
        }
      } else if !wait {
        o := TimedOut;
      } else {
        info := info[t := r];
        waiting := Enqueue(waiting, t, prio, order);
        o := Waits;
      }
    }

    /** A resumed receiver returns with the bits kept for it. */
    method Resume(t: Tid) returns (bits: bv32)
      requires Valid() && Enabled(Abs(), Returning(t))
      modifies this
      ensures Valid() && (Abs(), Got(bits)) == Return(old(Abs()), t) && Answers(old(resumed)[t], bits)
    {
      StepKeepsInv(Abs(), Returning(t));
      bits := info[t].bits;
      resumed := resumed - {t};
    }

    /** `rt_event_control` with `RT_IPC_CMD_RESET` */
    method ResetEvent()
      requires Valid()
      modifies this
      ensures Valid() && Abs() == Reset(old(Abs()))
    {
      StepKeepsInv(Abs(), Resetting);
      waiting, flags := [], 0;
    }
  }

  lemma HaveInfo(s: State)
    requires Inv(s)
    ensures forall t :: t in s.waiting ==> t in s.info
  {
  }
}
