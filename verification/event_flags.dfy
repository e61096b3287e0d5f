/**
 Which flags the calls on an event leave set, bit by bit, and how each call is
 answered.
 */
module EventFlags {
  import opened Bits
  import opened Common
  import opened Event
  import opened Sequences
  import opened WaitQueue

  /** The request can go on with these flags. */
  predicate Met(r: Request, flags: bv32) {
    r.bits != 0 && if r.all then And(r.bits, flags) == r.bits else And(r.bits, flags) != 0
  }

  /** The flags outside the request are as they were; those of it are all gone if it clears, and as they were if not. */
  predicate TookOnly(r: Request, flags: bv32, left: bv32) {
    && And(left, Not(r.bits)) == And(flags, Not(r.bits))
    && if r.clear then And(left, r.bits) == 0 else left == flags
  }

  lemma RemainingIs(r: Request, flags: bv32)
    ensures TookOnly(r, flags, Remaining(r, flags)) && Received(r, flags) == And(flags, r.bits)
  {
    hide And, Drop, Not;
    DropIs(flags, r.bits);
  }

  /** How a receive is answered, and what it leaves behind. */
  lemma ReceiveAnswers(s: State, t: Tid, r: Request, wait: bool, prio: Priorities, order: Order)
    ensures var (u, o) := Receive(s, t, r, wait, prio, order);
            && (o == Error <==> r.bits == 0) && (o.Got? <==> Met(r, s.flags))
            && (o == TimedOut <==> r.bits != 0 && !Met(r, s.flags) && !wait)
            && (o == Waits <==> r.bits != 0 && !Met(r, s.flags) && wait)
            && (if o.Got? then o.bits == And(s.flags, r.bits) && TookOnly(r, s.flags, u.flags) else u.flags == s.flags)
            && (if o == Waits then Joins(s.waiting, u.waiting, t, prio, order) && u.info == s.info[t := r]
                else u.waiting == s.waiting)
            && u.resumed == s.resumed && (o == Error || o == TimedOut ==> u == s)
            && (o.Got? ==> u.info == s.info[t := r.(bits := o.bits)])
  {
    hide Joins, Insert, TookOnly, Remaining, Received, And;
    InsertJoins(s.waiting, t, prio, order);
    RemainingIs(r, s.flags);
  }

  /** A waiter whose turn has come is served as if it came to receive just then. */
  lemma OfferIsReceive(s: State, t: Tid, prio: Priorities, order: Order)
    requires t in s.info && s.info[t].bits != 0
    ensures var (u, o) := Receive(s, t, s.info[t], false, prio, order);
            if o.Got? then Offer(s, t) == u.(waiting := Without(s.waiting, t), resumed := s.resumed[t := s.info[t]])
            else Offer(s, t) == s
  {
  }

  /** The waiter was resumed by this send. */
  ghost predicate Served(s: State, bits: bv32, t: Tid) {
    t in s.waiting && t !in Sent(s, bits).waiting && t in s.info
  }

  lemma OfferKeeps(s: State, t: Tid, b: bv32)
    requires t in s.info && (s.info[t].clear && Satisfied(s.info[t], s.flags) ==> And(s.info[t].bits, b) == 0)
    ensures And(Offer(s, t).flags, b) == And(s.flags, b)
  {
    hide And, Drop;
    if s.info[t].clear && Satisfied(s.info[t], s.flags) {
      DropElsewhere(s.flags, s.info[t].bits, b);
    }
  }

  lemma {:induction false} FoldLeaves(s: State, q: seq<Tid>)
    requires Distinct(s.waiting)
    ensures forall t :: t in Fold(s, q).waiting ==> t in s.waiting
    ensures q != [] && q[0] in s.info && Satisfied(s.info[q[0]], s.flags) ==> q[0] !in Fold(s, q).waiting
    decreases |q|
  {
    hide Satisfied, Remaining, Received;
    if q != [] {
      WithoutKeepsDistinct(s.waiting, q[0]);
      FoldLeaves(Offer(s, q[0]), q[1..]);
    }
  }

  lemma {:induction false} FoldKeeps(s: State, q: seq<Tid>, b: bv32)
    requires Distinct(s.waiting) && Distinct(q) && forall t :: t in q ==> t in s.info
    requires forall t :: t in q && t !in Fold(s, q).waiting && s.info[t].clear ==> And(s.info[t].bits, b) == 0
    ensures And(Fold(s, q).flags, b) == And(s.flags, b)
    decreases |q|
  {
    hide Satisfied, Remaining, Received, Distinct, And;
    if q != [] {
      var u := Offer(s, q[0]);
      HeadTail(q);
      FoldLeaves(s, q);
      OfferKeeps(s, q[0], b);
      OfferSelf(s, q[0]);
      assert forall t :: t in q[1..] ==> t in u.info && u.info[t] == s.info[t];
      FoldKeeps(u, q[1..], b);
    }
  }

  lemma {:induction false} FoldShrinks(s: State, q: seq<Tid>)
    ensures Within(Fold(s, q).flags, s.flags)
    decreases |q|
  {
    hide Within, Offer, And;
    if q == [] {
      DropWithin(s.flags, 0);
    } else {
      OfferShrinks(s, q[0]);
      FoldShrinks(Offer(s, q[0]), q[1..]);
      WithinTrans(Fold(s, q).flags, Offer(s, q[0]).flags, s.flags);
    }
  }

  /** Whoever is served with clearing leaves none of its flags. */
  lemma {:induction false} FoldClears(s: State, q: seq<Tid>, t: Tid)
    requires Distinct(s.waiting) && Distinct(q) && (forall x :: x in q ==> x in s.info)
    requires t in q && t in s.waiting && t !in Fold(s, q).waiting && s.info[t].clear
    ensures And(Fold(s, q).flags, s.info[t].bits) == 0
    decreases |q|
  {
    hide Satisfied, Remaining, Received, Distinct, Within, And, Not;
    var u := Offer(s, q[0]);
    HeadTail(q);
    OfferSelf(s, q[0]);
    if t == q[0] && Satisfied(s.info[t], s.flags) {
      FoldShrinks(u, q[1..]);
      RemainingIs(s.info[t], s.flags);
      GoneStaysGone(Fold(s, q).flags, u.flags, s.info[t].bits);
    } else {
      if t == q[0] {
        StillWaits(u, q[1..], t);
      } else {
        WithoutOther(s.waiting, q[0], t);
      }
      FoldClears(u, q[1..], t);
    }
  }

  lemma WithoutOther(q: seq<Tid>, x: Tid, t: Tid)
    requires t in q && t != x
    ensures t in Without(q, x)
  {
  }

  lemma {:induction false} StillWaits(s: State, q: seq<Tid>, t: Tid)
    requires t in s.waiting && t !in q
    ensures t in Fold(s, q).waiting
    decreases |q|
  {
    hide Satisfied, Remaining, Received;
    if q != [] {
      StillWaits(Offer(s, q[0]), q[1..], t);
    }
  }

  /**
   A send, flag by flag: of any set of flags that no served clearing waiter had
   asked for, exactly those are set afterwards that were set or sent; of those a
   served clearing waiter had asked for, none; and nothing else is ever set.
   */
  lemma SendFlags(s: State, bits: bv32, b: bv32)
    requires Inv(s) && bits != 0
    ensures var left := Sent(s, bits).flags;
            && Within(left, Or(s.flags, bits))
            && ((forall t :: Served(s, bits, t) && s.info[t].clear ==> And(s.info[t].bits, b) == 0) ==>
                  And(left, b) == And(Or(s.flags, bits), b))
            && forall t :: Served(s, bits, t) && s.info[t].clear ==> And(left, s.info[t].bits) == 0
  {
    hide Satisfied, Distinct, Unserved, Answers, And, Or, Within, Fold;
    var u := s.(flags := Or(s.flags, bits));
    assert Sent(s, bits) == Fold(u, s.waiting);
    FoldShrinks(u, s.waiting);
    if forall t :: Served(s, bits, t) && s.info[t].clear ==> And(s.info[t].bits, b) == 0 {
      SendKeeps(s, bits, b);
    }
    forall t | Served(s, bits, t) && s.info[t].clear ensures And(Sent(s, bits).flags, s.info[t].bits) == 0 {
      HaveInfo(s);
      FoldClears(u, s.waiting, t);
    }
  }

  lemma SendKeeps(s: State, bits: bv32, b: bv32)
    requires Inv(s) && bits != 0 && forall t :: Served(s, bits, t) && s.info[t].clear ==> And(s.info[t].bits, b) == 0
    ensures And(Sent(s, bits).flags, b) == And(Or(s.flags, bits), b)
  {
    hide Satisfied, Distinct, Unserved, Answers, And, Or, Fold;
    var u := s.(flags := Or(s.flags, bits));
    HaveInfo(s);
    assert Sent(s, bits) == Fold(u, s.waiting);
    forall t | t in s.waiting && t !in Fold(u, s.waiting).waiting && s.info[t].clear ensures And(s.info[t].bits, b) == 0 {
      assert Served(s, bits, t);
    }
    FoldKeeps(u, s.waiting, b);
  }

  /** An empty send is refused; a timeout takes one waiter off; a reset clears all; a return hands over what was kept. */
  lemma OtherAnswers(s: State, a: Action)
    requires Inv(s) && Enabled(s, a)
    ensures var u := Step(s, a);
            && (a.Send? && a.bits == 0 ==> u == s)
            && (a.Timeout? ==> u == s.(waiting := u.waiting) && Leaves(s.waiting, u.waiting, a.t))
            && (a.Resetting? ==> u.flags == 0 && u.waiting == [] && u.info == s.info && u.resumed == s.resumed)
            && (a.Returning? ==> u == s.(resumed := s.resumed - {a.t}) && Return(s, a.t).1 == Got(s.info[a.t].bits))
  {
    hide Leaves, Without, Receive, Fold, Or;
    if a.Timeout? {
      WithoutLeaves(s.waiting, a.t);
    }
  }
}
