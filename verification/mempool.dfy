/**
 Memory pools: equal blocks on a free list that is threaded through the blocks
 themselves, with a list of threads suspended until a block comes back.
 */
module MemPool {
  import opened Common
  import opened Links
  import opened Sequences
  import opened WaitQueue

  type Block = nat

  datatype Outcome = Got(block: Block) | TimedOut | Suspended | Done

  datatype Action = Alloc(caller: Tid, timeout: int) | Free(block: Block) | Expire(thread: Tid)

  datatype State = State(total: nat, free: seq<Block>, out: set<Block>, waiters: Channel)

  function Fresh(total: nat): State {
    State(total, seq(total, i => i), {}, Channel([], {}))
  }

  predicate Enabled(s: State, a: Action) {
    match a
    case Alloc(t, _) => t !in s.waiters.waiting
    case Free(b) => b in s.out
    case Expire(t) => t in s.waiters.waiting
  }

  /** Waiters are linked in right behind the list head, so the latest one is resumed first. */
  function BlockInFront(c: Channel, t: Tid): Channel {
    Channel([t] + c.waiting, c.pending - {t})
  }

  function Step(s: State, a: Action): (State, Outcome)
    requires Enabled(s, a)
  {
    match a
    case Alloc(t, timeout) =>
      if s.free != [] then
        (s.(free := s.free[1..], out := s.out + {s.free[0]}, waiters := s.waiters.Recheck(t)), Got(s.free[0]))
      else if timeout == 0 then (s.(waiters := s.waiters.Recheck(t)), TimedOut)
      else (s.(waiters := BlockInFront(s.waiters, t)), Suspended)
    case Free(b) =>
      (s.(free := [b] + s.free, out := s.out - {b}, waiters := s.waiters.Wake()), Done)
    case Expire(t) => (s.(waiters := s.waiters.Expire(t)), TimedOut)
  }

  /** Every block is on the free list once or in one caller's hands, and no wake-up is lost. */
  ghost predicate Inv(s: State) {
    && Distinct(s.free)
    && (forall b :: b in s.free ==> b < s.total && b !in s.out)
    && (forall b :: b in s.out ==> b < s.total)
    && (forall b: Block :: b < s.total ==> b in s.free || b in s.out)
    && s.waiters.Valid() && s.waiters.NoLostWakeup(|s.free|)
  }

  lemma StepKeepsInv(s: State, a: Action)
    requires Inv(s) && Enabled(s, a)
    ensures Inv(Step(s, a).0)
  {
    match a
    case Alloc(t, timeout) =>
      RecheckKeeps(s.waiters, t, |s.free|);
      if s.free != [] {
        HeadTail(s.free);
      } else if timeout != 0 {
        ConcatDistinct([t], s.waiters.waiting);
      }
    case Free(b) => WakeKeeps(s.waiters, |s.free|);
    case Expire(t) => ExpireKeeps(s.waiters, t, |s.free|);
  }

  ghost predicate Legal(s: State, run: seq<Action>)
    decreases |run|
  {
    run == [] || (Enabled(s, run[0]) && Legal(Step(s, run[0]).0, run[1..]))
  }

  ghost function After(s: State, run: seq<Action>): State
    requires Legal(s, run)
    decreases |run|
  {
    if run == [] then s else After(Step(s, run[0]).0, run[1..])
  }

  lemma {:induction false} EveryRunKeepsInv(s: State, run: seq<Action>)
    requires Inv(s) && Legal(s, run)
    ensures Inv(After(s, run))
    decreases |run|
  {
    if run != [] {
      StepKeepsInv(s, run[0]);
      EveryRunKeepsInv(Step(s, run[0]).0, run[1..]);
    }
  }

  /** A thread sleeps on a pool with free blocks only while as many resumed threads are on their way to them. */
  lemma SleepersAreOutnumbered(total: nat, run: seq<Action>)
    requires Legal(Fresh(total), run)
    ensures var s := After(Fresh(total), run);
            && (s.waiters.waiting != [] ==> |s.free| <= |s.waiters.pending|)
            && |s.free| + |s.out| == total
  {
    FreshIsGood(total);
    EveryRunKeepsInv(Fresh(total), run);
    var s := After(Fresh(total), run);
    TotalIsConstant(Fresh(total), run);
    DistinctSize(s.free);
    assert Elements(s.free) + s.out == Upto(s.total);
    assert |Elements(s.free) + s.out| == |Elements(s.free)| + |s.out|;
  }

  lemma {:induction false} TotalIsConstant(s: State, run: seq<Action>)
    requires Legal(s, run)
    ensures After(s, run).total == s.total
    decreases |run|
  {
    if run != [] {
      TotalIsConstant(Step(s, run[0]).0, run[1..]);
    }
  }

  lemma FreshIsGood(total: nat)
    ensures Inv(Fresh(total))
  {
    forall b: Block | b < total ensures b in Fresh(total).free {
      assert Fresh(total).free[b] == b;
    }
  }

  /* What the callers see */

  /** When an allocation is answered how, and who waits afterwards. */
  lemma AllocAnswers(s: State, a: Action)
    requires Inv(s) && a.Alloc? && Enabled(s, a)
    ensures var (u, r) := Step(s, a);
            && (r.Got? <==> s.free != [])
            && (r == TimedOut <==> s.free == [] && a.timeout == 0)
            && (r == Suspended <==> s.free == [] && a.timeout != 0)
            && (if r.Got? then s.free == [r.block] + u.free && r.block !in s.out && u.out == s.out + {r.block}
                else u.free == s.free && u.out == s.out)
            && u.waiters.waiting == (if r == Suspended then [a.caller] + s.waiters.waiting else s.waiters.waiting)
            && u.waiters.pending == s.waiters.pending - {a.caller}
  {
  }

  lemma OtherAnswers(s: State, a: Action)
    requires Inv(s) && !a.Alloc? && Enabled(s, a)
    ensures var (u, r) := Step(s, a);
            && (a.Free? ==> u.free == [a.block] + s.free && u.out == s.out - {a.block} && FirstIsResumed(s.waiters, u.waiters))
            && (a.Expire? ==> u == s.(waiters := u.waiters) && u.waiters.pending == s.waiters.pending
                              && Leaves(s.waiters.waiting, u.waiters.waiting, a.thread))
  {
    hide Leaves, FirstIsResumed;
    WakeResumes(s.waiters);
    if a.Expire? {
      WithoutLeaves(s.waiters.waiting, a.thread);
    }
  }

  /** The blocks that callers were given and have not given back, read off the calls and their answers. */
  ghost function InHand(had: set<Block>, s: State, run: seq<Action>): set<Block>
    requires Legal(s, run)
    decreases |run|
  {
    if run == [] then had
    else
      var (u, r) := Step(s, run[0]);
      InHand(if r.Got? then had + {r.block} else if run[0].Free? then had - {run[0].block} else had, u, run[1..])
  }

  /** In every run `out` is what callers have in hand, and an allocation never gives one of those to another caller. */
  lemma {:induction false} NobodySharesABlock(s: State, run: seq<Action>)
    requires Inv(s) && Legal(s, run)
    ensures After(s, run).out == InHand(s.out, s, run)
    ensures forall a: Action :: Enabled(After(s, run), a) && Step(After(s, run), a).1.Got? ==>
              Step(After(s, run), a).1.block !in InHand(s.out, s, run)
    decreases |run|
  {
    hide Inv;
    if run != [] {
      StepKeepsInv(s, run[0]);
      if run[0].Alloc? {
        AllocAnswers(s, run[0]);
      }
      NobodySharesABlock(Step(s, run[0]).0, run[1..]);
    } else {
      forall a: Action | Enabled(s, a) && Step(s, a).1.Got? ensures Step(s, a).1.block !in s.out {
        AllocAnswers(s, a);
      }
    }
  }

  class Pool {
    const total: nat
    const link: array<int>
    var blockList: int
    var freeCount: nat
    var waiters: seq<Tid>
    ghost var model: State

    /** What the first word of an allocated block holds instead of a link: its pool. */
    static const OWNED: int := -2

    ghost predicate Valid()
      reads this, link
    {
      && Inv(model) && model.total == total == link.Length
      && Chain(link[..], model.free, blockList)
      && freeCount == |model.free|
      && (forall b :: b in model.out ==> link[b] == OWNED)
      && waiters == model.waiters.waiting
    }

    /** `rt_mp_init` for a pool that holds at least one block. */
    constructor (total: nat)
      requires total > 0
      ensures Valid() && fresh(link) && model == Fresh(total)
    {
      this.total := total;
      link := new int[total](_ => NULL);
      freeCount := total;
      waiters := [];
      blockList := 0;
      new;
      for offset := 0 to total
        invariant link.Length == total && freeCount == total && blockList == 0 && waiters == [] && this.total == total
        invariant forall i :: 0 <= i < offset ==> link[i] == i + 1
        modifies link
      {
        link[offset] := offset + 1;
      }
      link[total - 1] := NULL;
      model := Fresh(total);
      FreshIsGood(total);
    }

    /** One pass through the critical section of `rt_mp_alloc`, first or repeated. */
    method Alloc(t: Tid, timeout: int) returns (r: Outcome)
      requires Valid() && Enabled(model, Action.Alloc(t, timeout))
      modifies this, link
      ensures Valid() && (model, r) == old(Step(model, Action.Alloc(t, timeout)))
    {
      StepKeepsInv(model, Action.Alloc(t, timeout));
      if freeCount == 0 {
        if timeout == 0 {
          r := TimedOut;
        } else {
          waiters := [t] + waiters;
          r := Suspended;
        }
      } else {
        freeCount := freeCount - 1;
        var b := blockList;
        ChainPop(link[..], model.free, blockList);
        HeadTail(model.free);
        ChainFrame(link[..], model.free[1..], link[b], b, OWNED);
        blockList := link[b];
        link[b] := OWNED;
        r := Got(b);
      }
      model := Step(model, Action.Alloc(t, timeout)).0;
    }

    method Free(b: Block)
      requires Valid() && Enabled(model, Action.Free(b))
      modifies this, link
      ensures Valid() && model == old(Step(model, Action.Free(b)).0)
    {
      StepKeepsInv(model, Action.Free(b));
      freeCount := freeCount + 1;
      ChainPush(link[..], model.free, blockList, b);
      link[b] := blockList;
      blockList := b;
      if waiters != [] {
        waiters := waiters[1..];
      }
      model := Step(model, Action.Free(b)).0;
    }

    method Expire(t: Tid)
      requires Valid() && Enabled(model, Action.Expire(t))
      modifies this
      ensures Valid() && model == old(Step(model, Action.Expire(t)).0)
    {
      StepKeepsInv(model, Action.Expire(t));
      waiters := Without(waiters, t);
      model := Step(model, Action.Expire(t)).0;
    }
  }
}
