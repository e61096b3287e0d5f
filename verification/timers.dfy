/**
 Timers: arming, stopping, and the check that fires every timer whose deadline
 has passed. A callback may stop or restart its own timer.
 */
module Timers {
  import opened Common
  import opened Sequences
  import opened Ticks
  import opened SkipList

  datatype Callback = Nothing | StopSelf | RestartSelf

  datatype Timer = Timer(init: nat, periodic: bool, active: bool, callback: Callback)

  /** The bottom row, the deadlines and the timer objects. */
  datatype State = State(queue: seq<Tid>, dl: Deadlines, timers: map<Tid, Timer>)

  /** Whether a timer is armed again after firing. */
  predicate Rearms(x: Timer) {
    x.callback.RestartSelf? || (x.periodic && x.callback.Nothing?)
  }

  ghost function Armed(s: State, t: Tid, now: nat, base: nat): State
    requires t in s.timers && now < TICKS && s.timers[t].init < TICKS
  {
    var dl := s.dl[t := Plus(now, s.timers[t].init)];
    State(Linear(Without(s.queue, t), dl, base, t), dl, s.timers[t := s.timers[t].(active := true)])
  }

  function Disarmed(s: State, t: Tid): State
    requires t in s.timers
  {
    s.(queue := Without(s.queue, t), timers := s.timers[t := s.timers[t].(active := false)])
  }

  /** What firing a timer comes to, whatever its callback does to it. */
  ghost function AfterFire(s: State, t: Tid, now: nat, base: nat): State
    requires t in s.timers && now < TICKS && s.timers[t].init < TICKS
  {
    if Rearms(s.timers[t]) then Armed(Disarmed(s, t), t, now, base) else Disarmed(s, t)
  }

  /** Armed and active are the same thing, and deadlines lie within half the tick range of `base`. */
  ghost predicate Ok(s: State, base: nat) {
    && RowOk(s.queue, s.dl, base)
    && (forall t :: t in s.queue ==> t in s.timers)
    && (forall t :: t in s.timers ==> (s.timers[t].active <==> t in s.queue))
    && (forall t :: t in s.timers ==> s.timers[t].init < HALF)
  }

  /** The number of due timers: they come first. */
  ghost function DueCount(s: State, now: nat, base: nat): (k: nat)
    requires Near(base, now)
    ensures k <= |s.queue|
  {
    Place(s.queue, s.dl, base, Minus(now, base))
  }

  ghost predicate IsDue(s: State, t: Tid, now: nat) {
    now < TICKS && t in s.dl && s.dl[t] < TICKS && Due(now, s.dl[t])
  }

  /** Arming again may not reach beyond half the range either. */
  ghost predicate InReach(s: State, t: Tid, now: nat, base: nat) {
    Near(base, now) && t in s.timers && Minus(now, base) + s.timers[t].init < HALF
  }

  /** The same, for a timer that is armed again when it fires. */
  ghost predicate Reaches(s: State, t: Tid, now: nat, base: nat) {
    Near(base, now) && t in s.timers && (Rearms(s.timers[t]) ==> InReach(s, t, now, base))
  }

  lemma DueFirst(s: State, now: nat, base: nat, i: nat)
    requires Ok(s, base) && Near(base, now) && i < |s.queue|
    ensures IsDue(s, s.queue[i], now) <==> i < DueCount(s, now, base)
  {
    var k := DueCount(s, now, base);
    assert Near1(s.dl, base, s.queue[i]);
    LaterIsFarther(base, now, s.dl[s.queue[i]]);
    assert k < |s.queue| && k < i ==> Dist(s.dl, base, s.queue[k]) <= Dist(s.dl, base, s.queue[i]);
  }

  lemma DisarmOk(s: State, t: Tid, base: nat)
    requires Ok(s, base) && t in s.timers
    ensures Ok(Disarmed(s, t), base) && t !in Disarmed(s, t).queue
  {
    hide Sorted, Distinct, AllNear;
    WithoutSorted(s.queue, s.dl, base, t);
  }

  lemma ArmedDistance(s: State, t: Tid, now: nat, base: nat)
    requires InReach(s, t, now, base)
    ensures Near(base, Plus(now, s.timers[t].init))
    ensures Minus(Plus(now, s.timers[t].init), base) == Minus(now, base) + s.timers[t].init
  {
  }

  lemma ArmOk(s: State, t: Tid, now: nat, base: nat)
    requires Ok(s, base) && InReach(s, t, now, base) && t !in s.queue
    ensures Ok(Armed(s, t, now, base), base)
  {
    hide Sorted, Distinct, AllNear, Linear, Plus;
    var d := Plus(now, s.timers[t].init);
    ArmedDistance(s, t, now, base);
    SortedFrame(s.queue, s.dl, base, t, d);
    LinearSorted(s.queue, s.dl[t := d], base, t);
  }

  lemma FireOk(s: State, t: Tid, now: nat, base: nat)
    requires Ok(s, base) && Reaches(s, t, now, base)
    ensures Ok(AfterFire(s, t, now, base), base)
  {
    hide Armed;
    DisarmOk(s, t, base);
    if Rearms(s.timers[t]) {
      ArmOk(Disarmed(s, t), t, now, base);
    }
  }

  /* One step of the check */

  lemma HeadWithout(q: seq<Tid>)
    requires q != []
    ensures Without(q, q[0]) == q[1..]
  {
  }

  /** Firing the first timer leaves the other due timers in front, in order, and the rest behind in order. */
  ghost predicate Stepped(s: State, u: State, k: nat) {
    && 0 < k <= |s.queue| && k - 1 <= |u.queue|
    && u.queue[..k - 1] == s.queue[1..k] && Sub(s.queue[k..], u.queue[k - 1..])
  }

  lemma PlaceTail(row: seq<Tid>, dl: Deadlines, base: nat, d: nat)
    requires row != [] && Place(row, dl, base, d) > 0
    ensures Place(row[1..], dl, base, d) == Place(row, dl, base, d) - 1
  {
  }

  lemma PlaceFrame(row: seq<Tid>, dl: Deadlines, base: nat, d: nat, t: Tid, x: nat)
    requires Sorted(row, dl, base) && AllNear(row, dl, base) && t !in row
    ensures Place(row, dl[t := x], base, d) == Place(row, dl, base, d)
  {
    hide Place;
    SortedFrame(row, dl, base, t, x);
    forall i | 0 <= i < |row| ensures Dist(dl[t := x], base, row[i]) == Dist(dl, base, row[i]) {
      assert row[i] in row;
    }
    PlaceIs(row, dl[t := x], base, d, Place(row, dl, base, d));
  }

  /** A timer inserted with a later deadline lands behind the first `k`. */
  lemma LandsBehind(q: seq<Tid>, dl: Deadlines, base: nat, t: Tid, d: nat)
    requires Sorted(q, dl, base) && Dist(dl, base, t) > d
    ensures var k := Place(q, dl, base, d); var r := Linear(q, dl, base, t);
            k <= |r| && r[..k] == q[..k] && Sub(q[k..], r[k..]) && Place(r, dl, base, d) == k
  {
    hide Place, Dist, Sub, InsertAt;
    var k, p := Place(q, dl, base, d), Place(q, dl, base, Dist(dl, base, t));
    assert k <= p;
    InsertBeyond(q, k, p, t);
    InsertSorted(q, dl, base, p, t);
    InsertAtIs(q, p, t);
    PlaceIs(InsertAt(q, p, t), dl, base, d, k);
  }

  lemma InsertBeyond(q: seq<Tid>, k: nat, p: nat, t: Tid)
    requires k <= p <= |q|
    ensures var r := InsertAt(q, p, t); k <= |r| && r[..k] == q[..k] && Sub(q[k..], r[k..])
  {
    hide Sub;
    var r := InsertAt(q, p, t);
    assert q[k..] == q[k..p] + q[p..] && r[k..] == q[k..p] + ([t] + q[p..]);
    SubSelf(q[p..]);
    SubWider(q[p..], q[p..], t);
    SubSelf(q[k..p]);
    SubConcat(q[k..p], q[k..p], q[p..], [t] + q[p..]);
  }

  lemma {:induction false} SubSelf(a: seq<Tid>)
    ensures Sub(a, a)
  {
    if a != [] {
      SubSelf(a[1..]);
    }
  }

  lemma {:induction false} SubTrans(a: seq<Tid>, b: seq<Tid>, c: seq<Tid>)
    requires Sub(a, b) && Sub(b, c)
    ensures Sub(a, c)
    decreases |c|
  {
    if a != [] {
      if b[0] == c[0] {
        if a[0] == b[0] {
          SubTrans(a[1..], b[1..], c[1..]);
        } else {
          SubTrans(a, b[1..], c[1..]);
        }
      } else {
        SubTrans(a, b, c[1..]);
        SubWider(a, c[1..], c[0]);
        assert [c[0]] + c[1..] == c;
      }
    }
  }

  lemma FireSteps(s: State, now: nat, base: nat)
    requires Ok(s, base) && Near(base, now) && DueCount(s, now, base) > 0
    requires Reaches(s, s.queue[0], now, base)
    requires Rearms(s.timers[s.queue[0]]) ==> s.timers[s.queue[0]].init > 0
    ensures var u := AfterFire(s, s.queue[0], now, base);
            Stepped(s, u, DueCount(s, now, base)) && DueCount(u, now, base) == DueCount(s, now, base) - 1
  {
    hide Place, Dist, Sub, Sorted, Linear, Plus, Minus;
    var t, k := s.queue[0], DueCount(s, now, base);
    var d := Minus(now, base);
    HeadWithout(s.queue);
    DisarmOk(s, t, base);
    PlaceTail(s.queue, s.dl, base, d);
    var q := s.queue[1..];
    assert q[..k - 1] == s.queue[1..k] && q[k - 1..] == s.queue[k..];
    if Rearms(s.timers[t]) {
      var x := Plus(now, s.timers[t].init);
      ArmedDistance(s, t, now, base);
      DistIs(s.dl[t := x], base, t);
      assert Without(q, t) == q;
      SortedFrame(q, s.dl, base, t, x);
      PlaceFrame(q, s.dl, base, d, t, x);
      LandsBehind(q, s.dl[t := x], base, t, d);
    } else {
      SubSelf(q[k - 1..]);
    }
  }

  /* The whole check */

  /** After `i` of `k` due timers have fired: which timers are armed, and what became of the objects. */
  ghost predicate Members(s: State, u: State, i: nat) {
    && i <= |s.queue|
    && (forall t :: t in u.queue <==> t in s.queue[i..] || (t in s.queue[..i] && Comes(s, t)))
    && u.timers.Keys == s.timers.Keys
    && (forall t :: t in s.timers ==>
          u.timers[t] == (if t in s.queue[..i] then s.timers[t].(active := Rearms(s.timers[t])) else s.timers[t]))
  }

  ghost predicate DeadlineIs(s: State, u: State, t: Tid, again: bool, now: nat) {
    if again then now < TICKS && t in s.timers && s.timers[t].init < TICKS && t in u.dl && u.dl[t] == Plus(now, s.timers[t].init)
    else t in s.dl ==> t in u.dl && u.dl[t] == s.dl[t]
  }

  /** Timers armed again are due one interval from now; the others keep their deadline. */
  ghost predicate DeadlinesAre(s: State, u: State, i: nat, now: nat) {
    i <= |s.queue| && forall t :: DeadlineIs(s, u, t, t in s.queue[..i] && Comes(s, t), now)
  }

  /** The due timers still to fire come first, in their old order; behind them the timers not due keep theirs. */
  ghost predicate InOrder(s: State, u: State, i: nat, k: nat) {
    && i <= k <= |s.queue| && k - i <= |u.queue|
    && u.queue[..k - i] == s.queue[i..k] && Sub(s.queue[k..], u.queue[k - i..])
  }

  ghost predicate Checked(s: State, u: State, i: nat, k: nat, now: nat) {
    InOrder(s, u, i, k) && Members(s, u, i) && DeadlinesAre(s, u, i, now)
  }

  /** The timer is armed again when it fires. */
  ghost predicate Comes(s: State, t: Tid) {
    t in s.timers && Rearms(s.timers[t])
  }

  /** What one tick comes to: exactly the timers whose deadline it is have fired, in their order. */
  ghost predicate Ticked(s: State, u: State, now: nat, fired: seq<Tid>) {
    && fired <= s.queue && Checked(s, u, |fired|, |fired|, now)
    && forall t :: t in s.queue ==> (t in fired <==> t in s.dl && s.dl[t] == now)
  }

  lemma NextIs(s: State, u: State, i: nat, k: nat)
    requires InOrder(s, u, i, k) && i < k
    ensures u.queue[0] == s.queue[i]
  {
    assert u.queue[..k - i][0] == s.queue[i..k][0];
  }

  lemma OrderStep(s: State, u: State, v: State, i: nat, k: nat)
    requires InOrder(s, u, i, k) && i < k && Stepped(u, v, k - i)
    ensures InOrder(s, v, i + 1, k)
  {
    hide Sub;
    assert u.queue[1..k - i] == u.queue[..k - i][1..] && s.queue[i + 1..k] == s.queue[i..k][1..];
    SubTrans(s.queue[k..], u.queue[k - i..], v.queue[k - i - 1..]);
  }

  lemma PrefixStep(q: seq<Tid>, i: nat)
    requires Distinct(q) && i < |q|
    ensures forall x :: x in q[..i + 1] <==> x in q[..i] || x == q[i]
    ensures forall x :: x in q[i + 1..] <==> x in q[i..] && x != q[i]
    ensures q[i] !in q[..i]
  {
    assert q[..i + 1] == q[..i] + [q[i]];
    assert q[i..] == [q[i]] + q[i + 1..];
    assert forall j :: i < j < |q| ==> q[j] != q[i];
  }

  lemma AfterFireMembers(s: State, t: Tid, now: nat, base: nat)
    requires Ok(s, base) && Reaches(s, t, now, base)
    ensures var u := AfterFire(s, t, now, base);
            && (forall x :: x in u.queue <==> (x in s.queue && x != t) || (x == t && Rearms(s.timers[t])))
            && u.timers == s.timers[t := s.timers[t].(active := Rearms(s.timers[t]))]
            && u.dl == if Rearms(s.timers[t]) then s.dl[t := Plus(now, s.timers[t].init)] else s.dl
  {
    hide Plus, Dist, Place;
    WithoutKeepsDistinct(s.queue, t);
    var q := Without(s.queue, t);
    if Rearms(s.timers[t]) {
      var dl := s.dl[t := Plus(now, s.timers[t].init)];
      InsertAtIs(q, Place(q, dl, base, Dist(dl, base, t)), t);
      assert Without(q, t) == q;
    }
  }

  lemma MembersStep(s: State, u: State, i: nat, now: nat, base: nat)
    requires i < |s.queue| && Members(s, u, i) && DeadlinesAre(s, u, i, now) && Distinct(s.queue) && Ok(u, base)
    requires s.queue[i] in s.timers && Reaches(u, s.queue[i], now, base)
    ensures Members(s, AfterFire(u, s.queue[i], now, base), i + 1)
    ensures DeadlinesAre(s, AfterFire(u, s.queue[i], now, base), i + 1, now)
  {
    hide RowOk, AfterFire, Distinct, Plus;
    var t := s.queue[i];
    var v := AfterFire(u, t, now, base);
    AfterFireMembers(u, t, now, base);
    PrefixStep(s.queue, i);
    forall x ensures DeadlineIs(s, v, x, x in s.queue[..i + 1] && Comes(s, x), now) {
      assert DeadlineIs(s, u, x, x in s.queue[..i] && Comes(s, x), now);
    }
  }

  class TimerService {
    const list: TimerList
    var timers: map<Tid, Timer>
    var now: nat

    ghost function Abs(): State
      requires list.rows != []
      reads this, list
    {
      State(Bottom(list.rows), list.dl, timers)
    }

    ghost predicate Sound(base: nat)
      reads this, list
    {
      Good(list.rows, list.dl, base) && now < TICKS && Ok(Abs(), base)
    }

    constructor (levels: nat, tick: nat)
      requires levels > 0 && tick < TICKS
      ensures Sound(tick) && fresh(list) && timers == map[] && now == tick && Bottom(list.rows) == []
    {
      list := new TimerList(levels);
      timers, now := map[], tick;
    }

    /** `rt_timer_init`: the interval must lie below half the tick range. */
    method Init(t: Tid, init: nat, periodic: bool, callback: Callback, ghost base: nat)
      requires Sound(base) && t !in timers && init < HALF
      modifies `timers
      ensures Sound(base) && timers == old(timers)[t := Timer(init, periodic, false, callback)]
    {
      timers := timers[t := Timer(init, periodic, false, callback)];
    }

    /** `rt_timer_start` */
    method Arm(t: Tid, ghost base: nat)
      requires Good(list.rows, list.dl, base) && now < TICKS && InReach(Abs(), t, now, base) && timers[t].init < TICKS
      modifies this`timers, list
      ensures Good(list.rows, list.dl, base) && |list.rows| == |old(list.rows)|
      ensures Abs() == Armed(old(Abs()), t, now, base)
    {
      hide Good, Linear, Minus;
      GoodHasRows(list.rows, list.dl, base);
      ArmedDistance(Abs(), t, now, base);
      list.Start(t, Plus(now, timers[t].init), base);
      GoodHasRows(list.rows, list.dl, base);
      timers := timers[t := timers[t].(active := true)];
    }

    /** `rt_timer_stop` */
    method Disarm(t: Tid, ghost base: nat) returns (ok: bool)
      requires Sound(base) && t in timers
      modifies this`timers, list
      ensures Sound(base) && ok == (t in Bottom(old(list.rows)))
      ensures Abs() == if ok then Disarmed(old(Abs()), t) else old(Abs())
    {
      hide Good, RowOk;
      GoodHasRows(list.rows, list.dl, base);
      ok := timers[t].active;
      if ok {
        RemovedGood(list.rows, list.dl, base, t);
        DisarmOk(Abs(), t, base);
        list.Remove(t);
        timers := timers[t := timers[t].(active := false)];
      }
    }

    /** One turn of the check: the timer leaves the rows for a list of its own while its callback runs. */
    method Fire(t: Tid, ghost base: nat)
      requires Sound(base) && Reaches(Abs(), t, now, base) && t in Bottom(list.rows)
      modifies this`timers, list
      ensures Good(list.rows, list.dl, base) && Abs() == AfterFire(old(Abs()), t, now, base)
    {
      hide Good, RowOk, Linear, Minus;
      GoodHasRows(list.rows, list.dl, base);
      ghost var s := Abs();
      RemovedGood(list.rows, list.dl, base, t);
      list.Remove(t);
      if !timers[t].periodic {
        timers := timers[t := timers[t].(active := false)];
      }
      var held := true;
      match timers[t].callback {
        case Nothing =>
        case StopSelf =>
          if timers[t].active {
            held := false;
            timers := timers[t := timers[t].(active := false)];
          }
        case RestartSelf =>
          held := false;
          assert Without(Bottom(list.rows), t) == Bottom(list.rows);
          Arm(t, base);
      }
      if held && timers[t].periodic && timers[t].active {
        timers := timers[t := timers[t].(active := false)];
        assert Without(Bottom(list.rows), t) == Bottom(list.rows);
        Arm(t, base);
      }
    }

    /** `rt_timer_check`: exactly the due timers fire, once each, in row order, and none is due afterwards. */
    method Check(ghost base: nat) returns (fired: seq<Tid>)
      requires Sound(base) && Near(base, now)
      requires forall t :: t in Bottom(list.rows) && IsDue(Abs(), t, now) && Comes(Abs(), t) ==>
                 timers[t].init > 0 && InReach(Abs(), t, now, base)
      modifies this`timers, list
      ensures Sound(base)
      ensures var k := DueCount(old(Abs()), now, base);
              fired == old(Abs()).queue[..k] && Checked(old(Abs()), Abs(), k, k, now)
      ensures forall t :: t in old(Abs()).queue ==> (t in fired <==> IsDue(old(Abs()), t, now))
      ensures forall t :: t in Bottom(list.rows) ==> !IsDue(Abs(), t, now)
    {
      hide Good, RowOk, Linear, Minus, Sub, AfterFire, Place, Ok, InOrder, Members, DeadlinesAre;
      GoodHasRows(list.rows, list.dl, base);
      ghost var s, k := Abs(), DueCount(Abs(), now, base);
      fired := [];
      CheckedAtFirst(s, k, now);
      while Bottom(list.rows) != []
        invariant Good(list.rows, list.dl, base) && list.rows != [] && Ok(Abs(), base)
        invariant |fired| <= k && fired == s.queue[..|fired|] && Checked(s, Abs(), |fired|, k, now)
        invariant DueCount(Abs(), now, base) == k - |fired|
        decreases k - |fired|
      {
        ghost var u, i := Abs(), |fired|;
        var t := Bottom(list.rows)[0];
        HeadKnown(u, base);
        DueFirst(u, now, base, 0);
        if !Due(now, list.dl[t]) {
          break;
        }
        NextFires(s, u, i, k, now, base);
        CheckStep(s, u, i, k, now, base);
        Fire(t, base);
        assert s.queue[..i + 1] == s.queue[..i] + [t];
        fired := fired + [t];
        GoodHasRows(list.rows, list.dl, base);
      }
      DueExactly(s, now, base);
      NoneLeft(Abs(), now, base);
    }

    /**
     Between ticks: every interval is from 1 to half the tick range, and every
     armed deadline lies ahead, within half the range. This is what the skip
     list needs, and starting, stopping and ticking keep it for ever.
     */
    ghost predicate Steady()
      reads this, list
    {
      && Sound(now)
      && (forall t :: t in timers ==> timers[t].init > 0)
      && (forall t :: t in Bottom(list.rows) ==> !IsDue(Abs(), t, now))
    }

    method StartTimer(t: Tid)
      requires Steady() && t in timers
      modifies this`timers, list
      ensures Steady() && Abs() == Armed(old(Abs()), t, now, now)
      ensures t in Bottom(list.rows) && list.dl[t] == Plus(now, timers[t].init)
    {
      hide Good, RowOk, Plus;
      GoodHasRows(list.rows, list.dl, now);
      ghost var s := Abs();
      SelfInReach(s, t, now);
      RestartOk(s, t, now);
      Arm(t, now);
    }

    method StopTimer(t: Tid) returns (ok: bool)
      requires Steady() && t in timers
      modifies this`timers, list
      ensures Steady() && ok == (t in Bottom(old(list.rows))) && t !in Bottom(list.rows)
      ensures Abs() == if ok then Disarmed(old(Abs()), t) else old(Abs())
    {
      hide Good, RowOk;
      GoodHasRows(list.rows, list.dl, now);
      DisarmOk(Abs(), t, now);
      ok := Disarm(t, now);
    }

    /** A tick fires exactly the timers whose deadline it is. */
    method Tick() returns (fired: seq<Tid>)
      requires Steady()
      modifies this, list
      ensures Steady() && now == Plus(old(now), 1) && Ticked(old(Abs()), Abs(), now, fired)
    {
      hide Good, RowOk, InOrder, Members, DeadlinesAre, Ok;
      GoodHasRows(list.rows, list.dl, now);
      ghost var s := Abs();
      NextBase(list.rows, list.dl, timers, now);
      now := Plus(now, 1);
      fired := Check(now);
      GoodHasRows(list.rows, list.dl, now);
      InitsKept(s, Abs(), |fired|);
    }
  }

  /* Intervals of zero */

  /** An armed timer that is due and will be due again as soon as it has fired. */
  ghost predicate Restless(s: State, t: Tid, now: nat, base: nat) {
    && Ok(s, base) && t in s.queue && Reaches(s, t, now, base) && IsDue(s, t, now)
    && Rearms(s.timers[t]) && s.timers[t].init == 0
  }

  /** Whichever timer fires, a timer that comes again with a zero interval stays armed and due. */
  lemma RestlessStays(s: State, t: Tid, x: Tid, now: nat, base: nat)
    requires Restless(s, t, now, base) && Reaches(s, x, now, base)
    ensures Restless(AfterFire(s, x, now, base), t, now, base)
  {
    hide RowOk, AfterFire;
    FireOk(s, x, now, base);
    AfterFireMembers(s, x, now, base);
  }

  lemma ReachKept(s: State, now: nat, base: nat)
    requires Ok(s, base) && s.queue != [] && forall t :: t in s.queue ==> Reaches(s, t, now, base)
    ensures Reaches(s, s.queue[0], now, base)
    ensures var u := AfterFire(s, s.queue[0], now, base); forall t :: t in u.queue ==> Reaches(u, t, now, base)
  {
    hide RowOk, AfterFire;
    var x := s.queue[0];
    assert x in s.queue;
    AfterFireMembers(s, x, now, base);
    var u := AfterFire(s, x, now, base);
    forall t | t in u.queue ensures Reaches(u, t, now, base) {
      assert Reaches(s, t, now, base);
    }
  }

  ghost function FireTimes(s: State, n: nat, now: nat, base: nat): State
    requires forall t :: t in s.queue ==> Reaches(s, t, now, base)
    requires Ok(s, base)
    decreases n
  {
    if n == 0 || s.queue == [] then s
    else
      FireOk(s, s.queue[0], now, base);
      ReachKept(s, now, base);
      FireTimes(AfterFire(s, s.queue[0], now, base), n - 1, now, base)
  }

  /**
   The check ends exactly when no due timer comes again with a zero interval:
   if none does, `TimerService.Check` returns; if one does, then after any number
   of turns a timer is still due.
   */
  lemma {:induction false} ZeroIntervalNeverEnds(s: State, t: Tid, n: nat, now: nat, base: nat)
    requires Restless(s, t, now, base) && forall x :: x in s.queue ==> Reaches(s, x, now, base)
    ensures Restless(FireTimes(s, n, now, base), t, now, base)
    ensures Near(base, now) && DueCount(FireTimes(s, n, now, base), now, base) > 0
    decreases n
  {
    hide RowOk, AfterFire, Place;
    if n == 0 {
      DueIsCounted(s, t, now, base);
    } else {
      var x := s.queue[0];
      FireOk(s, x, now, base);
      ReachKept(s, now, base);
      RestlessStays(s, t, x, now, base);
      ZeroIntervalNeverEnds(AfterFire(s, x, now, base), t, n - 1, now, base);
    }
  }

  lemma DueIsCounted(s: State, t: Tid, now: nat, base: nat)
    requires Ok(s, base) && Near(base, now) && t in s.queue && IsDue(s, t, now)
    ensures DueCount(s, now, base) > 0
  {
    DueFirst(s, now, base, Index(s.queue, t));
  }

  lemma CheckedAtFirst(s: State, k: nat, now: nat)
    requires k <= |s.queue|
    ensures Checked(s, s, 0, k, now)
  {
    hide Sub;
    assert s.queue[0..] == s.queue && s.queue[..k] == s.queue[0..k];
    SubSelf(s.queue[k..]);
  }

  lemma HeadKnown(s: State, base: nat)
    requires Ok(s, base) && s.queue != []
    ensures s.queue[0] in s.dl && s.dl[s.queue[0]] < TICKS && s.queue[0] in s.timers
  {
    assert Near1(s.dl, base, s.queue[0]);
  }

  lemma DueExactly(s: State, now: nat, base: nat)
    requires Ok(s, base) && Near(base, now)
    ensures forall t :: t in s.queue ==> (t in s.queue[..DueCount(s, now, base)] <==> IsDue(s, t, now))
  {
    hide Sorted, AllNear, Near, IsDue, Place;
    var k := DueCount(s, now, base);
    forall t | t in s.queue ensures t in s.queue[..k] <==> IsDue(s, t, now) {
      var i := Index(s.queue, t);
      DueFirst(s, now, base, i);
      if i < k {
        assert s.queue[..k][i] == t;
      }
      if t in s.queue[..k] {
        var j := Index(s.queue[..k], t);
        assert s.queue[j] == t;
      }
    }
  }

  lemma NoneLeft(s: State, now: nat, base: nat)
    requires Ok(s, base) && Near(base, now) && (s.queue != [] ==> !IsDue(s, s.queue[0], now))
    ensures DueCount(s, now, base) == 0
    ensures forall t :: t in s.queue ==> !IsDue(s, t, now)
  {
    hide Sorted, AllNear, Near, IsDue, Place;
    if s.queue != [] {
      DueFirst(s, now, base, 0);
    }
    DueExactly(s, now, base);
  }

  /** The next timer to fire is the one after those that have, as it was when the check began. */
  lemma NextFires(s: State, u: State, i: nat, k: nat, now: nat, base: nat)
    requires Ok(s, base) && Near(base, now) && k == DueCount(s, now, base) && Checked(s, u, i, k, now)
    requires Ok(u, base) && DueCount(u, now, base) == k - i > 0
    ensures i < |s.queue| && u.queue[0] == s.queue[i] && s.queue[i] in s.timers && u.timers[s.queue[i]] == s.timers[s.queue[i]]
    ensures IsDue(s, s.queue[i], now)
  {
    hide Sorted, AllNear, Near, Sub, DeadlinesAre, IsDue;
    NextIs(s, u, i, k);
    DueFirst(s, now, base, i);
    PrefixStep(s.queue, i);
  }

  lemma CheckStep(s: State, u: State, i: nat, k: nat, now: nat, base: nat)
    requires Ok(s, base) && Near(base, now) && k == DueCount(s, now, base) && Checked(s, u, i, k, now)
    requires Ok(u, base) && DueCount(u, now, base) == k - i > 0 && i < |s.queue| && u.queue[0] == s.queue[i]
    requires u.queue[0] in s.timers && Reaches(u, u.queue[0], now, base)
    requires Rearms(u.timers[u.queue[0]]) ==> u.timers[u.queue[0]].init > 0
    ensures var v := AfterFire(u, u.queue[0], now, base);
            Checked(s, v, i + 1, k, now) && Ok(v, base) && DueCount(v, now, base) == k - i - 1
  {
    hide Sorted, AllNear, Sub, AfterFire, Members, DeadlinesAre, InOrder, Place, Stepped;
    var v := AfterFire(u, u.queue[0], now, base);
    FireOk(u, u.queue[0], now, base);
    FireSteps(u, now, base);
    StillShort(s, u, i, k);
    OrderStep(s, u, v, i, k);
    MembersStep(s, u, i, now, base);
  }

  lemma StillShort(s: State, u: State, i: nat, k: nat)
    requires InOrder(s, u, i, k) && k - i > 0
    ensures i < k
  {
  }

  lemma SelfInReach(s: State, t: Tid, now: nat)
    requires now < TICKS && t in s.timers && s.timers[t].init < HALF
    ensures InReach(s, t, now, now)
  {
  }

  lemma InitsKept(s: State, u: State, i: nat)
    requires Members(s, u, i) && forall t :: t in s.timers ==> s.timers[t].init > 0
    ensures forall t :: t in u.timers ==> u.timers[t].init > 0
  {
  }

  lemma RestartOk(s: State, t: Tid, now: nat)
    requires Ok(s, now) && InReach(s, t, now, now) && s.timers[t].init > 0
    requires forall x :: x in s.queue ==> !IsDue(s, x, now)
    ensures var u := Armed(s, t, now, now);
            Ok(u, now) && t in u.queue && forall x :: x in u.queue ==> !IsDue(u, x, now)
  {
    hide RowOk, Place, Dist;
    var v, q := Disarmed(s, t), Without(s.queue, t);
    DisarmOk(s, t, now);
    assert Without(q, t) == q;
    assert Armed(v, t, now, now) == Armed(s, t, now, now);
    ArmOk(v, t, now, now);
    var dl := s.dl[t := Plus(now, s.timers[t].init)];
    InsertAtIs(q, Place(q, dl, now, Dist(dl, now, t)), t);
  }

  /** A deadline ahead of `now` is not behind the next tick. */
  lemma NextNear(now: nat, d: nat)
    requires Near(now, d) && !Due(now, d)
    ensures Near(Plus(now, 1), d) && (Due(Plus(now, 1), d) <==> d == Plus(now, 1))
  {
  }

  lemma NextRow(row: seq<Tid>, dl: Deadlines, now: nat)
    requires RowOk(row, dl, now) && forall t :: t in row ==> !(t in dl && dl[t] < TICKS && now < TICKS && Due(now, dl[t]))
    requires now < TICKS
    ensures RowOk(row, dl, Plus(now, 1))
    ensures forall t :: t in row ==> t in dl && dl[t] < TICKS && (Due(Plus(now, 1), dl[t]) <==> dl[t] == Plus(now, 1))
  {
    hide Sorted, Distinct, Plus, Due;
    forall t | t in row ensures Near1(dl, Plus(now, 1), t)
                             && (Due(Plus(now, 1), dl[t]) <==> dl[t] == Plus(now, 1)) {
      assert Near1(dl, now, t);
      NextNear(now, dl[t]);
    }
    BaseDoesNotMatter(row, dl, now, Plus(now, 1));
  }

  lemma NextBase(rows: seq<seq<Tid>>, dl: Deadlines, timers: map<Tid, Timer>, now: nat)
    requires now < TICKS && Good(rows, dl, now) && Ok(State(Bottom(rows), dl, timers), now)
    requires forall t :: t in Bottom(rows) ==> !IsDue(State(Bottom(rows), dl, timers), t, now)
    ensures var next := Plus(now, 1); Good(rows, dl, next) && Ok(State(Bottom(rows), dl, timers), next)
    ensures forall t :: t in Bottom(rows) ==> t in dl && (IsDue(State(Bottom(rows), dl, timers), t, Plus(now, 1)) <==> dl[t] == Plus(now, 1))
    ensures forall t :: t in timers ==> InReach(State(Bottom(rows), dl, timers), t, Plus(now, 1), Plus(now, 1))
  {
    hide Sub, Due, Plus, RowOk;
    forall i | 0 <= i < |rows| ensures RowOk(rows[i], dl, Plus(now, 1)) {
      assert RowOk(rows[i], dl, now);
      forall t | t in rows[i] ensures t in Bottom(rows) {
        BottomHoldsAll(rows, dl, now, i, t);
      }
      assert forall t :: t in rows[i] ==> !IsDue(State(Bottom(rows), dl, timers), t, now);
      NextRow(rows[i], dl, now);
    }
    assert RowOk(Bottom(rows), dl, now);
    assert forall t :: t in Bottom(rows) ==> !IsDue(State(Bottom(rows), dl, timers), t, now);
    NextRow(Bottom(rows), dl, now);
    forall t | t in timers ensures InReach(State(Bottom(rows), dl, timers), t, Plus(now, 1), Plus(now, 1)) {
      SelfInReach(State(Bottom(rows), dl, timers), t, Plus(now, 1));
    }
  }
}
