/** Timers over many ticks: when each of them fires. */
module Periodic {
  import opened Arithmetic
  import opened Common
  import opened Sequences
  import opened Ticks
  import opened SkipList
  import opened Timers

  /** What a timer that fired does next, by its kind and by what its callback did to it. */
  lemma ComesBackIff(s: State, u: State, now: nat, fired: seq<Tid>, t: Tid)
    requires Ticked(s, u, now, fired) && t in fired && t in s.timers && Distinct(s.queue)
    ensures t in u.queue <==> (match s.timers[t].callback
                               case Nothing => s.timers[t].periodic
                               case StopSelf => false
                               case RestartSelf => true)
    ensures t in u.queue ==> now < TICKS && s.timers[t].init < TICKS && t in u.dl && u.dl[t] == Plus(now, s.timers[t].init)
  {
    Fired(s, fired, t);
    assert DeadlineIs(s, u, t, Comes(s, t), now);
  }

  lemma Fired(s: State, fired: seq<Tid>, t: Tid)
    requires fired <= s.queue && Distinct(s.queue)
    ensures t in fired <==> t in s.queue[..|fired|]
    ensures t in fired ==> t !in s.queue[|fired|..]
    ensures t in s.queue && t !in fired ==> t in s.queue[|fired|..]
  {
    var k := |fired|;
    assert s.queue[..k] == fired;
    assert s.queue == s.queue[..k] + s.queue[k..];
    assert forall j :: k <= j < |s.queue| ==> s.queue[k..][j - k] == s.queue[j];
  }

  /** A timer that did not fire keeps its deadline, and no other timer's object changes but in being armed. */
  lemma Waits(s: State, u: State, now: nat, fired: seq<Tid>, t: Tid)
    requires Ticked(s, u, now, fired) && t in s.queue && t !in fired && t in s.timers && Distinct(s.queue)
    ensures t in u.queue && t in u.timers && u.timers[t] == s.timers[t] && (t in s.dl ==> t in u.dl && u.dl[t] == s.dl[t])
  {
    Fired(s, fired, t);
    assert DeadlineIs(s, u, t, false, now);
  }

  /** `t` is armed and has `left` ticks to go. */
  ghost predicate Pending(s: State, t: Tid, now: nat, left: nat) {
    && t in s.timers && t in s.queue && s.timers[t].init < HALF && now < TICKS
    && 0 < left <= s.timers[t].init && t in s.dl && s.dl[t] == Plus(now, left)
  }

  predicate Recurs(x: Timer) { x.periodic && x.callback.Nothing? }

  /** One tick: it fires exactly if it had one tick to go, and then has a full interval again. */
  lemma TickPending(s: State, u: State, now: nat, fired: seq<Tid>, t: Tid, left: nat)
    requires Pending(s, t, now, left) && Ticked(s, u, Plus(now, 1), fired) && Distinct(s.queue) && Recurs(s.timers[t])
    ensures t in fired <==> left == 1
    ensures Pending(u, t, Plus(now, 1), if left == 1 then s.timers[t].init else left - 1)
    ensures t in u.timers && u.timers[t].init == s.timers[t].init && Recurs(u.timers[t])
  {
    if t in fired {
      ComesBackIff(s, u, Plus(now, 1), fired, t);
    } else {
      Waits(s, u, Plus(now, 1), fired, t);
    }
  }

  function TickAt(now: nat, k: nat): (r: nat)
    requires now < TICKS
    ensures r < TICKS
  {
    if k == 0 then now else Plus(TickAt(now, k - 1), 1)
  }

  /** The states of a run of ticks, and what fired at each. */
  ghost predicate Ticking(states: seq<State>, fired: seq<seq<Tid>>, now: nat) {
    && now < TICKS && |states| == |fired| + 1 && (forall k :: 0 <= k < |states| ==> Distinct(states[k].queue))
    && forall k :: 0 <= k < |fired| ==> Ticked(states[k], states[k + 1], TickAt(now, k + 1), fired[k])
  }

  /** Ticks to go after `k` ticks, of `left` at first and `every` from then on. */
  function Left(left: nat, every: nat, k: nat): (r: nat)
    requires 0 < left <= every
    ensures 0 < r <= every
  {
    if k == 0 then left else if Left(left, every, k - 1) == 1 then every else Left(left, every, k - 1) - 1
  }

  lemma {:induction false} StaysPending(states: seq<State>, fired: seq<seq<Tid>>, now: nat, t: Tid, left: nat, k: nat)
    requires Ticking(states, fired, now) && Pending(states[0], t, now, left) && Recurs(states[0].timers[t]) && k <= |fired|
    ensures var every := states[0].timers[t].init;
            && Pending(states[k], t, TickAt(now, k), Left(left, every, k))
            && states[k].timers[t].init == every && Recurs(states[k].timers[t])
  {
    hide Ticked, Distinct;
    if k > 0 {
      StaysPending(states, fired, now, t, left, k - 1);
      assert Ticked(states[k - 1], states[k - 1 + 1], TickAt(now, k - 1 + 1), fired[k - 1]);
      TickPending(states[k - 1], states[k], TickAt(now, k - 1), fired[k - 1], t, Left(left, states[0].timers[t].init, k - 1));
    }
  }

  /** `Left` counts down to the next multiple of the interval. */
  lemma {:induction false} LeftIs(left: nat, every: nat, k: nat)
    requires 0 < left <= every
    ensures exists m: int :: k + Left(left, every, k) == left + m * every && m >= 0
  {
    if k == 0 {
      assert 0 + Left(left, every, 0) == left + 0 * every;
    } else {
      LeftIs(left, every, k - 1);
      var m: int :| k - 1 + Left(left, every, k - 1) == left + m * every && m >= 0;
      if Left(left, every, k - 1) == 1 {
        assert k + Left(left, every, k) == left + (m + 1) * every;
      } else {
        assert k + Left(left, every, k) == left + m * every;
      }
    }
  }

  lemma OnlyMultiples(left: nat, every: nat, k: nat)
    requires 0 < left <= every
    ensures Left(left, every, k) == 1 <==> k + 1 >= left && (k + 1 - left) % every == 0
  {
    LeftIs(left, every, k);
    var m: int :| k + Left(left, every, k) == left + m * every && m >= 0;
    FullTurns(k + 1 - left, m, every, Left(left, every, k) - 1);
  }

  lemma FullTurns(x: int, m: nat, every: nat, short: nat)
    requires x + short == m * every && short < every
    ensures short == 0 <==> x >= 0 && x % every == 0
  {
    if short == 0 {
      Exact(m, every, x);
    } else if x >= 0 && x % every == 0 {
      var q := x / every;
      assert x == q * every;
      assert short == (m - q) * every;
      BetweenMultiples(m - q, every, short);
    }
  }

  lemma BetweenMultiples(d: int, every: nat, x: int)
    requires 0 <= x < every && x == d * every
    ensures x == 0
  {
    if d >= 1 {
      Times(1, d, every);
    } else if d <= -1 {
      Times(1, -d, every);
    }
  }

  /**
   A periodic timer fires first when its deadline comes and then every interval,
   at no other tick, for as long as the ticks go on and however often the tick
   counter wraps around, whatever other timers there are.
   */
  lemma PeriodicTimersKeepTime(states: seq<State>, fired: seq<seq<Tid>>, now: nat, t: Tid, left: nat, k: nat)
    requires Ticking(states, fired, now) && Pending(states[0], t, now, left) && Recurs(states[0].timers[t]) && k < |fired|
    ensures t in fired[k] <==> k + 1 >= left && (k + 1 - left) % states[0].timers[t].init == 0
  {
    hide Ticked, Distinct;
    var every := states[0].timers[t].init;
    StaysPending(states, fired, now, t, left, k);
    assert Ticked(states[k], states[k + 1], TickAt(now, k + 1), fired[k]);
    TickPending(states[k], states[k + 1], TickAt(now, k), fired[k], t, Left(left, every, k));
    OnlyMultiples(left, every, k);
  }

  /** A one-shot timer fires when its deadline comes and is not armed afterwards. */
  lemma OneShotFiresOnce(s: State, u: State, now: nat, fired: seq<Tid>, t: Tid, left: nat)
    requires Pending(s, t, now, left) && Ticked(s, u, Plus(now, 1), fired) && Distinct(s.queue)
    requires !s.timers[t].periodic && s.timers[t].callback.Nothing?
    ensures t in fired <==> left == 1
    ensures if left == 1 then t !in u.queue else Pending(u, t, Plus(now, 1), left - 1)
  {
    if t in fired {
      ComesBackIff(s, u, Plus(now, 1), fired, t);
    } else {
      Waits(s, u, Plus(now, 1), fired, t);
    }
  }
}
