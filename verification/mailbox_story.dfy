/**
 The mailbox seen by its callers: how each call is answered, and that what was
 posted is what is handed out, told from the calls and their answers alone.
 */
module MailboxStory {
  import opened DeliveryOrder
  import opened Mailbox
  import opened WaitQueue

  /** When each call is answered how, and who waits afterwards. */
  lemma SendAnswers(s: State, a: Action)
    requires a.Send? && Enabled(s, a)
    ensures var (u, r) := Step(s, a);
            && (r == Accepted <==> s.Count() < s.size)
            && (r == Full <==> s.Count() >= s.size && a.timeout == 0)
            && (r == Suspended <==> s.Count() >= s.size && a.timeout != 0)
            && (r == Suspended ==> Joins(s.senders.waiting, u.senders.waiting, a.caller, a.prio, s.order))
            && (r != Suspended ==> u.senders.waiting == s.senders.waiting)
            && u.senders.pending == s.senders.pending - {a.caller}
            && (if r == Accepted then FirstIsResumed(s.receivers, u.receivers) else u.receivers == s.receivers)
  {
    hide Joins, Insert, FirstIsResumed;
    InsertJoins(s.senders.waiting, a.caller, a.prio, s.order);
    WakeResumes(s.receivers);
  }

  lemma UrgentAnswers(s: State, a: Action)
    requires a.Urgent?
    ensures var (u, r) := Step(s, a);
            && (r == Accepted <==> s.Count() < s.size) && (r == Full <==> s.Count() >= s.size)
            && u.senders == s.senders
            && (if r == Accepted then FirstIsResumed(s.receivers, u.receivers) else u.receivers == s.receivers)
  {
    hide FirstIsResumed;
    WakeResumes(s.receivers);
  }

  lemma ReceiveAnswers(s: State, a: Action)
    requires a.Receive? && Enabled(s, a)
    ensures var (u, r) := Step(s, a);
            && (r.Mail? <==> s.Count() > 0)
            && (r == TimedOut <==> s.Count() == 0 && a.timeout == 0)
            && (r == Suspended <==> s.Count() == 0 && a.timeout != 0)
            && (r == Suspended ==> Joins(s.receivers.waiting, u.receivers.waiting, a.caller, a.prio, s.order))
            && (r != Suspended ==> u.receivers.waiting == s.receivers.waiting)
            && u.receivers.pending == s.receivers.pending - {a.caller}
            && (if r.Mail? then FirstIsResumed(s.senders, u.senders) else u.senders == s.senders)
  {
    hide Joins, Insert, FirstIsResumed;
    InsertJoins(s.receivers.waiting, a.caller, a.prio, s.order);
    WakeResumes(s.senders);
  }

  lemma OtherAnswers(s: State, a: Action)
    requires (a.Expire? || a.Reset?) && Enabled(s, a)
    ensures var (u, r) := Step(s, a);
            && u.receivers.pending == s.receivers.pending && u.senders.pending == s.senders.pending
            && (a.Reset? ==> r == Done && u.Count() == 0 && u.receivers.waiting == [] && u.senders.waiting == [])
            && (a.Expire? ==>
                 && r == TimedOut && u.log == s.log
                 && Leaves(s.receivers.waiting, u.receivers.waiting, a.thread)
                 && Leaves(s.senders.waiting, u.senders.waiting, a.thread))
  {
    if a.Expire? {
      WithoutLeaves(s.receivers.waiting, a.thread);
      WithoutLeaves(s.senders.waiting, a.thread);
    }
  }

  ghost function Answers(s: State, run: seq<Action>): (r: seq<Outcome>)
    requires Legal(s, run)
    ensures |r| == |run|
    decreases |run|
  {
    if run == [] then [] else [Step(s, run[0]).1] + Answers(Step(s, run[0]).0, run[1..])
  }

  /** The mail receivers were handed, read off their answers. */
  function Handed(answers: seq<Outcome>): seq<int> {
    if answers == [] then []
    else (if answers[0].Mail? then [answers[0].value] else []) + Handed(answers[1..])
  }

  /** The mail that was accepted, each with its urgency, read off the calls and their answers. */
  function Posted(run: seq<Action>, answers: seq<Outcome>): seq<(int, bool)>
    requires |run| == |answers|
  {
    if run == [] then []
    else
      (if answers[0] == Accepted && run[0].Send? then [(run[0].value, false)]
       else if answers[0] == Accepted && run[0].Urgent? then [(run[0].urgent, true)]
       else []) + Posted(run[1..], answers[1..])
  }

  ghost function Letters(q: seq<Item<int>>): (s: seq<(int, bool)>)
    ensures |s| == |q| && forall i :: 0 <= i < |q| ==> s[i] == (q[i].body, q[i].urgent)
  {
    seq(|q|, i requires 0 <= i < |q| => (q[i].body, q[i].urgent))
  }

  /** What one answer adds to the accounts. */
  lemma StepAccounts(s: State, a: Action)
    requires Enabled(s, a)
    ensures var (u, r) := Step(s, a);
            && Bodies(u.log.received) == Bodies(s.log.received) + Handed([r])
            && Letters(u.log.sent) == Letters(s.log.sent) + Posted([a], [r])
            && u.log.dropped == (if a.Reset? then s.log.dropped + s.log.queued else s.log.dropped)
            && u.size == s.size && u.order == s.order
  {
    var (u, r) := Step(s, a);
    assert Handed([r]) == if r.Mail? then [r.value] else [];
    assert Posted([a], [r]) == if r == Accepted && a.Send? then [(a.value, false)]
                               else if r == Accepted && a.Urgent? then [(a.urgent, true)] else [];
  }

  /**
   In every run the answers of the receivers are what the log says was received,
   in that order, and what it says was sent are the arguments of the calls that
   were accepted; only a reset drops anything.
   */
  lemma {:induction false} AnswersAreTheLog(s: State, run: seq<Action>)
    requires Legal(s, run)
    ensures var l := After(s, run).log;
            && Bodies(l.received) == Bodies(s.log.received) + Handed(Answers(s, run))
            && Letters(l.sent) == Letters(s.log.sent) + Posted(run, Answers(s, run))
            && ((forall i :: 0 <= i < |run| ==> !run[i].Reset?) ==> l.dropped == s.log.dropped)
    decreases |run|
  {
    hide Step, Bodies, Letters;
    if run != [] {
      var (u, r) := Step(s, run[0]);
      StepAccounts(s, run[0]);
      AnswersAreTheLog(u, run[1..]);
      assert Answers(s, run)[1..] == Answers(u, run[1..]);
    }
  }

  /**
   Seen from outside, from the empty box on: without urgent mail and resets the
   receivers have been handed the first of the accepted values, in order and each
   once, and what is still missing is no more than the box holds.
   */
  lemma WhatGoesInComesOut(size: nat, order: Order, run: seq<Action>)
    requires Legal(Empty(size, order), run) && Plain(run)
    ensures var answers := Answers(Empty(size, order), run);
            var (posted, handed) := (Posted(run, answers), Handed(answers));
            && |handed| <= |posted| <= |handed| + size
            && forall i :: 0 <= i < |handed| ==> posted[i] == (handed[i], false)
  {
    var s := Empty(size, order);
    NothingIsGood<int>();
    EveryRunKeepsInv(s, run);
    AnswersAreTheLog(s, run);
    PlainRunsAreFifo(s, run);
    SizeIsKept(s, run);
    var l, posted, handed := After(s, run).log, Posted(run, Answers(s, run)), Handed(Answers(s, run));
    assert Letters(l.sent) == posted && Bodies(l.received) == handed;
    forall i | 0 <= i < |handed| ensures posted[i] == (handed[i], false) {
      assert posted[i] == (l.sent[i].body, l.sent[i].urgent) && handed[i] == l.received[i].body && l.sent[i] == l.received[i];
      PlainStaysPlain(s, run);
    }
  }

  lemma {:induction false} SizeIsKept(s: State, run: seq<Action>)
    requires Legal(s, run)
    ensures After(s, run).size == s.size
    decreases |run|
  {
    if run != [] { SizeIsKept(Step(s, run[0]).0, run[1..]); }
  }
}
