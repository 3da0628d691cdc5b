/** The iterator over past events, run step by step against a concurrent subscription. */
module LogIterator {
  import opened Bytes
  import opened EventLogs

  /** Where the consumer is: outside `Next`, at its start, in the blocking select, or in the draining one. */
  datatype Position = Outside | Entered | Selecting | Draining

  /** The iterator's fields, the consumer's position, and the history of the run. */
  datatype State = State(
    feed: Feed,
    event: Option<Event>, done: bool, fail: Option<Fault>,
    at: Position, depth: nat,
    delivered: seq<Event>, lost: seq<Log>, answers: seq<bool>)

  datatype Action =
    | Environment(step: FeedAction)
    | Call
    | Branch
    | TakeLog
    | TakeError
    | FindNothing

  function Start(all: seq<Log>): State
  {
    State(NewFeed(all), None, false, None, Outside, 0, [], [], [])
  }

  /** A query for past logs ends without error only when it has sent them all or has been asked to stop. */
  predicate QueryEnds(f: Feed, a: FeedAction)
  {
    a == End(None) ==> f.unsent == [] || f.stopped
  }

  predicate Enabled(c: Setup, s: State, a: Action)
  {
    match a
    case Environment(step) => FeedEnabled(c, s.feed, step) && QueryEnds(s.feed, step)
    case Call => s.at.Outside?
    case Branch => s.at.Entered?
    case TakeLog => (s.at.Selecting? || s.at.Draining?) && s.feed.logs != []
    case TakeError => s.at.Selecting? && s.feed.Ready()
    case FindNothing => s.at.Draining? && s.feed.logs == []
  }

  function Return(s: State, answer: bool): State
  {
    s.(at := Outside, depth := 0, answers := s.answers + [answer])
  }

  function Step(c: Setup, s: State, a: Action): State
    requires Enabled(c, s, a)
  {
    match a
    case Environment(step) => s.(feed := FeedStep(c, s.feed, step))
    case Call => s.(at := Entered)
    case Branch =>
      if s.fail.Some? then Return(s, false)
      else s.(at := if s.done then Draining else Selecting)
    case TakeLog =>
      var log := s.feed.logs[0];
      var taken := s.(feed := s.feed.(logs := s.feed.logs[1..]));
      if c.Unpacks(log) then
        Return(taken.(event := Some(c.EventOf(log)), delivered := s.delivered + [c.EventOf(log)]), true)
      else
        var unpacked := c.unpack(log);
        Return(taken.(event := Some(unpacked.event), fail := unpacked.fault, lost := s.lost + [log]), false)
    case TakeError =>
      s.(feed := s.feed.(waiting := None), done := true, fail := s.feed.waiting, at := Entered, depth := s.depth + 1)
    case FindNothing => Return(s, false)
  }

  /** Whether the actions can be taken one after the other. */
  predicate Allowed(c: Setup, s: State, actions: seq<Action>)
    decreases |actions|
  {
    actions == [] || (Enabled(c, s, actions[0]) && Allowed(c, Step(c, s, actions[0]), actions[1..]))
  }

  function Run(c: Setup, s: State, actions: seq<Action>): State
    requires Allowed(c, s, actions)
    decreases |actions|
  {
    if actions == [] then s else Run(c, Step(c, s, actions[0]), actions[1..])
  }

  //
  // What every run keeps
  //

  /** The delivered events are those of the first logs, in order, and the remaining logs are all accounted for. */
  predicate Conserved(c: Setup, all: seq<Log>, s: State)
  {
    Accounted(c, all, s.delivered, s.lost + (s.feed.logs + s.feed.unsent)) && |s.lost| <= 1
  }

  /** Why the iterator has failed: by the log it lost or the subscription's error, the latter unless it was closed. */
  predicate FailureExplained(c: Setup, s: State)
  {
    && (s.lost != [] ==> s.fail.Some? && s.fail == c.unpack(s.lost[0]).fault)
    && (s.fail.Some? && s.lost == [] ==> s.done && s.feed.producer == Ended(s.fail) && !s.feed.stopped)
    && (s.fail.None? && s.done && !s.feed.stopped ==> s.feed.producer == Ended(None))
    && (s.feed.producer == Ended(None) && !s.feed.stopped ==> s.feed.unsent == [])
    && (!s.done && s.feed.producer.Ended? && !s.feed.stopped ==> s.feed.waiting == s.feed.producer.error)
  }

  /** The consumer's position agrees with the iterator's fields, and the self-call is nested at most once. */
  predicate Positioned(s: State)
  {
    && s.depth <= 1
    && (s.depth == 1 ==> s.done)
    && (s.at.Outside? ==> s.depth == 0)
    && (s.at.Selecting? ==> s.fail.None? && !s.done && s.depth == 0)
    && (s.at.Draining? ==> s.fail.None? && s.done)
    && (s.done ==> s.feed.producer.Ended?)
  }

  /** Nothing more will be delivered. */
  predicate Finished(s: State)
  {
    s.fail.Some? || (s.done && s.feed.logs == [])
  }

  predicate TrueThenFalse(answers: seq<bool>)
  {
    forall i, j :: 0 <= i < j < |answers| && answers[j] ==> answers[i]
  }

  /** After `true` the iterator holds the event delivered last. */
  predicate HoldsLast(s: State)
  {
    s.answers != [] && s.answers[|s.answers| - 1] ==>
      s.delivered != [] && s.event == Some(s.delivered[|s.delivered| - 1])
  }

  /** The event field: nothing at first, then the event delivered last, or what a log that failed left there. */
  predicate EventKept(c: Setup, s: State)
  {
    s.event ==
      if s.lost != [] then Some(c.unpack(s.lost[0]).event)
      else if s.delivered != [] then Some(s.delivered[|s.delivered| - 1])
      else None
  }

  predicate Answered(s: State)
  {
    && TrueThenFalse(s.answers)
    && (false in s.answers ==> Finished(s))
    && |s.delivered| == Trues(s.answers)
    && HoldsLast(s)
  }

  function Trues(answers: seq<bool>): nat
  {
    if answers == [] then 0
    else Trues(answers[..|answers| - 1]) + (if answers[|answers| - 1] then 1 else 0)
  }

  predicate Invariant(c: Setup, all: seq<Log>, s: State)
  {
    && s.feed.Consistent(c)
    && Conserved(c, all, s)
    && FailureExplained(c, s)
    && Positioned(s)
    && Answered(s)
    && EventKept(c, s)
  }

  lemma EnvironmentKeeps(c: Setup, all: seq<Log>, s: State, step: FeedAction)
    requires Invariant(c, all, s) && Enabled(c, s, Environment(step))
    ensures Invariant(c, all, Step(c, s, Environment(step)))
  {
    FeedStepKeeps(c, s.feed, step);
  }

  lemma TakeLogConserves(c: Setup, all: seq<Log>, s: State)
    requires Conserved(c, all, s) && s.lost == [] && Enabled(c, s, TakeLog)
    ensures Conserved(c, all, Step(c, s, TakeLog))
  {
    hide Accounted;
    var log := s.feed.logs[0];
    var rest := s.feed.logs[1..] + s.feed.unsent;
    TakeFirst(s.feed.logs, s.feed.unsent);
    assert s.lost + (s.feed.logs + s.feed.unsent) == s.feed.logs + s.feed.unsent;
    if c.Unpacks(log) {
      AccountedFirst(c, all, s.delivered, s.feed.logs + s.feed.unsent);
      assert [] + rest == rest;
    } else {
      assert [] + [log] == [log];
    }
  }

  lemma OneMoreAnswer(answers: seq<bool>, answer: bool)
    requires TrueThenFalse(answers) && (answer ==> false !in answers)
    ensures TrueThenFalse(answers + [answer])
    ensures Trues(answers + [answer]) == Trues(answers) + if answer then 1 else 0
  {
    assert (answers + [answer])[..|answers|] == answers;
  }

  lemma ReturnAnswers(s: State, t: State, answer: bool)
    requires Answered(s) && (answer ==> !Finished(s)) && t.answers == s.answers + [answer]
    requires |t.delivered| == |s.delivered| + (if answer then 1 else 0)
    requires answer ==> t.event == Some(t.delivered[|s.delivered|])
    requires !answer ==> Finished(t)
    ensures Answered(t)
  {
    hide Finished, TrueThenFalse, Trues;
    OneMoreAnswer(s.answers, answer);
    assert t.answers[|t.answers| - 1] == answer;
  }

  lemma TakeLogKeeps(c: Setup, all: seq<Log>, s: State)
    requires Invariant(c, all, s) && Enabled(c, s, TakeLog)
    ensures Invariant(c, all, Step(c, s, TakeLog))
  {
    hide Conserved, Answered;
    var t := Step(c, s, TakeLog);
    assert s.lost == [];
    TakeLogConserves(c, all, s);
    ReturnAnswers(s, t, c.Unpacks(s.feed.logs[0]));
  }

  lemma ConsumerKeeps(c: Setup, all: seq<Log>, s: State, a: Action)
    requires Invariant(c, all, s) && Enabled(c, s, a) && !a.TakeLog? && !a.Environment?
    ensures Invariant(c, all, Step(c, s, a))
  {
    var t := Step(c, s, a);
    assert Conserved(c, all, t) && EventKept(c, t);
    hide Conserved, EventKept, Trues, TrueThenFalse;
    assert FailureExplained(c, t) && Positioned(t);
    if t.answers != s.answers {
      hide Answered, FailureExplained, Positioned;
      ReturnAnswers(s, t, false);
    }
  }

  lemma StepKeeps(c: Setup, all: seq<Log>, s: State, a: Action)
    requires Invariant(c, all, s) && Enabled(c, s, a)
    ensures Invariant(c, all, Step(c, s, a))
  {
    hide Invariant, Step;
    match a
    case Environment(step) => EnvironmentKeeps(c, all, s, step);
    case TakeLog => TakeLogKeeps(c, all, s);
    case _ => ConsumerKeeps(c, all, s, a);
  }

  lemma {:induction false} RunKeeps(c: Setup, all: seq<Log>, s: State, actions: seq<Action>)
    requires Invariant(c, all, s) && Allowed(c, s, actions)
    ensures Invariant(c, all, Run(c, s, actions))
    decreases |actions|
  {
    hide Invariant, Step;
    if actions != [] {
      StepKeeps(c, all, s, actions[0]);
      RunKeeps(c, all, Step(c, s, actions[0]), actions[1..]);
    }
  }

  //
  // The theorems, over every interleaving of consumer and producer
  //

  lemma Reachable(c: Setup, all: seq<Log>, actions: seq<Action>)
    requires Allowed(c, Start(all), actions)
    ensures Invariant(c, all, Run(c, Start(all), actions))
  {
    assert all[0..] == [] + ([] + all);
    RunKeeps(c, all, Start(all), actions);
  }

  /** Safety: delivered, lost, buffered and unsent logs are the producer's sequence, in order. */
  lemma Conservation(c: Setup, all: seq<Log>, actions: seq<Action>)
    requires Allowed(c, Start(all), actions)
    ensures var s := Run(c, Start(all), actions);
            && Conserved(c, all, s)
            && (s.lost == [] || (s.lost == [all[|s.delivered|]] && !c.Unpacks(all[|s.delivered|])))
  {
    Reachable(c, all, actions);
    var s := Run(c, Start(all), actions);
    if s.lost != [] {
      AccountedFirst(c, all, s.delivered, s.lost + (s.feed.logs + s.feed.unsent));
    }
  }

  /** The logs that have been sent: all but the unsent ones. */
  function Sent(all: seq<Log>, s: State): seq<Log>
  {
    if |s.feed.unsent| <= |all| then all[..|all| - |s.feed.unsent|] else []
  }

  predicate AllUnpack(c: Setup, logs: seq<Log>)
  {
    forall l :: l in logs ==> c.Unpacks(l)
  }

  /** The sent logs are those delivered, the one lost, if any, and those in the channel. */
  lemma SentLogs(c: Setup, all: seq<Log>, s: State)
    requires Conserved(c, all, s)
    ensures |s.delivered| <= |all| && |s.feed.unsent| <= |all|
    ensures Sent(all, s) == all[..|s.delivered|] + (s.lost + s.feed.logs)
    ensures s.feed.unsent == [] ==> Sent(all, s) == all
  {
    var rest := s.lost + (s.feed.logs + s.feed.unsent);
    assert all == all[..|s.delivered|] + rest;
    assert rest == (s.lost + s.feed.logs) + s.feed.unsent;
  }

  lemma DeliveredUnpack(c: Setup, all: seq<Log>, s: State)
    requires Conserved(c, all, s)
    ensures |s.delivered| <= |all|
    ensures AllUnpack(c, all[..|s.delivered|]) && EventsOf(c, s.delivered, all[..|s.delivered|])
  {
    var taken := all[..|s.delivered|];
    forall l | l in taken ensures c.Unpacks(l) {
      var i :| 0 <= i < |taken| && l == taken[i];
      assert l == all[i];
    }
  }

  lemma InvariantShows(c: Setup, all: seq<Log>, s: State)
    requires Invariant(c, all, s)
    ensures s.feed.Consistent(c) && Positioned(s)
    ensures false in s.answers ==> Finished(s)
    ensures s.lost != [] ==> s.fail.Some?
    ensures |s.feed.unsent| <= |all| && (s.feed.unsent == [] ==> Sent(all, s) == all)
    ensures s.feed.producer == Ended(None) && !s.feed.stopped ==> s.feed.unsent == []
  {
    hide Sent;
    SentLogs(c, all, s);
  }

  lemma FinishedWell(c: Setup, all: seq<Log>, s: State)
    requires Invariant(c, all, s) && Finished(s) && s.fail.None?
    ensures s.feed.logs == [] && EventsOf(c, s.delivered, Sent(all, s)) && AllUnpack(c, Sent(all, s))
    ensures s.feed.stopped || (s.feed.producer == Ended(None) && s.feed.unsent == [])
  {
    hide Conserved, Answered, AllUnpack, Sent;
    SentLogs(c, all, s);
    DeliveredUnpack(c, all, s);
    assert all[..|s.delivered|] + ([] + []) == all[..|s.delivered|];
  }

  lemma FinishedBadly(c: Setup, all: seq<Log>, s: State)
    requires Invariant(c, all, s) && s.fail.Some?
    ensures !AllUnpack(c, Sent(all, s)) || (s.feed.producer != Ended(None) && !s.feed.stopped)
  {
    hide Conserved, Answered, Sent;
    SentLogs(c, all, s);
    if s.lost != [] {
      assert s.lost[0] in Sent(all, s) && !c.Unpacks(s.lost[0]);
    }
  }

  /**
   Completeness: `Next` returns false without an error exactly when the subscription ended without one, or was
   closed, and every log that was sent unpacks; all of them have then been delivered. So when the iterator is
   not closed, the subscription ends without error and every log unpacks, every log is delivered.
   */
  lemma Completeness(c: Setup, all: seq<Log>, actions: seq<Action>)
    requires Allowed(c, Start(all), actions)
    ensures var s := Run(c, Start(all), actions);
            false in s.answers ==>
              && |s.feed.unsent| <= |all|
              && (s.fail.None? <==>
                    (s.feed.producer == Ended(None) || s.feed.stopped) && AllUnpack(c, Sent(all, s)))
              && (s.fail.None? ==> s.feed.logs == [] && EventsOf(c, s.delivered, Sent(all, s)))
              && (!s.feed.stopped ==>
                    && (s.fail.None? <==> s.feed.producer == Ended(None) && AllUnpack(c, all))
                    && (s.fail.None? ==> EventsOf(c, s.delivered, all)))
  {
    hide Invariant, AllUnpack, Sent, Finished, Run, Allowed;
    Reachable(c, all, actions);
    var s := Run(c, Start(all), actions);
    InvariantShows(c, all, s);
    if false in s.answers && s.fail.None? {
      FinishedWell(c, all, s);
    } else if false in s.answers {
      FinishedBadly(c, all, s);
    }
  }

  /**
   What an event holds, in every run: the log it was made from, and the fields that unpacking read from that log.
   The event field has the one delivered last, or what unpacking left in a new event when it failed.
   */
  lemma DeliveredEvents(c: Setup, all: seq<Log>, actions: seq<Action>)
    requires Allowed(c, Start(all), actions)
    ensures var s := Run(c, Start(all), actions);
            && |s.delivered| <= |all|
            && (forall i :: 0 <= i < |s.delivered| ==>
                  var e, unpacked := s.delivered[i], c.unpack(all[i]).event;
                  && e.raw == Some(all[i])
                  && e.identity == unpacked.identity && e.signer == unpacked.signer && e.expiry == unpacked.expiry
                  && e.permissions == unpacked.permissions && e.origin == unpacked.origin)
            && EventKept(c, s)
  {
    Reachable(c, all, actions);
  }

  /** The consumer sees `true` for each delivered event, then only `false`; there are no more `true`s than logs. */
  lemma AnswersAreTrueThenFalse(c: Setup, all: seq<Log>, actions: seq<Action>)
    requires Allowed(c, Start(all), actions)
    ensures var s := Run(c, Start(all), actions);
            && |s.delivered| <= |s.answers|
            && (forall i :: 0 <= i < |s.answers| ==> (s.answers[i] <==> i < |s.delivered|))
            && |s.delivered| <= |all|
  {
    Reachable(c, all, actions);
    CountLeading(Run(c, Start(all), actions).answers);
  }

  lemma {:induction false} CountLeading(answers: seq<bool>)
    requires forall i, j :: 0 <= i < j < |answers| && answers[j] ==> answers[i]
    ensures Trues(answers) <= |answers|
    ensures forall i :: 0 <= i < |answers| ==> (answers[i] <==> i < Trues(answers))
  {
    if answers != [] {
      CountLeading(answers[..|answers| - 1]);
    }
  }

  /** The nested call of `Next` does not nest further. */
  lemma DepthAtMostOne(c: Setup, all: seq<Log>, actions: seq<Action>)
    requires Allowed(c, Start(all), actions)
    ensures Run(c, Start(all), actions).depth <= 1
  {
    Reachable(c, all, actions);
  }

  /**
   After a failure, or once drained, nothing changes but the answers, which are all `false`, and the
   producer's side, from which the iterator takes nothing.
   */
  lemma {:induction false} FinishedIsFinal(c: Setup, s: State, actions: seq<Action>)
    requires s.feed.Consistent(c) && Positioned(s) && Finished(s) && Allowed(c, s, actions)
    ensures var t := Run(c, s, actions);
            && Finished(t) && t.fail == s.fail && t.done == s.done
            && t.event == s.event && t.delivered == s.delivered && t.lost == s.lost
            && t.feed.logs + t.feed.unsent == s.feed.logs + s.feed.unsent
            && (s.done ==> t.feed.logs == s.feed.logs)
            && s.answers <= t.answers
            && (forall i :: |s.answers| <= i < |t.answers| ==> !t.answers[i])
    decreases |actions|
  {
    if actions != [] {
      FinishedStep(c, s, actions[0]);
      FinishedIsFinal(c, Step(c, s, actions[0]), actions[1..]);
    }
  }

  lemma FinishedStep(c: Setup, s: State, a: Action)
    requires s.feed.Consistent(c) && Positioned(s) && Finished(s) && Enabled(c, s, a)
    ensures var t := Step(c, s, a);
            && t.feed.Consistent(c) && Positioned(t) && Finished(t)
            && t.fail == s.fail && t.done == s.done
            && t.event == s.event && t.delivered == s.delivered && t.lost == s.lost
            && t.feed.logs + t.feed.unsent == s.feed.logs + s.feed.unsent
            && (s.done ==> t.feed.logs == s.feed.logs)
            && (t.answers == s.answers || t.answers == s.answers + [false])
  {
    if a.Environment? {
      FeedStepKeeps(c, s.feed, a.step);
    }
  }

  /** Drained or failed by a log: the subscription's end was read, and it was no error. */
  predicate EndedCleanly(s: State)
  {
    s.done && (s.fail.Some? ==> s.lost != [])
  }

  lemma {:induction false} StaysClean(c: Setup, s: State, actions: seq<Action>)
    requires Positioned(s) && EndedCleanly(s) && Allowed(c, s, actions)
    ensures EndedCleanly(Run(c, s, actions))
    decreases |actions|
  {
    if actions != [] {
      StaysClean(c, Step(c, s, actions[0]), actions[1..]);
    }
  }

  /**
   Whether the end of the subscription discards logs: when its error branch is taken, the logs in the channel
   are all read in later calls, up to one that does not unpack, exactly when no error waits there or the
   channel is empty. Otherwise they all stay in the channel for good.
   */
  lemma DiscardedExactly(c: Setup, all: seq<Log>, before: seq<Action>, after: seq<Action>)
    requires Allowed(c, Start(all), before)
    requires Enabled(c, Run(c, Start(all), before), TakeError)
    requires Allowed(c, Step(c, Run(c, Start(all), before), TakeError), after)
    ensures var s := Run(c, Start(all), before);
            var t := Run(c, Step(c, s, TakeError), after);
            && (false in t.answers ==>
                  (t.feed.logs == [] || t.lost != [] <==> s.feed.waiting.None? || s.feed.logs == []))
            && (s.feed.waiting.Some? ==> t.feed.logs == s.feed.logs && t.delivered == s.delivered)
  {
    hide Invariant, Allowed, Run;
    Reachable(c, all, before);
    var s := Run(c, Start(all), before);
    InvariantShows(c, all, s);
    var u := Step(c, s, TakeError);
    StepKeeps(c, all, s, TakeError);
    InvariantShows(c, all, u);
    RunKeeps(c, all, u, after);
    var t := Run(c, u, after);
    InvariantShows(c, all, t);
    if s.feed.waiting.Some? {
      FinishedIsFinal(c, u, after);
    } else {
      StaysClean(c, u, after);
    }
  }

  /** Steps left before the run can only go on by calling `Next` again. */
  function Measure(s: State): nat
  {
    FeedMeasure(s.feed) + Remaining(s)
  }

  /**
   Between calls a run is short, and where it can go no further `Next` has returned: every call returns, unless
   the other side leaves both the channel and the subscription silent for ever.
   */
  lemma {:induction false} EveryCallReturns(c: Setup, s: State, actions: seq<Action>)
    requires c.capacity > 0 && Positioned(s) && s.feed.Consistent(c) && Allowed(c, s, actions) && Call !in actions
    ensures var t := Run(c, s, actions);
            && |actions| + Measure(t) <= Measure(s)
            && ((forall a :: a != Call ==> !Enabled(c, t, a)) ==> t.at.Outside?)
    decreases |actions|
  {
    if actions == [] {
      if !s.at.Outside? { NextIsNeverStuck(c, s); }
    } else {
      StepDecreases(c, s, actions[0]);
      EveryCallReturns(c, Step(c, s, actions[0]), actions[1..]);
    }
  }

  lemma StepDecreases(c: Setup, s: State, a: Action)
    requires Positioned(s) && s.feed.Consistent(c) && Enabled(c, s, a) && a != Call
    ensures var t := Step(c, s, a);
            Measure(t) < Measure(s) && Positioned(t) && t.feed.Consistent(c)
  {
    if a.Environment? {
      hide FeedMeasure, FeedStep;
      FeedStepKeeps(c, s.feed, a.step);
      FeedStepDecreases(c, s.feed, a.step);
    } else {
      ConsumerDecreases(c, s, a);
    }
  }

  /** The consumer's share of the steps left. */
  function Remaining(s: State): nat
  {
    match s.at
    case Outside => 0
    case Draining => 1
    case Entered => if s.done || s.fail.Some? then 2 else 4
    case Selecting => 3
  }

  lemma ConsumerDecreases(c: Setup, s: State, a: Action)
    requires Positioned(s) && s.feed.Consistent(c) && Enabled(c, s, a) && a != Call && !a.Environment?
    ensures var t := Step(c, s, a);
            Measure(t) < Measure(s) && Positioned(t) && t.feed.Consistent(c)
  {
    var t := Step(c, s, a);
    assert Remaining(t) < Remaining(s);
    assert FeedMeasure(t.feed) <= FeedMeasure(s.feed);
    hide FeedMeasure, Remaining;
  }

  /** Inside `Next` the consumer or the producer can always take a step. */
  lemma NextIsNeverStuck(c: Setup, s: State)
    requires c.capacity > 0 && !s.at.Outside?
    ensures || Enabled(c, s, Branch) || Enabled(c, s, TakeLog) || Enabled(c, s, TakeError) || Enabled(c, s, FindNothing)
            || Enabled(c, s, Environment(Send)) || Enabled(c, s, Environment(End(None)))
  {
  }

  //
  // The iterator itself
  //

  /** Whether `t` is reached from `s` by the actions. */
  predicate Follows(c: Setup, s: State, actions: seq<Action>, t: State)
  {
    Allowed(c, s, actions) && Run(c, s, actions) == t
  }

  lemma FollowsStep(c: Setup, s: State, a: Action, actions: seq<Action>, t: State)
    requires Enabled(c, s, a) && Follows(c, Step(c, s, a), actions, t)
    ensures Follows(c, s, [a] + actions, t)
  {
    assert ([a] + actions)[1..] == actions;
  }

  lemma StepFollows(c: Setup, s: State, actions: seq<Action>, t: State)
    requires Follows(c, s, actions, t)
    ensures if actions == [] then s == t
            else Enabled(c, s, actions[0]) && Follows(c, Step(c, s, actions[0]), actions[1..], t)
  {
  }

  lemma FollowsRun(c: Setup, s: State, actions: seq<Action>)
    requires Allowed(c, s, actions)
    ensures Follows(c, s, actions, Run(c, s, actions))
  {
  }

  lemma FollowsNone(c: Setup, s: State)
    ensures Follows(c, s, [], s)
  {
  }

  lemma {:induction false} FollowsMore(c: Setup, s: State, past: seq<Action>, t: State, more: seq<Action>, u: State)
    requires Follows(c, s, past, t) && Follows(c, t, more, u)
    ensures Follows(c, s, past + more, u)
    decreases |past|
  {
    hide Step, Enabled;
    if past == [] {
      assert past + more == more;
    } else {
      FollowsMore(c, Step(c, s, past[0]), past[1..], t, more, u);
      assert (past + more)[1..] == past[1..] + more;
    }
  }

  /** A run in which an error discards the log that is in the channel. */
  lemma ErrorDiscardsLogs(c: Setup, log: Log, error: Fault) returns (actions: seq<Action>, t: State)
    requires c.capacity > 0
    ensures Follows(c, Start([log]), actions, t)
    ensures t.answers == [false] && t.fail == Some(error) && t.delivered == [] && t.lost == [] && t.feed.logs == [log]
  {
    var s0 := Start([log]);
    var s1 := Step(c, s0, Environment(Send));
    var s2 := Step(c, s1, Environment(End(Some(error))));
    var s3 := Step(c, s2, Call);
    var s4 := Step(c, s3, Branch);
    var s5 := Step(c, s4, TakeError);
    t := Step(c, s5, Branch);
    hide Run, Allowed, Follows;
    FollowsNone(c, t);
    FollowsStep(c, s5, Branch, [], t);
    var a5 := [Branch] + [];
    FollowsStep(c, s4, TakeError, a5, t);
    var a4 := [TakeError] + a5;
    FollowsStep(c, s3, Branch, a4, t);
    var a3 := [Branch] + a4;
    FollowsStep(c, s2, Call, a3, t);
    var a2 := [Call] + a3;
    FollowsStep(c, s1, Environment(End(Some(error))), a2, t);
    var a1 := [Environment(End(Some(error)))] + a2;
    FollowsStep(c, s0, Environment(Send), a1, t);
    actions := [Environment(Send)] + a1;
  }

  /** The state in which a call starts; a nested call has started already. */
  function Begun(c: Setup, s: State): State
    requires s.at.Outside? || s.at.Entered?
  {
    if s.at.Outside? then Step(c, s, Call) else s
  }

  /** A schedule for one call: what the environment and `Next` do in turn, up to and including the return. */
  predicate OneCall(c: Setup, s: State, schedule: seq<Action>)
    decreases |schedule|
  {
    && schedule != [] && Enabled(c, s, schedule[0])
    && var t := Step(c, s, schedule[0]);
       if t.at.Outside? then schedule[1..] == [] else OneCall(c, t, schedule[1..])
  }

  /** What is left of a call's schedule, which ends it in `final`. */
  predicate Leads(c: Setup, s: State, rest: seq<Action>, final: State)
  {
    OneCall(c, s, rest) && Follows(c, s, rest, final)
  }

  lemma {:induction false} OneCallLeads(c: Setup, s: State, schedule: seq<Action>)
    requires OneCall(c, s, schedule)
    ensures Allowed(c, s, schedule) && Leads(c, s, schedule, Run(c, s, schedule))
    decreases |schedule|
  {
    hide Enabled, Step;
    if !Step(c, s, schedule[0]).at.Outside? {
      OneCallLeads(c, Step(c, s, schedule[0]), schedule[1..]);
    }
  }

  lemma LeadsStep(c: Setup, s: State, rest: seq<Action>, final: State)
    requires Leads(c, s, rest, final)
    ensures rest != [] && Enabled(c, s, rest[0])
    ensures var t := Step(c, s, rest[0]); if t.at.Outside? then t == final else Leads(c, t, rest[1..], final)
  {
    hide Enabled, Step;
  }

  lemma {:induction false} EnvironmentRuns(c: Setup, s: State, steps: seq<Action>)
    requires Allowed(c, s, steps) && s.feed.Consistent(c) && forall a :: a in steps ==> a.Environment?
    ensures var t := Run(c, s, steps);
            && t == s.(feed := t.feed)
            && t.feed.Consistent(c) && t.feed.logs + t.feed.unsent == s.feed.logs + s.feed.unsent
            && (s.feed.stopped ==> t.feed.stopped)
    decreases |steps|
  {
    if steps != [] {
      FeedStepKeeps(c, s.feed, steps[0].step);
      EnvironmentRuns(c, Step(c, s, steps[0]), steps[1..]);
    }
  }

  lemma LeadsFollows(c: Setup, s: State, rest: seq<Action>, final: State)
    requires Leads(c, s, rest, final)
    ensures OneCall(c, s, rest) && Follows(c, s, rest, final)
    ensures forall t :: Follows(c, s, rest, t) ==> t == final
  {
  }

  lemma BeginCall(c: Setup, s: State)
    requires s.at.Outside? || s.at.Entered?
    ensures var t := Begun(c, s); t == s.(at := Entered)
  {
  }

  /** At the start of a call its checks are made. */
  lemma BranchChosen(c: Setup, s: State, rest: seq<Action>, final: State)
    requires s.at.Entered? && Leads(c, s, rest, final) && !rest[0].Environment?
    ensures Enabled(c, s, Branch)
    ensures var t := Step(c, s, Branch);
            if s.fail.Some? then t == final == Return(s, false)
            else t == s.(at := if s.done then Draining else Selecting) && Leads(c, t, rest[1..], final)
  {
    hide OneCall, Follows, Leads;
    LeadsStep(c, s, rest, final);
  }

  /** The draining select takes a log whenever there is one. */
  lemma DrainChosen(c: Setup, s: State, rest: seq<Action>, final: State)
    requires s.at.Draining? && Leads(c, s, rest, final) && !rest[0].Environment?
    ensures if s.feed.logs != [] then Enabled(c, s, TakeLog) && Step(c, s, TakeLog) == final
            else Enabled(c, s, FindNothing) && Step(c, s, FindNothing) == final == Return(s, false)
  {
    hide OneCall, Follows, Leads;
    LeadsStep(c, s, rest, final);
  }

  /** The blocking select takes a log or the error, one that is there. */
  lemma SelectChosen(c: Setup, s: State, rest: seq<Action>, final: State)
    requires s.at.Selecting? && Leads(c, s, rest, final) && !rest[0].Environment?
    ensures Enabled(c, s, rest[0]) && (rest[0].TakeLog? || rest[0].TakeError?)
    ensures var t := Step(c, s, rest[0]);
            if rest[0].TakeLog? then t == final
            else
              && t == s.(feed := s.feed.(waiting := None), done := true, fail := s.feed.waiting,
                         at := Entered, depth := s.depth + 1)
              && Leads(c, t, rest[1..], final)
  {
    hide OneCall, Follows, Leads;
    LeadsStep(c, s, rest, final);
  }

  class AuthorizationsUpdatedIterator {
    const setup: Setup
    /** The log channel and the subscription. */
    var feed: Feed
    var event: Option<Event>
    var done: bool
    var fail: Option<Fault>
    /** The state this iterator has reached, with its history. */
    ghost var run: State

    ghost predicate Tied()
      reads this
    {
      run.feed == feed && run.event == event && run.done == done && run.fail == fail
    }

    constructor (setup: Setup, all: seq<Log>)
      ensures Tied() && this.setup == setup && run == Start(all)
    {
      this.setup := setup;
      feed, event, done, fail := NewFeed(all), None, false, None;
      run := Start(all);
    }

    /** One call, with whatever the environment does at any point of it and whatever the selects pick. */
    method Next(schedule: seq<Action>) returns (more: bool)
      requires Tied() && (run.at.Outside? || run.at.Entered?)
      requires OneCall(setup, Begun(setup, run), schedule)
      modifies this
      ensures Tied() && Follows(setup, Begun(setup, old(run)), schedule, run)
      ensures run.at.Outside? && run.answers == old(run.answers) + [more]
      ensures if more then
                && fail.None? && event.Some? && run.delivered == old(run.delivered) + [event.value]
                && old(feed.logs + feed.unsent) != [] && Holds(setup, event.value, old(feed.logs + feed.unsent)[0])
                && feed.logs + feed.unsent == old(feed.logs + feed.unsent)[1..]
              else Finished(run) && run.delivered == old(run.delivered)
      decreases if done then 0 else 1
    {
      hide Run, Allowed, OneCall, Follows, Leads, Enabled, Step;
      BeginCall(setup, run);
      run := Begun(setup, run);
      OneCallLeads(setup, run, schedule);
      ghost var final := Run(setup, run, schedule);
      assert Follows(setup, run, schedule, final) by { LeadsFollows(setup, run, schedule, final); }
      var rest := Background(schedule, final);
      BranchChosen(setup, run, rest, final);
      run, rest := Step(setup, run, Branch), rest[1..];
      if fail.Some? {
        more := false;
      } else if done {
        rest := Background(rest, final);
        DrainChosen(setup, run, rest, final);
        if feed.logs != [] {
          more := Receive();
        } else {
          run := Step(setup, run, FindNothing);
          more := false;
        }
      } else {
        rest := Background(rest, final);
        SelectChosen(setup, run, rest, final);
        if rest[0].TakeLog? {
          more := Receive();
        } else {
          done, fail, feed := true, feed.waiting, feed.(waiting := None);
          run := Step(setup, run, TakeError);
          LeadsFollows(setup, run, rest[1..], final);
          more := Next(rest[1..]);
        }
      }
    }

    /** What the environment does before the consumer's next step. */
    method Background(schedule: seq<Action>, ghost final: State) returns (rest: seq<Action>)
      requires Tied() && !run.at.Outside? && Leads(setup, run, schedule, final)
      modifies this`feed, this`run
      ensures Tied() && run == old(run).(feed := feed)
      ensures feed.logs + feed.unsent == old(feed.logs + feed.unsent)
      ensures Leads(setup, run, rest, final) && rest != [] && !rest[0].Environment?
    {
      hide Run, Allowed, OneCall, Follows, Leads, FeedStep, FeedEnabled;
      rest := schedule;
      LeadsStep(setup, run, rest, final);
      while rest[0].Environment?
        invariant Tied() && run == old(run).(feed := feed)
        invariant feed.logs + feed.unsent == old(feed.logs + feed.unsent)
        invariant Leads(setup, run, rest, final) && rest != [] && Enabled(setup, run, rest[0])
        decreases |rest|
      {
        LeadsStep(setup, run, rest, final);
        FeedStepLogs(setup, feed, rest[0].step);
        feed := FeedStep(setup, feed, rest[0].step);
        run, rest := Step(setup, run, rest[0]), rest[1..];
        LeadsStep(setup, run, rest, final);
      }
    }

    /** The body of the two cases that take a log. */
    method Receive() returns (more: bool)
      requires Tied() && Enabled(setup, run, TakeLog)
      modifies this
      ensures Tied() && run == Step(setup, old(run), TakeLog)
      ensures run.at.Outside? && run.answers == old(run.answers) + [more]
      ensures old(feed.logs) != [] && feed == old(feed).(logs := old(feed.logs)[1..])
      ensures more <==> setup.Unpacks(old(feed.logs)[0])
      ensures if more then
                && fail == old(fail) && event.Some? && Holds(setup, event.value, old(feed.logs)[0])
                && run.delivered == old(run.delivered) + [event.value]
              else
                && fail.Some? && fail == setup.unpack(old(feed.logs)[0]).fault
                && event == Some(setup.unpack(old(feed.logs)[0]).event)
                && run.delivered == old(run.delivered)
    {
      var log := feed.logs[0];
      var unpacked := setup.unpack(log);
      feed := feed.(logs := feed.logs[1..]);
      event := Some(unpacked.event);
      if unpacked.fault.Some? {
        fail := unpacked.fault;
        more := false;
      } else {
        event := Some(unpacked.event.(raw := Some(log)));
        more := true;
      }
      run := Step(setup, run, TakeLog);
    }

    method Error() returns (fault: Option<Fault>)
      requires Tied()
      ensures fault == run.fail
    {
      fault := fail;
    }

    /**
     Closing asks the producer to stop and waits for its end, with whatever it still does until then. Nothing
     happens when it has ended, whose error stays to be read, or when it has been asked before.
     */
    method Close(until: seq<Action>)
      requires Tied() && feed.Consistent(setup)
      requires feed.producer.Running? && !feed.stopped ==>
                 var asked := Step(setup, run, Environment(AskToStop));
                 && (forall a :: a in until ==> a.Environment?)
                 && Allowed(setup, asked, until) && Run(setup, asked, until).feed.producer.Ended?
      modifies this`feed, this`run
      ensures Tied() && run == old(run).(feed := feed)
      ensures if old(feed).producer.Running? && !old(feed).stopped then
                && Follows(setup, old(run), [Environment(AskToStop)] + until, run)
                && feed.producer.Ended? && feed.stopped && feed.waiting.None?
                && feed.logs + feed.unsent == old(feed.logs) + old(feed.unsent)
              else run == old(run)
    {
      hide Run, Allowed, Follows;
      if feed.producer.Running? && !feed.stopped {
        ghost var start := run;
        feed := feed.(stopped := true);
        run := Step(setup, run, Environment(AskToStop));
        ghost var final := Run(setup, run, until);
        EnvironmentRuns(setup, run, until);
        FollowsRun(setup, run, until);
        var rest := until;
        while rest != []
          invariant Tied() && run == old(run).(feed := feed)
          invariant Follows(setup, run, rest, final) && forall a :: a in rest ==> a.Environment?
          decreases |rest|
        {
          StepFollows(setup, run, rest, final);
          feed := FeedStep(setup, feed, rest[0].step);
          run, rest := Step(setup, run, rest[0]), rest[1..];
        }
        StepFollows(setup, run, rest, final);
        FollowsStep(setup, start, Environment(AskToStop), until, run);
      }
    }
  }
}
