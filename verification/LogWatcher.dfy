/** The watcher that forwards new events to a sink, run step by step against a concurrent subscription. */
module LogWatcher {
  import opened Bytes
  import opened EventLogs

  /** The outer select, the inner one with an event to put on the sink, or the end with its result. */
  datatype Position = Waiting | Holding(log: Log) | Returned(result: Option<Fault>)

  /** `lost` are logs taken whose events are not, and will not be, on the sink. */
  datatype State = State(
    feed: Feed, quit: bool, subscribed: bool, at: Position, sink: seq<Event>, lost: seq<Log>)

  datatype Action =
    | Environment(step: FeedAction)
    | Quit
    | TakeLog
    | Put
    | TakeError
    | TakeQuit

  function Start(all: seq<Log>): State
  {
    State(NewFeed(all), false, true, Waiting, [], [])
  }

  predicate Enabled(c: Setup, s: State, a: Action)
  {
    match a
    case Environment(step) => !step.AskToStop? && FeedEnabled(c, s.feed, step)
    case Quit => !s.quit
    case TakeLog => s.at.Waiting? && s.feed.logs != []
    case Put => s.at.Holding?
    case TakeError => !s.at.Returned? && s.feed.Ready()
    case TakeQuit => !s.at.Returned? && s.quit
  }

  /** Returning drops the event held and, by the deferred call, releases the subscription. */
  function Return(s: State, result: Option<Fault>): State
  {
    s.(feed := Released(s.feed), subscribed := false, at := Returned(result), lost := s.lost + Held(s.at))
  }

  function Released(f: Feed): Feed
  {
    if f.producer.Running? then f.(stopped := true) else f
  }

  function Held(at: Position): seq<Log>
  {
    if at.Holding? then [at.log] else []
  }

  function Step(c: Setup, s: State, a: Action): State
    requires Enabled(c, s, a)
  {
    match a
    case Environment(step) => s.(feed := FeedStep(c, s.feed, step))
    case Quit => s.(quit := true)
    case TakeLog =>
      var log := s.feed.logs[0];
      var taken := s.(feed := s.feed.(logs := s.feed.logs[1..]));
      if c.Unpacks(log) then taken.(at := Holding(log))
      else Return(taken.(lost := s.lost + [log]), c.unpack(log).fault)
    case Put => s.(sink := s.sink + [c.EventOf(s.at.log)], at := Waiting)
    case TakeError => Return(s.(feed := s.feed.(waiting := None)), s.feed.waiting)
    case TakeQuit => Return(s, None)
  }

  predicate Allowed(c: Setup, s: State, actions: seq<Action>)
    decreases |actions|
  {
    actions == [] || (Enabled(c, s, actions[0]) && Allowed(c, Step(c, s, actions[0]), actions[1..]))
  }

  function Run(c: Setup, s: State, actions: seq<Action>): State
    requires Allowed(c, s, actions)
    decreases |actions|
  {
    if actions == [] then s else Run(c, Step(c, s, actions[0]), actions[1..])
  }

  //
  // What every run keeps
  //

  /** The sink holds the events of the first logs, in order, and the remaining logs are all accounted for. */
  predicate Conserved(c: Setup, all: seq<Log>, s: State)
  {
    && Accounted(c, all, s.sink, s.lost + Held(s.at) + (s.feed.logs + s.feed.unsent))
    && |s.lost + Held(s.at)| <= 1
  }

  /** A log is lost only by returning; the result says why the loop ended. */
  predicate Explained(c: Setup, s: State)
  {
    && (s.subscribed <==> !s.at.Returned?)
    && (s.feed.stopped ==> s.at.Returned?)
    && (s.at.Returned? ==> s.feed.stopped || s.feed.producer.Ended?)
    && (s.lost != [] ==> s.at.Returned?)
    && (s.at.Holding? ==> c.Unpacks(s.at.log))
    && (s.at.Returned? ==>
          || (s.quit && s.at.result == None)
          || s.feed.producer == Ended(s.at.result)
          || (s.lost != [] && !c.Unpacks(s.lost[0]) && s.at.result == c.unpack(s.lost[0]).fault))
    && (s.lost != [] && !c.Unpacks(s.lost[0]) ==> s.at.result == c.unpack(s.lost[0]).fault)
    && (!s.at.Returned? && s.feed.producer.Ended? ==> s.feed.waiting == s.feed.producer.error)
  }

  predicate Invariant(c: Setup, all: seq<Log>, s: State)
  {
    s.feed.Consistent(c) && Conserved(c, all, s) && Explained(c, s)
  }

  lemma TakeLogConserves(c: Setup, all: seq<Log>, s: State)
    requires Conserved(c, all, s) && s.lost == [] && Enabled(c, s, TakeLog)
    ensures Conserved(c, all, Step(c, s, TakeLog))
  {
    hide Accounted;
    var log := s.feed.logs[0];
    assert [] + [] + (s.feed.logs + s.feed.unsent) == [log] + (s.feed.logs[1..] + s.feed.unsent);
    assert [] + [log] == [log] + [] == [log];
  }

  lemma PutConserves(c: Setup, all: seq<Log>, s: State)
    requires Conserved(c, all, s) && s.lost == [] && Enabled(c, s, Put) && c.Unpacks(s.at.log)
    ensures Conserved(c, all, Step(c, s, Put))
  {
    hide Accounted;
    var rest := s.feed.logs + s.feed.unsent;
    AccountedFirst(c, all, s.sink, [] + [s.at.log] + rest);
    assert ([] + [s.at.log] + rest)[1..] == rest == [] + [] + rest;
  }

  lemma ReturnConserves(c: Setup, all: seq<Log>, s: State, a: Action)
    requires Conserved(c, all, s) && s.lost == [] && Enabled(c, s, a) && (a.TakeError? || a.TakeQuit?)
    ensures Conserved(c, all, Step(c, s, a))
  {
  }

  lemma StepKeeps(c: Setup, all: seq<Log>, s: State, a: Action)
    requires Invariant(c, all, s) && Enabled(c, s, a)
    ensures Invariant(c, all, Step(c, s, a))
  {
    match a
    case Environment(step) => FeedStepKeeps(c, s.feed, step);
    case Quit =>
    case TakeLog => { hide Conserved; TakeLogConserves(c, all, s); }
    case Put => { hide Conserved; PutConserves(c, all, s); }
    case _ => { hide Conserved; ReturnConserves(c, all, s, a); }
  }

  lemma {:induction false} RunKeeps(c: Setup, all: seq<Log>, s: State, actions: seq<Action>)
    requires Invariant(c, all, s) && Allowed(c, s, actions)
    ensures Invariant(c, all, Run(c, s, actions))
    decreases |actions|
  {
    hide Invariant, Step;
    if actions != [] {
      StepKeeps(c, all, s, actions[0]);
      RunKeeps(c, all, Step(c, s, actions[0]), actions[1..]);
    }
  }

  lemma Reachable(c: Setup, all: seq<Log>, actions: seq<Action>)
    requires Allowed(c, Start(all), actions)
    ensures Invariant(c, all, Run(c, Start(all), actions))
  {
    assert all[0..] == [] + [] + ([] + all);
    RunKeeps(c, all, Start(all), actions);
  }

  /**
   In every run the sink is an in-order prefix of the events of all logs; what follows is at most one log taken
   from the channel, then those in the channel, then those not sent. A log is missing from the sink for good
   only when the loop has returned.
   */
  lemma Conservation(c: Setup, all: seq<Log>, actions: seq<Action>)
    requires Allowed(c, Start(all), actions)
    ensures var s := Run(c, Start(all), actions);
            && Conserved(c, all, s)
            && (s.lost != [] ==> s.at.Returned? && s.lost == [all[|s.sink|]])
  {
    Reachable(c, all, actions);
    var s := Run(c, Start(all), actions);
    if s.lost != [] {
      AccountedFirst(c, all, s.sink, s.lost + Held(s.at) + (s.feed.logs + s.feed.unsent));
    }
  }

  /** What an event on the sink holds, in every run: the log it was made from, and the fields unpacked from it. */
  lemma SinkEvents(c: Setup, all: seq<Log>, actions: seq<Action>)
    requires Allowed(c, Start(all), actions)
    ensures var s := Run(c, Start(all), actions);
            && |s.sink| <= |all|
            && (forall i :: 0 <= i < |s.sink| ==>
                  var e, unpacked := s.sink[i], c.unpack(all[i]).event;
                  && e.raw == Some(all[i])
                  && e.identity == unpacked.identity && e.signer == unpacked.signer && e.expiry == unpacked.expiry
                  && e.permissions == unpacked.permissions && e.origin == unpacked.origin)
  {
    Reachable(c, all, actions);
  }

  /** The subscription is released exactly when the loop has returned, and the result tells what ended it. */
  lemma ResultExplained(c: Setup, all: seq<Log>, actions: seq<Action>)
    requires Allowed(c, Start(all), actions)
    ensures var s := Run(c, Start(all), actions);
            && (s.subscribed <==> !s.at.Returned?)
            && (s.feed.stopped ==> s.at.Returned?)
            && (s.at.Returned? ==> s.feed.stopped || s.feed.producer.Ended?)
            && (s.at.Returned? ==>
                  || (s.at.result == None && s.quit)
                  || s.feed.producer == Ended(s.at.result)
                  || (|s.sink| < |all| && s.at.result == c.unpack(all[|s.sink|]).fault))
            && (s.lost != [] && !c.Unpacks(s.lost[0]) ==>
                  s.at == Returned(c.unpack(s.lost[0]).fault) && s.at.result.Some?)
  {
    Reachable(c, all, actions);
    Conservation(c, all, actions);
  }

  /** After returning, neither the sink nor the channel is touched again. */
  lemma {:induction false} ReturnIsFinal(c: Setup, s: State, actions: seq<Action>)
    requires s.at.Returned? && s.feed.Consistent(c) && Allowed(c, s, actions)
    ensures var t := Run(c, s, actions);
            && t.at == s.at && t.subscribed == s.subscribed && t.sink == s.sink && t.lost == s.lost
            && t.feed.logs + t.feed.unsent == s.feed.logs + s.feed.unsent
    decreases |actions|
  {
    if actions != [] {
      if actions[0].Environment? {
        FeedStepKeeps(c, s.feed, actions[0].step);
      }
      var t := Step(c, s, actions[0]);
      ReturnIsFinal(c, t, actions[1..]);
    }
  }

  function Measure(s: State): nat
  {
    3 * |s.feed.unsent| + 2 * |s.feed.logs| + (if s.feed.producer.Running? then 1 else 0) + (if s.quit then 0 else 1)
    + match s.at
      case Waiting => 1
      case Holding(_) => 2
      case Returned(_) => 0
  }

  lemma StepDecreases(c: Setup, s: State, a: Action)
    requires Enabled(c, s, a)
    ensures Measure(Step(c, s, a)) < Measure(s)
  {
  }

  /**
   Every run is bounded by the logs there are. Asking to quit, or the end of the subscription, always ends the
   loop: where no step is left after it, the loop has returned.
   */
  lemma {:induction false} QuittingReturns(c: Setup, s: State, actions: seq<Action>)
    requires Allowed(c, s, actions)
    ensures var t := Run(c, s, actions);
            && |actions| + Measure(t) <= Measure(s)
            && ((t.quit || t.feed.producer.Ended?) && (forall a :: !Enabled(c, t, a)) ==> t.at.Returned?)
    decreases |actions|
  {
    if actions == [] {
      assert s.quit && !s.at.Returned? ==> Enabled(c, s, TakeQuit);
      assert s.feed.producer.Ended? && !s.at.Returned? ==> Enabled(c, s, TakeError);
    } else {
      StepDecreases(c, s, actions[0]);
      QuittingReturns(c, Step(c, s, actions[0]), actions[1..]);
    }
  }

  //
  // The loop itself
  //

  /** What is left of a schedule, which ends in `final`. */
  predicate Leads(c: Setup, s: State, rest: seq<Action>, final: State)
  {
    Allowed(c, s, rest) && Run(c, s, rest) == final
  }

  lemma RunLeads(c: Setup, s: State, schedule: seq<Action>)
    requires Allowed(c, s, schedule)
    ensures Leads(c, s, schedule, Run(c, s, schedule))
  {
  }

  lemma LeadsStep(c: Setup, s: State, rest: seq<Action>, final: State)
    requires Leads(c, s, rest, final)
    ensures if rest == [] then s == final else Enabled(c, s, rest[0]) && Leads(c, Step(c, s, rest[0]), rest[1..], final)
  {
  }

  /** Once the loop has returned, the rest of a schedule changes none of its results. */
  lemma LeadsReturned(c: Setup, s: State, rest: seq<Action>, final: State)
    requires s.at.Returned? && s.feed.Consistent(c) && Leads(c, s, rest, final)
    ensures final.at == s.at && final.sink == s.sink && final.subscribed == s.subscribed
  {
    ReturnIsFinal(c, s, rest);
  }

  /** What the outer select can pick, and where it leads. */
  lemma OuterSelect(c: Setup, s: State, a: Action)
    requires s.at.Waiting? && Enabled(c, s, a) && !a.Environment? && !a.Quit?
    ensures a.TakeLog? || a.TakeError? || a.TakeQuit?
    ensures a.TakeLog? ==>
              && s.feed.logs != []
              && var log, left := s.feed.logs[0], s.feed.(logs := s.feed.logs[1..]);
                 if c.Unpacks(log) then Step(c, s, a) == s.(feed := left, at := Holding(log))
                 else Step(c, s, a) == Return(s.(feed := left, lost := s.lost + [log]), c.unpack(log).fault)
    ensures a.TakeError? ==> Step(c, s, a) == Return(s.(feed := s.feed.(waiting := None)), s.feed.waiting)
    ensures a.TakeQuit? ==> Step(c, s, a) == Return(s, None)
  {
  }

  /** What the inner select can pick, and where it leads. */
  lemma InnerSelect(c: Setup, s: State, a: Action)
    requires s.at.Holding? && Enabled(c, s, a) && !a.Environment? && !a.Quit?
    ensures a.Put? || a.TakeError? || a.TakeQuit?
    ensures a.Put? ==> Step(c, s, a) == s.(sink := s.sink + [c.EventOf(s.at.log)], at := Waiting)
    ensures a.TakeError? ==> Step(c, s, a) == Return(s.(feed := s.feed.(waiting := None)), s.feed.waiting)
    ensures a.TakeQuit? ==> Step(c, s, a) == Return(s, None)
  {
  }

  /** What the loop's function works on: the log channel, the subscription, the quit channel and the sink. */
  class Watcher {
    const setup: Setup
    var feed: Feed
    var quit: bool
    var subscribed: bool
    var sink: seq<Event>
    /** The state this watcher has reached. */
    ghost var run: State

    ghost predicate Tied()
      reads this
    {
      run.feed == feed && run.quit == quit && run.subscribed == subscribed && run.sink == sink && feed.Consistent(setup)
    }

    constructor (setup: Setup, all: seq<Log>)
      ensures Tied() && this.setup == setup && run == Start(all)
    {
      this.setup := setup;
      feed, quit, subscribed, sink := NewFeed(all), false, true, [];
      run := Start(all);
    }

    /**
     The loop, with whatever the environment does at any point of it and whatever the selects pick: at the end of
     the schedule it is where the run of that schedule is, with the same events on the sink.
     */
    method Watch(schedule: seq<Action>) returns (at: Position)
      requires Tied() && run.at.Waiting? && Allowed(setup, run, schedule)
      modifies this
      ensures at == Run(setup, old(run), schedule).at && sink == Run(setup, old(run), schedule).sink
      ensures subscribed == Run(setup, old(run), schedule).subscribed
    {
      hide Run, Allowed, Leads, FeedEnabled, FeedStep, Enabled, Step;
      ghost var final := Run(setup, run, schedule);
      RunLeads(setup, run, schedule);
      at := Waiting;
      var rest := Background(schedule, final);
      while rest != [] && at.Waiting?
        invariant Tied() && run.at == at && Leads(setup, run, rest, final)
        invariant rest != [] && at.Waiting? ==> !rest[0].Environment? && !rest[0].Quit?
        invariant at.Holding? ==> rest == []
        decreases |rest|
      {
        at, rest := Pass(rest, final);
        if at.Waiting? {
          rest := Background(rest, final);
        }
      }
      LeadsStep(setup, run, rest, final);
      if at.Returned? {
        LeadsReturned(setup, run, rest, final);
      }
    }

    /** One pass of the loop: the outer select, and the inner one when there is an event. */
    method Pass(schedule: seq<Action>, ghost final: State) returns (at: Position, rest: seq<Action>)
      requires Tied() && run.at.Waiting? && Leads(setup, run, schedule, final)
      requires schedule != [] && !schedule[0].Environment? && !schedule[0].Quit?
      modifies this
      ensures Tied() && run.at == at && Leads(setup, run, rest, final)
      ensures (at.Holding? ==> rest == []) && |rest| < |schedule|
    {
      hide Run, Allowed, Leads, FeedEnabled, FeedStep, Enabled, Step, Released, Held;
      LeadsStep(setup, run, schedule, final);
      OuterSelect(setup, run, schedule[0]);
      ghost var picked := Step(setup, run, schedule[0]);
      rest := schedule[1..];
      match schedule[0] {
        case TakeLog =>
          var log := feed.logs[0];
          feed := feed.(logs := feed.logs[1..]);
          var unpacked := setup.unpack(log);
          if unpacked.fault.Some? {
            Unsubscribe();
            at, run := Returned(unpacked.fault), picked;
          } else {
            run := picked;
            at, rest := Forward(log, unpacked.event.(raw := Some(log)), rest, final);
          }
        case TakeError =>
          at := Returned(feed.waiting);
          feed := feed.(waiting := None);
          Unsubscribe();
          run := picked;
        case TakeQuit =>
          Unsubscribe();
          at, run := Returned(None), picked;
      }
    }

    /** The inner select: the event goes to the sink unless the subscription's end or the quit channel is picked. */
    method Forward(log: Log, event: Event, schedule: seq<Action>, ghost final: State)
      returns (at: Position, rest: seq<Action>)
      requires Tied() && run.at == Holding(log) && Holds(setup, event, log) && Leads(setup, run, schedule, final)
      modifies this
      ensures Tied() && run.at == at && Leads(setup, run, rest, final)
      ensures (at.Holding? ==> rest == []) && |rest| <= |schedule|
    {
      hide Run, Allowed, Leads, FeedEnabled, FeedStep, Enabled, Step, Released, Held;
      at := Holding(log);
      rest := Background(schedule, final);
      if rest != [] {
        LeadsStep(setup, run, rest, final);
        InnerSelect(setup, run, rest[0]);
        ghost var picked := Step(setup, run, rest[0]);
        match rest[0] {
          case Put =>
            sink := sink + [event];
            at := Waiting;
          case TakeError =>
            at := Returned(feed.waiting);
            feed := feed.(waiting := None);
            Unsubscribe();
          case TakeQuit =>
            at := Returned(None);
            Unsubscribe();
        }
        run, rest := picked, rest[1..];
      }
    }

    /** What the environment does, and whether it asks to quit, before the loop's next step. */
    method Background(schedule: seq<Action>, ghost final: State) returns (rest: seq<Action>)
      requires Tied() && Leads(setup, run, schedule, final)
      modifies this`feed, this`quit, this`run
      ensures Tied() && run == old(run).(feed := feed, quit := quit) && Leads(setup, run, rest, final)
      ensures rest != [] ==> !rest[0].Environment? && !rest[0].Quit?
      ensures |rest| <= |schedule|
    {
      hide Run, Allowed, Leads, FeedEnabled, FeedStep;
      rest := schedule;
      while rest != [] && (rest[0].Environment? || rest[0].Quit?)
        invariant Tied() && run == old(run).(feed := feed, quit := quit) && Leads(setup, run, rest, final)
        invariant |rest| <= |schedule|
        decreases |rest|
      {
        LeadsStep(setup, run, rest, final);
        ghost var next := Step(setup, run, rest[0]);
        if rest[0].Environment? {
          FeedStepKeeps(setup, feed, rest[0].step);
          feed := FeedStep(setup, feed, rest[0].step);
        } else {
          quit := true;
        }
        run, rest := next, rest[1..];
      }
    }

    method Unsubscribe()
      requires feed.Consistent(setup)
      modifies this`feed, this`subscribed
      ensures feed == Released(old(feed)) && feed.Consistent(setup) && !subscribed
    {
      if feed.producer.Running? {
        feed := feed.(stopped := true);
      }
      subscribed := false;
    }
  }
}
