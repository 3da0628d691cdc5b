/** Raw logs, the events unpacked from them, and the subscription that supplies them. */
module EventLogs {
  import opened Bytes

  datatype Log = Log(topics: seq<Word32>, data: Bytes, index: nat)

  /** An error value; which one it is does not matter here. */
  type Fault = Bytes

  datatype Event = Event(
    identity: Address20, signer: Address20, expiry: nat, permissions: seq<Word32>, origin: Bytes, raw: Option<Log>)

  /** What unpacking leaves in a new event, and the error it reports. */
  datatype Unpacked = Unpacked(event: Event, fault: Option<Fault>)

  /** How logs are unpacked, and how many the channel holds. */
  datatype Setup = Setup(unpack: Log -> Unpacked, capacity: nat)
  {
    predicate Unpacks(log: Log) { unpack(log).fault.None? }

    /** The event made from a log: the unpacked fields, with the log itself attached. */
    function EventOf(log: Log): Event { unpack(log).event.(raw := Some(log)) }
  }

  datatype Producer = Running | Ended(error: Option<Fault>)

  /**
   The side that supplies logs: those still to come, those in the channel, whether it has ended, the error
   waiting on the error channel, and whether it was asked to stop while it ran. The error channel is closed at
   the end, so that reading it gives the waiting error once and no error from then on. Asked to stop, the
   producer no longer reports an error; once it has ended, asking changes nothing, and a waiting error stays.
   */
  datatype Feed = Feed(unsent: seq<Log>, logs: seq<Log>, producer: Producer, waiting: Option<Fault>, stopped: bool)
  {
    predicate Ready() { producer.Ended? }

    /** Only the error it ended with waits, and none when it was asked to stop. */
    predicate Consistent(c: Setup)
    {
      && |logs| <= c.capacity
      && (waiting.Some? ==> producer == Ended(waiting) && !stopped)
    }
  }

  function NewFeed(all: seq<Log>): Feed
  {
    Feed(all, [], Running, None, false)
  }

  datatype FeedAction =
    | Send
    | End(error: Option<Fault>)
    | AskToStop

  predicate FeedEnabled(c: Setup, f: Feed, a: FeedAction)
  {
    && f.producer.Running?
    && (a.Send? ==> f.unsent != [] && |f.logs| < c.capacity)
    && (a.AskToStop? ==> !f.stopped)
  }

  function FeedStep(c: Setup, f: Feed, a: FeedAction): Feed
    requires FeedEnabled(c, f, a)
  {
    match a
    case Send => f.(unsent := f.unsent[1..], logs := f.logs + [f.unsent[0]])
    case End(error) => f.(producer := Ended(error), waiting := if f.stopped then None else error)
    case AskToStop => f.(stopped := true)
  }

  /** Every feed step keeps the logs and their order, and keeps the feed consistent. */
  lemma FeedStepKeeps(c: Setup, f: Feed, a: FeedAction)
    requires f.Consistent(c) && FeedEnabled(c, f, a)
    ensures var g := FeedStep(c, f, a);
            && g.Consistent(c)
            && g.logs + g.unsent == f.logs + f.unsent
            && (f.stopped ==> g.stopped)
  {
    FeedStepLogs(c, f, a);
  }

  lemma FeedStepLogs(c: Setup, f: Feed, a: FeedAction)
    requires FeedEnabled(c, f, a)
    ensures FeedStep(c, f, a).logs + FeedStep(c, f, a).unsent == f.logs + f.unsent
  {
    if a.Send? {
      assert f.unsent == [f.unsent[0]] + f.unsent[1..];
    }
  }

  /** Steps left to a feed. */
  function FeedMeasure(f: Feed): nat
  {
    2 * |f.unsent| + |f.logs| + (if f.producer.Running? then 2 else 0) + (if f.stopped then 0 else 1)
    + (if f.waiting.Some? then 1 else 0)
  }

  lemma FeedStepDecreases(c: Setup, f: Feed, a: FeedAction)
    requires f.Consistent(c) && FeedEnabled(c, f, a)
    ensures FeedMeasure(FeedStep(c, f, a)) < FeedMeasure(f)
  {
  }

  //
  // Conservation
  //

  /** An event holds the log it was made from, and the fields that were unpacked from it. */
  predicate Holds(c: Setup, e: Event, log: Log)
  {
    var unpacked := c.unpack(log);
    && unpacked.fault == None && e.raw == Some(log)
    && e.identity == unpacked.event.identity && e.signer == unpacked.event.signer
    && e.expiry == unpacked.event.expiry && e.permissions == unpacked.event.permissions
    && e.origin == unpacked.event.origin
  }

  /** The events hold the first logs, in order, and `rest` are the logs after them. */
  predicate Accounted(c: Setup, all: seq<Log>, events: seq<Event>, rest: seq<Log>)
  {
    && |events| <= |all|
    && (forall i :: 0 <= i < |events| ==> Holds(c, events[i], all[i]))
    && all[|events|..] == rest
  }

  lemma AccountedFirst(c: Setup, all: seq<Log>, events: seq<Event>, rest: seq<Log>)
    requires Accounted(c, all, events, rest) && rest != []
    ensures |events| < |all| && all[|events|] == rest[0]
    ensures c.Unpacks(rest[0]) ==> Accounted(c, all, events + [c.EventOf(rest[0])], rest[1..])
  {
    assert all[|events|] == all[|events|..][0];
    assert all[|events| + 1..] == all[|events|..][1..];
  }

  /** Whether the events are those of the logs, one for one. */
  predicate EventsOf(c: Setup, events: seq<Event>, logs: seq<Log>)
  {
    |events| == |logs| && forall i :: 0 <= i < |logs| ==> Holds(c, events[i], logs[i])
  }

  lemma TakeFirst(logs: seq<Log>, unsent: seq<Log>)
    requires logs != []
    ensures (logs + unsent)[0] == logs[0]
    ensures (logs + unsent)[1..] == logs[1..] + unsent
    ensures logs + unsent == [logs[0]] + (logs[1..] + unsent)
  {
  }
}
