// The admin service's two server streams. Each one subscribes to the event
// registry when it opens and removes its subscription on every exit.
//
// The goroutines that publish calls, the ticker and the client at the other
// end of the stream are outside the server, so a stream is run against a
// trace of what happens to it: a call is published (and forwarding it to
// the client succeeds or fails), the ticker fires, or the registry is shut
// down, which closes the stream's queue.
module AdminService {
  import opened Outcomes
  import opened GrpcStatus
  import opened MapIteration
  import opened EventBus
  import opened StatCollector

  // ---------------------------------------------------------------------
  // Logging

  /** What a Logging stream meets while it waits on its queue. */
  datatype LogStep = Publish(e: Event, sendResult: Status) | Shutdown

  /** The events a Logging stream forwards, and how it ends: None while it
      is still open, Some(OK) when its queue closes, Some(err) when a send
      fails. */
  function LoggingRun(steps: seq<LogStep>): (seq<Event>, Option<Status>)
    decreases |steps|
  {
    if |steps| == 0 then ([], None)
    else
      match steps[0]
      case Shutdown => ([], Some(OK))
      case Publish(e, res) =>
        if res != OK then ([], Some(res))
        else
          var rest := LoggingRun(steps[1..]);
          ([e] + rest.0, rest.1)
  }

  /** Logging forwards the published events in order, each once, until the
      first failed send or the shutdown, whichever comes first; it returns
      that send's error or OK, and stays open only if neither happened. */
  lemma {:induction false} LoggingForwardsInOrder(steps: seq<LogStep>)
    ensures var (sent, end) := LoggingRun(steps);
            && |sent| <= |steps|
            && (forall i :: 0 <= i < |sent| ==> steps[i] == Publish(sent[i], OK))
            && (end.None? <==> |sent| == |steps|)
            && (end.Some? ==>
                  (steps[|sent|] == LogStep.Shutdown && end == Some(OK)) ||
                  (steps[|sent|].Publish? && steps[|sent|].sendResult != OK && end == Some(steps[|sent|].sendResult)))
    decreases |steps|
  {
    if |steps| > 0 && steps[0].Publish? && steps[0].sendResult == OK {
      LoggingForwardsInOrder(steps[1..]);
      var rest := LoggingRun(steps[1..]).0;
      forall i | 0 <= i < |rest| + 1
        ensures steps[i] == Publish(([steps[0].e] + rest)[i], OK)
      {
        if i > 0 {
          assert steps[i] == steps[1..][i - 1];
        }
      }
    }
  }

  /** What a Logging stream subscribed as `id` does to the registry after
      subscribing: every published call reaches it, and its deferred
      RemoveSub runs when it returns. */
  function LoggingActions(id: int, steps: seq<LogStep>): seq<Action>
    decreases |steps|
  {
    if |steps| == 0 then []
    else
      match steps[0]
      case Shutdown => [RemoveAll, RemoveSub(id)]
      case Publish(e, res) =>
        [Notify(e)] + (if res != OK then [RemoveSub(id)] else LoggingActions(id, steps[1..]))
  }

  /** LoggingRun and LoggingActions from step i on, one step unfolded. */
  lemma LoggingAt(id: int, steps: seq<LogStep>, i: int)
    requires 0 <= i < |steps|
    ensures steps[i] == LogStep.Shutdown ==>
              LoggingActions(id, steps[i..]) == [RemoveAll, RemoveSub(id)] &&
              LoggingRun(steps[i..]) == ([], Some(OK))
    ensures steps[i].Publish? && steps[i].sendResult != OK ==>
              LoggingActions(id, steps[i..]) == [Notify(steps[i].e), RemoveSub(id)] &&
              LoggingRun(steps[i..]) == ([], Some(steps[i].sendResult))
    ensures steps[i].Publish? && steps[i].sendResult == OK ==>
              LoggingActions(id, steps[i..]) == [Notify(steps[i].e)] + LoggingActions(id, steps[i + 1..]) &&
              LoggingRun(steps[i..]) == ([steps[i].e] + LoggingRun(steps[i + 1..]).0, LoggingRun(steps[i + 1..]).1)
  {
    assert steps[i..][0] == steps[i] && steps[i..][1..] == steps[i + 1..];
  }

  /** A Logging stream that has not returned has only seen notifications; one
      that has returned ends with its own RemoveSub. */
  lemma {:induction false} LoggingActionsShape(id: int, steps: seq<LogStep>)
    ensures LoggingRun(steps).1.None? ==>
              forall j :: 0 <= j < |LoggingActions(id, steps)| ==> LoggingActions(id, steps)[j].Notify?
    ensures LoggingRun(steps).1.Some? ==>
              |LoggingActions(id, steps)| > 0 &&
              LoggingActions(id, steps)[|LoggingActions(id, steps)| - 1] == RemoveSub(id)
    decreases |steps|
  {
    if |steps| > 0 && steps[0].Publish? && steps[0].sendResult == OK {
      LoggingActionsShape(id, steps[1..]);
    }
  }

  /** A stream stays subscribed exactly as long as it has not returned. */
  lemma SubscribedUntilReturn(b: Bus, acts: seq<Action>, id: int, returned: bool)
    requires WellFormed(b) && id == b.lastId + 1
    requires !returned ==> forall j :: 0 <= j < |acts| ==> acts[j].Notify?
    requires returned ==> |acts| > 0 && acts[|acts| - 1] == RemoveSub(id)
    ensures id in Run(b, [NewSub] + acts).queues <==> !returned
  {
    RunSingle(b, NewSub);
    var b1 := Run(b, [NewSub]);
    assert id in b1.queues;
    if returned {
      var init := acts[..|acts| - 1];
      assert [NewSub] + acts == ([NewSub] + init) + [RemoveSub(id)];
      RunSnoc(b, [NewSub] + init, RemoveSub(id));
    } else {
      RunAppend(b, [NewSub], acts);
      NotifiesKeepKeys(b1, acts);
    }
  }

  /** The registry after a Logging stream opened on registry `b` has met
      the steps: it subscribed, then did what LoggingActions says. */
  function LoggingEffect(b: Bus, steps: seq<LogStep>): Bus
    requires WellFormed(b)
  {
    Run(b, [NewSub] + LoggingActions(b.lastId + 1, steps))
  }

  /** A Logging stream stays subscribed exactly as long as it has not
      returned. */
  lemma LoggingUnsubscribes(b: Bus, steps: seq<LogStep>)
    requires WellFormed(b)
    ensures b.lastId + 1 in LoggingEffect(b, steps).queues <==> LoggingRun(steps).1.None?
  {
    var id := b.lastId + 1;
    LoggingActionsShape(id, steps);
    SubscribedUntilReturn(b, LoggingActions(id, steps), id, LoggingRun(steps).1.Some?);
  }

  // ---------------------------------------------------------------------
  // Statistics

  /** What a Statistics stream meets: a published call reaches its queue,
      the ticker fires (and sending the snapshot succeeds or fails), or the
      registry is shut down. */
  datatype StatStep = Arrive(e: Event) | Tick(now: int, sendResult: Status) | Shutdown

  /** The snapshot a tick at `now` sends after the given events. */
  function Snapshot(now: int, events: seq<Event>): Stat {
    Stat(now, Tally(Methods(events)), Tally(Consumers(events)))
  }

  /** The snapshots a Statistics stream sends, and how it ends; `pending`
      are the events counted since the last tick. */
  function StatisticsRun(steps: seq<StatStep>, pending: seq<Event>): (r: (seq<Stat>, Option<Status>))
    decreases |steps|
  {
    if |steps| == 0 then ([], None)
    else
      match steps[0]
      case Arrive(e) => StatisticsRun(steps[1..], pending + [e])
      case Tick(now, res) =>
        if res != OK then ([], Some(res))
        else
          var rest := StatisticsRun(steps[1..], []);
          ([Snapshot(now, pending)] + rest.0, rest.1)
      case Shutdown => ([], Some(OK))
  }

  /** What a Statistics stream subscribed as `id` does to the registry after
      subscribing. */
  function StatisticsActions(id: int, steps: seq<StatStep>): seq<Action>
    decreases |steps|
  {
    if |steps| == 0 then []
    else
      match steps[0]
      case Arrive(e) => [Notify(e)] + StatisticsActions(id, steps[1..])
      case Tick(_, res) => if res != OK then [RemoveSub(id)] else StatisticsActions(id, steps[1..])
      case Shutdown => [RemoveAll, RemoveSub(id)]
  }

  function Arrivals(events: seq<Event>): (steps: seq<StatStep>)
    ensures |steps| == |events| && forall i :: 0 <= i < |events| ==> steps[i] == Arrive(events[i])
  {
    if |events| == 0 then [] else [Arrive(events[0])] + Arrivals(events[1..])
  }

  /** Arrivals only accumulate: nothing is sent and the stream stays open
      until the next tick or shutdown. */
  lemma {:induction false} ArrivalsAccumulate(pending: seq<Event>, events: seq<Event>, tail: seq<StatStep>)
    ensures StatisticsRun(Arrivals(events) + tail, pending) == StatisticsRun(tail, pending + events)
    decreases |events|
  {
    if |events| == 0 {
      assert Arrivals(events) + tail == tail;
      assert pending + events == pending;
    } else {
      var steps := Arrivals(events) + tail;
      assert steps == [Arrive(events[0])] + (Arrivals(events[1..]) + tail);
      assert steps[1..] == Arrivals(events[1..]) + tail;
      ArrivalsAccumulate(pending + [events[0]], events[1..], tail);
      assert pending + [events[0]] + events[1..] == pending + events;
    }
  }

  /** A tick sends exactly the events that arrived since the previous tick
      (or since the stream opened), and counting starts afresh after it. */
  lemma TickReportsWindow(pending: seq<Event>, events: seq<Event>, now: int, rest: seq<StatStep>)
    ensures StatisticsRun(Arrivals(events) + [Tick(now, OK)] + rest, pending) ==
              ([Snapshot(now, pending + events)] + StatisticsRun(rest, []).0, StatisticsRun(rest, []).1)
  {
    var tail := [Tick(now, OK)] + rest;
    assert Arrivals(events) + [Tick(now, OK)] + rest == Arrivals(events) + tail;
    ArrivalsAccumulate(pending, events, tail);
    assert tail[0] == Tick(now, OK) && tail[1..] == rest;
  }

  /** A failed send or a shutdown ends the stream at once, with the send's
      error or with OK, whatever arrived before. */
  lemma StatisticsStops(pending: seq<Event>, events: seq<Event>, stop: StatStep, rest: seq<StatStep>)
    requires stop.Shutdown? || (stop.Tick? && stop.sendResult != OK)
    ensures StatisticsRun(Arrivals(events) + [stop] + rest, pending) ==
              ([], Some(if stop.Shutdown? then OK else stop.sendResult))
  {
    var tail := [stop] + rest;
    assert Arrivals(events) + [stop] + rest == Arrivals(events) + tail;
    ArrivalsAccumulate(pending, events, tail);
    assert tail[0] == stop;
  }

  /** Every snapshot counts each event of its window once per method and once
      per consumer: the counts are the multiplicities, and both add up to the
      window's length. A tick without events sends empty counters. */
  lemma SnapshotCounts(now: int, events: seq<Event>)
    ensures var s := Snapshot(now, events);
            && (forall m :: m in s.byMethod ==> s.byMethod[m] == multiset(Methods(events))[m])
            && (forall c :: c in s.byConsumer ==> s.byConsumer[c] == multiset(Consumers(events))[c])
            && Sum(s.byMethod) == |events| == Sum(s.byConsumer)
            && (events == [] ==> s.byMethod == map[] && s.byConsumer == map[])
  {
    TallyCounts(Methods(events));
    TallyCounts(Consumers(events));
    SumsAgree(events);
  }

  /** A Statistics stream that has not returned has only seen
      notifications; one that has returned ends with its own RemoveSub. */
  lemma {:induction false} StatisticsActionsShape(id: int, steps: seq<StatStep>, pending: seq<Event>)
    ensures StatisticsRun(steps, pending).1.None? ==>
              forall j :: 0 <= j < |StatisticsActions(id, steps)| ==> StatisticsActions(id, steps)[j].Notify?
    ensures StatisticsRun(steps, pending).1.Some? ==>
              |StatisticsActions(id, steps)| > 0 &&
              StatisticsActions(id, steps)[|StatisticsActions(id, steps)| - 1] == RemoveSub(id)
    decreases |steps|
  {
    if |steps| > 0 {
      var acts := StatisticsActions(id, steps);
      var end := StatisticsRun(steps, pending).1;
      match steps[0]
      case Arrive(e) =>
        var rest := StatisticsActions(id, steps[1..]);
        assert acts == [Notify(e)] + rest;
        assert end == StatisticsRun(steps[1..], pending + [e]).1;
        StatisticsActionsShape(id, steps[1..], pending + [e]);
        if end.None? {
          forall j | 0 <= j < |acts| ensures acts[j].Notify? {
            if j > 0 {
              assert acts[j] == rest[j - 1];
            }
          }
        }
      case Tick(_, res) =>
        if res == OK {
          assert acts == StatisticsActions(id, steps[1..]);
          assert end == StatisticsRun(steps[1..], []).1;
          StatisticsActionsShape(id, steps[1..], []);
        }
      case Shutdown =>
    }
  }

  /** The registry after a Statistics stream opened on registry `b` has met
      the steps. */
  function StatisticsEffect(b: Bus, steps: seq<StatStep>): Bus
    requires WellFormed(b)
  {
    Run(b, [NewSub] + StatisticsActions(b.lastId + 1, steps))
  }

  /** A stream that panics right after subscribing (time.NewTicker with an
      interval that is not positive) is unsubscribed by the deferred
      RemoveSub: the registry keeps its queues and has only used up an id. */
  lemma TickerPanicLeavesQueues(b: Bus)
    requires WellFormed(b)
    ensures Run(b, [NewSub, RemoveSub(b.lastId + 1)]) == Bus(b.lastId + 1, b.queues)
  {
    var id := b.lastId + 1;
    RunPair(b, NewSub, RemoveSub(id));
    AddRemove(b.queues, id, []);
  }

  lemma AddRemove<K, V>(m: map<K, V>, k: K, v: V)
    requires k !in m
    ensures m[k := v] - {k} == m
  {
  }

  /** A Statistics stream stays subscribed exactly as long as it has not
      returned. */
  lemma StatisticsUnsubscribes(b: Bus, steps: seq<StatStep>)
    requires WellFormed(b)
    ensures b.lastId + 1 in StatisticsEffect(b, steps).queues <==> StatisticsRun(steps, []).1.None?
  {
    var id := b.lastId + 1;
    StatisticsActionsShape(id, steps, []);
    SubscribedUntilReturn(b, StatisticsActions(id, steps), id, StatisticsRun(steps, []).1.Some?);
  }

  // ---------------------------------------------------------------------
  // The service

  /** What one step of a Logging stream subscribed as `id` does to the
      registry, its deferred RemoveSub included when the step ends it. */
  function LogStepActions(id: int, step: LogStep): seq<Action> {
    match step
    case Shutdown => [RemoveAll, RemoveSub(id)]
    case Publish(e, res) => if res != OK then [Notify(e), RemoveSub(id)] else [Notify(e)]
  }

  /** A stream subscribed as `id` waits on its queue `ch`, which holds
      nothing it has not received. */
  ghost predicate Listening(bus: EventSubscribersManager, id: int, ch: Channel)
    reads bus, bus.channels
  {
    bus.Valid() && id in bus.subscribers && bus.subscribers[id] == ch && ch.Pending() == []
  }

  /** A stream opens: NewSub registers its queue, which starts empty. */
  method Subscribe(bus: EventSubscribersManager) returns (id: int, ch: Channel)
    requires bus.Valid()
    modifies bus
    ensures Listening(bus, id, ch) && id == old(bus.Model()).lastId + 1
    ensures bus.Model() == Run(old(bus.Model()), [NewSub])
    ensures fresh(ch) && bus.channels == old(bus.channels) + {ch}
  {
    ghost var b0 := bus.Model();
    id, ch := bus.NewSub();
    RunSingle(b0, NewSub);
  }

  /** A call is published while the stream waits on its queue: every
      subscriber is sent the event, and the stream's own receive hands over
      exactly that event. */
  method NotifyAndReceive(bus: EventSubscribersManager, id: int, ch: Channel, e: Event) returns (r: Option<Event>)
    requires bus.Valid() && id in bus.subscribers && bus.subscribers[id] == ch && ch.Pending() == []
    modifies bus.channels
    ensures bus.Valid() && ch.Valid() && ch.Pending() == [] && r == Some(e)
    ensures bus.Model() == Published(old(bus.Model()), e)
  {
    bus.Notify(e);
    ghost var m := bus.Model();
    r := ch.Receive();
    forall k | k in bus.subscribers
      ensures bus.subscribers[k].sent == m.queues[k]
    {
    }
    assert bus.Model().queues == m.queues;
  }

  /** The registry shuts down while the stream waits: its queue is closed
      with nothing pending, so the receive reports the close, and the
      stream's deferred RemoveSub finds nothing left to remove. */
  method ShutdownAndReceive(bus: EventSubscribersManager, id: int, ch: Channel) returns (r: Option<Event>)
    requires bus.Valid() && id in bus.subscribers && bus.subscribers[id] == ch && ch.Pending() == []
    modifies bus, bus.channels
    ensures bus.Valid() && r == None
    ensures bus.Model() == Unsubscribed(Cleared(old(bus.Model())), id)
  {
    bus.RemoveAll();
    r := ch.Receive();
    bus.RemoveSub(id);
  }

  /** One step of a Logging stream waiting on its queue `ch`, subscribed as
      `id`: a published call is received and sent to the client; a failed
      send or a closed queue ends the stream, and its deferred RemoveSub
      runs. */
  method LogOne(bus: EventSubscribersManager, id: int, ch: Channel, step: LogStep) returns (stop: bool)
    requires Listening(bus, id, ch)
    modifies bus, bus.channels
    ensures bus.Valid()
    ensures stop <==> !(step.Publish? && step.sendResult == OK)
    ensures bus.Model() == Run(old(bus.Model()), LogStepActions(id, step))
    ensures !stop ==> bus.channels == old(bus.channels) && Listening(bus, id, ch)
  {
    ghost var b := bus.Model();
    match step
    case Shutdown =>
      var r := ShutdownAndReceive(bus, id, ch);
      RunPair(b, RemoveAll, RemoveSub(id));
      stop := true;
    case Publish(e, res) =>
      var r := NotifyAndReceive(bus, id, ch, e);
      if res != OK {
        bus.RemoveSub(id);
        RunPair(b, Notify(e), RemoveSub(id));
      } else {
        RunSingle(b, Notify(e));
      }
      stop := res != OK;
  }

  /** How far ForwardEvents has got: `sent` is what LoggingRun produces for
      the first i steps, which were all successful forwards, and `done` what
      the stream has done to the registry, its NewSub included. */
  ghost predicate ForwardedSoFar(id: int, steps: seq<LogStep>, i: int, sent: seq<Event>, done: seq<Action>)
    requires 0 <= i <= |steps|
  {
    && done + LoggingActions(id, steps[i..]) == [NewSub] + LoggingActions(id, steps)
    && sent + LoggingRun(steps[i..]).0 == LoggingRun(steps).0
    && LoggingRun(steps[i..]).1 == LoggingRun(steps).1
  }

  lemma ForwardedSoFarStart(id: int, steps: seq<LogStep>)
    ensures ForwardedSoFar(id, steps, 0, [], [NewSub])
  {
    assert steps[0..] == steps;
  }

  lemma ForwardedSoFarNext(id: int, steps: seq<LogStep>, i: int, sent: seq<Event>, done: seq<Action>)
    requires 0 <= i < |steps| && ForwardedSoFar(id, steps, i, sent, done)
    requires steps[i].Publish? && steps[i].sendResult == OK
    ensures LogStepActions(id, steps[i]) == [Notify(steps[i].e)]
    ensures ForwardedSoFar(id, steps, i + 1, sent + [steps[i].e], done + LogStepActions(id, steps[i]))
  {
    var e := steps[i].e;
    var acts, rest := LoggingActions(id, steps[i + 1..]), LoggingRun(steps[i + 1..]);
    assert LoggingActions(id, steps[i..]) == [Notify(e)] + acts && LoggingRun(steps[i..]) == ([e] + rest.0, rest.1) by {
      LoggingAt(id, steps, i);
    }
    assert (done + [Notify(e)]) + acts == done + ([Notify(e)] + acts);
    assert (sent + [e]) + rest.0 == sent + ([e] + rest.0);
  }

  lemma ForwardedSoFarStop(id: int, steps: seq<LogStep>, i: int, sent: seq<Event>, done: seq<Action>)
    requires 0 <= i < |steps| && ForwardedSoFar(id, steps, i, sent, done)
    requires !(steps[i].Publish? && steps[i].sendResult == OK)
    ensures done + LogStepActions(id, steps[i]) == [NewSub] + LoggingActions(id, steps)
    ensures (sent, LoggingRun(steps[i..]).1) == LoggingRun(steps)
  {
    LoggingAt(id, steps, i);
    assert sent + LoggingRun(steps[i..]).0 == sent;
  }

  lemma ForwardedSoFarEnd(id: int, steps: seq<LogStep>, i: int, sent: seq<Event>, done: seq<Action>)
    requires i == |steps| && ForwardedSoFar(id, steps, i, sent, done)
    ensures done == [NewSub] + LoggingActions(id, steps)
    ensures (sent, None) == LoggingRun(steps)
  {
    assert steps[i..] == [];
    assert sent + LoggingRun(steps[i..]).0 == sent;
  }

  /** A Logging stream that went through every step without returning has
      sent every event and done its whole effect. */
  lemma LoggingDone(b0: Bus, id: int, steps: seq<LogStep>, sent: seq<Event>, done: seq<Action>, m: Bus)
    requires WellFormed(b0) && id == b0.lastId + 1 && m == Run(b0, done)
    requires ForwardedSoFar(id, steps, |steps|, sent, done)
    ensures (sent, None) == LoggingRun(steps) && m == LoggingEffect(b0, steps)
  {
    ForwardedSoFarEnd(id, steps, |steps|, sent, done);
  }

  /** A Logging stream listening as `id` on `ch` has forwarded `sent` in
      the first i steps and has done `done` to the registry that was `b0`. */
  ghost predicate Forwarding(bus: EventSubscribersManager, id: int, ch: Channel, b0: Bus,
                             steps: seq<LogStep>, i: int, sent: seq<Event>, done: seq<Action>)
    reads bus, bus.channels
  {
    && 0 <= i <= |steps| && Listening(bus, id, ch)
    && WellFormed(b0) && id == b0.lastId + 1 && bus.Model() == Run(b0, done)
    && ForwardedSoFar(id, steps, i, sent, done)
  }

  /** Step i of the Logging loop: on a successful forward the loop goes on;
      otherwise the stream returns, with its whole effect on the registry
      done. */
  method ForwardOne(bus: EventSubscribersManager, id: int, ch: Channel, ghost b0: Bus,
                    steps: seq<LogStep>, i: int, sent: seq<Event>, ghost done: seq<Action>)
    returns (stop: bool, sent': seq<Event>, end: Option<Status>, ghost done': seq<Action>)
    requires Forwarding(bus, id, ch, b0, steps, i, sent, done) && i < |steps|
    modifies bus, bus.channels
    ensures !stop ==> bus.channels == old(bus.channels) && Forwarding(bus, id, ch, b0, steps, i + 1, sent', done')
    ensures stop ==> bus.Valid() && (sent', end) == LoggingRun(steps) && bus.Model() == LoggingEffect(b0, steps)
  {
    stop := LogOne(bus, id, ch, steps[i]);
    RunAppend(b0, done, LogStepActions(id, steps[i]));
    if stop {
      ForwardedSoFarStop(id, steps, i, sent, done);
      sent', end, done' := sent, LoggingRun(steps[i..]).1, done;
    } else {
      ForwardedSoFarNext(id, steps, i, sent, done);
      sent', end, done' := sent + [steps[i].e], None, done + LogStepActions(id, steps[i]);
    }
  }

  /** What one step of a Statistics stream subscribed as `id` does to the
      registry, its deferred RemoveSub included when the step ends it. */
  function StatStepActions(id: int, step: StatStep): seq<Action> {
    match step
    case Arrive(e) => [Notify(e)]
    case Tick(_, res) => if res != OK then [RemoveSub(id)] else []
    case Shutdown => [RemoveAll, RemoveSub(id)]
  }

  /** StatisticsRun and StatisticsActions from step i on, one step unfolded. */
  lemma StatisticsAt(id: int, steps: seq<StatStep>, i: int, pending: seq<Event>)
    requires 0 <= i < |steps|
    ensures steps[i].Arrive? ==>
              StatisticsActions(id, steps[i..]) == [Notify(steps[i].e)] + StatisticsActions(id, steps[i + 1..]) &&
              StatisticsRun(steps[i..], pending) == StatisticsRun(steps[i + 1..], pending + [steps[i].e])
    ensures steps[i].Tick? && steps[i].sendResult == OK ==>
              StatisticsActions(id, steps[i..]) == StatisticsActions(id, steps[i + 1..]) &&
              StatisticsRun(steps[i..], pending) ==
                ([Snapshot(steps[i].now, pending)] + StatisticsRun(steps[i + 1..], []).0, StatisticsRun(steps[i + 1..], []).1)
    ensures steps[i].Tick? && steps[i].sendResult != OK ==>
              StatisticsActions(id, steps[i..]) == [RemoveSub(id)] &&
              StatisticsRun(steps[i..], pending) == ([], Some(steps[i].sendResult))
    ensures steps[i].Shutdown? ==>
              StatisticsActions(id, steps[i..]) == [RemoveAll, RemoveSub(id)] &&
              StatisticsRun(steps[i..], pending) == ([], Some(OK))
  {
    assert steps[i..][0] == steps[i] && steps[i..][1..] == steps[i + 1..];
  }

  /** How far ForwardStats has got after i steps: `pending` are the events
      counted since the last tick, `sent` the snapshots sent, `done` what the
      stream did to the registry, its NewSub included. */
  ghost predicate StatsSoFar(id: int, steps: seq<StatStep>, i: int, pending: seq<Event>, sent: seq<Stat>, done: seq<Action>)
    requires 0 <= i <= |steps|
  {
    && done + StatisticsActions(id, steps[i..]) == [NewSub] + StatisticsActions(id, steps)
    && sent + StatisticsRun(steps[i..], pending).0 == StatisticsRun(steps, []).0
    && StatisticsRun(steps[i..], pending).1 == StatisticsRun(steps, []).1
  }

  lemma StatsSoFarStart(id: int, steps: seq<StatStep>)
    ensures StatsSoFar(id, steps, 0, [], [], [NewSub])
  {
    assert steps[0..] == steps;
  }

  lemma StatsSoFarArrive(id: int, steps: seq<StatStep>, i: int, pending: seq<Event>, sent: seq<Stat>, done: seq<Action>)
    requires 0 <= i < |steps| && StatsSoFar(id, steps, i, pending, sent, done) && steps[i].Arrive?
    ensures StatStepActions(id, steps[i]) == [Notify(steps[i].e)]
    ensures StatsSoFar(id, steps, i + 1, pending + [steps[i].e], sent, done + StatStepActions(id, steps[i]))
  {
    StatisticsAt(id, steps, i, pending);
    assert (done + [Notify(steps[i].e)]) + StatisticsActions(id, steps[i + 1..]) == done + StatisticsActions(id, steps[i..]);
  }

  lemma StatsSoFarTick(id: int, steps: seq<StatStep>, i: int, pending: seq<Event>, sent: seq<Stat>, done: seq<Action>)
    requires 0 <= i < |steps| && StatsSoFar(id, steps, i, pending, sent, done)
    requires steps[i].Tick? && steps[i].sendResult == OK
    ensures StatStepActions(id, steps[i]) == []
    ensures StatsSoFar(id, steps, i + 1, [], sent + [Snapshot(steps[i].now, pending)], done + StatStepActions(id, steps[i]))
  {
    StatisticsAt(id, steps, i, pending);
    var snap := Snapshot(steps[i].now, pending);
    assert (sent + [snap]) + StatisticsRun(steps[i + 1..], []).0 == sent + StatisticsRun(steps[i..], pending).0;
    assert done + [] == done;
  }

  lemma StatsSoFarStop(id: int, steps: seq<StatStep>, i: int, pending: seq<Event>, sent: seq<Stat>, done: seq<Action>)
    requires 0 <= i < |steps| && StatsSoFar(id, steps, i, pending, sent, done)
    requires steps[i].Shutdown? || (steps[i].Tick? && steps[i].sendResult != OK)
    ensures done + StatStepActions(id, steps[i]) == [NewSub] + StatisticsActions(id, steps)
    ensures (sent, StatisticsRun(steps[i..], pending).1) == StatisticsRun(steps, [])
  {
    StatisticsAt(id, steps, i, pending);
    assert sent + StatisticsRun(steps[i..], pending).0 == sent;
  }

  lemma StatsSoFarEnd(id: int, steps: seq<StatStep>, i: int, pending: seq<Event>, sent: seq<Stat>, done: seq<Action>)
    requires i == |steps| && StatsSoFar(id, steps, i, pending, sent, done)
    ensures done == [NewSub] + StatisticsActions(id, steps)
    ensures (sent, None) == StatisticsRun(steps, [])
  {
    assert steps[i..] == [];
    assert sent + StatisticsRun(steps[i..], pending).0 == sent;
  }

  /** A Statistics stream that went through every step without returning
      has sent every count and done its whole effect. */
  lemma StatisticsDone(b0: Bus, id: int, steps: seq<StatStep>, pending: seq<Event>, sent: seq<Stat>, done: seq<Action>, m: Bus)
    requires WellFormed(b0) && id == b0.lastId + 1 && m == Run(b0, done)
    requires StatsSoFar(id, steps, |steps|, pending, sent, done)
    ensures (sent, None) == StatisticsRun(steps, []) && m == StatisticsEffect(b0, steps)
  {
    StatsSoFarEnd(id, steps, |steps|, pending, sent, done);
  }

  /** A Statistics stream listening as `id` on `ch` has counted `pending`
      since its last tick, and has done `done` to the registry that was
      `b0`. */
  ghost predicate Counting(bus: EventSubscribersManager, id: int, ch: Channel, collector: StatCollector,
                           pending: seq<Event>, b0: Bus, done: seq<Action>)
    reads bus, bus.channels, collector
  {
    && Listening(bus, id, ch)
    && collector.Valid() && collector.seen == pending
    && WellFormed(b0) && bus.Model() == Run(b0, done)
  }

  /** A call arrives on the queue of a Statistics stream: it is published to
      every subscriber and this stream receives and counts it. */
  method CountOne(bus: EventSubscribersManager, id: int, ch: Channel, collector: StatCollector, e: Event,
                  ghost pending: seq<Event>, ghost b0: Bus, ghost done: seq<Action>)
    requires Counting(bus, id, ch, collector, pending, b0, done)
    modifies bus.channels, collector
    ensures Counting(bus, id, ch, collector, pending + [e], b0, done + StatStepActions(id, Arrive(e)))
  {
    var r := NotifyAndReceive(bus, id, ch, e);
    RunSnoc(b0, done, Notify(e));
    ghost var m := bus.Model();
    collector.Update(r.value);
    assert bus.Model() == m;
  }

  /** The ticker fires: the counts are collected, which resets them, and
      sent; a failed send ends the stream and its deferred RemoveSub runs. */
  method TickOne(bus: EventSubscribersManager, id: int, ch: Channel, collector: StatCollector, now: int, res: Status,
                 ghost pending: seq<Event>, ghost b0: Bus, ghost done: seq<Action>)
    returns (snapshot: Stat)
    requires Counting(bus, id, ch, collector, pending, b0, done)
    modifies bus`subscribers, bus`channels, ch, collector
    ensures snapshot == Snapshot(now, pending)
    ensures res == OK ==>
              bus.subscribers == old(bus.subscribers) && bus.channels == old(bus.channels) &&
              Counting(bus, id, ch, collector, [], b0, done + StatStepActions(id, Tick(now, res)))
    ensures res != OK ==>
              bus.Valid() && bus.Model() == Run(b0, done + StatStepActions(id, Tick(now, res)))
  {
    snapshot := collector.Collect(now);
    if res != OK {
      bus.RemoveSub(id);
      RunSnoc(b0, done, RemoveSub(id));
    } else {
      assert done + StatStepActions(id, Tick(now, res)) == done;
    }
  }

  /** The ticker panics right after NewSub: the deferred RemoveSub drops
      the stream's queue again. */
  method TickerPanic(bus: EventSubscribersManager, id: int, ch: Channel, ghost b0: Bus)
    requires Listening(bus, id, ch)
    requires WellFormed(b0) && id == b0.lastId + 1 && bus.Model() == Run(b0, [NewSub])
    modifies bus, bus.channels
    ensures bus.Valid() && bus.Model() == Bus(b0.lastId + 1, b0.queues)
  {
    bus.RemoveSub(id);
    RunSingle(b0, NewSub);
    AddRemove(b0.queues, id, []);
  }

  /** The registry shuts down while a Statistics stream waits: it returns
      OK, and its deferred RemoveSub runs. */
  method CloseOne(bus: EventSubscribersManager, id: int, ch: Channel, collector: StatCollector,
                  ghost pending: seq<Event>, ghost b0: Bus, ghost done: seq<Action>)
    requires Counting(bus, id, ch, collector, pending, b0, done)
    modifies bus, bus.channels
    ensures bus.Valid() && bus.Model() == Run(b0, done + StatStepActions(id, StatStep.Shutdown))
  {
    var r := ShutdownAndReceive(bus, id, ch);
    RunAppend(b0, done, [RemoveAll, RemoveSub(id)]);
    RunPair(Run(b0, done), RemoveAll, RemoveSub(id));
  }

  /** A Statistics stream after i steps: counting `pending` since its last
      tick, having sent `sent` and done `done` to the registry that was
      `b0`. */
  ghost predicate Tallying(bus: EventSubscribersManager, id: int, ch: Channel, collector: StatCollector, b0: Bus,
                           steps: seq<StatStep>, i: int, pending: seq<Event>, sent: seq<Stat>, done: seq<Action>)
    reads bus, bus.channels, collector
  {
    && 0 <= i <= |steps| && id == b0.lastId + 1
    && Counting(bus, id, ch, collector, pending, b0, done)
    && StatsSoFar(id, steps, i, pending, sent, done)
  }

  /** Step i of the Statistics loop when it is an arrival. */
  method ArriveAt(bus: EventSubscribersManager, id: int, ch: Channel, collector: StatCollector, ghost b0: Bus,
                  steps: seq<StatStep>, i: int, ghost pending: seq<Event>, sent: seq<Stat>, ghost done: seq<Action>)
    returns (ghost pending': seq<Event>, ghost done': seq<Action>)
    requires Tallying(bus, id, ch, collector, b0, steps, i, pending, sent, done) && i < |steps| && steps[i].Arrive?
    modifies bus.channels, collector
    ensures bus.channels == old(bus.channels)
    ensures Tallying(bus, id, ch, collector, b0, steps, i + 1, pending', sent, done')
  {
    CountOne(bus, id, ch, collector, steps[i].e, pending, b0, done);
    StatsSoFarArrive(id, steps, i, pending, sent, done);
    pending', done' := pending + [steps[i].e], done + StatStepActions(id, steps[i]);
  }

  /** Step i of the Statistics loop when the ticker fires: the snapshot is
      sent, and a failed send ends the stream. */
  method TickAt(bus: EventSubscribersManager, id: int, ch: Channel, collector: StatCollector, ghost b0: Bus,
                steps: seq<StatStep>, i: int, ghost pending: seq<Event>, sent: seq<Stat>, ghost done: seq<Action>)
    returns (stop: bool, sent': seq<Stat>, end: Option<Status>, ghost done': seq<Action>)
    requires Tallying(bus, id, ch, collector, b0, steps, i, pending, sent, done) && i < |steps| && steps[i].Tick?
    modifies bus`subscribers, bus`channels, ch, collector
    ensures !stop ==> bus.channels == old(bus.channels) && Tallying(bus, id, ch, collector, b0, steps, i + 1, [], sent', done')
    ensures stop ==> bus.Valid() && (sent', end) == StatisticsRun(steps, []) && bus.Model() == StatisticsEffect(b0, steps)
  {
    var snapshot := TickOne(bus, id, ch, collector, steps[i].now, steps[i].sendResult, pending, b0, done);
    stop := steps[i].sendResult != OK;
    if stop {
      StatsSoFarStop(id, steps, i, pending, sent, done);
      StatisticsAt(id, steps, i, pending);
      sent', end, done' := sent, Some(steps[i].sendResult), done;
    } else {
      StatsSoFarTick(id, steps, i, pending, sent, done);
      sent', end, done' := sent + [snapshot], None, done + StatStepActions(id, steps[i]);
    }
  }

  /** Step i of the Statistics loop when the registry shuts down. */
  method CloseAt(bus: EventSubscribersManager, id: int, ch: Channel, collector: StatCollector, ghost b0: Bus,
                 steps: seq<StatStep>, i: int, ghost pending: seq<Event>, sent: seq<Stat>, ghost done: seq<Action>)
    requires Tallying(bus, id, ch, collector, b0, steps, i, pending, sent, done) && i < |steps| && steps[i].Shutdown?
    modifies bus, bus.channels
    ensures bus.Valid() && (sent, Some(OK)) == StatisticsRun(steps, []) && bus.Model() == StatisticsEffect(b0, steps)
  {
    CloseOne(bus, id, ch, collector, pending, b0, done);
    StatsSoFarStop(id, steps, i, pending, sent, done);
    StatisticsAt(id, steps, i, pending);
  }

  /** Step i of the Statistics loop. */
  method StatisticsOne(bus: EventSubscribersManager, id: int, ch: Channel, collector: StatCollector, ghost b0: Bus,
                       steps: seq<StatStep>, i: int, ghost pending: seq<Event>, sent: seq<Stat>, ghost done: seq<Action>)
    returns (stop: bool, sent': seq<Stat>, end: Option<Status>, ghost pending': seq<Event>, ghost done': seq<Action>)
    requires Tallying(bus, id, ch, collector, b0, steps, i, pending, sent, done) && i < |steps|
    modifies bus, bus.channels, collector
    ensures !stop ==> bus.channels == old(bus.channels) && Tallying(bus, id, ch, collector, b0, steps, i + 1, pending', sent', done')
    ensures stop ==> bus.Valid() && (sent', end) == StatisticsRun(steps, []) && bus.Model() == StatisticsEffect(b0, steps)
  {
    match steps[i] {
      case Arrive(_) =>
        pending', done' := ArriveAt(bus, id, ch, collector, b0, steps, i, pending, sent, done);
        stop, sent', end := false, sent, None;
      case Tick(_, _) =>
        stop, sent', end, done' := TickAt(bus, id, ch, collector, b0, steps, i, pending, sent, done);
        pending' := [];
      case Shutdown =>
        CloseAt(bus, id, ch, collector, b0, steps, i, pending, sent, done);
        stop, sent', end, pending', done' := true, sent, Some(OK), pending, done;
    }
  }

  class AdminService {
    const eventSubscribers: EventSubscribersManager

    /** NewAdminService: the streams share the interceptor's registry. */
    constructor (subscribers: EventSubscribersManager)
      ensures eventSubscribers == subscribers
    {
      eventSubscribers := subscribers;
    }

    /** Logging: subscribe, forward every event of the queue to the client
        until the queue closes or a send fails, then unsubscribe. */
    method Logging(steps: seq<LogStep>) returns (sent: seq<Event>, end: Option<Status>)
      requires eventSubscribers.Valid()
      modifies eventSubscribers, eventSubscribers.channels
      ensures eventSubscribers.Valid()
      ensures (sent, end) == LoggingRun(steps)
      ensures eventSubscribers.Model() == LoggingEffect(old(eventSubscribers.Model()), steps)
    {
      ghost var b0 := eventSubscribers.Model();
      var id, eventChan := Subscribe(eventSubscribers);
      sent, end := ForwardEvents(b0, id, eventChan, steps);
    }

    /** The loop of Logging, once subscribed as `id` with queue `eventChan`
        on a registry that was `b0`. */
    method ForwardEvents(ghost b0: Bus, id: int, eventChan: Channel, steps: seq<LogStep>) returns (sent: seq<Event>, end: Option<Status>)
      requires Listening(eventSubscribers, id, eventChan)
      requires WellFormed(b0) && id == b0.lastId + 1 && eventSubscribers.Model() == Run(b0, [NewSub])
      modifies eventSubscribers, eventSubscribers.channels
      ensures eventSubscribers.Valid()
      ensures (sent, end) == LoggingRun(steps)
      ensures eventSubscribers.Model() == LoggingEffect(b0, steps)
    {
      var bus := eventSubscribers;
      ghost var done: seq<Action> := [NewSub];
      sent := [];
      var i := 0;
      ForwardedSoFarStart(id, steps);
      while i < |steps|
        invariant bus.channels == old(bus.channels)
        invariant Forwarding(bus, id, eventChan, b0, steps, i, sent, done)
        decreases |steps| - i
      {
        var stop;
        stop, sent, end, done := ForwardOne(bus, id, eventChan, b0, steps, i, sent, done);
        if stop {
          return;
        }
        i := i + 1;
      }
      end := None;
      LoggingDone(b0, id, steps, sent, done, bus.Model());
    }

    /** Statistics: subscribe, start a ticker of `intervalSeconds` seconds,
        count the calls that arrive and send the counts on every tick, until
        the queue closes or a send fails, then unsubscribe. A positive
        interval only decides when the ticks come, which the trace already
        fixes; time.NewTicker panics on any other, after the subscription,
        and the deferred RemoveSub runs as the panic unwinds. */
    method Statistics(intervalSeconds: int, steps: seq<StatStep>) returns (sent: seq<Stat>, end: Option<Status>, panicked: bool)
      requires eventSubscribers.Valid()
      modifies eventSubscribers, eventSubscribers.channels
      ensures eventSubscribers.Valid()
      ensures panicked <==> intervalSeconds <= 0
      ensures !panicked ==> (sent, end) == StatisticsRun(steps, [])
      ensures !panicked ==> eventSubscribers.Model() == StatisticsEffect(old(eventSubscribers.Model()), steps)
      ensures panicked ==> sent == [] && end == None
      ensures panicked ==> eventSubscribers.Model() == Bus(old(eventSubscribers.Model()).lastId + 1, old(eventSubscribers.Model()).queues)
    {
      ghost var b0 := eventSubscribers.Model();
      var id, eventsChan := Subscribe(eventSubscribers);
      if intervalSeconds <= 0 {
        TickerPanic(eventSubscribers, id, eventsChan, b0);
        return [], None, true;
      }
      sent, end := ForwardStats(b0, id, eventsChan, steps);
      panicked := false;
    }

    /** The loop of Statistics, once subscribed as `id` with queue
        `eventsChan` on a registry that was `b0`. */
    method ForwardStats(ghost b0: Bus, id: int, eventsChan: Channel, steps: seq<StatStep>) returns (sent: seq<Stat>, end: Option<Status>)
      requires Listening(eventSubscribers, id, eventsChan)
      requires WellFormed(b0) && id == b0.lastId + 1 && eventSubscribers.Model() == Run(b0, [NewSub])
      modifies eventSubscribers, eventSubscribers.channels
      ensures eventSubscribers.Valid()
      ensures (sent, end) == StatisticsRun(steps, [])
      ensures eventSubscribers.Model() == StatisticsEffect(b0, steps)
    {
      var bus := eventSubscribers;
      ghost var done: seq<Action> := [NewSub];
      ghost var pending: seq<Event> := [];
      var statCollector := new StatCollector();
      sent := [];
      var i := 0;
      StatsSoFarStart(id, steps);
      while i < |steps|
        invariant bus.channels == old(bus.channels)
        invariant Tallying(bus, id, eventsChan, statCollector, b0, steps, i, pending, sent, done)
        decreases |steps| - i
      {
        var stop;
        stop, sent, end, pending, done := StatisticsOne(bus, id, eventsChan, statCollector, b0, steps, i, pending, sent, done);
        if stop {
          return;
        }
        i := i + 1;
      }
      end := None;
      StatisticsDone(b0, id, steps, pending, sent, done, bus.Model());
    }
  }
}
