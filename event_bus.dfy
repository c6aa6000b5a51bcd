// The subscriber registry that fans every intercepted call out to the open
// admin streams: an id counter plus a map from id to an event queue.
//
// A Go channel is modelled as a queue with a closed flag: `sent` is every
// event ever sent on it and `received` how many the reader has taken, so the
// events still waiting are `sent[received..]`. A send never blocks here; the
// hand-over of an unbuffered channel is not modelled.
module EventBus {
  import opened Outcomes
  import opened MapIteration

  /** service.Event: one intercepted call. */
  datatype Event = Event(timestamp: int, consumer: string, methodName: string, host: string)

  class Channel {
    /** The subscription id the channel was made for (ghost bookkeeping). */
    ghost const key: int
    var sent: seq<Event>
    var received: nat
    var closed: bool

    ghost predicate Valid()
      reads this
    {
      received <= |sent|
    }

    /** The events sent and not yet received. */
    function Pending(): seq<Event>
      reads this
      requires Valid()
    {
      sent[received..]
    }

    constructor (ghost key: int)
      ensures Valid() && sent == [] && received == 0 && !closed && this.key == key
    {
      this.key := key;
      sent, received, closed := [], 0, false;
    }

    /** `ch <- e`; sending on a closed channel panics in Go. */
    method Send(e: Event)
      requires Valid() && !closed
      modifies this`sent
      ensures Valid() && sent == old(sent) + [e]
    {
      sent := sent + [e];
    }

    /** `close(ch)`; closing twice panics in Go. */
    method Close()
      requires !closed
      modifies this`closed
      ensures closed
    {
      closed := true;
    }

    /** `e, ok := <-ch`: the oldest pending event, or None once the channel is
        closed and drained. Receiving on an open empty channel would block, so
        the caller must know that one of the two holds. */
    method Receive() returns (r: Option<Event>)
      requires Valid() && (received < |sent| || closed)
      modifies this`received
      ensures Valid()
      ensures old(received) < |sent| ==> r == Some(sent[old(received)]) && received == old(received) + 1
      ensures old(received) == |sent| ==> r == None && received == old(received)
    {
      if received < |sent| {
        r := Some(sent[received]);
        received := received + 1;
      } else {
        r := None;
      }
    }
  }

  // ---------------------------------------------------------------------
  // The registry as a value

  /** The registry as a value: the last id handed out and, for every id still
      subscribed, the events sent to it so far. */
  datatype Bus = Bus(lastId: int, queues: map<int, seq<Event>>)

  ghost predicate WellFormed(b: Bus) {
    b.lastId >= 0 && forall k :: k in b.queues ==> 1 <= k <= b.lastId
  }

  /** NewEventSubscribersManager: no ids handed out yet. */
  function Initial(): (b: Bus)
    ensures WellFormed(b) && b.queues == map[]
  {
    Bus(0, map[])
  }

  /** NewSub: the next id, with an empty queue; no existing id is reused. */
  function Subscribed(b: Bus): (r: (Bus, int))
    requires WellFormed(b)
    ensures WellFormed(r.0)
    ensures r.1 == b.lastId + 1 && r.1 !in b.queues && r.0.lastId == r.1
    ensures r.0.queues == b.queues[r.1 := []]
  {
    var id := b.lastId + 1;
    (Bus(id, b.queues[id := []]), id)
  }

  /** RemoveSub: forget a subscribed id; an unknown id is a no-op. */
  function Unsubscribed(b: Bus, id: int): (r: Bus)
    requires WellFormed(b)
    ensures WellFormed(r)
    ensures r.queues == b.queues - {id} && r.lastId == b.lastId
  {
    if id in b.queues then b.(queues := b.queues - {id}) else b
  }

  /** RemoveAll: no id stays subscribed. */
  function Cleared(b: Bus): (r: Bus)
    requires WellFormed(b)
    ensures WellFormed(r)
    ensures r.queues == map[] && r.lastId == b.lastId
  {
    b.(queues := map[])
  }

  /** Notify: the event is appended once to every subscribed queue. */
  function Published(b: Bus, e: Event): (r: Bus)
    requires WellFormed(b)
    ensures WellFormed(r)
    ensures r.lastId == b.lastId && r.queues.Keys == b.queues.Keys
    ensures forall k :: k in b.queues ==> r.queues[k] == b.queues[k] + [e]
  {
    b.(queues := map k | k in b.queues :: b.queues[k] + [e])
  }

  /** The registry's operations, for reasoning about sequences of them. */
  datatype Action = NewSub | RemoveSub(id: int) | RemoveAll | Notify(event: Event)

  function Step(b: Bus, a: Action): (r: Bus)
    requires WellFormed(b)
    ensures WellFormed(r)
    ensures r.lastId == if a.NewSub? then b.lastId + 1 else b.lastId
  {
    match a
    case NewSub => Subscribed(b).0
    case RemoveSub(id) => Unsubscribed(b, id)
    case RemoveAll => Cleared(b)
    case Notify(e) => Published(b, e)
  }

  /** The registry after a sequence of operations. */
  function Run(b: Bus, acts: seq<Action>): (r: Bus)
    requires WellFormed(b)
    ensures WellFormed(r)
    decreases |acts|
  {
    if |acts| == 0 then b else Step(Run(b, acts[..|acts| - 1]), acts[|acts| - 1])
  }

  /** The ids the NewSub operations of the sequence return, in order. */
  function Issued(b: Bus, acts: seq<Action>): seq<int>
    requires WellFormed(b)
    decreases |acts|
  {
    if |acts| == 0 then []
    else
      var init := acts[..|acts| - 1];
      Issued(b, init) + (if acts[|acts| - 1].NewSub? then [Run(b, init).lastId + 1] else [])
  }

  /** The events that Notify published while `id` was subscribed, in order. */
  function SentWhileSubscribed(b: Bus, acts: seq<Action>, id: int): seq<Event>
    requires WellFormed(b)
    decreases |acts|
  {
    if |acts| == 0 then []
    else
      var init := acts[..|acts| - 1];
      var last := acts[|acts| - 1];
      SentWhileSubscribed(b, init, id) +
        (if last.Notify? && id in Run(b, init).queues then [last.event] else [])
  }

  /** Ids are handed out consecutively after the last one: the i-th NewSub of
      the sequence returns lastId + 1 + i, so no id is ever handed out twice,
      removed or not. */
  lemma {:induction false} IssuedConsecutively(b: Bus, acts: seq<Action>)
    requires WellFormed(b)
    ensures Run(b, acts).lastId == b.lastId + |Issued(b, acts)|
    ensures forall i :: 0 <= i < |Issued(b, acts)| ==> Issued(b, acts)[i] == b.lastId + 1 + i
    decreases |acts|
  {
    if |acts| > 0 {
      IssuedConsecutively(b, acts[..|acts| - 1]);
    }
  }

  /** Starting from a fresh registry, the ids handed out are 1, 2, 3, ... */
  lemma IdsFromOne(acts: seq<Action>)
    ensures forall i :: 0 <= i < |Issued(Initial(), acts)| ==> Issued(Initial(), acts)[i] == i + 1
  {
    IssuedConsecutively(Initial(), acts);
  }

  /** Running a sequence in two parts is running it whole. */
  lemma {:induction false} RunAppend(b: Bus, xs: seq<Action>, ys: seq<Action>)
    requires WellFormed(b)
    ensures Run(b, xs + ys) == Run(Run(b, xs), ys)
    decreases |ys|
  {
    if |ys| == 0 {
      assert xs + ys == xs;
    } else {
      assert (xs + ys)[..|xs + ys| - 1] == xs + ys[..|ys| - 1];
      RunAppend(b, xs, ys[..|ys| - 1]);
    }
  }

  /** Running one more operation is one more Step. */
  lemma RunSnoc(b: Bus, acts: seq<Action>, a: Action)
    requires WellFormed(b)
    ensures Run(b, acts + [a]) == Step(Run(b, acts), a)
  {
    assert (acts + [a])[..|acts|] == acts;
  }

  /** Running one operation is one Step. */
  lemma RunSingle(b: Bus, x: Action)
    requires WellFormed(b)
    ensures Run(b, [x]) == Step(b, x)
  {
    RunSnoc(b, [], x);
    assert [] + [x] == [x];
  }

  /** Running two operations is two Steps. */
  lemma RunPair(b: Bus, x: Action, y: Action)
    requires WellFormed(b)
    ensures Run(b, [x, y]) == Step(Step(b, x), y)
  {
    RunSingle(b, x);
    RunSnoc(b, [x], y);
    assert [x] + [y] == [x, y];
  }

  /** Notifications never add or remove a subscription. */
  lemma {:induction false} NotifiesKeepKeys(b: Bus, acts: seq<Action>)
    requires WellFormed(b) && forall j :: 0 <= j < |acts| ==> acts[j].Notify?
    ensures Run(b, acts).queues.Keys == b.queues.Keys
    decreases |acts|
  {
    if |acts| > 0 {
      NotifiesKeepKeys(b, acts[..|acts| - 1]);
    }
  }

  /** The last id handed out never decreases. */
  lemma {:induction false} LastIdGrows(b: Bus, acts: seq<Action>)
    requires WellFormed(b)
    ensures b.lastId <= Run(b, acts).lastId
    decreases |acts|
  {
    if |acts| > 0 {
      LastIdGrows(b, acts[..|acts| - 1]);
    }
  }

  /** An id that was handed out and is no longer subscribed never comes
      back. */
  lemma {:induction false} RemovedStaysRemoved(b: Bus, acts: seq<Action>, id: int)
    requires WellFormed(b) && id <= b.lastId && id !in b.queues
    ensures id !in Run(b, acts).queues
    decreases |acts|
  {
    if |acts| > 0 {
      LastIdGrows(b, acts[..|acts| - 1]);
      RemovedStaysRemoved(b, acts[..|acts| - 1], id);
    }
  }

  /** Once an id is removed at some point of a sequence, it stays removed
      whatever follows. */
  lemma RemovedUntilEnd(b: Bus, xs: seq<Action>, ys: seq<Action>, id: int)
    requires WellFormed(b)
    requires id <= Run(b, xs).lastId && id !in Run(b, xs).queues
    ensures id !in Run(b, xs + ys).queues
  {
    RunAppend(b, xs, ys);
    RemovedStaysRemoved(Run(b, xs), ys, id);
  }

  /** No event is counted for an id before it is handed out. */
  lemma {:induction false} NothingBeforeIssue(b: Bus, acts: seq<Action>, id: int)
    requires WellFormed(b) && id > Run(b, acts).lastId
    ensures SentWhileSubscribed(b, acts, id) == []
    decreases |acts|
  {
    if |acts| > 0 {
      NothingBeforeIssue(b, acts[..|acts| - 1], id);
    }
  }

  /** Delivery: the queue of a subscribed id holds exactly the events that
      were published while it was subscribed, each once and in order; events
      published before it subscribed or after a removal never reach it. */
  lemma {:induction false} Delivery(b: Bus, acts: seq<Action>, id: int)
    requires WellFormed(b) && id in Run(b, acts).queues
    ensures Run(b, acts).queues[id] ==
              (if id in b.queues then b.queues[id] else []) + SentWhileSubscribed(b, acts, id)
    decreases |acts|
  {
    if |acts| > 0 {
      var init := acts[..|acts| - 1];
      var last := acts[|acts| - 1];
      var before := Run(b, init);
      if last.NewSub? && id == before.lastId + 1 {
        NothingBeforeIssue(b, init, id);
        LastIdGrows(b, init);
      } else {
        Delivery(b, init, id);
      }
    }
  }

  // ---------------------------------------------------------------------
  // The registry as a class

  class EventSubscribersManager {
    var id: int
    var subscribers: map<int, Channel>
    /** The registered channels (ghost footprint). */
    ghost var channels: set<Channel>

    ghost predicate Valid()
      reads this, channels
    {
      && id >= 0
      && (forall k :: k in subscribers ==> 1 <= k <= id && subscribers[k] in channels && subscribers[k].key == k)
      && (forall c :: c in channels ==> c.key in subscribers && subscribers[c.key] == c && c.Valid() && !c.closed)
    }

    ghost function Model(): (b: Bus)
      reads this, channels
      requires Valid()
      ensures WellFormed(b)
    {
      Bus(id, map k | k in subscribers :: subscribers[k].sent)
    }

    constructor ()
      ensures Valid() && Model() == Initial() && channels == {}
    {
      id := 0;
      subscribers := map[];
      channels := {};
    }

    /** NewSub: bump the counter and register a fresh empty channel under it. */
    method NewSub() returns (subId: int, ch: Channel)
      requires Valid()
      modifies this
      ensures Valid() && fresh(ch)
      ensures (Model(), subId) == Subscribed(old(Model()))
      ensures subId in subscribers && ch == subscribers[subId] && ch.Pending() == [] && !ch.closed
      ensures subscribers == old(subscribers)[subId := ch] && channels == old(channels) + {ch}
    {
      ghost var before := Model();
      id := id + 1;
      ch := new Channel(id);
      subscribers := subscribers[id := ch];
      channels := channels + {ch};
      subId := id;
      assert Valid();
      ghost var after := Model();
      assert after.queues.Keys == before.queues.Keys + {id};
      forall k | k in after.queues
        ensures after.queues[k] == before.queues[id := []][k]
      {
      }
      assert after == Subscribed(before).0;
    }

    /** RemoveSub: close and delete a registered channel; unknown ids are
        ignored. */
    method RemoveSub(subId: int)
      requires Valid()
      modifies this`subscribers, this`channels, if subId in subscribers then {subscribers[subId]} else {}
      ensures Valid()
      ensures Model() == Unsubscribed(old(Model()), subId)
      ensures subId in old(subscribers) ==> old(subscribers[subId]).closed
      ensures subscribers == old(subscribers) - {subId}
      ensures channels <= old(channels)
      ensures subId in old(subscribers) ==>
                old(subscribers[subId]).sent == old(subscribers[subId].sent) &&
                old(subscribers[subId]).received == old(subscribers[subId].received)
    {
      if subId in subscribers {
        Unsubscribe(subId, subscribers[subId]);
        assert Model().queues == old(Model()).queues - {subId};
      }
    }

    /** The body of RemoveSub for an id that is registered: only the
        channel's closed flag and the map change. */
    method Unsubscribe(subId: int, subscriber: Channel)
      requires Valid() && subId in subscribers && subscribers[subId] == subscriber
      modifies this`subscribers, this`channels, subscriber`closed
      ensures Valid() && subscribers == old(subscribers) - {subId} && subscriber.closed
      ensures channels == old(channels) - {subscriber}
    {
      subscriber.Close();
      subscribers := subscribers - {subId};
      channels := channels - {subscriber};
    }

    /** RemoveAll: RemoveSub for every registered id, in the map's
        unspecified order; each id is registered when its turn comes. */
    method RemoveAll()
      requires Valid()
      modifies this`subscribers, this`channels, channels
      ensures Valid()
      ensures Model() == Cleared(old(Model())) && subscribers == map[] && channels == {}
      ensures forall c :: c in old(channels) ==> c.closed && c.sent == old(c.sent) && c.received == old(c.received)
    {
      var ids := subscribers.Keys;
      while ids != {}
        invariant Valid() && id == old(id)
        invariant subscribers.Keys == ids && channels <= old(channels)
        invariant forall c :: c in old(channels) ==> c.sent == old(c.sent) && c.received == old(c.received)
        invariant forall c :: c in old(channels) ==> c.closed || c in channels
        decreases ids
      {
        var k := Pick(ids);
        Unsubscribe(k, subscribers[k]);
        ids := ids - {k};
      }
      assert subscribers == map[];
    }

    /** Notify: send the event on every registered channel, in the map's
        unspecified order. */
    method Notify(e: Event)
      requires Valid()
      modifies channels
      ensures Valid()
      ensures Model() == Published(old(Model()), e)
      ensures forall c :: c in channels ==> c.sent == old(c.sent) + [e] && c.received == old(c.received)
    {
      var pending, done := subscribers.Keys, {};
      while pending != {}
        invariant pending == subscribers.Keys - done && done <= subscribers.Keys
        invariant forall k :: k in subscribers ==>
                    subscribers[k].sent == old(subscribers[k].sent) + (if k in done then [e] else [])
        invariant forall c :: c in channels ==> c.received == old(c.received) && !c.closed
        decreases pending
      {
        var k := Pick(pending);
        subscribers[k].Send(e);
        pending, done := pending - {k}, done + {k};
      }
      ghost var after := Model();
      ghost var expected := Published(old(Model()), e);
      forall k | k in after.queues
        ensures after.queues[k] == expected.queues[k]
      {
      }
      assert after.queues == expected.queues;
    }
  }
}
