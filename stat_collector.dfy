// The per-stream statistics counter of the admin Statistics stream: how many
// calls each method and each consumer made since the last read.
module StatCollector {
  import opened EventBus

  /** service.Stat: a snapshot of the two counters. */
  datatype Stat = Stat(timestamp: int, byMethod: map<string, nat>, byConsumer: map<string, nat>)

  /** `m[k] += 1` on a Go map, where a missing key reads as 0. */
  function Bump(m: map<string, nat>, k: string): map<string, nat> {
    m[k := (if k in m then m[k] else 0) + 1]
  }

  /** The counter after bumping each key of the sequence in turn. */
  function Tally(keys: seq<string>): map<string, nat>
    decreases |keys|
  {
    if |keys| == 0 then map[] else Bump(Tally(keys[..|keys| - 1]), keys[|keys| - 1])
  }

  /** The method of each event, in order. */
  function Methods(events: seq<Event>): seq<string>
  {
    if |events| == 0 then [] else Methods(events[..|events| - 1]) + [events[|events| - 1].methodName]
  }

  /** The consumer of each event, in order. */
  function Consumers(events: seq<Event>): seq<string>
  {
    if |events| == 0 then [] else Consumers(events[..|events| - 1]) + [events[|events| - 1].consumer]
  }

  /** Methods and Consumers keep one entry per event, at its position. */
  lemma {:induction false} ProjectionsAt(events: seq<Event>)
    ensures |Methods(events)| == |events| && |Consumers(events)| == |events|
    ensures forall i :: 0 <= i < |events| ==>
              Methods(events)[i] == events[i].methodName && Consumers(events)[i] == events[i].consumer
    decreases |events|
  {
    if |events| > 0 {
      ProjectionsAt(events[..|events| - 1]);
    }
  }

  /** The counter holds exactly the keys that occur, each with its number of
      occurrences. */
  lemma {:induction false} TallyCounts(keys: seq<string>)
    ensures forall k :: k in Tally(keys) <==> k in keys
    ensures forall k :: k in Tally(keys) ==> Tally(keys)[k] == multiset(keys)[k]
    decreases |keys|
  {
    if |keys| > 0 {
      var init := keys[..|keys| - 1];
      var last := keys[|keys| - 1];
      TallyCounts(init);
      assert keys == init + [last];
      assert multiset(keys) == multiset(init) + multiset{last};
      forall k ensures k in keys <==> k in init || k == last {
      }
      forall k | k in Tally(keys) ensures Tally(keys)[k] == multiset(keys)[k] {
        if k != last && k in Tally(init) {
          assert Tally(keys)[k] == Tally(init)[k];
        }
      }
    }
  }

  /** The sum of a counter's values. */
  ghost function Sum(m: map<string, nat>): nat
    decreases |m.Keys|
  {
    if m == map[] then 0
    else
      var k :| k in m;
      m[k] + Sum(m - {k})
  }

  /** Sum does not depend on which key is taken first. */
  lemma {:induction false} SumRemove(m: map<string, nat>, k: string)
    requires k in m
    ensures Sum(m) == m[k] + Sum(m - {k})
    decreases |m.Keys|
  {
    var j :| j in m && Sum(m) == m[j] + Sum(m - {j});
    if j != k {
      assert (m - {j}) - {k} == (m - {k}) - {j};
      SumRemove(m - {j}, k);
      SumRemove(m - {k}, j);
    }
  }

  lemma SumBump(m: map<string, nat>, k: string)
    ensures Sum(Bump(m, k)) == Sum(m) + 1
  {
    var b := Bump(m, k);
    SumRemove(b, k);
    assert b - {k} == m - {k};
    if k in m {
      SumRemove(m, k);
    } else {
      assert m - {k} == m;
    }
  }

  /** Every update adds one to the sum of a counter. */
  lemma {:induction false} SumOfTally(keys: seq<string>)
    ensures Sum(Tally(keys)) == |keys|
    decreases |keys|
  {
    if |keys| > 0 {
      SumOfTally(keys[..|keys| - 1]);
      SumBump(Tally(keys[..|keys| - 1]), keys[|keys| - 1]);
    } else {
      assert Tally(keys) == map[];
    }
  }

  /** Between two resets the per-method counts and the per-consumer counts
      both add up to the number of updates. */
  lemma SumsAgree(events: seq<Event>)
    ensures Sum(Tally(Methods(events))) == |events| == Sum(Tally(Consumers(events)))
  {
    ProjectionsAt(events);
    SumOfTally(Methods(events));
    SumOfTally(Consumers(events));
  }

  /** The per-method counter has a key for exactly the methods called. */
  lemma MethodKeys(events: seq<Event>)
    ensures Tally(Methods(events)).Keys == set e | e in events :: e.methodName
  {
    var names := Methods(events);
    TallyCounts(names);
    ProjectionsAt(events);
    forall m | m in names ensures m in set e | e in events :: e.methodName {
      var j :| 0 <= j < |names| && names[j] == m;
      assert events[j] in events;
    }
    forall e | e in events ensures e.methodName in names {
      var j :| 0 <= j < |events| && events[j] == e;
      assert names[j] == e.methodName;
    }
  }

  /** The per-consumer counter has a key for exactly the consumers seen. */
  lemma ConsumerKeys(events: seq<Event>)
    ensures Tally(Consumers(events)).Keys == set e | e in events :: e.consumer
  {
    var names := Consumers(events);
    TallyCounts(names);
    ProjectionsAt(events);
    forall c | c in names ensures c in set e | e in events :: e.consumer {
      var j :| 0 <= j < |names| && names[j] == c;
      assert events[j] in events;
    }
    forall e | e in events ensures e.consumer in names {
      var j :| 0 <= j < |events| && events[j] == e;
      assert names[j] == e.consumer;
    }
  }

  class StatCollector {
    var byMethod: map<string, nat>
    var byConsumer: map<string, nat>
    /** The events counted since construction or the last reset. */
    ghost var seen: seq<Event>

    ghost predicate Valid()
      reads this
    {
      byMethod == Tally(Methods(seen)) && byConsumer == Tally(Consumers(seen))
    }

    /** NewStatCollector: starts from a reset. */
    constructor ()
      ensures Valid() && seen == [] && byMethod == map[] && byConsumer == map[]
    {
      byMethod, byConsumer := map[], map[];
      seen := [];
    }

    /** Reset: fresh empty counters. */
    method Reset()
      modifies this
      ensures Valid() && seen == [] && byMethod == map[] && byConsumer == map[]
    {
      byMethod, byConsumer := map[], map[];
      seen := [];
    }

    /** Update: one more call of the event's method by its consumer; every
        other key keeps its count. */
    method Update(e: Event)
      requires Valid()
      modifies this
      ensures Valid() && seen == old(seen) + [e]
      ensures byConsumer == Bump(old(byConsumer), e.consumer)
      ensures byMethod == Bump(old(byMethod), e.methodName)
    {
      byConsumer := Bump(byConsumer, e.consumer);
      byMethod := Bump(byMethod, e.methodName);
      seen := seen + [e];
      assert seen[..|seen| - 1] == old(seen);
    }

    /** Collect: the counts since the last reset, stamped with `now`, then a
        reset. The snapshot is a value, so later updates cannot reach it. */
    method Collect(now: int) returns (stat: Stat)
      requires Valid()
      modifies this
      ensures stat == Stat(now, Tally(Methods(old(seen))), Tally(Consumers(old(seen))))
      ensures Valid() && seen == [] && byMethod == map[] && byConsumer == map[]
    {
      stat := Stat(now, byMethod, byConsumer);
      Reset();
    }
  }

  /** A new collector that has counted the given events. */
  method Counted(events: seq<Event>) returns (collector: StatCollector)
    ensures fresh(collector) && collector.Valid() && collector.seen == events
  {
    collector := new StatCollector();
    var i := 0;
    while i < |events|
      invariant 0 <= i <= |events|
      invariant collector.Valid() && collector.seen == events[..i]
    {
      collector.Update(events[i]);
      assert events[..i + 1] == events[..i] + [events[i]];
      i := i + 1;
    }
    assert events[..i] == events;
  }

  /** Two reads with no update between them: the first gets every count, the
      second gets empty counters. */
  method CollectTwice(events: seq<Event>, t1: int, t2: int) returns (first: Stat, second: Stat)
    ensures forall m :: m in first.byMethod ==> first.byMethod[m] == multiset(Methods(events))[m]
    ensures first.byMethod.Keys == set e | e in events :: e.methodName
    ensures first.byConsumer.Keys == set e | e in events :: e.consumer
    ensures Sum(first.byMethod) == |events| == Sum(first.byConsumer)
    ensures second == Stat(t2, map[], map[])
  {
    var collector := Counted(events);
    first := collector.Collect(t1);
    second := collector.Collect(t2);
    MethodKeys(events);
    ConsumerKeys(events);
    TallyCounts(Methods(events));
    SumsAgree(events);
  }
}
