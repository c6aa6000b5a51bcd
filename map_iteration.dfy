// Go's `for k := range m` visits the keys of a map in an unspecified order.
// Loops over a map take their next key from `Pick`, which may return any key
// not yet visited, so what is proved of such a loop holds for every order.
module MapIteration {

  /** `order` lists every key of `keys` once: the order a range loop
      visited them in. */
  predicate Enumerates<K>(order: seq<K>, keys: set<K>) {
    && (forall i, j :: 0 <= i < j < |order| ==> order[i] != order[j])
    && (forall k :: k in keys ==> k in order)
    && (forall i :: 0 <= i < |order| ==> order[i] in keys)
  }

  method Pick<K>(keys: set<K>) returns (k: K)
    requires keys != {}
    ensures k in keys
  {
    k :| k in keys;
  }

  /** Moving the picked key from the keys still to visit to the visited
      ones keeps the two apart and together all the keys. */
  lemma Visit<K>(rest: set<K>, visited: set<K>, all: set<K>, k: K)
    requires rest !! visited && rest + visited == all && k in rest
    ensures (rest - {k}) !! (visited + {k}) && (rest - {k}) + (visited + {k}) == all
    ensures |rest - {k}| < |rest|
  {
  }

  /** Every finite set of keys has an order that lists it; a handler that
      does not range over the map is described for any such order. */
  lemma {:induction false} Enumerable<K>(keys: set<K>) returns (order: seq<K>)
    ensures Enumerates(order, keys)
    decreases |keys|
  {
    if keys == {} {
      order := [];
    } else {
      var k :| k in keys;
      var before := Enumerable(keys - {k});
      order := before + [k];
    }
  }

  /** A loop that stops early at `k`, with `visited` behind it: any order of
      the keys left completes the visit. */
  lemma StopEarly<K>(visited: seq<K>, rest: set<K>, k: K, tail: seq<K>, keys: set<K>)
    requires rest <= keys && k in rest
    requires forall i :: 0 <= i < |visited| ==> visited[i] in keys && visited[i] !in rest
    requires forall key :: key in keys ==> key in rest || key in visited
    requires forall i, j :: 0 <= i < j < |visited| ==> visited[i] != visited[j]
    requires Enumerates(tail, rest - {k})
    ensures Enumerates(visited + [k] + tail, keys)
  {
    var order := visited + [k] + tail;
    forall i, j | 0 <= i < j < |order| ensures order[i] != order[j] {
      if j < |visited| {
      } else if j == |visited| {
        assert order[j] == k && order[i] == visited[i];
      } else if i < |visited| {
        assert order[i] == visited[i] && order[j] == tail[j - |visited| - 1];
      } else if i == |visited| {
        assert order[i] == k && order[j] == tail[j - |visited| - 1];
      } else {
        assert order[i] == tail[i - |visited| - 1] && order[j] == tail[j - |visited| - 1];
      }
    }
    forall key | key in keys ensures key in order {
      if key in visited {
        var i :| 0 <= i < |visited| && visited[i] == key;
        assert order[i] == key;
      } else if key == k {
        assert order[|visited|] == key;
      } else {
        assert key in rest - {k};
        var i :| 0 <= i < |tail| && tail[i] == key;
        assert order[|visited| + 1 + i] == key;
      }
    }
    forall i | 0 <= i < |order| ensures order[i] in keys {
      if i < |visited| {
        assert order[i] == visited[i];
      } else if i > |visited| {
        assert order[i] == tail[i - |visited| - 1];
      }
    }
  }
}
