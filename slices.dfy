// The generic slice helpers of the directory-tree printer: filter, mapped
// (with the index) and copied. The inputs are values here, so none of them
// can change what it is given.
module Slices {

  /** The elements that pass `keep`, in their order. */
  function Filter<T>(xs: seq<T>, keep: T -> bool): seq<T> {
    if |xs| == 0 then []
    else Filter(xs[..|xs| - 1], keep) + (if keep(xs[|xs| - 1]) then [xs[|xs| - 1]] else [])
  }

  /** Filtering distributes over concatenation: the kept elements of a list
      are those of each part, in the parts' order. */
  lemma {:induction false} FilterAppend<T>(a: seq<T>, b: seq<T>, keep: T -> bool)
    ensures Filter(a + b, keep) == Filter(a, keep) + Filter(b, keep)
    decreases |b|
  {
    if |b| == 0 {
      assert a + b == a;
    } else {
      assert (a + b)[..|a + b| - 1] == a + b[..|b| - 1];
      FilterAppend(a, b[..|b| - 1], keep);
    }
  }

  /** An element is kept exactly when it is in the list and passes; nothing
      is added. */
  lemma {:induction false} FilterMeaning<T>(xs: seq<T>, keep: T -> bool)
    ensures |Filter(xs, keep)| <= |xs|
    ensures forall x :: x in Filter(xs, keep) <==> x in xs && keep(x)
    decreases |xs|
  {
    if |xs| > 0 {
      var init := xs[..|xs| - 1];
      FilterMeaning(init, keep);
      assert xs == init + [xs[|xs| - 1]];
    }
  }

  /** Keeping everything keeps the list. */
  lemma {:induction false} FilterAll<T>(xs: seq<T>, keep: T -> bool)
    requires forall k :: 0 <= k < |xs| ==> keep(xs[k])
    ensures Filter(xs, keep) == xs
    decreases |xs|
  {
    if |xs| > 0 {
      FilterAll(xs[..|xs| - 1], keep);
    }
  }

  /** Nothing passes, nothing is kept. */
  lemma {:induction false} FilterNone<T>(xs: seq<T>, keep: T -> bool)
    requires forall k :: 0 <= k < |xs| ==> !keep(xs[k])
    ensures Filter(xs, keep) == []
    decreases |xs|
  {
    if |xs| > 0 {
      FilterNone(xs[..|xs| - 1], keep);
    }
  }

  /** filter: a new list of the elements that satisfy the predicate. */
  method FilterSlice<T>(s: seq<T>, pred: T -> bool) returns (filtered: seq<T>)
    ensures filtered == Filter(s, pred)
  {
    filtered := [];
    var i := 0;
    while i < |s|
      invariant 0 <= i <= |s|
      invariant filtered == Filter(s[..i], pred)
    {
      assert s[..i + 1][..i] == s[..i];
      if pred(s[i]) {
        filtered := filtered + [s[i]];
      }
      i := i + 1;
    }
    assert s[..i] == s;
  }

  /** mapped: a list of the same length whose element i is the mapper applied
      to i and the input's element i. */
  method MapSlice<T, R>(s: seq<T>, mapper: (int, T) -> R) returns (mapped: seq<R>)
    ensures |mapped| == |s|
    ensures forall i :: 0 <= i < |s| ==> mapped[i] == mapper(i, s[i])
  {
    mapped := [];
    var i := 0;
    while i < |s|
      invariant 0 <= i <= |s| && |mapped| == i
      invariant forall j :: 0 <= j < i ==> mapped[j] == mapper(j, s[j])
    {
      mapped := mapped + [mapper(i, s[i])];
      i := i + 1;
    }
  }

  /** copied: a new list equal element by element to the input. */
  method CopySlice<T>(s: seq<T>) returns (newSlice: seq<T>)
    ensures |newSlice| == |s|
    ensures forall i :: 0 <= i < |s| ==> newSlice[i] == s[i]
  {
    newSlice := [];
    var i := 0;
    while i < |s|
      invariant 0 <= i <= |s| && newSlice == s[..i]
    {
      newSlice := newSlice + [s[i]];
      i := i + 1;
    }
  }
}
