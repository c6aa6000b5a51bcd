// The reflection exercise: i2s fills a Go value, reached through a pointer,
// from the generic data that encoding/json decodes into an interface{}.
// Go's reflect kinds become the Type datatype, the value `out` points to a
// Cell, and the writes i2s makes through reflect's setters become the new
// value of that cell (kept also when a conversion fails half-way).

module Reflection {
  import opened Outcomes
  import opened GoStrconv

  /** What json.Unmarshal leaves in an interface{}; numbers are whole. */
  datatype Data =
    | Null
    | Number(n: int)
    | Text(s: string)
    | Flag(b: bool)
    | List(items: seq<Data>)
    | Dict(entries: map<string, Data>)

  /** A struct field: its name and its type. */
  datatype Field = Field(name: string, typ: Type)

  /** The type behind `out`, by reflect.Kind; Other is a kind i2s does not
      handle (float64, map, ptr, ...), named as Kind.String() names it. */
  datatype Type =
    | IntType
    | StringType
    | BoolType
    | SliceOf(elem: Type)
    | StructOf(fields: seq<Field>)
    | Other(kind: string)

  /** A Go value of one of those types. */
  datatype Value =
    | IntVal(i: int)
    | StringVal(s: string)
    | BoolVal(b: bool)
    | SliceVal(elems: seq<Value>)
    | StructVal(vals: seq<Value>)
    | OtherVal

  /** `v` is a value of type `t`, as Go's type system guarantees. */
  predicate Conforms(v: Value, t: Type)
    decreases t
  {
    match t
    case IntType => v.IntVal?
    case StringType => v.StringVal?
    case BoolType => v.BoolVal?
    case SliceOf(elem) =>
      v.SliceVal? && forall j :: 0 <= j < |v.elems| ==> Conforms(v.elems[j], elem)
    case StructOf(fs) =>
      v.StructVal? && |v.vals| == |fs| && forall j :: 0 <= j < |fs| ==> Conforms(v.vals[j], fs[j].typ)
    case Other(_) => v.OtherVal?
  }

  /** The zero value reflect.New allocates. */
  function Zero(t: Type): (v: Value)
    ensures Conforms(v, t)
    decreases t
  {
    match t
    case IntType => IntVal(0)
    case StringType => StringVal("")
    case BoolType => BoolVal(false)
    case SliceOf(_) => SliceVal([])
    case StructOf(fs) => StructVal(seq(|fs|, j requires 0 <= j < |fs| => Zero(fs[j].typ)))
    case Other(_) => OtherVal
  }

  /** What a conversion leaves behind: the value written so far, and the
      error i2s returns, if any. */
  datatype Written<T> = Written(value: T, err: Option<string>)

  const NotPointer: string := "out is not a pointer"
  const NotMap: string := "failed convert to map[string]interface{}"
  const NotList: string := "failed convert to []interface{}"
  const NotNumber: string := "failed convert to float64"
  const NotString: string := "failed convert to string"
  const NotBool: string := "failed convert to bool"

  function FieldMissing(name: string): string {
    "field not found: " + name
  }

  function FieldFailed(name: string, err: string): string {
    "failed to process struct field " + name + ": " + err
  }

  /** The format string says "%dataMap": the verb %d prints the index and
      "ataMap" follows it literally. */
  function ElementFailed(idx: nat, err: string): string {
    "failed to process slice element " + Itoa(idx) + "ataMap: " + err
  }

  function Unsupported(kind: string): string {
    "unsupportd type: " + kind
  }

  // ---------------------------------------------------------------------
  // i2s, as a function of the data, the target type and the old value

  /** i2s on a target of type `t` holding `cur`: the value it holds
      afterwards, of the same type, and the error. */
  function Convert(data: Data, t: Type, cur: Value): (w: Written<Value>)
    requires Conforms(cur, t)
    ensures Conforms(w.value, t)
    decreases t, 1, 0
  {
    match t
    case StructOf(_) =>
      if !data.Dict? then Written(cur, Some(NotMap))
      else
        var r := FillFields(data.entries, t, 0, cur.vals);
        Written(StructVal(r.value), r.err)
    case SliceOf(_) =>
      if !data.List? then Written(cur, Some(NotList))
      else
        var r := AppendItems(data.items, t, 0, cur.elems);
        Written(SliceVal(r.value), r.err)
    case IntType =>
      if data.Number? then Written(IntVal(data.n), None) else Written(cur, Some(NotNumber))
    case StringType =>
      if data.Text? then Written(StringVal(data.s), None) else Written(cur, Some(NotString))
    case BoolType =>
      if data.Flag? then Written(BoolVal(data.b), None) else Written(cur, Some(NotBool))
    case Other(kind) => Written(cur, Some(Unsupported(kind)))
  }

  /** The struct loop from field `k` on, over field values `vals`. */
  function FillFields(m: map<string, Data>, t: Type, k: nat, vals: seq<Value>): (w: Written<seq<Value>>)
    requires t.StructOf? && k <= |t.fields| && Conforms(StructVal(vals), t)
    ensures Conforms(StructVal(w.value), t)
    decreases t, 0, |t.fields| - k
  {
    if k == |t.fields| then Written(vals, None)
    else
      var name := t.fields[k].name;
      if name !in m then Written(vals, Some(FieldMissing(name)))
      else
        var f := Convert(m[name], t.fields[k].typ, vals[k]);
        if f.err.Some? then Written(vals[k := f.value], Some(FieldFailed(name, f.err.value)))
        else FillFields(m, t, k + 1, vals[k := f.value])
  }

  /** The slice loop from element `k` on, appending to `vals`. */
  function AppendItems(items: seq<Data>, t: Type, k: nat, vals: seq<Value>): (w: Written<seq<Value>>)
    requires t.SliceOf? && k <= |items| && Conforms(SliceVal(vals), t)
    ensures Conforms(SliceVal(w.value), t)
    decreases t, 0, |items| - k
  {
    if k == |items| then Written(vals, None)
    else
      var e := Convert(items[k], t.elem, Zero(t.elem));
      if e.err.Some? then Written(vals, Some(ElementFailed(k, e.err.value)))
      else AppendItems(items, t, k + 1, vals + [e.value])
  }

  // ---------------------------------------------------------------------
  // When i2s succeeds

  /** The data has the shape the type asks for: a number for an int, a
      string, a bool, a list of matching elements for a slice, and a map
      with a matching entry for every field of a struct. */
  predicate Matches(data: Data, t: Type)
    decreases t
  {
    match t
    case IntType => data.Number?
    case StringType => data.Text?
    case BoolType => data.Flag?
    case SliceOf(elem) =>
      data.List? && forall j :: 0 <= j < |data.items| ==> Matches(data.items[j], elem)
    case StructOf(fs) =>
      data.Dict? && forall j :: 0 <= j < |fs| ==> FieldMatches(data.entries, fs[j])
    case Other(_) => false
  }

  predicate FieldMatches(m: map<string, Data>, f: Field)
    decreases f, 0
  {
    f.name in m && Matches(m[f.name], f.typ)
  }

  /** i2s returns nil exactly when the data matches the type. */
  lemma {:induction false} ConvertSucceeds(data: Data, t: Type, cur: Value)
    requires Conforms(cur, t)
    ensures Convert(data, t, cur).err.None? <==> Matches(data, t)
    decreases t, 1, 0
  {
    match t
    case StructOf(fs) =>
      if data.Dict? {
        FillFieldsSucceed(data.entries, t, 0, cur.vals);
      }
    case SliceOf(elem) =>
      if data.List? {
        AppendItemsSucceed(data.items, t, 0, cur.elems);
      }
    case _ =>
  }

  lemma {:induction false} FillFieldsSucceed(m: map<string, Data>, t: Type, k: nat, vals: seq<Value>)
    requires t.StructOf? && k <= |t.fields| && Conforms(StructVal(vals), t)
    ensures FillFields(m, t, k, vals).err.None? <==>
              forall j :: k <= j < |t.fields| ==> FieldMatches(m, t.fields[j])
    decreases t, 0, |t.fields| - k
  {
    if k < |t.fields| {
      var name := t.fields[k].name;
      if name in m {
        ConvertSucceeds(m[name], t.fields[k].typ, vals[k]);
        var f := Convert(m[name], t.fields[k].typ, vals[k]);
        if f.err.None? {
          FillFieldsSucceed(m, t, k + 1, vals[k := f.value]);
        }
      }
    }
  }

  lemma {:induction false} AppendItemsSucceed(items: seq<Data>, t: Type, k: nat, vals: seq<Value>)
    requires t.SliceOf? && k <= |items| && Conforms(SliceVal(vals), t)
    ensures AppendItems(items, t, k, vals).err.None? <==>
              forall j :: k <= j < |items| ==> Matches(items[j], t.elem)
    decreases t, 0, |items| - k
  {
    if k < |items| {
      ConvertSucceeds(items[k], t.elem, Zero(t.elem));
      var e := Convert(items[k], t.elem, Zero(t.elem));
      if e.err.None? {
        AppendItemsSucceed(items, t, k + 1, vals + [e.value]);
      }
    }
  }

  // ---------------------------------------------------------------------
  // Where i2s stops

  /** The first field, from `k` on, that the map does not match. */
  function FirstUnmatched(m: map<string, Data>, fs: seq<Field>, k: nat): (f: nat)
    requires k <= |fs|
    ensures k <= f <= |fs|
    ensures forall j :: k <= j < f ==> FieldMatches(m, fs[j])
    ensures f < |fs| ==> !FieldMatches(m, fs[f])
    decreases |fs| - k
  {
    if k == |fs| || !FieldMatches(m, fs[k]) then k else FirstUnmatched(m, fs, k + 1)
  }

  /** The first element, from `k` on, that does not match the element
      type. */
  function FirstMismatch(items: seq<Data>, elem: Type, k: nat): (n: nat)
    requires k <= |items|
    ensures k <= n <= |items|
    ensures forall j :: k <= j < n ==> Matches(items[j], elem)
    ensures n < |items| ==> !Matches(items[n], elem)
    decreases |items| - k
  {
    if k == |items| || !Matches(items[k], elem) then k else FirstMismatch(items, elem, k + 1)
  }

  /** A struct's fields are filled in declaration order up to the first one
      the map does not match; that one fails with "field not found" (left
      as it was) or with its own error wrapped (holding what its conversion
      wrote), and the fields after it are not touched. */
  lemma FieldsInOrder(m: map<string, Data>, t: Type, cur: Value)
    requires t.StructOf? && Conforms(cur, t)
    ensures var w := Convert(Dict(m), t, cur);
            var fs := t.fields;
            var f := FirstUnmatched(m, fs, 0);
            && (forall j :: 0 <= j < f ==>
                  fs[j].name in m && w.value.vals[j] == Convert(m[fs[j].name], fs[j].typ, cur.vals[j]).value)
            && (forall j :: f < j < |fs| ==> w.value.vals[j] == cur.vals[j])
            && (w.err.None? <==> f == |fs|)
            && (f < |fs| && fs[f].name !in m ==>
                  w.err == Some(FieldMissing(fs[f].name)) && w.value.vals[f] == cur.vals[f])
            && (f < |fs| && fs[f].name in m ==>
                  var c := Convert(m[fs[f].name], fs[f].typ, cur.vals[f]);
                  c.err.Some? && w.value.vals[f] == c.value && w.err == Some(FieldFailed(fs[f].name, c.err.value)))
  {
    FillFieldsInOrder(m, t, 0, cur.vals);
  }

  lemma {:induction false} FillFieldsInOrder(m: map<string, Data>, t: Type, k: nat, vals: seq<Value>)
    requires t.StructOf? && k <= |t.fields| && Conforms(StructVal(vals), t)
    ensures var w := FillFields(m, t, k, vals);
            var fs := t.fields;
            var f := FirstUnmatched(m, fs, k);
            && (forall j :: 0 <= j < k ==> w.value[j] == vals[j])
            && (forall j :: k <= j < f ==>
                  fs[j].name in m && w.value[j] == Convert(m[fs[j].name], fs[j].typ, vals[j]).value)
            && (forall j :: f < j < |fs| ==> w.value[j] == vals[j])
            && (w.err.None? <==> f == |fs|)
            && (f < |fs| && fs[f].name !in m ==>
                  w.err == Some(FieldMissing(fs[f].name)) && w.value[f] == vals[f])
            && (f < |fs| && fs[f].name in m ==>
                  var c := Convert(m[fs[f].name], fs[f].typ, vals[f]);
                  c.err.Some? && w.value[f] == c.value && w.err == Some(FieldFailed(fs[f].name, c.err.value)))
    decreases |t.fields| - k
  {
    var fs := t.fields;
    if k < |fs| {
      var name := fs[k].name;
      if name in m {
        var c := Convert(m[name], fs[k].typ, vals[k]);
        ConvertSucceeds(m[name], fs[k].typ, vals[k]);
        if c.err.None? {
          FillFieldsInOrder(m, t, k + 1, vals[k := c.value]);
        }
      }
    }
  }

  /** A slice keeps its old elements and gets, appended after them, the
      converted elements of the list up to the first one that does not
      match; that one's error is returned with its index, and nothing of it
      is appended. */
  lemma SliceAppends(items: seq<Data>, t: Type, cur: Value)
    requires t.SliceOf? && Conforms(cur, t)
    ensures var w := Convert(List(items), t, cur);
            var old_elems := cur.elems;
            var n := FirstMismatch(items, t.elem, 0);
            && |w.value.elems| == |old_elems| + n
            && w.value.elems[..|old_elems|] == old_elems
            && (forall j :: 0 <= j < n ==>
                  w.value.elems[|old_elems| + j] == Convert(items[j], t.elem, Zero(t.elem)).value)
            && (w.err.None? <==> n == |items|)
            && (n < |items| ==>
                  var c := Convert(items[n], t.elem, Zero(t.elem));
                  c.err.Some? && w.err == Some(ElementFailed(n, c.err.value)))
  {
    AppendItemsShape(items, t, 0, cur.elems);
    AppendItemsStop(items, t, 0, cur.elems);
  }

  lemma {:induction false} AppendItemsStop(items: seq<Data>, t: Type, k: nat, vals: seq<Value>)
    requires t.SliceOf? && k <= |items| && Conforms(SliceVal(vals), t)
    ensures var w := AppendItems(items, t, k, vals);
            var n := FirstMismatch(items, t.elem, k);
            && (w.err.None? <==> n == |items|)
            && (n < |items| ==>
                  var c := Convert(items[n], t.elem, Zero(t.elem));
                  c.err.Some? && w.err == Some(ElementFailed(n, c.err.value)))
    decreases |items| - k
  {
    if k < |items| {
      var c := Convert(items[k], t.elem, Zero(t.elem));
      ConvertSucceeds(items[k], t.elem, Zero(t.elem));
      if c.err.None? {
        AppendItemsStop(items, t, k + 1, vals + [c.value]);
      }
    }
  }

  lemma {:induction false} AppendItemsShape(items: seq<Data>, t: Type, k: nat, vals: seq<Value>)
    requires t.SliceOf? && k <= |items| && Conforms(SliceVal(vals), t)
    ensures var w := AppendItems(items, t, k, vals);
            var n := FirstMismatch(items, t.elem, k);
            && |w.value| == |vals| + (n - k)
            && w.value[..|vals|] == vals
            && (forall j :: k <= j < n ==>
                  w.value[|vals| + (j - k)] == Convert(items[j], t.elem, Zero(t.elem)).value)
    decreases |items| - k
  {
    if k < |items| {
      var c := Convert(items[k], t.elem, Zero(t.elem));
      ConvertSucceeds(items[k], t.elem, Zero(t.elem));
      if c.err.None? {
        var next := vals + [c.value];
        AppendItemsShape(items, t, k + 1, next);
        var w := AppendItems(items, t, k + 1, next);
        assert w.value[..|next|] == next;
        assert w.value[..|vals|] == next[..|vals|] == vals;
        assert w.value[|vals|] == next[|vals|] == c.value;
        forall j | k + 1 <= j < FirstMismatch(items, t.elem, k + 1)
          ensures w.value[|vals| + (j - k)] == Convert(items[j], t.elem, Zero(t.elem)).value
        {
          assert |vals| + (j - k) == |next| + (j - (k + 1));
        }
      }
    }
  }

  /** Map entries that are not field names make no difference. */
  lemma ExtraKeysIgnored(m: map<string, Data>, m2: map<string, Data>, t: Type, cur: Value)
    requires t.StructOf? && Conforms(cur, t)
    requires forall j :: 0 <= j < |t.fields| ==> SameEntry(m, m2, t.fields[j].name)
    ensures Convert(Dict(m), t, cur) == Convert(Dict(m2), t, cur)
  {
    SameFields(m, m2, t, 0, cur.vals);
  }

  /** `m` and `m2` agree on `name`: both lack it, or both map it to the same
      data. */
  predicate SameEntry(m: map<string, Data>, m2: map<string, Data>, name: string) {
    (name in m <==> name in m2) && (name in m ==> m[name] == m2[name])
  }

  lemma {:induction false} SameFields(m: map<string, Data>, m2: map<string, Data>, t: Type, k: nat, vals: seq<Value>)
    requires t.StructOf? && k <= |t.fields| && Conforms(StructVal(vals), t)
    requires forall j :: 0 <= j < |t.fields| ==> SameEntry(m, m2, t.fields[j].name)
    ensures FillFields(m, t, k, vals) == FillFields(m2, t, k, vals)
    decreases |t.fields| - k
  {
    if k < |t.fields| {
      var name := t.fields[k].name;
      assert SameEntry(m, m2, name);
      if name in m {
        var c := Convert(m[name], t.fields[k].typ, vals[k]);
        SameFields(m, m2, t, k + 1, vals[k := c.value]);
      }
    }
  }

  // ---------------------------------------------------------------------
  // i2s itself

  /** The variable `out` points to: its type is fixed, its value is what
      i2s writes. */
  class Cell {
    const typ: Type
    var value: Value

    predicate Valid()
      reads this
    {
      Conforms(value, typ)
    }

    /** new(T): a fresh variable holding T's zero value. */
    constructor (t: Type)
      ensures typ == t && value == Zero(t) && Valid()
    {
      typ := t;
      value := Zero(t);
    }
  }

  /** What is passed as `out`: a pointer to a variable, or any value that is
      not a pointer (of the kind named). */
  datatype Out = PointerTo(cell: Cell) | NotAPointer(kind: string)

  /** i2s(data, out): a value that is not a pointer is refused; otherwise the
      variable it points to is filled from the data and holds what Convert
      says, of its own type, even when an error is returned. */
  method I2s(data: Data, out: Out) returns (err: Option<string>)
    requires out.PointerTo? ==> out.cell.Valid()
    modifies if out.PointerTo? then {out.cell} else {}
    ensures out.NotAPointer? ==> err == Some(NotPointer)
    ensures out.PointerTo? ==>
              out.cell.Valid() && Written(out.cell.value, err) == Convert(data, out.cell.typ, old(out.cell.value))
  {
    if out.NotAPointer? {
      return Some(NotPointer);
    }
    var cell := out.cell;
    var v;
    v, err := Fill(data, cell.typ, cell.value);
    cell.value := v;
  }

  /** The body of i2s for a target of type `t` holding `cur`: returns what
      the target holds afterwards and the error. */
  method Fill(data: Data, t: Type, cur: Value) returns (v: Value, err: Option<string>)
    requires Conforms(cur, t)
    ensures Written(v, err) == Convert(data, t, cur)
    decreases t, 1, 0
  {
    match t
    case StructOf(fs) =>
      if !data.Dict? {
        return cur, Some(NotMap);
      }
      var vals := cur.vals;
      var i := 0;
      while i < |fs|
        invariant 0 <= i <= |fs| && Conforms(StructVal(vals), t)
        invariant FillFields(data.entries, t, i, vals) == FillFields(data.entries, t, 0, cur.vals)
      {
        var name := fs[i].name;
        if name !in data.entries {
          return StructVal(vals), Some(FieldMissing(name));
        }
        var fieldValue, fieldErr := Fill(data.entries[name], fs[i].typ, vals[i]);
        vals := vals[i := fieldValue];
        if fieldErr.Some? {
          return StructVal(vals), Some(FieldFailed(name, fieldErr.value));
        }
        i := i + 1;
      }
      return StructVal(vals), None;
    case SliceOf(elem) =>
      if !data.List? {
        return cur, Some(NotList);
      }
      var elems := cur.elems;
      var idx := 0;
      while idx < |data.items|
        invariant 0 <= idx <= |data.items| && Conforms(SliceVal(elems), t)
        invariant AppendItems(data.items, t, idx, elems) == AppendItems(data.items, t, 0, cur.elems)
      {
        var outData := Zero(elem);
        var item, itemErr := Fill(data.items[idx], elem, outData);
        if itemErr.Some? {
          return SliceVal(elems), Some(ElementFailed(idx, itemErr.value));
        }
        elems := elems + [item];
        idx := idx + 1;
      }
      return SliceVal(elems), None;
    case IntType =>
      if !data.Number? {
        return cur, Some(NotNumber);
      }
      return IntVal(data.n), None;
    case StringType =>
      if !data.Text? {
        return cur, Some(NotString);
      }
      return StringVal(data.s), None;
    case BoolType =>
      if !data.Flag? {
        return cur, Some(NotBool);
      }
      return BoolVal(data.b), None;
    case Other(kind) =>
      return cur, Some(Unsupported(kind));
  }
}
