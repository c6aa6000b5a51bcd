// What the API code generator reads from a Go file, on values: the parts of
// the syntax tree it looks at, the validator tag mini-language, the
// `// apigen:api` doc comments, and the tables it fills. The parser's methods
// (apigen_parser.dfy) are proved to do what these functions say; `None`
// stands for a run that panics.
module ApiGenRules {
  import opened Outcomes
  import opened GoStrings
  import opened GoStrconv

  // ---------------------------------------------------------------------
  // The syntax tree, as far as the generator looks at it

  /** A type expression: a plain name, a pointer, or anything else. */
  datatype TypeExpr = Ident(name: string) | Star(elem: TypeExpr) | OtherType

  /** A struct tag literal: a raw `...` string or an interpreted "..." one,
      with its text between the delimiters. */
  datatype TagLiteral = Raw(content: string) | Interpreted(content: string)

  /** A struct field: its names (none for an embedded field), type and tag. */
  datatype FieldDecl = FieldDecl(names: seq<string>, fieldType: TypeExpr, tag: Option<TagLiteral>)

  /** A function: name, doc comment lines (None when there is no doc),
      receiver list (None for a plain function) and the type of each
      parameter group. */
  datatype FuncDecl = FuncDecl(name: string, doc: Option<seq<string>>, receivers: Option<seq<TypeExpr>>, params: seq<TypeExpr>)

  /** A spec of a general declaration: a named type (with its fields when it
      is a struct) or anything else. */
  datatype Spec = TypeSpec(name: string, structFields: Option<seq<FieldDecl>>) | OtherSpec

  datatype Decl = Func(f: FuncDecl) | Gen(specs: seq<Spec>)

  // ---------------------------------------------------------------------
  // The tables

  /** The rules of one validated field. */
  datatype Rules = Rules(paramName: string, required: bool, min: bool, minValue: int,
                         max: bool, maxValue: int, enum: seq<string>, default: string)

  datatype Field = Field(name: string, typeName: string, rules: Rules)

  datatype ParamsStruct = ParamsStruct(name: string, fields: seq<Field>)

  /** The JSON after "// apigen:api": the URL, whether X-Auth is checked, and
      the HTTP method ("" for any). */
  datatype ApiMeta = ApiMeta(url: string, auth: bool, httpMethod: string)

  /** One decoded JSON object: only the keys it carries are set. */
  datatype MetaJson = MetaJson(url: Option<string>, auth: Option<bool>, httpMethod: Option<string>)

  /** What json.Unmarshal does with the text of one comment: the keys it
      sets, and whether it returns an error. Text that is not valid JSON is
      refused before anything is set (no keys); a value of the wrong type is
      skipped while the other keys are still set, and the error comes at
      the end. */
  datatype Decoded = Decoded(fields: MetaJson, failed: bool)

  datatype ApiMethod = ApiMethod(name: string, receiver: string, paramsName: string, api: ApiMeta)

  datatype ApiStruct = ApiStruct(name: string, methods: seq<ApiMethod>)

  /** ParsedFile: the package name, the API types by name, and the
      validated parameter structs by name. */
  datatype FileModel = FileModel(packageName: string, apiStructs: map<string, ApiStruct>,
                                 paramStructs: map<string, ParamsStruct>)

  // ---------------------------------------------------------------------
  // Struct tags

  const ValidatorOpen := "apivalidator:\""

  /** The submatch of `apivalidator:"(.*)"` between backquotes: only a raw
      tag holding nothing but that key matches, and `.` does not cross a
      newline; the capture runs to the last quote. */
  function ValidatorSpec(tag: TagLiteral): Option<string> {
    match tag
    case Interpreted(_) => None
    case Raw(c) =>
      if |c| > |ValidatorOpen| && HasPrefix(c, ValidatorOpen) && c[|c| - 1] == '"'
         && '\n' !in c[|ValidatorOpen|..|c| - 1]
      then Some(c[|ValidatorOpen|..|c| - 1])
      else None
  }

  /** A tag written as apivalidator:"<spec>" yields the spec back, and only
      such a tag yields it. */
  lemma ValidatorSpecRoundTrip(tag: TagLiteral, spec: string)
    ensures '\n' !in spec ==> ValidatorSpec(Raw(ValidatorOpen + spec + "\"")) == Some(spec)
    ensures ValidatorSpec(tag) == Some(spec) ==> tag == Raw(ValidatorOpen + spec + "\"")
  {
    var c := ValidatorOpen + spec + "\"";
    PrefixOfConcat(ValidatorOpen, spec + "\"");
    assert c == ValidatorOpen + (spec + "\"");
    assert c[|ValidatorOpen|..|c| - 1] == spec;
    if ValidatorSpec(tag) == Some(spec) {
      var d := tag.content;
      assert d[..|ValidatorOpen|] == ValidatorOpen;
      assert d == d[..|ValidatorOpen|] + d[|ValidatorOpen|..|d| - 1] + [d[|d| - 1]];
    }
  }

  /** The field's name lowercased, and nothing required or bounded. */
  function InitialRules(fieldName: string): Rules {
    Rules(ToLower(fieldName), false, false, 0, false, 0, [], "")
  }

  /** The keys the tag language knows; any other key is ignored. */
  datatype TagKey = Required | MinKey | MaxKey | ParamNameKey | EnumKey | DefaultKey | UnknownKey

  /** One entry of the tag, split on "=": its key, and the part after the
      first "=" up to any next one (None when there is no "="). */
  datatype Entry = Entry(key: TagKey, value: Option<string>)

  function KeyNamed(name: string): TagKey {
    if name == "required" then Required
    else if name == "min" then MinKey
    else if name == "max" then MaxKey
    else if name == "paramname" then ParamNameKey
    else if name == "enum" then EnumKey
    else if name == "default" then DefaultKey
    else UnknownKey
  }

  function ParseEntry(entry: string): Entry {
    var tag := Split(entry, '=');
    Entry(KeyNamed(tag[0]), if |tag| >= 2 then Some(tag[1]) else None)
  }

  /** The entries of a tag: its text split on ",". */
  function Entries(spec: string): seq<Entry> {
    var parts := Split(spec, ',');
    seq(|parts|, k requires 0 <= k < |parts| => ParseEntry(parts[k]))
  }

  /** The entry names a key that needs a value but has no "=": reading the
      value indexes past the split and panics. */
  predicate Panics(e: Entry) {
    e.key !in {Required, UnknownKey} && e.value.None?
  }

  /** One entry; unknown keys change nothing. */
  function ApplyEntry(r: Rules, e: Entry): Option<Rules> {
    match e.key
    case Required => Some(r.(required := true))
    case UnknownKey => Some(r)
    case _ =>
      if e.value.None? then None
      else
        var value := e.value.value;
        match e.key
        case MinKey => Some(r.(min := true, minValue := AtoiValue(value)))
        case MaxKey => Some(r.(max := true, maxValue := AtoiValue(value)))
        case ParamNameKey => Some(r.(paramName := value))
        case EnumKey => Some(r.(enum := Split(value, '|')))
        case DefaultKey => Some(r.(default := value))
  }

  /** The entries applied in order; the first panic ends the run. */
  function ApplyEntries(r: Rules, entries: seq<Entry>): Option<Rules> {
    if |entries| == 0 then Some(r)
    else
      match ApplyEntries(r, entries[..|entries| - 1])
      case None => None
      case Some(before) => ApplyEntry(before, entries[|entries| - 1])
  }

  /** The value of the last entry with this key ("" for one without "="); None
      when no entry has the key. */
  function LastValue(entries: seq<Entry>, key: TagKey): Option<string> {
    if |entries| == 0 then None
    else
      var last := entries[|entries| - 1];
      if last.key == key then Some(last.value.GetOr(""))
      else LastValue(entries[..|entries| - 1], key)
  }

  /** The run panics exactly when some entry names a valued key without a
      value. */
  lemma {:induction false} EntriesPanic(r: Rules, entries: seq<Entry>)
    ensures ApplyEntries(r, entries).None? <==> exists k :: 0 <= k < |entries| && Panics(entries[k])
    decreases |entries|
  {
    if |entries| > 0 {
      var init := entries[..|entries| - 1];
      EntriesPanic(r, init);
      if exists k :: 0 <= k < |init| && Panics(init[k]) {
        var k :| 0 <= k < |init| && Panics(init[k]);
        assert entries[k] == init[k];
      }
      if exists k :: 0 <= k < |entries| && Panics(entries[k]) {
        var k :| 0 <= k < |entries| && Panics(entries[k]);
        if k < |init| {
          assert init[k] == entries[k];
        }
      }
    }
  }

  /** "required" anywhere sets the flag; the last paramname, default and
      enum win, the enum split on "|". */
  lemma {:induction false} EntriesNames(r: Rules, entries: seq<Entry>)
    ensures ApplyEntries(r, entries).Some? ==>
              var after := ApplyEntries(r, entries).value;
              && after.required == (r.required || LastValue(entries, Required).Some?)
              && after.paramName == LastValue(entries, ParamNameKey).GetOr(r.paramName)
              && after.default == LastValue(entries, DefaultKey).GetOr(r.default)
              && after.enum == (match LastValue(entries, EnumKey) case None => r.enum case Some(v) => Split(v, '|'))
    decreases |entries|
  {
    if |entries| > 0 {
      EntriesNames(r, entries[..|entries| - 1]);
    }
  }

  /** The last min and max win, a number that does not parse reading as
      0. */
  lemma {:induction false} EntriesBounds(r: Rules, entries: seq<Entry>)
    ensures ApplyEntries(r, entries).Some? ==>
              var after := ApplyEntries(r, entries).value;
              && after.min == (r.min || LastValue(entries, MinKey).Some?)
              && after.minValue == (match LastValue(entries, MinKey) case None => r.minValue case Some(v) => AtoiValue(v))
              && after.max == (r.max || LastValue(entries, MaxKey).Some?)
              && after.maxValue == (match LastValue(entries, MaxKey) case None => r.maxValue case Some(v) => AtoiValue(v))
    decreases |entries|
  {
    if |entries| > 0 {
      EntriesBounds(r, entries[..|entries| - 1]);
    }
  }

  // ---------------------------------------------------------------------
  // ParseStruct

  /** The fields whose tag matches the validator pattern. */
  function Matched(fields: seq<FieldDecl>): seq<FieldDecl> {
    if |fields| == 0 then []
    else
      var f := fields[|fields| - 1];
      Matched(fields[..|fields| - 1]) + (if f.tag.Some? && ValidatorSpec(f.tag.value).Some? then [f] else [])
  }

  /** One field of a struct: without a tag or without a match it is
      skipped; otherwise its rules are appended to the struct's list, which
      is created on first use. An embedded field, a type that is not a plain
      name, or a bad tag entry panics. */
  function FieldStep(structs: map<string, ParamsStruct>, structName: string, f: FieldDecl): Option<map<string, ParamsStruct>> {
    if f.tag.None? then Some(structs)
    else
      match ValidatorSpec(f.tag.value)
      case None => Some(structs)
      case Some(spec) =>
        if |f.names| == 0 then None
        else
          match ApplyEntries(InitialRules(f.names[0]), Entries(spec))
          case None => None
          case Some(rules) =>
            if !f.fieldType.Ident? then None
            else
              var current := if structName in structs then structs[structName] else ParamsStruct(structName, []);
              Some(structs[structName := current.(fields := current.fields + [Field(f.names[0], f.fieldType.name, rules)])])
  }

  /** ParseStruct: the fields in declaration order. */
  function StructFields(structs: map<string, ParamsStruct>, structName: string, fields: seq<FieldDecl>): Option<map<string, ParamsStruct>> {
    if |fields| == 0 then Some(structs)
    else
      match StructFields(structs, structName, fields[..|fields| - 1])
      case None => None
      case Some(before) => FieldStep(before, structName, fields[|fields| - 1])
  }

  /** ParseStruct touches only its own struct. */
  lemma {:induction false} StructFieldsOthers(structs: map<string, ParamsStruct>, structName: string, fields: seq<FieldDecl>)
    ensures StructFields(structs, structName, fields).Some? ==>
              var after := StructFields(structs, structName, fields).value;
              && (forall other :: other != structName ==> (other in after <==> other in structs))
              && (forall other :: other != structName && other in structs ==> after[other] == structs[other])
    decreases |fields|
  {
    if |fields| > 0 {
      StructFieldsOthers(structs, structName, fields[..|fields| - 1]);
    }
  }

  /** The struct is registered exactly when some field matches (or it
      already was), and gains one validated field per matching field. */
  lemma {:induction false} StructFieldsMeaning(structs: map<string, ParamsStruct>, structName: string, fields: seq<FieldDecl>)
    requires structName in structs ==> structs[structName].name == structName
    ensures StructFields(structs, structName, fields).Some? ==>
              var after := StructFields(structs, structName, fields).value;
              var prior := if structName in structs then structs[structName].fields else [];
              && (structName in after <==> structName in structs || |Matched(fields)| > 0)
              && (structName in after ==>
                    && after[structName].name == structName
                    && |after[structName].fields| == |prior| + |Matched(fields)|
                    && after[structName].fields[..|prior|] == prior)
    decreases |fields|
  {
    if |fields| > 0 {
      var init := fields[..|fields| - 1];
      var f := fields[|fields| - 1];
      StructFieldsMeaning(structs, structName, init);
      var r := StructFields(structs, structName, init);
      if r.Some? && StructFields(structs, structName, fields).Some? {
        if f.tag.Some? && ValidatorSpec(f.tag.value).Some? {
          assert Matched(fields) == Matched(init) + [f];
          var prior := if structName in structs then structs[structName].fields else [];
          var after := StructFields(structs, structName, fields).value;
          var current := if structName in r.value then r.value[structName] else ParamsStruct(structName, []);
          assert after[structName].fields[..|current.fields|] == current.fields;
          assert current.fields[..|prior|] == prior;
        } else {
          assert Matched(fields) == Matched(init);
        }
      }
    }
  }

  // ---------------------------------------------------------------------
  // ParseFunc

  const NoMeta := ApiMeta("", false, "")

  /** Decoding into the same struct keeps what earlier comments set and
      overwrites what this one carries. */
  function Merge(meta: ApiMeta, j: MetaJson): ApiMeta {
    ApiMeta(j.url.GetOr(meta.url), j.auth.GetOr(meta.auth), j.httpMethod.GetOr(meta.httpMethod))
  }

  /** The doc comments from here on: each one with the prefix is decoded as
      JSON after it into the same description; the first one whose decoding
      fails stops the scan, keeping whatever keys it did set. */
  function DocMeta(meta: ApiMeta, comments: seq<string>, prefix: string, decode: string -> Decoded): ApiMeta
    decreases |comments|
  {
    if |comments| == 0 then meta
    else if HasPrefix(comments[0], prefix) then
      var d := decode(comments[0][|prefix|..]);
      if d.failed then Merge(meta, d.fields)
      else DocMeta(Merge(meta, d.fields), comments[1..], prefix, decode)
    else DocMeta(meta, comments[1..], prefix, decode)
  }

  /** An API comment whose decoding fails ends the scan: nothing after it
      counts. */
  lemma {:induction false} DocMetaStops(meta: ApiMeta, comments: seq<string>, prefix: string, decode: string -> Decoded, i: int)
    requires 0 <= i < |comments| && HasPrefix(comments[i], prefix) && decode(comments[i][|prefix|..]).failed
    ensures forall more :: DocMeta(meta, comments + more, prefix, decode) == DocMeta(meta, comments, prefix, decode)
    decreases i
  {
    forall more
      ensures DocMeta(meta, comments + more, prefix, decode) == DocMeta(meta, comments, prefix, decode)
    {
      assert (comments + more)[0] == comments[0];
      if i > 0 {
        assert (comments + more)[1..] == comments[1..] + more;
        if HasPrefix(comments[0], prefix) && !decode(comments[0][|prefix|..]).failed {
          DocMetaStops(Merge(meta, decode(comments[0][|prefix|..]).fields), comments[1..], prefix, decode, i - 1);
        } else if !HasPrefix(comments[0], prefix) {
          DocMetaStops(meta, comments[1..], prefix, decode, i - 1);
        }
      }
    }
  }

  /** A value of the wrong type does not undo the other keys of its
      comment: `{"url": "/user/create", "auth": "yes", "method": "POST"}`
      still gives the URL and the method, with auth left false, so the
      method is registered. */
  lemma PartialDecodeRegisters(d: FuncDecl, prefix: string, decode: string -> Decoded, text: string)
    requires d.doc == Some([prefix + text]) && Receiver(d.receivers) != ""
    requires decode(text) == Decoded(MetaJson(Some("/user/create"), None, Some("POST")), true)
    ensures DocMeta(NoMeta, d.doc.value, prefix, decode) == ApiMeta("/user/create", false, "POST")
    ensures IsApi(d, prefix, decode)
  {
    PrefixOfConcat(prefix, text);
  }

  /** The name a receiver type gives: T for T or *T; the first receiver
      with such a type wins; "" when there is none. */
  function Receiver(receivers: Option<seq<TypeExpr>>): string {
    if receivers.None? then "" else FirstReceiver(receivers.value)
  }

  function FirstReceiver(types: seq<TypeExpr>): string {
    if |types| == 0 then ""
    else match types[0]
      case Ident(n) => n
      case Star(Ident(n)) => n
      case _ => FirstReceiver(types[1..])
  }

  /** The method is an API method: it has a doc whose API comments give a
      URL, and a receiver. */
  predicate IsApi(d: FuncDecl, prefix: string, decode: string -> Decoded) {
    d.doc.Some? && DocMeta(NoMeta, d.doc.value, prefix, decode).url != "" && Receiver(d.receivers) != ""
  }

  /** ParseFunc: an API method creates its receiver's entry and, when its
      second parameter's type is a plain name, is appended to the
      receiver's methods; with fewer than two parameter groups it panics. */
  function FuncStep(structs: map<string, ApiStruct>, d: FuncDecl, prefix: string, decode: string -> Decoded): Option<map<string, ApiStruct>> {
    if !IsApi(d, prefix, decode) then Some(structs)
    else
      var meta := DocMeta(NoMeta, d.doc.value, prefix, decode);
      var recv := Receiver(d.receivers);
      var created := if recv in structs then structs else structs[recv := ApiStruct(recv, [])];
      if |d.params| < 2 then None
      else if d.params[1].Ident? then
        Some(created[recv := created[recv].(methods := created[recv].methods + [ApiMethod(d.name, recv, d.params[1].name, meta)])])
      else Some(created)
  }

  /** Only an API method changes the table, only under its receiver, and
      what it adds carries its name, its parameter type and a non-empty
      URL. */
  lemma FuncStepMeaning(structs: map<string, ApiStruct>, d: FuncDecl, prefix: string, decode: string -> Decoded)
    ensures !IsApi(d, prefix, decode) ==> FuncStep(structs, d, prefix, decode) == Some(structs)
    ensures FuncStep(structs, d, prefix, decode).None? <==> IsApi(d, prefix, decode) && |d.params| < 2
    ensures FuncStep(structs, d, prefix, decode).Some? ==>
              var after := FuncStep(structs, d, prefix, decode).value;
              var recv := Receiver(d.receivers);
              && (forall k :: k != recv ==> (k in after <==> k in structs))
              && (forall k :: k != recv && k in structs ==> after[k] == structs[k])
              && (recv in after && recv !in structs ==> after[recv].name == recv)
              && (recv in after ==> var before := if recv in structs then structs[recv].methods else [];
                    && after[recv].methods[..|before|] == before
                    && |after[recv].methods| <= |before| + 1
                    && (|after[recv].methods| == |before| + 1 ==>
                          var m := after[recv].methods[|before|];
                          && IsApi(d, prefix, decode) && m.name == d.name && m.receiver == recv
                          && d.params[1] == Ident(m.paramsName) && m.api.url != ""))
  {
    var recv := Receiver(d.receivers);
    if FuncStep(structs, d, prefix, decode).Some? && IsApi(d, prefix, decode) && recv in structs {
      var before := structs[recv].methods;
      assert (before + [ApiMethod(d.name, recv, if d.params[1].Ident? then d.params[1].name else "", DocMeta(NoMeta, d.doc.value, prefix, decode))])[..|before|] == before;
    }
  }

  // ---------------------------------------------------------------------
  // Parse

  /** One top-level declaration: functions go to ParseFunc, struct types of
      a general declaration to ParseStruct, in order. */
  function DeclStep(file: FileModel, d: Decl, prefix: string, decode: string -> Decoded): Option<FileModel> {
    match d
    case Func(f) =>
      (match FuncStep(file.apiStructs, f, prefix, decode)
       case None => None
       case Some(structs) => Some(file.(apiStructs := structs)))
    case Gen(specs) => SpecsStep(file, specs)
  }

  function SpecsStep(file: FileModel, specs: seq<Spec>): Option<FileModel> {
    if |specs| == 0 then Some(file)
    else
      match SpecsStep(file, specs[..|specs| - 1])
      case None => None
      case Some(before) =>
        var s := specs[|specs| - 1];
        if s.TypeSpec? && s.structFields.Some? then
          match StructFields(before.paramStructs, s.name, s.structFields.value)
          case None => None
          case Some(structs) => Some(before.(paramStructs := structs))
        else Some(before)
  }

  /** Parse: the declarations in order from an empty file model. */
  function ParseDecls(file: FileModel, decls: seq<Decl>, prefix: string, decode: string -> Decoded): Option<FileModel> {
    if |decls| == 0 then Some(file)
    else
      match ParseDecls(file, decls[..|decls| - 1], prefix, decode)
      case None => None
      case Some(before) => DeclStep(before, decls[|decls| - 1], prefix, decode)
  }

  /** The tables are keyed by the names they hold. */
  predicate Keyed(file: FileModel) {
    && (forall k :: k in file.apiStructs ==> file.apiStructs[k].name == k)
    && (forall k :: k in file.paramStructs ==> file.paramStructs[k].name == k)
  }

  /** Every step keeps each table entry under its own name, and the package
      name is never changed. */
  lemma {:induction false} ParseKeeps(file: FileModel, decls: seq<Decl>, prefix: string, decode: string -> Decoded)
    requires Keyed(file)
    ensures ParseDecls(file, decls, prefix, decode).Some? ==>
              Keyed(ParseDecls(file, decls, prefix, decode).value) &&
              ParseDecls(file, decls, prefix, decode).value.packageName == file.packageName
    decreases |decls|
  {
    if |decls| > 0 {
      ParseKeeps(file, decls[..|decls| - 1], prefix, decode);
      var r := ParseDecls(file, decls[..|decls| - 1], prefix, decode);
      if r.Some? {
        match decls[|decls| - 1]
        case Func(f) => FuncStepMeaning(r.value.apiStructs, f, prefix, decode);
        case Gen(specs) => SpecsKeep(r.value, specs);
      }
    }
  }

  lemma {:induction false} SpecsKeep(file: FileModel, specs: seq<Spec>)
    requires Keyed(file)
    ensures SpecsStep(file, specs).Some? ==>
              Keyed(SpecsStep(file, specs).value) && SpecsStep(file, specs).value.packageName == file.packageName
              && SpecsStep(file, specs).value.apiStructs == file.apiStructs
    decreases |specs|
  {
    if |specs| > 0 {
      SpecsKeep(file, specs[..|specs| - 1]);
      var r := SpecsStep(file, specs[..|specs| - 1]);
      var s := specs[|specs| - 1];
      if r.Some? && s.TypeSpec? && s.structFields.Some? {
        StructFieldsOthers(r.value.paramStructs, s.name, s.structFields.value);
        StructFieldsMeaning(r.value.paramStructs, s.name, s.structFields.value);
      }
    }
  }
}
