// The generator's parser: it walks the declarations of a Go file and fills
// the tables of a ParsedFile in place. Each method is proved to do what the
// matching function of ApiGenRules says; a method that returns ok == false
// stands for a run that panics.
module ApiGenParser {
  import opened Outcomes
  import opened GoStrings
  import opened GoStrconv
  import opened ApiGenRules

  /** ParsedFile: the tables the templates are executed over. */
  class ParsedFile {
    var packageName: string
    var apiStructs: map<string, ApiStruct>
    var paramStructs: map<string, ParamsStruct>

    ghost function State(): FileModel
      reads this
    {
      FileModel(packageName, apiStructs, paramStructs)
    }

    constructor (packageName: string)
      ensures State() == FileModel(packageName, map[], map[])
    {
      this.packageName := packageName;
      apiStructs := map[];
      paramStructs := map[];
    }
  }

  /** The rules of one field: the entries of its tag applied in order to
      the defaults (the tag loop of ParseStruct). */
  method ParseFieldTag(fieldName: string, spec: string) returns (rules: Rules, ok: bool)
    ensures ok <==> ApplyEntries(InitialRules(fieldName), Entries(spec)).Some?
    ensures ok ==> ApplyEntries(InitialRules(fieldName), Entries(spec)) == Some(rules)
  {
    var structFieldTags := Split(spec, ',');
    ghost var entries := Entries(spec);
    rules := InitialRules(fieldName);
    var i := 0;
    while i < |structFieldTags|
      invariant 0 <= i <= |structFieldTags|
      invariant ApplyEntries(InitialRules(fieldName), entries[..i]) == Some(rules)
    {
      assert entries[..i + 1][..i] == entries[..i];
      var tag := Split(structFieldTags[i], '=');
      assert entries[i] == ParseEntry(structFieldTags[i]);
      var key := KeyNamed(tag[0]);
      if key == Required {
        rules := rules.(required := true);
      } else if key != UnknownKey {
        if |tag| < 2 {
          // reading tag[1] panics
          assert Panics(entries[i]);
          EntriesPanic(InitialRules(fieldName), entries);
          return rules, false;
        }
        if key == MinKey {
          rules := rules.(min := true, minValue := AtoiValue(tag[1]));
        } else if key == MaxKey {
          rules := rules.(max := true, maxValue := AtoiValue(tag[1]));
        } else if key == ParamNameKey {
          rules := rules.(paramName := tag[1]);
        } else if key == EnumKey {
          rules := rules.(enum := Split(tag[1], '|'));
        } else {
          rules := rules.(default := tag[1]);
        }
      }
      i := i + 1;
    }
    assert entries[..i] == entries;
    ok := true;
  }

  class CodeParser {
    /** The doc-comment prefix that marks an API method. */
    const apiPrefix: string

    /** NewParser, with the struct-tag pattern fixed to the validator one. */
    constructor NewParser(apiPrefix: string)
      ensures this.apiPrefix == apiPrefix
    {
      this.apiPrefix := apiPrefix;
    }

    /** GetFunctionReceiver: the first receiver named T or *T. */
    method GetFunctionReceiver(receivers: Option<seq<TypeExpr>>) returns (name: string)
      ensures name == Receiver(receivers)
    {
      if receivers.None? {
        return "";
      }
      var list := receivers.value;
      var i := 0;
      while i < |list|
        invariant 0 <= i <= |list|
        invariant FirstReceiver(list[i..]) == FirstReceiver(list)
      {
        assert list[i..][0] == list[i] && list[i..][1..] == list[i + 1..];
        match list[i]
        case Star(Ident(n)) => return n;
        case Ident(n) => return n;
        case _ =>
        i := i + 1;
      }
      return "";
    }

    /** ParseFunc: the API comments of the doc are decoded into one
      description, and an API method is registered under its receiver. */
    method ParseFunc(file: ParsedFile, d: FuncDecl, decode: string -> Decoded) returns (ok: bool)
      modifies file
      ensures ok <==> FuncStep(old(file.apiStructs), d, apiPrefix, decode).Some?
      ensures ok ==> Some(file.apiStructs) == FuncStep(old(file.apiStructs), d, apiPrefix, decode)
      ensures file.packageName == old(file.packageName) && file.paramStructs == old(file.paramStructs)
    {
      if d.doc.None? {
        return true;
      }
      var meta := NoMeta;
      var comments := d.doc.value;
      var i := 0;
      while i < |comments|
        invariant 0 <= i <= |comments|
        invariant DocMeta(meta, comments[i..], apiPrefix, decode) == DocMeta(NoMeta, comments, apiPrefix, decode)
      {
        assert comments[i..][0] == comments[i] && comments[i..][1..] == comments[i + 1..];
        if HasPrefix(comments[i], apiPrefix) {
          var decoded := decode(comments[i][|apiPrefix|..]);
          meta := Merge(meta, decoded.fields);
          if decoded.failed {
            break;
          }
        }
        i := i + 1;
      }
      if meta.url == "" {
        return true;
      }
      var receiver := GetFunctionReceiver(d.receivers);
      if |receiver| == 0 {
        return true;
      }
      if receiver !in file.apiStructs {
        file.apiStructs := file.apiStructs[receiver := ApiStruct(receiver, [])];
      }
      if |d.params| < 2 {
        return false;
      }
      if d.params[1].Ident? {
        var handler := file.apiStructs[receiver];
        handler := handler.(methods := handler.methods + [ApiMethod(d.name, receiver, d.params[1].name, meta)]);
        file.apiStructs := file.apiStructs[receiver := handler];
      }
      return true;
    }

    /** ParseStruct: every field with a validator tag adds its rules to the
      struct's list, in declaration order. */
    method ParseStruct(file: ParsedFile, structName: string, fields: seq<FieldDecl>) returns (ok: bool)
      modifies file
      ensures ok <==> StructFields(old(file.paramStructs), structName, fields).Some?
      ensures ok ==> Some(file.paramStructs) == StructFields(old(file.paramStructs), structName, fields)
      ensures file.packageName == old(file.packageName) && file.apiStructs == old(file.apiStructs)
    {
      var i := 0;
      while i < |fields|
        invariant 0 <= i <= |fields|
        invariant StructFields(old(file.paramStructs), structName, fields[..i]) == Some(file.paramStructs)
        invariant file.packageName == old(file.packageName) && file.apiStructs == old(file.apiStructs)
      {
        assert fields[..i + 1][..i] == fields[..i];
        var field := fields[i];
        var stepOk := AddField(file, structName, field);
        if !stepOk {
          assert StructFields(old(file.paramStructs), structName, fields[..i + 1]).None?;
          StructFieldsPanicSticks(old(file.paramStructs), structName, fields, i + 1);
          return false;
        }
        i := i + 1;
      }
      assert fields[..i] == fields;
      return true;
    }

    /** One field of ParseStruct. */
    method AddField(file: ParsedFile, structName: string, field: FieldDecl) returns (ok: bool)
      modifies file
      ensures ok <==> FieldStep(old(file.paramStructs), structName, field).Some?
      ensures ok ==> Some(file.paramStructs) == FieldStep(old(file.paramStructs), structName, field)
      ensures file.packageName == old(file.packageName) && file.apiStructs == old(file.apiStructs)
    {
      if field.tag.None? {
        return true;
      }
      var matches := ValidatorSpec(field.tag.value);
      if matches.None? {
        return true;
      }
      ghost var before := file.paramStructs;
      ghost var current := if structName in before then before[structName] else ParamsStruct(structName, []);
      if structName !in file.paramStructs {
        file.paramStructs := file.paramStructs[structName := ParamsStruct(structName, [])];
      }
      assert file.paramStructs == before[structName := current];
      if |field.names| == 0 {
        return false;
      }
      var fieldTag, tagOk := ParseFieldTag(field.names[0], matches.value);
      if !tagOk {
        return false;
      }
      if !field.fieldType.Ident? {
        return false;
      }
      var currStruct := file.paramStructs[structName];
      assert currStruct == current;
      assert ApplyEntries(InitialRules(field.names[0]), Entries(matches.value)) == Some(fieldTag);
      currStruct := currStruct.(fields := currStruct.fields + [Field(field.names[0], field.fieldType.name, fieldTag)]);
      file.paramStructs := file.paramStructs[structName := currStruct];
      assert file.paramStructs == before[structName := current.(fields := current.fields + [Field(field.names[0], field.fieldType.name, fieldTag)])];
      return true;
    }

    /** Parse: functions go to ParseFunc and struct types to ParseStruct, in
      declaration order, into a new file model. */
    method Parse(packageName: string, decls: seq<Decl>, decode: string -> Decoded) returns (file: ParsedFile, ok: bool)
      ensures fresh(file)
      ensures ok <==> ParseDecls(FileModel(packageName, map[], map[]), decls, apiPrefix, decode).Some?
      ensures ok ==> Some(file.State()) == ParseDecls(FileModel(packageName, map[], map[]), decls, apiPrefix, decode)
    {
      file := new ParsedFile(packageName);
      ghost var start := file.State();
      var i := 0;
      while i < |decls|
        invariant 0 <= i <= |decls|
        invariant ParseDecls(start, decls[..i], apiPrefix, decode) == Some(file.State())
      {
        assert decls[..i + 1][..i] == decls[..i];
        var stepOk := true;
        match decls[i] {
          case Func(f) => stepOk := ParseFunc(file, f, decode);
          case Gen(specs) => stepOk := ParseSpecs(file, specs);
        }
        if !stepOk {
          ParsePanicSticks(start, decls, i + 1, apiPrefix, decode);
          return file, false;
        }
        i := i + 1;
      }
      assert decls[..i] == decls;
      return file, true;
    }

    /** The specs of one general declaration: each struct type goes to
      ParseStruct. */
    method ParseSpecs(file: ParsedFile, specs: seq<Spec>) returns (ok: bool)
      modifies file
      ensures ok <==> SpecsStep(old(file.State()), specs).Some?
      ensures ok ==> Some(file.State()) == SpecsStep(old(file.State()), specs)
    {
      var i := 0;
      while i < |specs|
        invariant 0 <= i <= |specs|
        invariant SpecsStep(old(file.State()), specs[..i]) == Some(file.State())
      {
        assert specs[..i + 1][..i] == specs[..i];
        var s := specs[i];
        if s.TypeSpec? && s.structFields.Some? {
          var stepOk := ParseStruct(file, s.name, s.structFields.value);
          if !stepOk {
            SpecsPanicSticks(old(file.State()), specs, i + 1);
            return false;
          }
        }
        i := i + 1;
      }
      assert specs[..i] == specs;
      return true;
    }
  }

  /** A panic ends the run: a prefix that panics makes the whole list
      panic. */
  lemma {:induction false} StructFieldsPanicSticks(structs: map<string, ParamsStruct>, structName: string, fields: seq<FieldDecl>, n: nat)
    requires n <= |fields| && StructFields(structs, structName, fields[..n]).None?
    ensures StructFields(structs, structName, fields).None?
    decreases |fields| - n
  {
    if n < |fields| {
      assert fields[..n + 1][..n] == fields[..n];
      StructFieldsPanicSticks(structs, structName, fields, n + 1);
    } else {
      assert fields[..n] == fields;
    }
  }

  lemma {:induction false} SpecsPanicSticks(file: FileModel, specs: seq<Spec>, n: nat)
    requires n <= |specs| && SpecsStep(file, specs[..n]).None?
    ensures SpecsStep(file, specs).None?
    decreases |specs| - n
  {
    if n < |specs| {
      assert specs[..n + 1][..n] == specs[..n];
      SpecsPanicSticks(file, specs, n + 1);
    } else {
      assert specs[..n] == specs;
    }
  }

  lemma {:induction false} ParsePanicSticks(file: FileModel, decls: seq<Decl>, n: nat, prefix: string, decode: string -> Decoded)
    requires n <= |decls| && ParseDecls(file, decls[..n], prefix, decode).None?
    ensures ParseDecls(file, decls, prefix, decode).None?
    decreases |decls| - n
  {
    if n < |decls| {
      assert decls[..n + 1][..n] == decls[..n];
      ParsePanicSticks(file, decls, n + 1, prefix, decode);
    } else {
      assert decls[..n] == decls;
    }
  }
}
