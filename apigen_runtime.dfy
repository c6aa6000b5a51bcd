// What the code the generator writes does at run time: the validator of a
// params struct, the wrapper around an API method and the struct's
// ServeHTTP. The templates are straight-line guard checks, so each becomes a
// function over the tables the parser builds.
module ApiGenRuntime {
  import opened Outcomes
  import opened GoStrings
  import opened GoStrconv
  import opened ApiGenRules
  import opened NetUrl

  /** ApiError: an HTTP status and the error text. */
  datatype ApiError = ApiError(status: int, message: string)

  /** An error from a handler: an ApiError keeps its status, any other error
      becomes a 500. */
  datatype HandlerError = Api(e: ApiError) | Other(message: string)

  /** A field value of the params struct, after validation. */
  datatype Value = IntValue(n: int) | StringValue(s: string)

  /** The request as the generated code reads it: the URL path, the method,
      the headers (keys already canonical), the query string and the form of
      the body, both already split into values. */
  datatype Request = Request(path: string, httpMethod: string, headers: Values,
                             query: Values, form: Values)

  /** What ServeHTTP writes: the status, the "response" member when there is
      no error, and the "error" member. */
  datatype Response = Response(status: int, data: Option<string>, error: string)

  const StatusBadRequest := 400
  const StatusForbidden := 403
  const StatusNotFound := 404
  const StatusNotAcceptable := 406
  const StatusInternalServerError := 500
  const StatusOK := 200

  /** The generated validator of a field type-checks only for a string field,
      or an int field without the string-only rules (default, required and
      enum compare the field with a string). */
  predicate Compiles(f: Field) {
    || f.typeName == "string"
    || (f.typeName == "int" && !f.rules.required && f.rules.default == "" && |f.rules.enum| == 0)
  }

  function BadRequest(message: string): ApiError {
    ApiError(StatusBadRequest, message)
  }

  /** The string a string field holds after the default is applied. */
  function Effective(f: Field, raw: string): string {
    if f.rules.default != "" && raw == "" then f.rules.default else raw
  }

  /** The validator of one field, in the template's order: int parse,
      default, required, min, max, enum. */
  function CheckField(f: Field, raw: string): (v: Result<Value, ApiError>)
    requires Compiles(f)
    ensures v.Err? ==> v.error.status == StatusBadRequest
    ensures v.Ok? ==> (v.value.IntValue? <==> f.typeName == "int")
  {
    var r := f.rules;
    var p := r.paramName;
    if f.typeName == "int" then
      match Atoi(raw)
      case None => Err(BadRequest(p + " must be int"))
      case Some(n) =>
        if r.min && n < r.minValue then Err(BadRequest(p + " must be >= " + Itoa(r.minValue)))
        else if r.max && n > r.maxValue then Err(BadRequest(p + " must be <= " + Itoa(r.maxValue)))
        else Ok(IntValue(n))
    else
      var s := Effective(f, raw);
      if r.required && s == "" then Err(BadRequest(p + " must be not empty"))
      else if r.min && ByteLen(s) < r.minValue then Err(BadRequest(p + " len must be >= " + Itoa(r.minValue)))
      else if r.max && ByteLen(s) > r.maxValue then Err(BadRequest(p + " len must be <= " + Itoa(r.maxValue)))
      else if |r.enum| > 0 && s !in r.enum then Err(BadRequest(p + " must be one of [" + Join(r.enum, ", ") + "]"))
      else Ok(StringValue(s))
  }

  /** The rules a value can break, in the order they are checked. */
  datatype Rule = NotInt | Empty | TooSmall | TooLarge | NotInEnum

  function Rank(rule: Rule): nat {
    match rule
    case NotInt => 0
    case Empty => 1
    case TooSmall => 2
    case TooLarge => 3
    case NotInEnum => 4
  }

  /** What min and max compare: the number, or the length of the string in
      bytes (Go's len). */
  function Measure(f: Field, raw: string): int {
    if f.typeName == "int" then AtoiValue(raw) else ByteLen(Effective(f, raw))
  }

  /** The rule, read off the field's rules, that the raw value breaks. */
  predicate Broken(f: Field, raw: string, rule: Rule) {
    match rule
    case NotInt => f.typeName == "int" && Atoi(raw).None?
    case Empty => f.typeName != "int" && f.rules.required && Effective(f, raw) == ""
    case TooSmall => f.rules.min && Measure(f, raw) < f.rules.minValue
    case TooLarge => f.rules.max && Measure(f, raw) > f.rules.maxValue
    case NotInEnum => f.typeName != "int" && |f.rules.enum| > 0 && Effective(f, raw) !in f.rules.enum
  }

  /** The text of the 400 for a broken rule. */
  function Message(f: Field, rule: Rule): string {
    var p := f.rules.paramName;
    var isInt := f.typeName == "int";
    match rule
    case NotInt => p + " must be int"
    case Empty => p + " must be not empty"
    case TooSmall => if isInt then p + " must be >= " + Itoa(f.rules.minValue) else p + " len must be >= " + Itoa(f.rules.minValue)
    case TooLarge => if isInt then p + " must be <= " + Itoa(f.rules.maxValue) else p + " len must be <= " + Itoa(f.rules.maxValue)
    case NotInEnum => p + " must be one of [" + Join(f.rules.enum, ", ") + "]"
  }

  /** A field passes exactly when it breaks no rule, and then holds the
      parsed number or the string with its default applied. */
  lemma CheckFieldPasses(f: Field, raw: string)
    requires Compiles(f)
    ensures CheckField(f, raw).Ok? <==> forall rule :: !Broken(f, raw, rule)
    ensures CheckField(f, raw).Ok? ==>
              CheckField(f, raw).value == if f.typeName == "int" then IntValue(AtoiValue(raw)) else StringValue(Effective(f, raw))
  {
    if CheckField(f, raw).Err? {
      if f.typeName == "int" && Atoi(raw).None? {
        assert Broken(f, raw, NotInt);
      } else if f.typeName == "int" && f.rules.min && AtoiValue(raw) < f.rules.minValue {
        assert Broken(f, raw, TooSmall);
      } else if f.typeName == "int" {
        assert Broken(f, raw, TooLarge);
      } else if f.rules.required && Effective(f, raw) == "" {
        assert Broken(f, raw, Empty);
      } else if f.rules.min && ByteLen(Effective(f, raw)) < f.rules.minValue {
        assert Broken(f, raw, TooSmall);
      } else if f.rules.max && ByteLen(Effective(f, raw)) > f.rules.maxValue {
        assert Broken(f, raw, TooLarge);
      } else {
        assert Broken(f, raw, NotInEnum);
      }
    }
  }

  /** A field that fails answers 400 with the message of the first rule it
      breaks. */
  lemma CheckFieldFirstBroken(f: Field, raw: string, rule: Rule)
    requires Compiles(f)
    requires Broken(f, raw, rule)
    requires forall earlier :: Rank(earlier) < Rank(rule) ==> !Broken(f, raw, earlier)
    ensures CheckField(f, raw) == Err(BadRequest(Message(f, rule)))
  {
    match rule
    case NotInt =>
    case Empty =>
    case TooSmall =>
      assert !Broken(f, raw, NotInt) && !Broken(f, raw, Empty);
    case TooLarge =>
      assert !Broken(f, raw, NotInt) && !Broken(f, raw, Empty) && !Broken(f, raw, TooSmall);
    case NotInEnum =>
      assert !Broken(f, raw, Empty) && !Broken(f, raw, TooSmall) && !Broken(f, raw, TooLarge);
  }

  /** Every field of the struct compiles. */
  predicate StructCompiles(fields: seq<Field>) {
    forall i :: 0 <= i < |fields| ==> Compiles(fields[i])
  }

  /** new<Params>: the fields in declaration order; the first failure is
      returned. */
  function Validate(fields: seq<Field>, values: Values): (v: Result<seq<Value>, ApiError>)
    requires StructCompiles(fields)
    ensures v.Ok? ==> |v.value| == |fields|
  {
    if |fields| == 0 then Ok([])
    else
      match CheckField(fields[0], Get(values, fields[0].rules.paramName))
      case Err(e) => Err(e)
      case Ok(v) =>
        match Validate(fields[1..], values)
        case Err(e) => Err(e)
        case Ok(vs) => Ok([v] + vs)
  }

  /** The check of field i against the request's values. */
  function CheckAt(fields: seq<Field>, values: Values, i: int): Result<Value, ApiError>
    requires StructCompiles(fields) && 0 <= i < |fields|
  {
    CheckField(fields[i], Get(values, fields[i].rules.paramName))
  }

  /** A struct validates exactly when every field passes. */
  lemma {:induction false} ValidatePasses(fields: seq<Field>, values: Values)
    requires StructCompiles(fields)
    ensures Validate(fields, values).Ok? <==> forall i :: 0 <= i < |fields| ==> CheckAt(fields, values, i).Ok?
    decreases |fields|
  {
    if |fields| > 0 {
      var rest := fields[1..];
      ValidatePasses(rest, values);
      assert forall i :: 0 <= i < |rest| ==> CheckAt(rest, values, i) == CheckAt(fields, values, i + 1);
      if Validate(fields, values).Ok? {
        assert CheckAt(fields, values, 0).Ok? && Validate(rest, values).Ok?;
        assert forall i :: 1 <= i < |fields| ==> CheckAt(fields, values, i) == CheckAt(rest, values, i - 1);
      } else if CheckAt(fields, values, 0).Ok? {
        var i :| 0 <= i < |rest| && CheckAt(rest, values, i).Err?;
        assert CheckAt(fields, values, i + 1).Err?;
      }
    }
  }

  /** A struct that validates holds the fields' values in order. */
  lemma {:induction false} ValidateValues(fields: seq<Field>, values: Values)
    requires StructCompiles(fields)
    requires Validate(fields, values).Ok?
    ensures |Validate(fields, values).value| == |fields|
    ensures forall i :: 0 <= i < |fields| ==> CheckAt(fields, values, i) == Ok(Validate(fields, values).value[i])
    decreases |fields|
  {
    if |fields| > 0 {
      var rest := fields[1..];
      ValidateValues(rest, values);
      assert forall i :: 0 <= i < |rest| ==> CheckAt(rest, values, i) == CheckAt(fields, values, i + 1);
    }
  }

  /** A struct that fails returns the error of its first failing field. */
  lemma {:induction false} ValidateFirstFailure(fields: seq<Field>, values: Values, i: int)
    requires StructCompiles(fields) && 0 <= i < |fields|
    requires CheckAt(fields, values, i).Err?
    requires forall j :: 0 <= j < i ==> CheckAt(fields, values, j).Ok?
    ensures Validate(fields, values) == Err(CheckAt(fields, values, i).error)
    decreases i
  {
    if i > 0 {
      var rest := fields[1..];
      assert forall j :: 0 <= j < i - 1 ==> CheckAt(rest, values, j) == CheckAt(fields, values, j + 1);
      assert CheckAt(rest, values, i - 1) == CheckAt(fields, values, i);
      assert CheckAt(fields, values, 0).Ok?;
      ValidateFirstFailure(rest, values, i - 1);
    }
  }

  /** Validation errors are all 400s. */
  lemma {:induction false} ValidateBadRequest(fields: seq<Field>, values: Values)
    requires StructCompiles(fields)
    ensures Validate(fields, values).Err? ==> Validate(fields, values).error.status == StatusBadRequest
    decreases |fields|
  {
    if |fields| > 0 {
      ValidateBadRequest(fields[1..], values);
    }
  }

  /** The handler of the API methods: the method's name and the validated
      params give the output or an error. */
  type Handler = (string, seq<Value>) -> Result<string, HandlerError>

  /** The params of the method are known and every field compiles. */
  predicate Generatable(m: ApiMethod, structs: map<string, ParamsStruct>) {
    m.paramsName in structs && StructCompiles(structs[m.paramsName].fields)
  }

  /** The values the params are read from: the query of a GET, the body's
      form otherwise. */
  function Params(r: Request): Values {
    if r.httpMethod == "GET" then r.query else r.form
  }

  const AuthToken := "100500"

  /** wrapper<Method>: auth, then the HTTP method, then the params, then the
      handler. */
  function Wrap(m: ApiMethod, structs: map<string, ParamsStruct>, r: Request, call: Handler): Result<string, HandlerError>
    requires Generatable(m, structs)
  {
    if m.api.auth && Get(r.headers, "X-Auth") != AuthToken then
      Err(Api(ApiError(StatusForbidden, "unauthorized")))
    else if m.api.httpMethod != "" && r.httpMethod != m.api.httpMethod then
      Err(Api(ApiError(StatusNotAcceptable, "bad method")))
    else
      match Validate(structs[m.paramsName].fields, Params(r))
      case Err(e) => Err(Api(e))
      case Ok(params) => call(m.name, params)
  }

  /** The first method of the struct served at the path. */
  function Route(methods: seq<ApiMethod>, path: string): (found: Option<ApiMethod>)
    ensures found.Some? ==> found.value in methods && found.value.api.url == path
    ensures found.None? <==> forall i :: 0 <= i < |methods| ==> methods[i].api.url != path
  {
    if |methods| == 0 then None
    else if methods[0].api.url == path then Some(methods[0])
    else Route(methods[1..], path)
  }

  predicate ServerGeneratable(api: ApiStruct, structs: map<string, ParamsStruct>) {
    forall i :: 0 <= i < |api.methods| ==> Generatable(api.methods[i], structs)
  }

  /** The response for the wrapper's outcome. */
  function Respond(out: Result<string, HandlerError>): Response {
    match out
    case Ok(data) => Response(StatusOK, Some(data), "")
    case Err(Api(e)) => Response(e.status, None, e.message)
    case Err(Other(message)) => Response(StatusInternalServerError, None, message)
  }

  /** ServeHTTP of the struct. */
  function Serve(api: ApiStruct, structs: map<string, ParamsStruct>, r: Request, call: Handler): (resp: Response)
    requires ServerGeneratable(api, structs)
    ensures resp.data.Some? ==> resp.status == StatusOK && resp.error == ""
  {
    match Route(api.methods, r.path)
    case None => Respond(Err(Api(ApiError(StatusNotFound, "unknown endpoint"))))
    case Some(m) => Respond(Wrap(m, structs, r, call))
  }

  /** An unknown path is a 404 "unknown endpoint". */
  lemma ServeUnknown(api: ApiStruct, structs: map<string, ParamsStruct>, r: Request, call: Handler)
    requires ServerGeneratable(api, structs)
    requires forall i :: 0 <= i < |api.methods| ==> api.methods[i].api.url != r.path
    ensures Serve(api, structs, r, call) == Response(StatusNotFound, None, "unknown endpoint")
  {
  }

  /** Auth is checked before the method: a request without the token is a
      403 whatever its method and params. */
  lemma ServeUnauthorized(api: ApiStruct, structs: map<string, ParamsStruct>, r: Request, call: Handler, i: int)
    requires ServerGeneratable(api, structs) && 0 <= i < |api.methods|
    requires api.methods[i].api.url == r.path
    requires forall j :: 0 <= j < i ==> api.methods[j].api.url != r.path
    requires api.methods[i].api.auth && Get(r.headers, "X-Auth") != AuthToken
    ensures Serve(api, structs, r, call) == Response(StatusForbidden, None, "unauthorized")
  {
    RouteFirst(api.methods, r.path, i);
  }

  /** An authorised request with the wrong method is a 406. */
  lemma ServeBadMethod(api: ApiStruct, structs: map<string, ParamsStruct>, r: Request, call: Handler, i: int)
    requires ServerGeneratable(api, structs) && 0 <= i < |api.methods|
    requires api.methods[i].api.url == r.path
    requires forall j :: 0 <= j < i ==> api.methods[j].api.url != r.path
    requires !api.methods[i].api.auth || Get(r.headers, "X-Auth") == AuthToken
    requires api.methods[i].api.httpMethod != "" && r.httpMethod != api.methods[i].api.httpMethod
    ensures Serve(api, structs, r, call) == Response(StatusNotAcceptable, None, "bad method")
  {
    RouteFirst(api.methods, r.path, i);
  }

  /** Past auth and method, invalid params are a 400 with the validator's
      message, and otherwise the handler's outcome decides: its output with
      200, an ApiError's own status, or 500 for any other error. */
  lemma ServeAccepted(api: ApiStruct, structs: map<string, ParamsStruct>, r: Request, call: Handler, i: int)
    requires ServerGeneratable(api, structs) && 0 <= i < |api.methods|
    requires api.methods[i].api.url == r.path
    requires forall j :: 0 <= j < i ==> api.methods[j].api.url != r.path
    requires !api.methods[i].api.auth || Get(r.headers, "X-Auth") == AuthToken
    requires api.methods[i].api.httpMethod == "" || r.httpMethod == api.methods[i].api.httpMethod
    ensures var m := api.methods[i];
            var fields := structs[m.paramsName].fields;
            var resp := Serve(api, structs, r, call);
            match Validate(fields, Params(r))
            case Err(e) => resp == Response(StatusBadRequest, None, e.message)
            case Ok(params) =>
              match call(m.name, params)
              case Ok(data) => resp == Response(StatusOK, Some(data), "")
              case Err(Api(e)) => resp == Response(e.status, None, e.message)
              case Err(Other(message)) => resp == Response(StatusInternalServerError, None, message)
  {
    RouteFirst(api.methods, r.path, i);
    ValidateBadRequest(structs[api.methods[i].paramsName].fields, Params(r));
  }

  /** The route is the first method with the path. */
  lemma {:induction false} RouteFirst(methods: seq<ApiMethod>, path: string, i: int)
    requires 0 <= i < |methods| && methods[i].api.url == path
    requires forall j :: 0 <= j < i ==> methods[j].api.url != path
    ensures Route(methods, path) == Some(methods[i])
    decreases i
  {
    if i > 0 {
      RouteFirst(methods[1..], path, i - 1);
    }
  }
}
