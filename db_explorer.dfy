// The request checks of the database explorer: the paging parameters, the
// JSON body, the columns of a table as the database describes them, and the
// two middlewares that reject unknown tables and mistyped fields. What the
// database answers (the table list, the column rows) and what the JSON
// decoder makes of a body come in as parameters.
module DbExplorer {
  import opened Outcomes
  import opened GoStrings
  import opened GoStrconv
  import opened NetUrl
  import opened MapIteration

  /** explorer.apiError: the status and the error text. */
  datatype ApiError = ApiError(responseCode: int, err: string)

  const StatusBadRequest := 400
  const StatusNotFound := 404
  const StatusInternalServerError := 500

  // ---------------------------------------------------------------------
  // parse.go

  const DefaultLimit := 5
  const DefaultOffset := 0

  /** The value of a paging parameter: the integer the text spells, or the
      default when it is missing or not an integer. */
  function Param(query: Values, key: string, default: int): int {
    var parsed := Atoi(Get(query, key));
    if parsed.Some? then parsed.value else default
  }

  /** parseQueryParams: exactly the keys "limit" and "offset". */
  function QueryParams(query: Values): (params: map<string, int>)
    ensures params.Keys == {"limit", "offset"}
  {
    map["limit" := Param(query, "limit", DefaultLimit), "offset" := Param(query, "offset", DefaultOffset)]
  }

  /** A parameter that is missing, or whose first value is not an integer,
      takes its default; an integer in the 64-bit range, negative ones
      included, is taken as it is. */
  lemma QueryParamsMeaning(query: Values)
    ensures "limit" !in query ==> QueryParams(query)["limit"] == DefaultLimit
    ensures "offset" !in query ==> QueryParams(query)["offset"] == DefaultOffset
    ensures forall n :: InIntRange(n) && "limit" in query && |query["limit"]| > 0 && query["limit"][0] == Itoa(n) ==>
              QueryParams(query)["limit"] == n
    ensures forall n :: InIntRange(n) && "offset" in query && |query["offset"]| > 0 && query["offset"][0] == Itoa(n) ==>
              QueryParams(query)["offset"] == n
  {
    AtoiEmpty();
    forall n | InIntRange(n) {
      AtoiItoa(n);
    }
  }

  /** "limit=1'" is not an integer, so the limit falls back to 5. */
  lemma QueryParamsFallback()
    ensures QueryParams(map["limit" := ["1'"]])["limit"] == DefaultLimit
  {
    AtoiRejects("1'", 1);
    assert Get(map["limit" := ["1'"]], "limit") == "1'";
  }

  /** A JSON value as the decoder makes it with UseNumber: numbers keep
      their text. */
  datatype Json =
    | JNull
    | JBool(b: bool)
    | JNumber(text: string)
    | JString(s: string)
    | JArray(items: seq<Json>)
    | JObject(fields: map<string, Json>)

  /** What the JSON decoder makes of a body: an error text, or the first
      value in it. */
  datatype Decoded = Malformed(message: string) | Decoded(value: Json)

  /** The request: the path and method are fixed, the body can be read
      (and then is gone) and replaced. */
  class HttpRequest {
    const path: string
    const httpMethod: string
    var body: string

    constructor (path: string, httpMethod: string, body: string)
      ensures this.path == path && this.httpMethod == httpMethod && this.body == body
    {
      this.path := path;
      this.httpMethod := httpMethod;
      this.body := body;
    }
  }

  /** The outcome of parseBody for what the decoder made of the body. */
  function BodyObject(d: Decoded): Result<map<string, Json>, ApiError> {
    match d
    case Malformed(message) => Err(ApiError(StatusInternalServerError, "failed to unmarshal body: " + message))
    case Decoded(JObject(fields)) => Ok(fields)
    case Decoded(_) => Err(ApiError(StatusBadRequest, "body contains not json"))
  }

  /** A body is accepted exactly when it decodes to an object; valid JSON of
      another kind is a 400, and text that is not JSON a 500. */
  lemma BodyObjectMeaning(d: Decoded)
    ensures BodyObject(d).Ok? <==> d.Decoded? && d.value.JObject?
    ensures BodyObject(d).Ok? ==> BodyObject(d).value == d.value.fields
    ensures BodyObject(d).Err? && BodyObject(d).error.responseCode == StatusBadRequest <==> d.Decoded? && !d.value.JObject?
    ensures BodyObject(d).Err? && BodyObject(d).error.responseCode == StatusInternalServerError <==> d.Malformed?
  {
  }

  /** parseBody: the body is read and decoded; when it is an object, the
      same bytes are put back for the handler. */
  method ParseBody(r: HttpRequest, decode: string -> Decoded) returns (result: Result<map<string, Json>, ApiError>)
    modifies r
    ensures result == BodyObject(decode(old(r.body)))
    ensures result.Ok? ==> r.body == old(r.body)
    ensures result.Err? ==> r.body == ""
  {
    var body := r.body;
    r.body := "";
    var bodyDump := decode(body);
    if bodyDump.Malformed? {
      return Err(ApiError(StatusInternalServerError, "failed to unmarshal body: " + bodyDump.message));
    }
    if !bodyDump.value.JObject? {
      return Err(ApiError(StatusBadRequest, "body contains not json"));
    }
    r.body := body;
    return Ok(bodyDump.value.fields);
  }

  // ---------------------------------------------------------------------
  // select_table_columns.go

  /** One row of the column query: name, data type, nullability, key and
      extra, as text. */
  datatype ColumnRow = ColumnRow(columnName: string, dataType: string, isNullable: string,
                                 columnKey: string, extra: string)

  /** tableColumn. */
  datatype TableColumn = TableColumn(name: string, dataType: string, isNullable: bool,
                                     isPrimaryKey: bool, isAutoIncrement: bool)

  /** parseRow: the name and the column it describes; there is always one. */
  function ParseRow(row: ColumnRow): (parsed: (string, TableColumn))
    ensures parsed.0 == parsed.1.name == row.columnName
    ensures parsed.1.dataType == (if row.dataType in {"varchar", "text"} then "string" else row.dataType)
    ensures parsed.1.isNullable <==> row.isNullable == "YES"
    ensures parsed.1.isPrimaryKey <==> row.columnKey == "PRI"
    ensures parsed.1.isAutoIncrement <==> row.extra == "auto_increment"
  {
    var dataType := if row.dataType == "varchar" || row.dataType == "text" then "string" else row.dataType;
    (row.columnName, TableColumn(row.columnName, dataType, row.isNullable == "YES",
                                 row.columnKey == "PRI", row.extra == "auto_increment"))
  }

  /** The column map after the rows: each row stored under its name, a later
      row replacing an earlier one of the same name. */
  function ColumnsMap(rows: seq<ColumnRow>): map<string, TableColumn> {
    if |rows| == 0 then map[]
    else
      var parsed := ParseRow(rows[|rows| - 1]);
      ColumnsMap(rows[..|rows| - 1])[parsed.0 := parsed.1]
  }

  /** A name is a key exactly when some row has it. */
  lemma {:induction false} ColumnsMapKeys(rows: seq<ColumnRow>)
    ensures forall name :: name in ColumnsMap(rows) <==> exists i :: 0 <= i < |rows| && rows[i].columnName == name
    decreases |rows|
  {
    if |rows| > 0 {
      var prefix := rows[..|rows| - 1];
      ColumnsMapKeys(prefix);
      assert forall i :: 0 <= i < |prefix| ==> prefix[i] == rows[i];
    }
  }

  /** The key of a row's name holds that row's column, unless a later row
      has the same name. */
  lemma {:induction false} ColumnsMapLast(rows: seq<ColumnRow>, i: int)
    requires 0 <= i < |rows| && forall j :: i < j < |rows| ==> rows[j].columnName != rows[i].columnName
    ensures rows[i].columnName in ColumnsMap(rows) && ColumnsMap(rows)[rows[i].columnName] == ParseRow(rows[i]).1
    decreases |rows|
  {
    if i < |rows| - 1 {
      var prefix := rows[..|rows| - 1];
      assert prefix[i] == rows[i];
      ColumnsMapLast(prefix, i);
    }
  }

  /** The column query's error, as the getters report it. */
  function QueryFailed(message: string): ApiError {
    ApiError(StatusInternalServerError, "failed to select tables: " + message)
  }

  /** getTableColumnsMap over the rows the database returned, or its
      error. */
  method GetTableColumnsMap(query: Result<seq<ColumnRow>, string>) returns (result: Result<map<string, TableColumn>, ApiError>)
    ensures query.Err? ==> result == Err(QueryFailed(query.error))
    ensures query.Ok? ==> result == Ok(ColumnsMap(query.value))
  {
    if query.Err? {
      return Err(QueryFailed(query.error));
    }
    var rows := query.value;
    var tables: map<string, TableColumn> := map[];
    var i := 0;
    while i < |rows|
      invariant 0 <= i <= |rows|
      invariant tables == ColumnsMap(rows[..i])
    {
      assert rows[..i + 1][..i] == rows[..i];
      var parsed := ParseRow(rows[i]);
      tables := tables[parsed.0 := parsed.1];
      i := i + 1;
    }
    assert rows[..i] == rows;
    return Ok(tables);
  }

  /** getTableColumnsList: one column per row, in row order; no row is
      skipped. */
  method GetTableColumnsList(query: Result<seq<ColumnRow>, string>) returns (result: Result<seq<TableColumn>, ApiError>)
    ensures query.Err? ==> result == Err(QueryFailed(query.error))
    ensures query.Ok? ==> result.Ok? && |result.value| == |query.value|
    ensures query.Ok? ==> forall i :: 0 <= i < |query.value| ==> result.value[i] == ParseRow(query.value[i]).1
  {
    if query.Err? {
      return Err(QueryFailed(query.error));
    }
    var rows := query.value;
    var columns: seq<TableColumn> := [];
    var i := 0;
    while i < |rows|
      invariant 0 <= i <= |rows| && |columns| == i
      invariant forall j :: 0 <= j < i ==> columns[j] == ParseRow(rows[j]).1
    {
      var parsed := ParseRow(rows[i]);
      columns := columns + [parsed.1];
      i := i + 1;
    }
    return Ok(columns);
  }

  /** The list and the map agree: every listed column is the one stored
      under its name, unless a later row has the same name. */
  lemma ColumnsListInMap(rows: seq<ColumnRow>, i: int)
    requires 0 <= i < |rows| && forall j :: i < j < |rows| ==> rows[j].columnName != rows[i].columnName
    ensures var column := ParseRow(rows[i]).1;
            column.name in ColumnsMap(rows) && ColumnsMap(rows)[column.name] == column
  {
    ColumnsMapLast(rows, i);
  }

  /** The name of the first primary-key column met in `order`, or "". */
  function FirstPrimaryKey(columns: map<string, TableColumn>, order: seq<string>): string
    requires forall i :: 0 <= i < |order| ==> order[i] in columns
  {
    if |order| == 0 then ""
    else if columns[order[0]].isPrimaryKey then columns[order[0]].name
    else FirstPrimaryKey(columns, order[1..])
  }

  /** Whatever the order, the result names a primary-key column when there
      is one and is "" otherwise. */
  lemma {:induction false} FirstPrimaryKeyMeaning(columns: map<string, TableColumn>, order: seq<string>)
    requires Enumerates(order, columns.Keys)
    ensures (exists k :: k in columns && columns[k].isPrimaryKey) ==>
              exists k :: k in columns && columns[k].isPrimaryKey && FirstPrimaryKey(columns, order) == columns[k].name
    ensures (forall k :: k in columns ==> !columns[k].isPrimaryKey) ==> FirstPrimaryKey(columns, order) == ""
  {
    FirstPrimaryKeyFound(columns, order);
  }

  lemma {:induction false} FirstPrimaryKeyFound(columns: map<string, TableColumn>, order: seq<string>)
    requires forall i :: 0 <= i < |order| ==> order[i] in columns
    ensures (exists i :: 0 <= i < |order| && columns[order[i]].isPrimaryKey) ==>
              exists i :: 0 <= i < |order| && columns[order[i]].isPrimaryKey && FirstPrimaryKey(columns, order) == columns[order[i]].name
    ensures (forall i :: 0 <= i < |order| ==> !columns[order[i]].isPrimaryKey) ==> FirstPrimaryKey(columns, order) == ""
    decreases |order|
  {
    if |order| > 0 && !columns[order[0]].isPrimaryKey {
      FirstPrimaryKeyFound(columns, order[1..]);
      assert forall i :: 0 < i < |order| ==> order[1..][i - 1] == order[i];
      if exists i :: 0 <= i < |order| && columns[order[i]].isPrimaryKey {
        var i :| 0 <= i < |order| && columns[order[i]].isPrimaryKey;
        assert order[1..][i - 1] == order[i];
      }
    }
  }

  /** Keys with no primary key among them can be skipped. */
  lemma {:induction false} FirstPrimaryKeySkip(columns: map<string, TableColumn>, skipped: seq<string>, rest: seq<string>)
    requires forall i :: 0 <= i < |skipped| ==> skipped[i] in columns && !columns[skipped[i]].isPrimaryKey
    requires forall i :: 0 <= i < |rest| ==> rest[i] in columns
    ensures FirstPrimaryKey(columns, skipped + rest) == FirstPrimaryKey(columns, rest)
    decreases |skipped|
  {
    if |skipped| > 0 {
      assert (skipped + rest)[1..] == skipped[1..] + rest;
      FirstPrimaryKeySkip(columns, skipped[1..], rest);
    } else {
      assert skipped + rest == rest;
    }
  }

  /** The first primary key met after keys with none is the one the loop
      stops at. */
  lemma FirstPrimaryKeyStop(columns: map<string, TableColumn>, skipped: seq<string>, k: string, tail: seq<string>)
    requires forall i :: 0 <= i < |skipped| ==> skipped[i] in columns && !columns[skipped[i]].isPrimaryKey
    requires k in columns && columns[k].isPrimaryKey
    requires forall i :: 0 <= i < |tail| ==> tail[i] in columns
    ensures forall i :: 0 <= i < |skipped + [k] + tail| ==> (skipped + [k] + tail)[i] in columns
    ensures FirstPrimaryKey(columns, skipped + [k] + tail) == columns[k].name
  {
    FirstPrimaryKeySkip(columns, skipped, [k] + tail);
    assert skipped + ([k] + tail) == skipped + [k] + tail;
  }

  /** findPrimaryKeyColumn: the range loop stops at the first primary-key
      column it meets. */
  method FindPrimaryKeyColumn(columns: map<string, TableColumn>) returns (primaryKey: string, ghost order: seq<string>)
    ensures Enumerates(order, columns.Keys)
    ensures primaryKey == FirstPrimaryKey(columns, order)
  {
    primaryKey := "";
    order := [];
    var rest := columns.Keys;
    while rest != {}
      invariant rest <= columns.Keys
      invariant forall i :: 0 <= i < |order| ==> order[i] in columns && order[i] !in rest && !columns[order[i]].isPrimaryKey
      invariant forall k :: k in columns ==> k in rest || k in order
      invariant forall i, j :: 0 <= i < j < |order| ==> order[i] != order[j]
      invariant primaryKey == ""
      decreases |rest|
    {
      var k := Pick(rest);
      if columns[k].isPrimaryKey {
        primaryKey := columns[k].name;
        var tail := Enumerable(rest - {k});
        StopEarly(order, rest, k, tail, columns.Keys);
        FirstPrimaryKeyStop(columns, order, k, tail);
        order := order + [k] + tail;
        return;
      }
      order := order + [k];
      rest := rest - {k};
    }
    FirstPrimaryKeySkip(columns, order, []);
    assert order + [] == order;
  }

  // ---------------------------------------------------------------------
  // middlewares.go

  /** What a middleware does with the request: lets it through, rejects it
      with an error, or panics (indexing past the pieces of the path). */
  datatype Verdict = Pass | Fail(e: ApiError) | Panic

  /** The second piece of the path split on "/", if there is one. */
  function TableOf(path: string): Option<string> {
    var split := Split(path, '/');
    if |split| < 2 then None else Some(split[1])
  }

  /** "/<table>" and "/<table>/<rest>" name the table. */
  lemma TableOfPath(table: string, tail: string)
    requires '/' !in table
    ensures TableOf("/" + table) == Some(table)
    ensures TableOf("/" + table + "/" + tail) == Some(table)
  {
    SplitFirst("", '/', table);
    assert "" + ['/'] + table == "/" + table;
    IndexOfAbsent(table, '/');
    SplitFirst("", '/', table + "/" + tail);
    assert "" + ['/'] + (table + "/" + tail) == "/" + table + "/" + tail;
    SplitFirst(table, '/', tail);
    assert table + ['/'] + tail == table + "/" + tail;
  }

  /** validateTable, with the tables the database lists (or its error):
      the root passes, any other path must name an existing table. */
  function ValidateTable(path: string, tables: Result<seq<string>, ApiError>): (v: Verdict)
    ensures v == Pass <==> path == "/" || (TableOf(path).Some? && tables.Ok? && TableOf(path).value in tables.value)
    ensures v == Panic <==> path != "/" && TableOf(path).None?
    ensures path != "/" && TableOf(path).Some? && tables.Ok? && TableOf(path).value !in tables.value ==>
              v == Fail(ApiError(StatusNotFound, "unknown_table"))
    ensures path != "/" && TableOf(path).Some? && tables.Err? ==> v == Fail(tables.error)
  {
    if path == "/" then Pass
    else
      var table := TableOf(path);
      if table.None? then Panic
      else if tables.Err? then Fail(tables.error)
      else if table.value in tables.value then Pass
      else Fail(ApiError(StatusNotFound, "unknown_table"))
  }

  /** A request under "/<table>" passes exactly when the table exists. */
  lemma ValidateTableKnown(table: string, tail: string, tables: seq<string>)
    requires '/' !in table && |table| > 0
    ensures ValidateTable("/" + table, Ok(tables)) == Pass <==> table in tables
    ensures ValidateTable("/" + table + "/" + tail, Ok(tables)) == Pass <==> table in tables
  {
    TableOfPath(table, tail);
    assert |"/" + table| > 1;
  }

  /** The Go name of a decoded value's type, as "%T" prints it. */
  function TypeName(value: Json): string {
    match value
    case JNull => "<nil>"
    case JBool(_) => "bool"
    case JNumber(_) => "json.Number"
    case JString(_) => "string"
    case JArray(_) => "[]interface {}"
    case JObject(_) => "map[string]interface {}"
  }

  /** What validateColumnTables does with one body field: go on to the
      next, stop and accept the whole body, or stop with an error. */
  datatype FieldCheck = Next | Accept | Invalid(e: ApiError)

  function InvalidType(name: string): ApiError {
    ApiError(StatusBadRequest, "field " + name + " has invalid type")
  }

  /** A number fits an int column when it is a 64-bit integer, and any
      number fits a float column. */
  predicate NumberFits(value: Json, column: TableColumn) {
    value.JNumber? && ((Atoi(value.text).Some? && column.dataType == "int") || column.dataType == "float")
  }

  function CheckField(columns: map<string, TableColumn>, name: string, value: Json, isPost: bool): (c: FieldCheck)
    ensures name !in columns ==> c == Next
    ensures c.Invalid? ==> name in columns && c.e.responseCode == StatusBadRequest
  {
    if name !in columns then Next
    else
      var column := columns[name];
      if column.isPrimaryKey && isPost then Invalid(InvalidType(column.name))
      else if NumberFits(value, column) then Accept
      else if value.JNull? && column.isNullable then Accept
      else if TypeName(value) != column.dataType then Invalid(InvalidType(name))
      else Next
  }

  /** A field is rejected exactly when it is a column and either a primary
      key sent with POST, or a value that is neither a fitting number, nor a
      null for a nullable column, nor of the column's type. */
  lemma CheckFieldMeaning(columns: map<string, TableColumn>, name: string, value: Json, isPost: bool)
    ensures CheckField(columns, name, value, isPost).Invalid? <==>
              name in columns &&
              ((columns[name].isPrimaryKey && isPost) ||
               (!NumberFits(value, columns[name]) && !(value.JNull? && columns[name].isNullable)
                && TypeName(value) != columns[name].dataType))
    ensures CheckField(columns, name, value, isPost).Accept? <==>
              name in columns && !(columns[name].isPrimaryKey && isPost) &&
              (NumberFits(value, columns[name]) || (value.JNull? && columns[name].isNullable))
  {
  }

  /** The loop over the body fields in `order`: the first field that is not
      a Next decides. */
  function ColumnsVerdict(columns: map<string, TableColumn>, body: map<string, Json>, order: seq<string>, isPost: bool): Verdict
    requires forall i :: 0 <= i < |order| ==> order[i] in body
  {
    if |order| == 0 then Pass
    else
      match CheckField(columns, order[0], body[order[0]], isPost)
      case Next => ColumnsVerdict(columns, body, order[1..], isPost)
      case Accept => Pass
      case Invalid(e) => Fail(e)
  }

  /** A failure names a field that is a column and was found invalid; when
      no field is invalid, the body passes whatever the order. */
  lemma {:induction false} ColumnsVerdictMeaning(columns: map<string, TableColumn>, body: map<string, Json>, order: seq<string>, isPost: bool)
    requires forall i :: 0 <= i < |order| ==> order[i] in body
    ensures ColumnsVerdict(columns, body, order, isPost) != Panic
    ensures ColumnsVerdict(columns, body, order, isPost).Fail? ==>
              exists i :: 0 <= i < |order| && order[i] in columns
                && CheckField(columns, order[i], body[order[i]], isPost).Invalid?
                && ColumnsVerdict(columns, body, order, isPost) == Fail(CheckField(columns, order[i], body[order[i]], isPost).e)
    ensures (forall i :: 0 <= i < |order| ==> !CheckField(columns, order[i], body[order[i]], isPost).Invalid?) ==>
              ColumnsVerdict(columns, body, order, isPost) == Pass
    decreases |order|
  {
    if |order| > 0 {
      ColumnsVerdictMeaning(columns, body, order[1..], isPost);
      assert forall i :: 0 < i < |order| ==> order[1..][i - 1] == order[i];
      if ColumnsVerdict(columns, body, order, isPost).Fail? && !CheckField(columns, order[0], body[order[0]], isPost).Invalid? {
        var i :| 0 <= i < |order[1..]| && order[1..][i] in columns
          && CheckField(columns, order[1..][i], body[order[1..][i]], isPost).Invalid?
          && ColumnsVerdict(columns, body, order[1..], isPost) == Fail(CheckField(columns, order[1..][i], body[order[1..][i]], isPost).e);
        assert order[i + 1] == order[1..][i];
      }
    }
  }

  /** Because an accepted field ends the loop, whether a body passes can
      depend on the order its fields are visited in. */
  lemma ColumnsVerdictOrderMatters()
    ensures var columns := map["id" := TableColumn("id", "int", false, true, true),
                               "title" := TableColumn("title", "string", false, false, false)];
            var body := map["id" := JNumber("1"), "title" := JNumber("5")];
            && ColumnsVerdict(columns, body, ["id", "title"], false) == Pass
            && ColumnsVerdict(columns, body, ["title", "id"], false) == Fail(InvalidType("title"))
  {
    var columns := map["id" := TableColumn("id", "int", false, true, true),
                       "title" := TableColumn("title", "string", false, false, false)];
    var body := map["id" := JNumber("1"), "title" := JNumber("5")];
    assert Atoi("1") == Some(1) by {
      assert DigitsValue("1") == 1;
    }
    assert CheckField(columns, "id", body["id"], false) == Accept;
    assert CheckField(columns, "title", body["title"], false) == Invalid(InvalidType("title"));
    assert ["id", "title"][1..] == ["title"];
  }

  /** validateColumnTables, with the column rows the database returns for
      each table (or its error): only POST and PUT outside the root are
      checked; the body is parsed (and put back), and its fields are
      checked in the order the range loop visits them. */
  method ValidateColumnTables(r: HttpRequest, decode: string -> Decoded, columnRows: string -> Result<seq<ColumnRow>, string>)
    returns (v: Verdict, ghost order: seq<string>)
    modifies r
    ensures r.path == "/" || r.httpMethod !in {"POST", "PUT"} ==> v == Pass && r.body == old(r.body)
    ensures r.path != "/" && r.httpMethod in {"POST", "PUT"} && TableOf(r.path).None? ==> v == Panic && r.body == old(r.body)
    ensures r.path != "/" && r.httpMethod in {"POST", "PUT"} && TableOf(r.path).Some? ==>
              match BodyObject(decode(old(r.body)))
              case Err(e) => v == Fail(e) && r.body == ""
              case Ok(body) =>
                && r.body == old(r.body)
                && match columnRows(TableOf(r.path).value)
                   case Err(message) => v == Fail(QueryFailed(message))
                   case Ok(rows) =>
                     Enumerates(order, body.Keys)
                     && v == ColumnsVerdict(ColumnsMap(rows), body, order, r.httpMethod == "POST")
  {
    order := [];
    if r.path == "/" || (r.httpMethod != "POST" && r.httpMethod != "PUT") {
      return Pass, order;
    }
    var split := Split(r.path, '/');
    if |split| < 2 {
      return Panic, order;
    }
    var table := split[1];
    var bodyColumns := ParseBody(r, decode);
    if bodyColumns.Err? {
      return Fail(bodyColumns.error), order;
    }
    var columns := GetTableColumnsMap(columnRows(table));
    if columns.Err? {
      return Fail(columns.error), order;
    }
    v, order := CheckFields(columns.value, bodyColumns.value, r.httpMethod == "POST");
  }

  /** The range loop of validateColumnTables. */
  method CheckFields(columns: map<string, TableColumn>, body: map<string, Json>, isPost: bool)
    returns (v: Verdict, ghost order: seq<string>)
    ensures Enumerates(order, body.Keys)
    ensures v == ColumnsVerdict(columns, body, order, isPost)
  {
    order := [];
    var rest := body.Keys;
    while rest != {}
      invariant rest <= body.Keys
      invariant forall i :: 0 <= i < |order| ==> order[i] in body && order[i] !in rest
      invariant forall i :: 0 <= i < |order| ==> CheckField(columns, order[i], body[order[i]], isPost) == Next
      invariant forall k :: k in body ==> k in rest || k in order
      invariant forall i, j :: 0 <= i < j < |order| ==> order[i] != order[j]
      decreases |rest|
    {
      var name := Pick(rest);
      var check := CheckField(columns, name, body[name], isPost);
      if check != Next {
        var tail := Enumerable(rest - {name});
        StopEarly(order, rest, name, tail, body.Keys);
        ColumnsVerdictStop(columns, body, order, name, tail, isPost);
        order := order + [name] + tail;
        v := if check == Accept then Pass else Fail(check.e);
        return;
      }
      order := order + [name];
      rest := rest - {name};
    }
    ColumnsVerdictSkip(columns, body, order, [], isPost);
    assert order + [] == order;
    v := Pass;
  }

  /** The first field after ones that go on to the next decides. */
  lemma ColumnsVerdictStop(columns: map<string, TableColumn>, body: map<string, Json>,
                           skipped: seq<string>, name: string, tail: seq<string>, isPost: bool)
    requires forall i :: 0 <= i < |skipped| ==> skipped[i] in body && CheckField(columns, skipped[i], body[skipped[i]], isPost) == Next
    requires name in body && CheckField(columns, name, body[name], isPost) != Next
    requires forall i :: 0 <= i < |tail| ==> tail[i] in body
    ensures forall i :: 0 <= i < |skipped + [name] + tail| ==> (skipped + [name] + tail)[i] in body
    ensures ColumnsVerdict(columns, body, skipped + [name] + tail, isPost) ==
              if CheckField(columns, name, body[name], isPost) == Accept then Pass
              else Fail(CheckField(columns, name, body[name], isPost).e)
  {
    ColumnsVerdictSkip(columns, body, skipped, [name] + tail, isPost);
    assert skipped + ([name] + tail) == skipped + [name] + tail;
  }

  /** Fields that all go on to the next can be skipped. */
  lemma {:induction false} ColumnsVerdictSkip(columns: map<string, TableColumn>, body: map<string, Json>,
                                              skipped: seq<string>, rest: seq<string>, isPost: bool)
    requires forall i :: 0 <= i < |skipped| ==> skipped[i] in body && CheckField(columns, skipped[i], body[skipped[i]], isPost) == Next
    requires forall i :: 0 <= i < |rest| ==> rest[i] in body
    ensures ColumnsVerdict(columns, body, skipped + rest, isPost) == ColumnsVerdict(columns, body, rest, isPost)
    decreases |skipped|
  {
    if |skipped| > 0 {
      assert (skipped + rest)[1..] == skipped[1..] + rest;
      ColumnsVerdictSkip(columns, body, skipped[1..], rest, isPost);
    } else {
      assert skipped + rest == rest;
    }
  }
}
