/**
 * Rendering a normalised response on standard output (`output` and
 * `printTable` in src/lib/formatter.ts). Each `console.log` call becomes one
 * `Printed` value; how a table or a JSON document is laid out as characters
 * is not modelled, only what is handed to the renderer. A table whose
 * items include `null` makes the runtime throw a `TypeError` before anything
 * is printed; the failure is returned instead, with the text V8 gives it.
 */
module Formatter {
  import opened Common
  import opened Errors
  import opened JsonModel
  import opened HttpClient

  /** The `--format` option. */
  datatype Format = JsonFormat | TableFormat

  /** The global options the formatter reads: `format` (absent means json) and `raw`. */
  datatype FormatOptions = FormatOptions(format: Option<Format>, raw: bool)

  /**
   * One table cell: a primitive shown as its `String(..)` text, or an object
   * or array shown as its `JSON.stringify` text.
   */
  datatype Cell = Plain(text: string) | Stringified(value: Json)

  /** One `console.log` call. */
  datatype Printed =
    | Line(text: string)                                  // a literal message
    | JsonDump(value: Json)                               // `JSON.stringify(value, null, 2)`
    | ArrayTable(columns: seq<string>, rows: seq<seq<Cell>>) // a table with a header row
    | EntryTable(entries: seq<(string, Cell)>)            // a key/value table

  /** At most this many columns are shown for an array. */
  const MaxColumns := 6

  const NoResults := "No results."

  /** What V8 throws for `Object.keys(null)`. */
  const NullKeysMessage := "Cannot convert undefined or null to object"

  /** What V8 throws for reading the property `key` of `null`. */
  function NullReadMessage(key: string): string {
    "Cannot read properties of null (reading '" + key + "')"
  }

  /** The hint printed after a table when another page exists. */
  function MoreResults(cursor: string): string {
    "\nMore results available. Use --cursor " + cursor
  }

  // ---------------------------------------------------------------------
  // What is printed, as functions of the response

  /** The display rule for one value in a table. */
  function CellOf(v: Json): Cell {
    match v
    case JNull => Plain("")
    case JBool(b) => Plain(if b then "true" else "false")
    case JNum(n) => Plain(DecimalString(n))
    case JStr(s) => Plain(s)
    case JArr(_) => Stringified(v)
    case JObj(_) => Stringified(v)
  }

  /** The column names of an array table: the first keys of its first item. */
  function Columns(first: Json): seq<string> {
    var keys := KeysOf(first);
    if |keys| <= MaxColumns then keys else keys[..MaxColumns]
  }

  /** The cells of one item under the given columns. */
  function Row(item: Json, columns: seq<string>): seq<Cell> {
    seq(|columns|, j requires 0 <= j < |columns| => CellOf(Field(item, columns[j])))
  }

  function Rows(items: seq<Json>, columns: seq<string>): seq<seq<Cell>> {
    seq(|items|, i requires 0 <= i < |items| => Row(items[i], columns))
  }

  /** One key/value pair per member of an object. */
  function Entries(fields: seq<(string, Json)>): seq<(string, Cell)> {
    seq(|fields|, i requires 0 <= i < |fields| => (fields[i].0, CellOf(fields[i].1)))
  }

  /** Whether `printTable` ends with the more-results hint, once it gets that far. */
  predicate HasMore(r: ApiResponse) {
    r.hasNextPage == Some(true) && Truthy(r.cursor)
  }

  function Hint(r: ApiResponse): seq<Printed> {
    if HasMore(r) then [Line(MoreResults(r.cursor.value))] else []
  }

  /**
   * The rows of an array table, or the error thrown by the first null item
   * a column is read from.
   */
  function RowsOrThrow(items: seq<Json>, columns: seq<string>): Result<seq<seq<Cell>>, PylonError> {
    if columns != [] && JNull in items then Err(PlainError(NullReadMessage(columns[0])))
    else Ok(Rows(items, columns))
  }

  /** What `printTable` prints for a response, or the error it throws. */
  function TableLines(r: ApiResponse): Result<seq<Printed>, PylonError> {
    match r.data
    case JArr(items) =>
      if items == [] then Ok([Line(NoResults)])
      else if items[0] == JNull then Err(PlainError(NullKeysMessage))
      else
        var columns := Columns(items[0]);
        var rows := RowsOrThrow(items, columns);
        if rows.Err? then Err(rows.error)
        else Ok([ArrayTable(columns, rows.value)] + Hint(r))
    case JObj(fields) => Ok([EntryTable(Entries(fields))] + Hint(r))
    case _ => Ok([JsonDump(r.data)] + Hint(r))
  }

  /**
   * The response itself as a JSON object, as `JSON.stringify` sees it:
   * members whose value is undefined are omitted.
   */
  function ResponseJson(r: ApiResponse): Json {
    var withId := With([("data", r.data)], "request_id", if r.requestId.Some? then Some(JStr(r.requestId.value)) else None);
    var withMore := With(withId, "has_next_page", if r.hasNextPage.Some? then Some(JBool(r.hasNextPage.value)) else None);
    JObj(With(withMore, "cursor", if r.cursor.Some? then Some(JStr(r.cursor.value)) else None))
  }

  /** The members followed by one more, unless its value is undefined. */
  function With(fields: seq<(string, Json)>, name: string, o: Option<Json>): seq<(string, Json)> {
    if o.Some? then fields + [(name, o.value)] else fields
  }

  /** Reading a printed envelope back, as a consumer of `--raw` output does. */
  function ResponseOf(v: Json): ApiResponse {
    var id := Field(v, "request_id");
    var more := Field(v, "has_next_page");
    var cursor := Field(v, "cursor");
    ApiResponse(
      Field(v, "data"),
      if id.JStr? then Some(id.s) else None,
      if more.JBool? then Some(more.b) else None,
      if cursor.JStr? then Some(cursor.s) else None)
  }

  /** What `output` prints for a response under the given options, or the error it throws. */
  function OutputLines(r: ApiResponse, opts: FormatOptions): Result<seq<Printed>, PylonError> {
    var format := opts.format.GetOr(JsonFormat);
    var data := if opts.raw then ResponseJson(r) else r.data;
    if data == JNull then
      if format == TableFormat then Ok([Line(NoResults)])
      else Ok([JsonDump(if opts.raw then ResponseJson(r) else JArr([]))])
    else if format == TableFormat then TableLines(r)
    else Ok([JsonDump(data)])
  }

  // ---------------------------------------------------------------------
  // The printing code

  /** `printTable`: the table is filled one row per item, or one entry per member. */
  method PrintTable(r: ApiResponse) returns (printed: Result<seq<Printed>, PylonError>)
    ensures printed == TableLines(r)
  {
    var lines: seq<Printed>;
    match r.data {
      case JArr(items) =>
        if items == [] {
          return Ok([Line(NoResults)]);
        }
        if items[0] == JNull {
          return Err(PlainError(NullKeysMessage));
        }
        var columns := Columns(items[0]);
        var rows := FillRows(items, columns);
        if rows.Err? {
          return Err(rows.error);
        }
        lines := [ArrayTable(columns, rows.value)];
      case JObj(fields) =>
        var entries := FillEntries(fields);
        lines := [EntryTable(entries)];
      case _ =>
        lines := [JsonDump(r.data)];
    }
    assert TableLines(r) == Ok(lines + Hint(r));
    if r.hasNextPage == Some(true) && Truthy(r.cursor) {
      lines := lines + [Line(MoreResults(r.cursor.value))];
    } else {
      assert lines + Hint(r) == lines;
    }
    printed := Ok(lines);
  }

  /** The rows of an array table, pushed one item at a time until a null item is read. */
  method FillRows(items: seq<Json>, columns: seq<string>) returns (rows: Result<seq<seq<Cell>>, PylonError>)
    ensures rows == RowsOrThrow(items, columns)
  {
    var pushed := [];
    for i := 0 to |items|
      invariant |pushed| == i
      invariant forall k :: 0 <= k < i ==> pushed[k] == Row(items[k], columns)
      invariant columns != [] ==> JNull !in items[..i]
    {
      if columns != [] && items[i] == JNull {
        return Err(PlainError(NullReadMessage(columns[0])));
      }
      pushed := pushed + [Row(items[i], columns)];
    }
    assert items[..|items|] == items;
    assert pushed == Rows(items, columns);
    return Ok(pushed);
  }

  /** The entries of a key/value table, pushed one member at a time. */
  method FillEntries(fields: seq<(string, Json)>) returns (entries: seq<(string, Cell)>)
    ensures entries == Entries(fields)
  {
    entries := [];
    for i := 0 to |fields|
      invariant |entries| == i
      invariant forall k :: 0 <= k < i ==> entries[k] == (fields[k].0, CellOf(fields[k].1))
    {
      entries := entries + [(fields[i].0, CellOf(fields[i].1))];
    }
  }

  /** `output`. */
  method Output(r: ApiResponse, opts: FormatOptions) returns (printed: Result<seq<Printed>, PylonError>)
    ensures printed == OutputLines(r, opts)
  {
    var format := if opts.format.Some? then opts.format.value else JsonFormat;
    var data := if opts.raw then ResponseJson(r) else r.data;
    if data == JNull {
      if format == TableFormat {
        printed := Ok([Line(NoResults)]);
      } else {
        printed := Ok([JsonDump(if opts.raw then ResponseJson(r) else JArr([]))]);
      }
      return;
    }
    if format == TableFormat {
      printed := PrintTable(r);
      return;
    }
    printed := Ok([JsonDump(data)]);
  }

  // ---------------------------------------------------------------------
  // Properties

  /** Without `--format`, output is JSON. */
  lemma DefaultFormatIsJson(r: ApiResponse, raw: bool)
    ensures OutputLines(r, FormatOptions(None, raw)) == OutputLines(r, FormatOptions(Some(JsonFormat), raw))
  {
  }

  /** In JSON mode without `--raw`, exactly the data is printed, and `[]` when there is none. */
  lemma JsonPrintsData(r: ApiResponse, format: Option<Format>)
    requires format != Some(TableFormat)
    ensures OutputLines(r, FormatOptions(format, false)) == Ok([JsonDump(if r.data == JNull then JArr([]) else r.data)])
  {
  }

  /** With `--raw` in JSON mode, one document is printed, and it reads back as the whole response. */
  lemma RawPrintsEnvelope(r: ApiResponse, format: Option<Format>)
    requires format != Some(TableFormat)
    ensures OutputLines(r, FormatOptions(format, true)).Ok?
    ensures |OutputLines(r, FormatOptions(format, true)).value| == 1
    ensures OutputLines(r, FormatOptions(format, true)).value[0].JsonDump?
    ensures ResponseOf(OutputLines(r, FormatOptions(format, true)).value[0].value) == r
  {
    EnvelopeRoundTrip(r);
  }

  /** Every member of the response survives `JSON.stringify` and a parse back. */
  lemma EnvelopeRoundTrip(r: ApiResponse)
    ensures ResponseOf(ResponseJson(r)) == r
  {
    var d := [("data", r.data)];
    var i := With(d, "request_id", if r.requestId.Some? then Some(JStr(r.requestId.value)) else None);
    var m := With(i, "has_next_page", if r.hasNextPage.Some? then Some(JBool(r.hasNextPage.value)) else None);
    var c := With(m, "cursor", if r.cursor.Some? then Some(JStr(r.cursor.value)) else None);
    assert ResponseJson(r).fields == c;
    assert Member(d, "data") == Some(r.data);
    assert Member(d, "request_id") == None;
    assert Member(d, "has_next_page") == None;
    assert Member(d, "cursor") == None;
    MemberWith(d, "request_id", if r.requestId.Some? then Some(JStr(r.requestId.value)) else None);
    MemberWith(i, "has_next_page", if r.hasNextPage.Some? then Some(JBool(r.hasNextPage.value)) else None);
    MemberWith(m, "cursor", if r.cursor.Some? then Some(JStr(r.cursor.value)) else None);
  }

  /** A member appended under one name leaves every other name's lookup as it was. */
  lemma MemberWith(fields: seq<(string, Json)>, name: string, o: Option<Json>)
    ensures Member(With(fields, name, o), name) == if o.Some? then o else Member(fields, name)
    ensures forall k :: k != name ==> Member(With(fields, name, o), k) == Member(fields, k)
  {
    if o.Some? {
      var all := fields + [(name, o.value)];
      assert all[..|all| - 1] == fields;
    }
  }

  /**
   * In table mode `--raw` changes nothing while the response carries data;
   * when it carries none, the non-raw call says "No results." and the raw
   * call prints `null` followed by any more-results hint.
   */
  lemma TableIgnoresRaw(r: ApiResponse)
    ensures r.data != JNull ==>
      OutputLines(r, FormatOptions(Some(TableFormat), true)) == OutputLines(r, FormatOptions(Some(TableFormat), false))
    ensures r.data == JNull ==>
      OutputLines(r, FormatOptions(Some(TableFormat), false)) == Ok([Line(NoResults)])
      && OutputLines(r, FormatOptions(Some(TableFormat), true)) == Ok([JsonDump(JNull)] + Hint(r))
  {
  }

  /** An empty array prints only "No results.", even when another page exists. */
  lemma EmptyArrayHasNoHint(r: ApiResponse)
    requires r.data == JArr([])
    ensures TableLines(r) == Ok([Line(NoResults)])
  {
  }

  /**
   * A non-empty array throws when its first item is null, or when a later
   * item is null and the first item has a key to read; in no other case.
   */
  lemma ArrayTableThrows(r: ApiResponse)
    requires r.data.JArr? && r.data.items != []
    ensures var items := r.data.items;
      && (items[0] == JNull ==> TableLines(r) == Err(PlainError(NullKeysMessage)))
      && (items[0] != JNull && KeysOf(items[0]) != [] && JNull in items ==>
            TableLines(r) == Err(PlainError(NullReadMessage(KeysOf(items[0])[0]))))
      && (TableLines(r).Ok? <==> items[0] != JNull && (KeysOf(items[0]) == [] || JNull !in items))
  {
  }

  /**
   * When nothing is thrown, a non-empty array prints one table whose columns
   * are the first (at most six) keys of the first item, in order, with one
   * row per item and, in each row, the cell of that item's value under each
   * column.
   */
  lemma {:induction false} ArrayTableShape(r: ApiResponse)
    requires r.data.JArr? && r.data.items != [] && TableLines(r).Ok?
    ensures TableLines(r).value[0].ArrayTable?
    ensures var t := TableLines(r).value[0]; var items := r.data.items; var keys := KeysOf(items[0]);
      && |t.columns| == (if |keys| < MaxColumns then |keys| else MaxColumns)
      && t.columns == keys[..|t.columns|]
      && |t.rows| == |items|
      && forall i :: 0 <= i < |items| ==>
          |t.rows[i]| == |t.columns|
          && forall j :: 0 <= j < |t.columns| ==> t.rows[i][j] == CellOf(Field(items[i], t.columns[j]))
  {
    var keys := KeysOf(r.data.items[0]);
    if |keys| <= MaxColumns {
      assert keys[..|keys|] == keys;
    }
  }

  /** Printing a table throws only for an array holding a null item; whatever else it prints starts with a table or a document. */
  lemma TableThrowsOnlyOnNull(r: ApiResponse)
    ensures TableLines(r).Err? ==> r.data.JArr? && JNull in r.data.items
    ensures TableLines(r).Err? ==> TableLines(r).error.PlainError?
    ensures !r.data.JArr? ==> TableLines(r).Ok? && !TableLines(r).value[0].Line?
  {
  }

  /**
   * `[null]` throws at `Object.keys`; `[{"id": 1}, null]` throws when the
   * second row reads `id`.
   */
  lemma NullItemsThrow(more: Option<bool>, cursor: Option<string>)
    ensures TableLines(ApiResponse(JArr([JNull]), None, more, cursor)) == Err(PlainError(NullKeysMessage))
    ensures TableLines(ApiResponse(JArr([JObj([("id", JNum(1))]), JNull]), None, more, cursor)) ==
              Err(PlainError("Cannot read properties of null (reading 'id')"))
  {
    var first := JObj([("id", JNum(1))]);
    assert KeysOf(first) == ["id"];
    assert Columns(first) == ["id"];
    assert RowsOrThrow([first, JNull], ["id"]) == Err(PlainError(NullReadMessage("id")));
    assert NullReadMessage("id") == "Cannot read properties of null (reading 'id')";
  }

  /** An object prints one key/value table: one entry per member, in order. */
  lemma ObjectTableShape(r: ApiResponse)
    requires r.data.JObj?
    ensures TableLines(r).Ok? && TableLines(r).value[0] == EntryTable(Entries(r.data.fields))
    ensures |Entries(r.data.fields)| == |r.data.fields|
    ensures forall i :: 0 <= i < |r.data.fields| ==>
      Entries(r.data.fields)[i].0 == r.data.fields[i].0
      && Entries(r.data.fields)[i].1 == CellOf(r.data.fields[i].1)
  {
  }

  /**
   * The more-results hint follows the table exactly when the response says
   * another page exists, names a non-empty cursor, and did not come back as
   * an empty array, and nothing was thrown; it is always the last thing
   * printed.
   */
  lemma HintIff(r: ApiResponse)
    ensures TableLines(r).Ok? ==> 1 <= |TableLines(r).value| <= 2
    ensures TableLines(r).Ok? ==> (|TableLines(r).value| == 2 <==> HasMore(r) && r.data != JArr([]))
    ensures TableLines(r).Ok? && |TableLines(r).value| == 2 ==>
              TableLines(r).value[1] == Line(MoreResults(r.cursor.value))
  {
  }

  /** A cell is empty text for null, JSON text exactly for objects and arrays. */
  lemma CellRule(v: Json)
    ensures CellOf(v) == Plain("") <==> v == JNull || v == JStr("")
    ensures CellOf(v).Stringified? <==> v.JArr? || v.JObj?
    ensures CellOf(v).Stringified? ==> CellOf(v).value == v
  {
    if v.JNum? {
      assert |DecimalString(v.n)| >= 1;
    }
  }
}
