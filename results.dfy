/**
 * Result normalisation of `executeQuery`: the statement kinds of the submitted
 * text, the reshaping of the driver's output into result sets, and one
 * `QueryResult` per result set.
 */
module ResultNormalizer {
  import opened Wrappers
  import opened Rows

  /** One statement found by the SQL identifier; only its `type` is used here. */
  datatype Statement = Statement(kind: string)

  datatype FieldInfo = FieldInfo(name: string)

  /** The uniform result shape; `command` is `None` when no statement kind was found for it. */
  datatype QueryResult = QueryResult(
    command: Option<string>,
    rows: seq<Row>,
    fields: seq<FieldInfo>,
    rowCount: nat,
    affectedRows: nat)

  /** What the driver's query callback received: a flat list of rows, or one list of rows per statement. */
  datatype DriverRows = RowList(rows: seq<Row>) | ResultSetList(sets: seq<seq<Row>>)

  function FieldNames(r: QueryResult): seq<string> {
    seq(|r.fields|, i requires 0 <= i < |r.fields| => r.fields[i].name)
  }

  /** The normalised form of one result set. */
  function ParseRowQueryResult(data: seq<Row>, command: Option<string>): (r: QueryResult)
    ensures r.command == command && r.rows == data
    ensures r.rowCount == |data| && r.affectedRows == |data|
    ensures data == [] ==> r.fields == []
    ensures data != [] ==> FieldNames(r) == Keys(data[0])
  {
    var first := if data == [] then [] else Keys(data[0]);
    QueryResult(
      command,
      data,
      seq(|first|, i requires 0 <= i < |first| => FieldInfo(first[i])),
      |data|,
      |data|)
  }

  /** The fields of a result are exactly the properties of its first row, each once. */
  lemma FieldsAreFirstRowProperties(data: seq<Row>, command: Option<string>, key: string)
    requires data != [] && WellFormed(data[0])
    ensures key in FieldNames(ParseRowQueryResult(data, command)) <==> Get(data[0], key).Some?
    ensures var names := FieldNames(ParseRowQueryResult(data, command));
      forall i, j :: 0 <= i < j < |names| ==> names[i] != names[j]
  {
    var names := FieldNames(ParseRowQueryResult(data, command));
    if key in names {
      var i :| 0 <= i < |names| && names[i] == key;
      assert data[0][i].0 == key;
    }
  }

  /** `identify` with a parser failure turned into "no statements". */
  function IdentifyCommands(identify: string -> Result<seq<Statement>, string>, queryText: string): (r: seq<Statement>)
    ensures identify(queryText).Err? ==> r == []
    ensures identify(queryText).Ok? ==> r == identify(queryText).value
  {
    match identify(queryText)
    case Ok(statements) => statements
    case Err(_) => []
  }

  /** The statement kind paired with result set `i`: `commands[i]`, undefined past the end. */
  function CommandAt(commands: seq<string>, i: nat): (c: Option<string>)
    ensures c.Some? <==> i < |commands|
    ensures c.Some? ==> c.value == commands[i]
  {
    if i < |commands| then Some(commands[i]) else None
  }

  /** `Array.isArray(rows[0])`: the driver returned one list of rows per statement. */
  predicate FirstIsRowList(raw: DriverRows) {
    raw.ResultSetList? && |raw.sets| > 0
  }

  /** Runs one batch. `identify` is the SQL identifier, which may fail; `response` is what the driver's callback received. */
  method ExecuteQuery(
    identify: string -> Result<seq<Statement>, string>,
    queryText: string,
    response: Result<DriverRows, string>)
    returns (r: Result<seq<QueryResult>, string>)
    ensures response.Err? ==> r == Err(response.error)
    ensures response.Ok? ==> r.Ok?
    ensures response.Ok? && !FirstIsRowList(response.value) ==>
      |r.value| == 1 &&
      r.value[0].rows == (if response.value.RowList? then response.value.rows else [])
    ensures response.Ok? && FirstIsRowList(response.value) ==>
      |r.value| == |response.value.sets| &&
      forall i :: 0 <= i < |r.value| ==> r.value[i].rows == response.value.sets[i]
    ensures r.Ok? ==> forall i :: 0 <= i < |r.value| ==>
      r.value[i] == ParseRowQueryResult(r.value[i].rows, r.value[i].command)
    ensures r.Ok? && identify(queryText).Ok? ==> forall i :: 0 <= i < |r.value| ==>
      var statements := identify(queryText).value;
      r.value[i].command == (if i < |statements| then Some(statements[i].kind) else None)
    ensures r.Ok? && identify(queryText).Err? ==> forall i :: 0 <= i < |r.value| ==>
      r.value[i].command == None
  {
    var statements := IdentifyCommands(identify, queryText);
    var commands := seq(|statements|, i requires 0 <= i < |statements| => statements[i].kind);
    if response.Err? {
      return Err(response.error);
    }
    var rows := response.value;
    var sets: seq<seq<Row>>;
    if !FirstIsRowList(rows) {
      sets := [if rows.RowList? then rows.rows else []];
    } else {
      sets := rows.sets;
    }
    var results := seq(|sets|, i requires 0 <= i < |sets| => ParseRowQueryResult(sets[i], CommandAt(commands, i)));
    return Ok(results);
  }
}
