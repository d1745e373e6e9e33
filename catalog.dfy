/**
 * The DB2 catalog operations: each issues one driver query and maps the rows
 * it gets back to records, or answers without the driver at all.
 */
module Db2Catalog {
  import opened Wrappers
  import opened Strings
  import opened Seqs
  import opened Rows
  import opened IdentifierQuoter
  import ConnectionConfig

  /** SQL text and positional parameters handed to the driver's `query`. */
  datatype DriverRequest = DriverRequest(sql: string, params: seq<string>)

  /** The driver's answer to a request: its rows, or the error passed to the callback. */
  type Driver = DriverRequest -> Result<seq<Row>, string>

  datatype TableInfo = TableInfo(schema: Option<Value>, name: Option<Value>)
  datatype ColumnInfo = ColumnInfo(columnName: Option<Value>, dataType: Option<Value>)
  datatype KeyInfo = KeyInfo(
    constraintName: Value, columnName: Option<Value>, referencedTable: Value, keyType: string)

  // ---------------------------------------------------------------------------
  // Tables and views

  /** The `AND <filter>` clause, present only for a non-empty (truthy) schema filter. */
  function FilterClause(schemaFilter: string): (c: string)
    ensures c == "" <==> schemaFilter == ""
    ensures schemaFilter != "" ==> c == " AND " + schemaFilter
  {
    if schemaFilter != "" then " AND " + schemaFilter else ""
  }

  /** Catalog entries of one type (`T` for tables, `V` for views), ordered by creator and name. */
  function TableListing(typeCode: string, schemaFilter: string): DriverRequest {
    DriverRequest(
      "SELECT creator, name FROM sysibm.systables WHERE type = '" + typeCode + "'"
        + FilterClause(schemaFilter) + " ORDER BY creator, name",
      [])
  }

  function TableInfoOf(row: Row): TableInfo {
    TableInfo(Get(row, "CREATOR"), Get(row, "NAME"))
  }

  function ListTables(driver: Driver, schemaFilter: string): (r: Result<seq<TableInfo>, string>)
    ensures var response := driver(TableListing("T", schemaFilter));
      && (response.Err? ==> r == Err(response.error))
      && (response.Ok? ==>
            && r.Ok? && |r.value| == |response.value|
            && forall i :: 0 <= i < |r.value| ==>
              r.value[i].schema == Get(response.value[i], "CREATOR") &&
              r.value[i].name == Get(response.value[i], "NAME"))
  {
    match driver(TableListing("T", schemaFilter))
    case Err(e) => Err(e)
    case Ok(data) => Ok(Map(data, TableInfoOf))
  }

  function ListViews(driver: Driver, schemaFilter: string): (r: Result<seq<TableInfo>, string>)
    ensures var response := driver(TableListing("V", schemaFilter));
      && (response.Err? ==> r == Err(response.error))
      && (response.Ok? ==>
            && r.Ok? && |r.value| == |response.value|
            && forall i :: 0 <= i < |r.value| ==>
              r.value[i].schema == Get(response.value[i], "CREATOR") &&
              r.value[i].name == Get(response.value[i], "NAME"))
  {
    match driver(TableListing("V", schemaFilter))
    case Err(e) => Err(e)
    case Ok(data) => Ok(Map(data, TableInfoOf))
  }

  /** Two tables `T1` and `T2` of schema `S`, in the order the catalog returns them. */
  lemma ListTablesScenario(driver: Driver, schemaFilter: string)
    requires driver(TableListing("T", schemaFilter)) == Ok([
      [("CREATOR", Text("S")), ("NAME", Text("T1"))],
      [("CREATOR", Text("S")), ("NAME", Text("T2"))]])
    ensures ListTables(driver, schemaFilter) == Ok([
      TableInfo(Some(Text("S")), Some(Text("T1"))),
      TableInfo(Some(Text("S")), Some(Text("T2")))])
  {
    var data := driver(TableListing("T", schemaFilter)).value;
    var r := ListTables(driver, schemaFilter).value;
    assert |r| == 2;
    assert Get(data[0], "CREATOR") == Some(Text("S")) && Get(data[0], "NAME") == Some(Text("T1"));
    assert Get(data[1], "CREATOR") == Some(Text("S")) && Get(data[1], "NAME") == Some(Text("T2"));
    assert r[0] == TableInfo(Some(Text("S")), Some(Text("T1")));
    assert r[1] == TableInfo(Some(Text("S")), Some(Text("T2")));
    assert r == [TableInfo(Some(Text("S")), Some(Text("T1"))), TableInfo(Some(Text("S")), Some(Text("T2")))];
  }

  // ---------------------------------------------------------------------------
  // Columns, schemas and keys

  function ColumnListing(schema: string, table: string): DriverRequest {
    DriverRequest(
      "SELECT colno as position, colname as column_name, typename as type"
        + " FROM syscat.columns WHERE tabschema = ? AND tabname = ?",
      [schema, table])
  }

  function ColumnInfoOf(row: Row): ColumnInfo {
    ColumnInfo(Get(row, "COLUMN_NAME"), Get(row, "TYPE"))
  }

  /** Columns of `schema.table`; the position column is selected but not reported. */
  function ListTableColumns(driver: Driver, table: string, schema: string): (r: Result<seq<ColumnInfo>, string>)
    ensures var response := driver(ColumnListing(schema, table));
      && (response.Err? ==> r == Err(response.error))
      && (response.Ok? ==>
            && r.Ok? && |r.value| == |response.value|
            && forall i :: 0 <= i < |r.value| ==>
              r.value[i].columnName == Get(response.value[i], "COLUMN_NAME") &&
              r.value[i].dataType == Get(response.value[i], "TYPE"))
  {
    match driver(ColumnListing(schema, table))
    case Err(e) => Err(e)
    case Ok(data) => Ok(Map(data, ColumnInfoOf))
  }

  const SchemaListing := DriverRequest("SELECT RTRIM(schemaname) as name FROM syscat.schemata", [])

  function NameOf(row: Row): Option<Value> {
    Get(row, "NAME")
  }

  function ListSchemas(driver: Driver): (r: Result<seq<Option<Value>>, string>)
    ensures var response := driver(SchemaListing);
      && (response.Err? ==> r == Err(response.error))
      && (response.Ok? ==>
            && r.Ok? && |r.value| == |response.value|
            && forall i :: 0 <= i < |r.value| ==> r.value[i] == Get(response.value[i], "NAME"))
  {
    match driver(SchemaListing)
    case Err(e) => Err(e)
    case Ok(data) => Ok(Map(data, NameOf))
  }

  /** Key columns of a table; the database name is what is compared with `tabschema`. */
  function KeyListing(database: string, table: string): DriverRequest {
    DriverRequest(
      "SELECT colname as column_name FROM syscat.columns"
        + " WHERE tabschema = ? AND tabname = ? AND keyseq IS NOT NULL AND keyseq > 0",
      [database, table])
  }

  function KeyInfoOf(row: Row): KeyInfo {
    KeyInfo(Null, Get(row, "COLUMN_NAME"), Null, "PRIMARY KEY")
  }

  /** Every key reported is a primary key with no constraint name and no referenced table. */
  function GetTableKeys(driver: Driver, database: string, table: string): (r: Result<seq<KeyInfo>, string>)
    ensures var response := driver(KeyListing(database, table));
      && (response.Err? ==> r == Err(response.error))
      && (response.Ok? ==>
            && r.Ok? && |r.value| == |response.value|
            && forall i :: 0 <= i < |r.value| ==>
              r.value[i].columnName == Get(response.value[i], "COLUMN_NAME") &&
              r.value[i].keyType == "PRIMARY KEY" &&
              r.value[i].constraintName == Null && r.value[i].referencedTable == Null)
  {
    match driver(KeyListing(database, table))
    case Err(e) => Err(e)
    case Ok(data) => Ok(Map(data, KeyInfoOf))
  }

  // ---------------------------------------------------------------------------
  // Operations answered without the driver

  /** Only the connection's own database is listed. */
  function ListDatabases(config: ConnectionConfig.DbConfig): (r: seq<string>)
    ensures |r| == 1 && r[0] == config.database
  {
    [config.database]
  }

  /** Routines, triggers, indexes, references and create scripts are not supported: all come back empty. */
  function ListRoutines(): (r: seq<string>)
    ensures |r| == 0
  {
    []
  }

  function ListTableTriggers(table: string): (r: seq<string>)
    ensures |r| == 0
  {
    []
  }

  function ListTableIndexes(table: string): (r: seq<string>)
    ensures |r| == 0
  {
    []
  }

  function GetTableReferences(table: string): (r: seq<string>)
    ensures |r| == 0
  {
    []
  }

  function GetTableCreateScript(table: string): (r: seq<string>)
    ensures |r| == 0
  {
    []
  }

  function GetViewCreateScript(view: string): (r: seq<string>)
    ensures |r| == 0
  {
    []
  }

  function GetRoutineCreateScript(routine: string): (r: seq<string>)
    ensures |r| == 0
  {
    []
  }

  const QueryNotImplemented := "\"query\" function is not implementd by ibm_db2 client."

  /** Interactive queries are not available: every call fails. */
  function Query(queryText: string): (r: Result<(), string>)
    ensures r.Err?
  {
    Err(QueryNotImplemented)
  }

  // ---------------------------------------------------------------------------
  // Statement text builders

  function GetQuerySelectTop(table: string, limit: nat): (q: string)
    ensures var head := "SELECT * FROM " + WrapIdentifier(table) + " LIMIT ";
      && |q| > |head|
      && q[..|head|] == head
      && forall i :: |head| <= i < |q| ==> IsDigit(q[i])
  {
    var head := "SELECT * FROM " + WrapIdentifier(table) + " LIMIT ";
    var d := Decimal(limit);
    assert (head + d)[..|head|] == head;
    assert forall i :: |head| <= i < |head + d| ==> (head + d)[i] == d[i - |head|];
    head + d
  }

  /** The text after the last space. */
  function LastWord(s: string): (w: string)
    ensures Free(w, ' ')
  {
    if s == [] || s[|s| - 1] == ' ' then "" else LastWord(s[..|s| - 1]) + [s[|s| - 1]]
  }

  lemma {:induction false} LastWordAfterSpace(x: string, w: string)
    requires Free(w, ' ')
    ensures LastWord(x + " " + w) == w
    decreases |w|
  {
    var s := x + " " + w;
    if w == [] {
      assert s[|s| - 1] == ' ';
    } else {
      var w' := w[..|w| - 1];
      assert s[..|s| - 1] == x + " " + w';
      LastWordAfterSpace(x, w');
      assert w' + [w[|w| - 1]] == w;
    }
  }

  /** The preview statement selects from the quoted table and its row limit reads back from its last word. */
  lemma SelectTopReadsBack(table: string, limit: nat)
    ensures var q := GetQuerySelectTop(table, limit);
      && q == "SELECT * FROM " + WrapIdentifier(table) + " LIMIT " + LastWord(q)
      && LastWord(q) == Decimal(limit)
      && DecimalValue(LastWord(q)) == limit
  {
    var d := Decimal(limit);
    forall i | 0 <= i < |d| ensures d[i] != ' ' {
      assert IsDigit(d[i]);
    }
    LastWordAfterSpace("SELECT * FROM " + WrapIdentifier(table) + " LIMIT", d);
    assert GetQuerySelectTop(table, limit) == "SELECT * FROM " + WrapIdentifier(table) + " LIMIT" + " " + d;
    DecimalRoundTrip(limit);
  }

  ghost predicate OccursAt(s: string, part: string, i: nat) {
    i + |part| <= |s| && s[i..i + |part|] == part
  }

  ghost predicate Contains(s: string, part: string) {
    exists i: nat :: OccursAt(s, part, i)
  }

  /** One table's truncate statement, including the whitespace of its template. */
  function TruncateStatement(database: string, table: string): (r: string)
    ensures Contains(r, "TRUNCATE TABLE " + WrapIdentifier(database) + "." + WrapIdentifier(table) + ";")
  {
    var core := "TRUNCATE TABLE " + WrapIdentifier(database) + "." + WrapIdentifier(table) + ";";
    var s := "\n      " + core + "\n    ";
    assert OccursAt(s, core, 7);
    s
  }

  /** The statements for all tables, one per table and in table order. */
  function TruncateStatements(database: string, tables: seq<string>): (r: seq<string>)
    ensures |r| == |tables|
    ensures forall i :: 0 <= i < |tables| ==>
      Contains(r[i], "TRUNCATE TABLE " + WrapIdentifier(database) + "." + WrapIdentifier(tables[i]) + ";")
  {
    var r := Map(tables, t => TruncateStatement(database, t));
    forall i | 0 <= i < |tables|
      ensures Contains(r[i], "TRUNCATE TABLE " + WrapIdentifier(database) + "." + WrapIdentifier(tables[i]) + ";")
    {
      assert r[i] == TruncateStatement(database, tables[i]);
    }
    r
  }
}
