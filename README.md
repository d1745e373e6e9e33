# IBM DB2 adapter of sqlectron-core, modelled in Dafny

This project models the pure, text- and sequence-shaped core of the IBM DB2
database adapter (`src/db/clients/ibm_db2.js`) and the static client registry
(`src/db/clients/index.js`) of sqlectron-core, and proves properties of the model.

- **IdentifierQuoter**: `wrapIdentifier`. The wildcard `*` is kept as is. For the
  first bracketed single digit (`[0]` … `[9]`), the text before it is quoted and
  the suffix is re-appended. Otherwise the name is wrapped in `"` with embedded
  quotes doubled. The regular expression `(.*?)(\[[0-9]\])` is written out as a
  search (`FindIndex`, `GroupStart`). A lemma shows this search is the
  leftmost-shortest match a JavaScript engine reports, where `.` does not match a
  line terminator.
- **ResultNormalizer**: `parseRowQueryResult`, `identifyCommands` and the reshaping
  in `executeQuery`. A flat row list becomes one result set. Each result set is
  paired with the statement kind at its index. A parser failure gives no kinds.
- **ConnectionConfig**: `configDatabase`. It builds the config record and then
  updates it step by step, as the source does. Its connection string is the
  driver's `KEY=value;` list, followed by `Security=SSL` when SSL is on. A
  round-trip lemma reads the settings back out of the string.
- **Db2Catalog**: the listing operations. Each one is a request (SQL text and
  parameters) to an abstract driver plus a mapping of the returned rows. Also
  the operations that answer without the driver, `getQuerySelectTop` and the
  truncate statement text.
- **ClientRegistry**: the `CLIENTS` descriptor table, lookup by key, and the
  adapter map of the default export.
- Helpers: **Wrappers** (Option, Result), **Strings** (decimal rendering, split),
  **Seqs** (map), **Rows** (a driver row as ordered key/value pairs).

The DB2 driver, the SQL statement identifier and the schema filter builder are
code this model cannot see. They become inputs:
- the driver is a function from requests to rows or an error;
- the identifier is a function from text to statements or an error;
- the filter builder's output is a string parameter.

JavaScript's `undefined` (a missing property, an index past the end) is `None`.
`null` is `Value.Null`.

Where the code departs from the uniform adapter contract, the model follows the code:
- `wrapIdentifier` uses the *first* `[d]` anywhere in the name, not only a
  trailing one. It drops the text after it, and also the text before a line
  terminator that precedes it (`TrailingTextDropped`, `LineBeforeIndexDropped`).
- An out-of-range statement kind is `undefined`, not `null`.
- The create-script operations resolve to an empty list, not empty text.
- `listTableColumns` reports no position and does not order its rows.

## Model

| member | source | states |
|---|---|---|
| `IdentifierQuoter.WrapIdentifier` | src/db/clients/ibm_db2.js:233-238 | `*` is returned as is; a name containing a `[digit]` quotes to text that ends in a `[digit]`; any other name comes back wrapped in `"` |
| `IdentifierQuoter.FindIndex` | src/db/clients/ibm_db2.js:235 | finds the first position where a `[digit]` suffix starts, or reports that there is none |
| `IdentifierQuoter.GroupStart` | src/db/clients/ibm_db2.js:235 | the lazy group starts right after the last line terminator before the suffix, and contains no line terminator |
| `IdentifierQuoter.ChosenMatchIsLeftmostShortest` | src/db/clients/ibm_db2.js:235-236 | the match the quoter uses is a regex match; every other match starts later, or starts at the same place and is longer |
| `IdentifierQuoter.NoMatchWithoutIndex` | src/db/clients/ibm_db2.js:235-237 | the regex finds no match exactly when the name has no `[digit]` suffix |
| `IdentifierQuoter.WildcardUnchanged` | src/db/clients/ibm_db2.js:234 | `*` is returned unchanged |
| `IdentifierQuoter.PlainNameQuoted` | src/db/clients/ibm_db2.js:237 | without a suffix, the result is the name in quotes with each `"` doubled; its length is the name's plus 2 plus one per `"`; unquoting gives the name back |
| `IdentifierQuoter.Escape` | src/db/clients/ibm_db2.js:237 | every `"` is doubled: the text grows by one character per quote, and collapsing `""` gives the original back |
| `IdentifierQuoter.PrefixHasNoIndex` | src/db/clients/ibm_db2.js:236 | the text before the first suffix has no suffix, so the recursive call makes no further call |
| `IdentifierQuoter.IndexedNameQuoted` | src/db/clients/ibm_db2.js:235-236 | with a suffix, the result is the quoted prefix (`*` or a plain quoted name) followed by the suffix verbatim |
| `IdentifierQuoter.TrailingTextDropped` | src/db/clients/ibm_db2.js:235-236 | `a[0]b` and `a[0]` both quote to `"a"[0]`: text after the first suffix is lost |
| `IdentifierQuoter.LineBeforeIndexDropped` | src/db/clients/ibm_db2.js:235 | `x`, newline, `y[1]` quotes to `"y"[1]`: text before a line terminator preceding the suffix is lost |
| `Rows.Keys` | src/db/clients/ibm_db2.js:300 | `Object.keys` lists every property of a row in order |
| `Rows.Get` | src/db/clients/ibm_db2.js:75-76 | a property read gives a value stored under that key, or undefined when no pair has the key |
| `Rows.GetFindsPair` | src/db/clients/ibm_db2.js:75-76 | in a row with distinct keys, a read finds a value exactly when that pair is in the row |
| `ResultNormalizer.ParseRowQueryResult` | src/db/clients/ibm_db2.js:295-306 | keeps the command and rows; row count and affected rows are both the number of rows; the fields are the first row's keys in order, or none for no rows |
| `ResultNormalizer.FieldsAreFirstRowProperties` | src/db/clients/ibm_db2.js:300 | a name is a field exactly when the first row has that property, and no field is listed twice |
| `ResultNormalizer.IdentifyCommands` | src/db/clients/ibm_db2.js:309-315 | gives the parser's statements, or no statements when the parser fails |
| `ResultNormalizer.CommandAt` | src/db/clients/ibm_db2.js:205 | result set i gets statement kind i, or none past the end of the kinds |
| `ResultNormalizer.ExecuteQuery` | src/db/clients/ibm_db2.js:192-209 | a driver error is returned; a flat or empty list gives exactly one result set; otherwise one result per set, in order; each is normalised; kind i or none, and none at all when the parser failed |
| `Strings.Decimal` | src/db/clients/ibm_db2.js:273 | a number is rendered as a non-empty string of decimal digits with no leading zero, except for 0 itself |
| `Strings.DecimalRoundTrip` | src/db/clients/ibm_db2.js:218 | the rendered digits denote the number again |
| `ConnectionConfig.ConfigDatabase` | src/db/clients/ibm_db2.js:261-292 | the connection string, as the connection-string function gives it; database and schema from the database config; host, port, user and password from the server config; server/port set to the tunnel endpoint only behind a tunnel, the connection string untouched |
| `ConnectionConfig.ConnectionString` | src/db/clients/ibm_db2.js:270-284 | the connection string is `DATABASE=…;HOSTNAME=…;PORT=…;PROTOCOL=TCPIP;UID=…;PWD=…;`, followed by `Security=SSL` exactly when SSL is on |
| `ConnectionConfig.ConnectionStringRoundTrip` | src/db/clients/ibm_db2.js:270-284 | when no value contains `;`, the string reads back as the six settings in order, then `Security=SSL` if and only if SSL is on |
| `ConnectionConfig.SplitAssignmentRoundTrip` | src/db/clients/ibm_db2.js:271 | `KEY=value` splits back into its key and value when the key has no `=` |
| `Db2Catalog.FilterClause` | src/db/clients/ibm_db2.js:65 | the `AND <filter>` clause is present if and only if the schema filter is non-empty |
| `Db2Catalog.ListTables` | src/db/clients/ibm_db2.js:56-80 | a driver error is returned; otherwise one record per row, in row order, with `schema` from `CREATOR` and `name` from `NAME` |
| `Db2Catalog.ListViews` | src/db/clients/ibm_db2.js:82-106 | the same mapping, for the view listing |
| `Db2Catalog.ListTablesScenario` | src/db/clients/ibm_db2.js:59-77 | tables `T1`, `T2` of schema `S` come back as `{S, T1}`, `{S, T2}` in that order |
| `Db2Catalog.ListTableColumns` | src/db/clients/ibm_db2.js:112-134 | a driver error is returned; otherwise one record per row, in order, with the column name from `COLUMN_NAME` and the type from `TYPE` |
| `Db2Catalog.ListSchemas` | src/db/clients/ibm_db2.js:143-155 | a driver error is returned; otherwise each row's `NAME`, in order |
| `Db2Catalog.GetTableKeys` | src/db/clients/ibm_db2.js:161-186 | a driver error is returned; otherwise one key per row, in order, each a `PRIMARY KEY` with null constraint name and null referenced table |
| `Db2Catalog.ListDatabases` | src/db/clients/ibm_db2.js:212-214 | exactly the connection's own database |
| `Db2Catalog.ListRoutines` | src/db/clients/ibm_db2.js:108-110 | always empty |
| `Db2Catalog.ListTableTriggers` | src/db/clients/ibm_db2.js:136-138 | always empty |
| `Db2Catalog.ListTableIndexes` | src/db/clients/ibm_db2.js:139-141 | always empty |
| `Db2Catalog.GetTableReferences` | src/db/clients/ibm_db2.js:157-159 | always empty |
| `Db2Catalog.GetTableCreateScript` | src/db/clients/ibm_db2.js:221-223 | always an empty list |
| `Db2Catalog.GetViewCreateScript` | src/db/clients/ibm_db2.js:225-227 | always an empty list |
| `Db2Catalog.GetRoutineCreateScript` | src/db/clients/ibm_db2.js:229-231 | always an empty list |
| `Db2Catalog.Query` | src/db/clients/ibm_db2.js:188-190 | every call fails |
| `Db2Catalog.GetQuerySelectTop` | src/db/clients/ibm_db2.js:217-219 | the preview statement is `SELECT * FROM`, the quoted table and ` LIMIT `, followed by a non-empty run of digits |
| `Db2Catalog.SelectTopReadsBack` | src/db/clients/ibm_db2.js:217-219 | the preview statement is exactly `SELECT * FROM <quoted table> LIMIT <last word>`, and its last word is the limit's decimal rendering and denotes the limit |
| `Db2Catalog.TruncateStatement` | src/db/clients/ibm_db2.js:252-254 | the statement contains `TRUNCATE TABLE <quoted db>.<quoted table>;` |
| `Db2Catalog.TruncateStatements` | src/db/clients/ibm_db2.js:251-256 | one statement per table, in table order, each truncating that table of the quoted database |
| `ClientRegistry.TokenRoundTrip` | src/db/clients/index.js:17-76 | feature tokens and features correspond one to one |
| `ClientRegistry.Find` | src/db/clients/index.js:12-78 | finds a registry entry with the key, or reports that no entry has it |
| `ClientRegistry.Lookup` | src/db/clients/index.js:12-88 | an entry found for a key is a registry entry with that key, and a key is found exactly when the default export has an adapter for it |
| `ClientRegistry.FindEntry` | src/db/clients/index.js:12-78 | with distinct keys, looking up an entry's key gives that entry |
| `ClientRegistry.RegistryShape` | src/db/clients/index.js:12-78 | six clients: mysql, postgresql, sqlserver, sqlite, cassandra, ibm_db2, in that order, with pairwise distinct keys |
| `ClientRegistry.LookupIsRegistry` | src/db/clients/index.js:12-78 | a key is found exactly when it is a registry key, and every entry is found under its own key |
| `ClientRegistry.RegistryMatchesAdapters` | src/db/clients/index.js:81-88 | the registry keys are exactly the keys of the adapter map |
| `ClientRegistry.IbmDb2Descriptor` | src/db/clients/index.js:69-77 | ibm_db2 is "IBM DB2", port 50000, no default database, and disables exactly `server:domain` and `cancelQuery` |
| `ClientRegistry.SqlServerDescriptor` | src/db/clients/index.js:31-35 | sqlserver has default port 1433 and disables nothing |
| `ClientRegistry.SqliteDescriptor` | src/db/clients/index.js:36-53 | sqlite has no default port and default database `:memory:`; it disables ssl, host, port, `scriptCreateTable` and `cancelQuery`, among others |
| `ClientRegistry.PostgreSqlDescriptor` | src/db/clients/index.js:22-30 | postgresql has default port 5432 and default database `postgres`, and disables only `server:domain` |
| `ClientRegistry.CancelQueryDisabledFor` | src/db/clients/index.js:36-77 | `cancelQuery` is disabled for exactly sqlite, cassandra and ibm_db2 |

## Left out

- The native `ibm_db` driver. `open`, `query` and `closeSync` (and so `disconnect`) are I/O. Each query is an abstract driver function from a request to rows or an error.
- The adapter factory and the object it resolves (ibm_db2.js:9-48): Promise and callback plumbing, and the logger. With it goes the default of `listTableColumns`'s schema to the connection's schema (line 31). The operations are modelled one by one instead.
- `sql-query-identifier`: its classification rules are foreign code. It is a parameter that may fail.
- `buildSchemaFilter` from `./utils` is not part of this model. Its output is a string parameter; only the presence of the `AND` clause is stated.
- The client modules imported by index.js:1-6 are not part of this model. They are represented by the names of the adapter map.
- `truncateAllTables`: only the statement text and one statement per table are modelled. Not modelled: the table listing query, the concurrent fan-out with `Promise.all`, and which row field becomes the table name (line 250 reads a field the query does not select).
- The SQL of the catalog requests has its template whitespace collapsed to single spaces. The truncate statement keeps its exact whitespace.
- `executeQuery`: after a driver error the source does not return (line 199). Its promise is already rejected, so the model returns that error and says nothing about what runs after it.
- `listSchemas` rejects with the raw driver error; the other operations wrap it in `Error`. Both are the same error text here.
- `query` throws synchronously rather than rejecting. It is modelled as a failed result.
- Row values are null, text, integers and booleans. Dates, buffers and fractional numbers are not modelled.
- A row is an ordered list of pairs. JavaScript puts integer-like keys first in `Object.keys`, and a repeated column name keeps only its last value; neither is modelled.
- Ports and limits are non-negative integers, rendered in decimal. A string, negative or fractional value is not modelled. Nor is a missing database name, host, user or password, which JavaScript renders as `undefined` in the connection string.
- Strings.Decimal: every natural number is written out in full digits. JavaScript writes numbers from 1e21 up in exponent form (`1e+21`) and cannot hold integers above 2^53 exactly; neither is modelled.
- The `sqlserver` entry has no `disabledFeatures` property. It is modelled as the empty list.
- Db2Catalog.ListTables: ordering by schema and name is done by the database (the request's `ORDER BY`). The model proves only that the driver's row order is kept.
