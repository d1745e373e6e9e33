/**
 * The registry of supported database clients (`CLIENTS`) and the map from
 * client key to adapter module (the default export).
 */
module ClientRegistry {
  import opened Wrappers

  /** The capability tokens the registry marks as disabled. */
  datatype Feature =
    | ServerSsl | ServerHost | ServerPort | ServerSocketPath | ServerUser
    | ServerPassword | ServerSchema | ServerDomain | ServerSsh
    | ScriptCreateTable | CancelQuery

  function Token(f: Feature): string {
    match f
    case ServerSsl => "server:ssl"
    case ServerHost => "server:host"
    case ServerPort => "server:port"
    case ServerSocketPath => "server:socketPath"
    case ServerUser => "server:user"
    case ServerPassword => "server:password"
    case ServerSchema => "server:schema"
    case ServerDomain => "server:domain"
    case ServerSsh => "server:ssh"
    case ScriptCreateTable => "scriptCreateTable"
    case CancelQuery => "cancelQuery"
  }

  function ParseFeature(token: string): Option<Feature> {
    if token == "server:ssl" then Some(ServerSsl)
    else if token == "server:host" then Some(ServerHost)
    else if token == "server:port" then Some(ServerPort)
    else if token == "server:socketPath" then Some(ServerSocketPath)
    else if token == "server:user" then Some(ServerUser)
    else if token == "server:password" then Some(ServerPassword)
    else if token == "server:schema" then Some(ServerSchema)
    else if token == "server:domain" then Some(ServerDomain)
    else if token == "server:ssh" then Some(ServerSsh)
    else if token == "scriptCreateTable" then Some(ScriptCreateTable)
    else if token == "cancelQuery" then Some(CancelQuery)
    else None
  }

  /** Tokens and features correspond one to one. */
  lemma TokenRoundTrip(f: Feature, token: string)
    ensures ParseFeature(Token(f)) == Some(f)
    ensures ParseFeature(token) == Some(f) <==> Token(f) == token
  {}

  /** A client descriptor; a client without `disabledFeatures` has the empty list. */
  datatype ClientDescriptor = ClientDescriptor(
    key: string,
    name: string,
    defaultPort: Option<nat>,
    defaultDatabase: Option<string>,
    disabledFeatures: seq<Feature>)

  const CLIENTS: seq<ClientDescriptor> := [
    ClientDescriptor("mysql", "MySQL", Some(3306), None, [ServerSchema, ServerDomain]),
    ClientDescriptor("postgresql", "PostgreSQL", Some(5432), Some("postgres"), [ServerDomain]),
    ClientDescriptor("sqlserver", "Microsoft SQL Server", Some(1433), None, []),
    ClientDescriptor("sqlite", "SQLite", None, Some(":memory:"), [
      ServerSsl, ServerHost, ServerPort, ServerSocketPath, ServerUser, ServerPassword,
      ServerSchema, ServerDomain, ServerSsh, ScriptCreateTable, CancelQuery]),
    ClientDescriptor("cassandra", "Cassandra", Some(9042), None, [
      ServerSsl, ServerSocketPath, ServerUser, ServerPassword, ServerSchema, ServerDomain,
      ScriptCreateTable, CancelQuery]),
    ClientDescriptor("ibm_db2", "IBM DB2", Some(50000), None, [ServerDomain, CancelQuery])
  ]

  /** The adapter modules of the default export, named after the client they implement. */
  datatype Adapter = MySqlAdapter | PostgreSqlAdapter | SqlServerAdapter | SqliteAdapter | CassandraAdapter | IbmDb2Adapter

  const ADAPTERS: map<string, Adapter> := map[
    "mysql" := MySqlAdapter,
    "postgresql" := PostgreSqlAdapter,
    "sqlserver" := SqlServerAdapter,
    "sqlite" := SqliteAdapter,
    "cassandra" := CassandraAdapter,
    "ibm_db2" := IbmDb2Adapter
  ]

  function KeysOf(clients: seq<ClientDescriptor>): seq<string> {
    seq(|clients|, i requires 0 <= i < |clients| => clients[i].key)
  }

  predicate DistinctKeys(clients: seq<ClientDescriptor>) {
    forall i, j :: 0 <= i < j < |clients| ==> clients[i].key != clients[j].key
  }

  predicate Disables(c: ClientDescriptor, f: Feature) {
    f in c.disabledFeatures
  }

  function DisabledSet(c: ClientDescriptor): set<Feature> {
    set f | f in c.disabledFeatures
  }

  /** The first descriptor with the given key, if any. */
  function Find(clients: seq<ClientDescriptor>, key: string): (r: Option<ClientDescriptor>)
    ensures r.Some? ==> r.value in clients && r.value.key == key
    ensures r.None? ==> forall i :: 0 <= i < |clients| ==> clients[i].key != key
  {
    if clients == [] then None
    else if clients[0].key == key then Some(clients[0])
    else Find(clients[1..], key)
  }

  /** The registry entry for a client key; found exactly for the keys the default export maps to an adapter. */
  function Lookup(key: string): (r: Option<ClientDescriptor>)
    ensures r.Some? ==> r.value in CLIENTS && r.value.key == key
    ensures r.Some? <==> key in ADAPTERS
  {
    RegistryShape();
    var r := Find(CLIENTS, key);
    assert r.None? ==> key !in KeysOf(CLIENTS);
    r
  }

  /** With distinct keys, looking up an entry's key finds that very entry. */
  lemma {:induction false} FindEntry(clients: seq<ClientDescriptor>, i: nat)
    requires DistinctKeys(clients) && i < |clients|
    ensures Find(clients, clients[i].key) == Some(clients[i])
  {
    if i > 0 {
      assert clients[0].key != clients[i].key;
      assert DistinctKeys(clients[1..]) by {
        forall a, b | 0 <= a < b < |clients[1..]| ensures clients[1..][a].key != clients[1..][b].key {
          assert clients[1..][a] == clients[a + 1] && clients[1..][b] == clients[b + 1];
        }
      }
      FindEntry(clients[1..], i - 1);
      assert clients[1..][i - 1] == clients[i];
    }
  }

  /** Six clients, in the registry's order, with pairwise distinct keys. */
  lemma RegistryShape()
    ensures KeysOf(CLIENTS) == ["mysql", "postgresql", "sqlserver", "sqlite", "cassandra", "ibm_db2"]
    ensures DistinctKeys(CLIENTS)
  {
    var keys := KeysOf(CLIENTS);
    assert keys == ["mysql", "postgresql", "sqlserver", "sqlite", "cassandra", "ibm_db2"];
  }

  /** Lookup by key is a function on the registry: every entry is found under its own key, and nothing else is found. */
  lemma LookupIsRegistry(key: string)
    ensures Lookup(key).Some? <==> key in KeysOf(CLIENTS)
    ensures forall i :: 0 <= i < |CLIENTS| ==> Lookup(CLIENTS[i].key) == Some(CLIENTS[i])
  {
    RegistryShape();
    forall i | 0 <= i < |CLIENTS| ensures Lookup(CLIENTS[i].key) == Some(CLIENTS[i]) {
      FindEntry(CLIENTS, i);
    }
    if key in KeysOf(CLIENTS) {
      var i :| 0 <= i < |CLIENTS| && KeysOf(CLIENTS)[i] == key;
      FindEntry(CLIENTS, i);
    }
  }

  /** The registry and the adapter map name the same clients. */
  lemma RegistryMatchesAdapters()
    ensures (set k | k in KeysOf(CLIENTS)) == ADAPTERS.Keys
  {
    RegistryShape();
  }

  lemma IbmDb2Descriptor()
    ensures Lookup("ibm_db2") == Some(ClientDescriptor("ibm_db2", "IBM DB2", Some(50000), None, [ServerDomain, CancelQuery]))
    ensures DisabledSet(Lookup("ibm_db2").value) == {ServerDomain, CancelQuery}
  {
    FindEntry(CLIENTS, 5) by { RegistryShape(); }
  }

  lemma SqlServerDescriptor()
    ensures Lookup("sqlserver").Some?
    ensures Lookup("sqlserver").value.defaultPort == Some(1433)
    ensures DisabledSet(Lookup("sqlserver").value) == {}
  {
    FindEntry(CLIENTS, 2) by { RegistryShape(); }
  }

  /** The sqlite entry's disabled features, read off its literal list. */
  lemma SqliteFeatures()
    ensures Disables(CLIENTS[3], ServerSsl) && Disables(CLIENTS[3], ServerHost)
    ensures Disables(CLIENTS[3], ServerPort) && Disables(CLIENTS[3], ScriptCreateTable)
    ensures Disables(CLIENTS[3], CancelQuery)
  {
    var features := CLIENTS[3].disabledFeatures;
    assert features[0] == ServerSsl && features[1] == ServerHost && features[2] == ServerPort;
    assert features[9] == ScriptCreateTable && features[10] == CancelQuery;
  }

  lemma SqliteDescriptor()
    ensures Lookup("sqlite") == Some(CLIENTS[3])
    ensures CLIENTS[3].defaultPort == None && CLIENTS[3].defaultDatabase == Some(":memory:")
    ensures Disables(CLIENTS[3], ServerSsl) && Disables(CLIENTS[3], ServerHost)
    ensures Disables(CLIENTS[3], ServerPort) && Disables(CLIENTS[3], ScriptCreateTable)
    ensures Disables(CLIENTS[3], CancelQuery)
  {
    FindEntry(CLIENTS, 3) by { RegistryShape(); }
    SqliteFeatures();
  }


  lemma PostgreSqlDescriptor()
    ensures Lookup("postgresql").Some?
    ensures Lookup("postgresql").value.defaultPort == Some(5432)
    ensures Lookup("postgresql").value.defaultDatabase == Some("postgres")
    ensures DisabledSet(Lookup("postgresql").value) == {ServerDomain}
  {
    FindEntry(CLIENTS, 1) by { RegistryShape(); }
  }

  /** Query cancellation is disabled for exactly SQLite, Cassandra and IBM DB2. */
  lemma CancelQueryDisabledFor(i: nat)
    requires i < |CLIENTS|
    ensures Disables(CLIENTS[i], CancelQuery) <==> CLIENTS[i].key in {"sqlite", "cassandra", "ibm_db2"}
  {}
}
