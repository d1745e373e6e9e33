/**
 * `configDatabase`: the DB2 connection settings derived from the server and
 * database configuration, including the `;`-separated connection string the
 * driver's `open` receives.
 */
module ConnectionConfig {
  import opened Wrappers
  import opened Strings

  datatype ServerSettings = ServerSettings(
    host: string, port: nat, user: string, password: string,
    ssl: bool, localHost: string, localPort: nat)

  /** `sshTunnel` is true when the connection goes through a local tunnel endpoint. */
  datatype Server = Server(config: ServerSettings, sshTunnel: bool)

  datatype DatabaseSettings = DatabaseSettings(database: string, schema: Option<string>)

  /** The config object; `server` and `port` are only set (not `None`) behind a tunnel. */
  datatype DbConfig = DbConfig(
    database: string, dbhost: string, dbport: nat, user: string, password: string,
    schema: Option<string>, connString: string,
    server: Option<string>, port: Option<nat>)

  /** The connection-string settings, in the order the driver receives them. */
  function Settings(server: Server, database: DatabaseSettings): seq<(string, string)> {
    [ ("DATABASE", database.database),
      ("HOSTNAME", server.config.host),
      ("PORT", Decimal(server.config.port)),
      ("PROTOCOL", "TCPIP"),
      ("UID", server.config.user),
      ("PWD", server.config.password) ]
  }

  function Assignments(settings: seq<(string, string)>): seq<string> {
    seq(|settings|, i requires 0 <= i < |settings| => settings[i].0 + "=" + settings[i].1)
  }

  /** `KEY=value;` for each setting, then `Security=SSL` (unterminated) when SSL is requested. */
  function ConnectionString(server: Server, database: DatabaseSettings): (r: string)
    ensures r ==
      ""
      + "DATABASE=" + database.database + ";"
      + "HOSTNAME=" + server.config.host + ";"
      + "PORT=" + Decimal(server.config.port) + ";"
      + "PROTOCOL=TCPIP;"
      + "UID=" + server.config.user + ";"
      + "PWD=" + server.config.password + ";"
      + (if server.config.ssl then "Security=SSL" else "")
  {
    var c := server.config;
    var port := Decimal(c.port);
    var a := Assignments(Settings(server, database));
    assert a == ["DATABASE=" + database.database, "HOSTNAME=" + c.host, "PORT=" + port,
                 "PROTOCOL=TCPIP", "UID=" + c.user, "PWD=" + c.password] by {
      assert |a| == 6;
      assert a[0] == "DATABASE=" + database.database && a[1] == "HOSTNAME=" + c.host;
      assert a[2] == "PORT=" + port && a[3] == "PROTOCOL=TCPIP";
      assert a[4] == "UID=" + c.user && a[5] == "PWD=" + c.password;
    }
    TerminatedSettingsText(database.database, c.host, port, c.user, c.password);
    Terminated(a, ';') + (if c.ssl then "Security=SSL" else "")
  }

  /** `Terminated` written out for six pieces. */
  lemma TerminatedSix(a: string, b: string, c: string, d: string, e: string, f: string, sep: char)
    ensures Terminated([a, b, c, d, e, f], sep)
      == a + [sep] + b + [sep] + c + [sep] + d + [sep] + e + [sep] + f + [sep]
  {
    var p := [a, b, c, d, e, f];
    assert p[1..] == [b, c, d, e, f] && p[2..] == [c, d, e, f] && p[3..] == [d, e, f];
    assert p[4..] == [e, f] && p[5..] == [f] && p[6..] == [];
    var t5 := f + [sep];
    assert Terminated(p[5..], sep) == t5;
    var t4 := e + [sep] + t5;
    assert Terminated(p[4..], sep) == t4;
    var t3 := d + [sep] + t4;
    assert Terminated(p[3..], sep) == t3;
    var t2 := c + [sep] + t3;
    assert Terminated(p[2..], sep) == t2;
    var t1 := b + [sep] + t2;
    assert Terminated(p[1..], sep) == t1;
  }

  lemma TerminatedSettingsText(db: string, host: string, port: string, user: string, password: string)
    ensures Terminated(["DATABASE=" + db, "HOSTNAME=" + host, "PORT=" + port,
                        "PROTOCOL=TCPIP", "UID=" + user, "PWD=" + password], ';') ==
      "" + "DATABASE=" + db + ";" + "HOSTNAME=" + host + ";" + "PORT=" + port + ";"
      + "PROTOCOL=TCPIP;" + "UID=" + user + ";" + "PWD=" + password + ";"
  {
    TerminatedSix("DATABASE=" + db, "HOSTNAME=" + host, "PORT=" + port,
                  "PROTOCOL=TCPIP", "UID=" + user, "PWD=" + password, ';');
  }

  method ConfigDatabase(server: Server, database: DatabaseSettings) returns (config: DbConfig)
    ensures config.connString == ConnectionString(server, database)
    ensures config.database == database.database && config.schema == database.schema
    ensures config.dbhost == server.config.host && config.dbport == server.config.port
    ensures config.user == server.config.user && config.password == server.config.password
    ensures config.server == (if server.sshTunnel then Some(server.config.localHost) else None)
    ensures config.port == (if server.sshTunnel then Some(server.config.localPort) else None)
  {
    var c := server.config;
    var port := Decimal(c.port);
    config := DbConfig(
      database.database, c.host, c.port, c.user, c.password, database.schema,
      ""
        + "DATABASE=" + database.database + ";"
        + "HOSTNAME=" + c.host + ";"
        + "PORT=" + port + ";"
        + "PROTOCOL=TCPIP;"
        + "UID=" + c.user + ";"
        + "PWD=" + c.password + ";",
      None, None);
    ghost var unsecured := config.connString;
    assert ConnectionString(server, database) == unsecured + (if c.ssl then "Security=SSL" else "");

    if c.ssl {
      config := config.(connString := config.connString + "Security=SSL");
    } else {
      assert unsecured + "" == unsecured;
    }

    if server.sshTunnel {
      config := config.(server := Some(c.localHost), port := Some(c.localPort));
    }
  }

  // ---------------------------------------------------------------------------
  // Reading a connection string back.

  /** Splits `KEY=value` at the first `=`; a piece without `=` is all key. */
  function SplitAssignment(s: string): (string, string) {
    if s == [] then ("", "")
    else if s[0] == '=' then ("", s[1..])
    else var (k, v) := SplitAssignment(s[1..]); ([s[0]] + k, v)
  }

  /** The settings of a connection string and the text after its last `;`. */
  function ParseConnectionString(s: string): (seq<(string, string)>, string) {
    var pieces := Split(s, ';');
    (seq(|pieces| - 1, i requires 0 <= i < |pieces| - 1 => SplitAssignment(pieces[i])), pieces[|pieces| - 1])
  }

  lemma {:induction false} SplitAssignmentRoundTrip(k: string, v: string)
    requires Free(k, '=')
    ensures SplitAssignment(k + "=" + v) == (k, v)
  {
    if k == [] {
      assert k + "=" + v == "=" + v;
    } else {
      assert (k + "=" + v)[1..] == k[1..] + "=" + v;
      SplitAssignmentRoundTrip(k[1..], v);
      assert [k[0]] + k[1..] == k;
    }
  }

  lemma {:induction false} DecimalHasNoSeparator(n: nat)
    ensures Free(Decimal(n), ';')
  {
    var d := Decimal(n);
    forall i | 0 <= i < |d| ensures d[i] != ';' {
      assert IsDigit(d[i]);
    }
  }

  /** When no configured value contains `;`, the connection string reads back as exactly its
      settings in order, followed by `Security=SSL` if and only if SSL was requested. */
  lemma ConnectionStringRoundTrip(server: Server, database: DatabaseSettings)
    requires Free(database.database, ';') && Free(server.config.host, ';')
    requires Free(server.config.user, ';') && Free(server.config.password, ';')
    ensures ParseConnectionString(ConnectionString(server, database))
      == (Settings(server, database), if server.config.ssl then "Security=SSL" else "")
  {
    var settings := Settings(server, database);
    var assignments := Assignments(settings);
    var tail := if server.config.ssl then "Security=SSL" else "";
    DecimalHasNoSeparator(server.config.port);
    forall i | 0 <= i < |assignments| ensures Free(assignments[i], ';') {
      assert assignments[i] == settings[i].0 + "=" + settings[i].1;
    }
    SplitTerminated(assignments, tail, ';');
    var pieces := Split(ConnectionString(server, database), ';');
    assert pieces == assignments + [tail];
    forall i | 0 <= i < |settings| ensures SplitAssignment(pieces[i]) == settings[i] {
      assert pieces[i] == settings[i].0 + "=" + settings[i].1;
      SplitAssignmentRoundTrip(settings[i].0, settings[i].1);
    }
    var parsed := ParseConnectionString(ConnectionString(server, database));
    assert |parsed.0| == |settings|;
    assert parsed.0 == settings;
  }
}
