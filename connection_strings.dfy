/**
  The JDBC connection string `RDBAccess.getInputStream` hands to the driver
  manager: the base URL, then credentials, then the MySQL parameters, then the
  SQL Server delimiter rewrite.
 */
module ConnectionStrings {
  import opened Wrappers
  import opened JavaStrings

  /** The vendor profiles the connection code tells apart; every other profile is `OTHER`. */
  datatype Vendor = ORACLE | MYSQL | SQL_SERVER | OTHER

  /**
    A `DatabaseType` constant: its vendor, its enum name, its driver class
    and its JDBC URL prefix, all external configuration.
   */
  datatype DatabaseType = DatabaseType(vendor: Vendor, name: string, driver: string, jdbcPrefix: string)

  const MYSQL_PARAMETERS := "serverTimezone=UTC&useSSL=false"

  /** `"jdbc:" + databaseType.getJDBCPrefix() + "//" + dsn` */
  function BaseDSN(t: DatabaseType, dsn: string): string
  {
    "jdbc:" + t.jdbcPrefix + "//" + dsn
  }

  /** Username and password are both non-null and non-empty. */
  predicate HasCredentials(username: Option<string>, password: Option<string>)
  {
    username.Some? && username.value != "" && password.Some? && password.value != ""
  }

  /** Credentials are appended as query parameters (every vendor but Oracle, when `user=` is absent). */
  predicate AppendsCredentials(t: DatabaseType, dsn: string, username: Option<string>, password: Option<string>)
  {
    HasCredentials(username, password) && t.vendor != ORACLE && !Contains(BaseDSN(t, dsn), "user=")
  }

  /** The string after the credential step, for every vendor but Oracle. */
  function WithCredentialParameters(t: DatabaseType, dsn: string, username: Option<string>, password: Option<string>): string
  {
    if AppendsCredentials(t, dsn, username, password)
    then BaseDSN(t, dsn) + "?user=" + username.value + "&password=" + password.value
    else BaseDSN(t, dsn)
  }

  /** `replaceAll("\\?|&", ";")`: every `?` and every `&` becomes `;`. */
  function SemicolonDelimited(s: string): (r: string)
    ensures |r| == |s|
    ensures forall i :: 0 <= i < |s| ==> r[i] == (if s[i] == '?' || s[i] == '&' then ';' else s[i])
  {
    seq(|s|, i requires 0 <= i < |s| => if s[i] == '?' || s[i] == '&' then ';' else s[i])
  }

  /** Oracle: credentials are spliced in at every `:@` marker. */
  function OracleConnectionString(t: DatabaseType, dsn: string, username: Option<string>, password: Option<string>): string
  {
    if HasCredentials(username, password)
    then Replace(BaseDSN(t, dsn), ":@", ":" + username.value + "/" + password.value + "@")
    else BaseDSN(t, dsn)
  }

  /** MySQL: the timezone and SSL parameters follow the credentials, or start the query string. */
  function MySqlConnectionString(t: DatabaseType, dsn: string, username: Option<string>, password: Option<string>): string
  {
    WithCredentialParameters(t, dsn, username, password)
    + (if AppendsCredentials(t, dsn, username, password) then "&" else "?")
    + MYSQL_PARAMETERS
  }

  /** SQL Server: parameters are delimited by `;`, and the string ends with one. */
  function SqlServerConnectionString(t: DatabaseType, dsn: string, username: Option<string>, password: Option<string>): string
  {
    var s := SemicolonDelimited(WithCredentialParameters(t, dsn, username, password));
    if EndsWith(s, ';') then s else s + ";"
  }

  /** The finished connection string, vendor by vendor. */
  function ConnectionString(t: DatabaseType, dsn: string, username: Option<string>, password: Option<string>): (r: string)
    ensures t.vendor == MYSQL ==>
      |r| > |MYSQL_PARAMETERS| && r[|r| - |MYSQL_PARAMETERS|..] == MYSQL_PARAMETERS
    ensures t.vendor == SQL_SERVER ==> EndsWith(r, ';')
  {
    match t.vendor
    case ORACLE => OracleConnectionString(t, dsn, username, password)
    case MYSQL => MySqlConnectionString(t, dsn, username, password)
    case SQL_SERVER => SqlServerConnectionString(t, dsn, username, password)
    case OTHER => WithCredentialParameters(t, dsn, username, password)
  }

  /**
    Builds the connection string as `getInputStream` does, rewriting one local
    string and a flag that records whether query parameters were started.
   */
  method BuildConnectionString(t: DatabaseType, dsn: string, username: Option<string>, password: Option<string>)
    returns (connectionString: string)
    ensures connectionString == ConnectionString(t, dsn, username, password)
  {
    var jdbcDSN := "jdbc:" + t.jdbcPrefix + "//" + dsn;
    connectionString := jdbcDSN;
    var alreadySomeQueryParametersPresent := false;

    if username.Some? && username.value != "" && password.Some? && password.value != "" {
      if t.vendor == ORACLE {
        connectionString := Replace(connectionString, ":@", ":" + username.value + "/" + password.value + "@");
      } else if !Contains(connectionString, "user=") {
        connectionString := connectionString + "?user=" + username.value + "&password=" + password.value;
        alreadySomeQueryParametersPresent := true;
      }
    }

    if t.vendor == MYSQL {
      if alreadySomeQueryParametersPresent {
        connectionString := connectionString + "&";
      } else {
        connectionString := connectionString + "?";
      }
      connectionString := connectionString + MYSQL_PARAMETERS;
    }

    if t.vendor == SQL_SERVER {
      connectionString := SemicolonDelimited(connectionString);
      if !EndsWith(connectionString, ';') {
        connectionString := connectionString + ";";
      }
    }
  }

  /** Without a non-empty username and password, the credentials play no part. */
  lemma CredentialsNeedBoth(t: DatabaseType, dsn: string, username: Option<string>, password: Option<string>)
    requires !HasCredentials(username, password)
    ensures ConnectionString(t, dsn, username, password) == ConnectionString(t, dsn, None, None)
  {
  }

  /** For MySQL and the generic profiles the base URL is kept as the start of the string. */
  lemma BaseIsPrefix(t: DatabaseType, dsn: string, username: Option<string>, password: Option<string>)
    requires t.vendor == MYSQL || t.vendor == OTHER
    ensures BaseDSN(t, dsn) <= ConnectionString(t, dsn, username, password)
  {
  }

  /** For Oracle, a base URL without a `:@` marker is used as it is. */
  lemma OracleWithoutMarker(t: DatabaseType, dsn: string, username: Option<string>, password: Option<string>)
    requires t.vendor == ORACLE && !Contains(BaseDSN(t, dsn), ":@")
    ensures ConnectionString(t, dsn, username, password) == BaseDSN(t, dsn)
  {
    if HasCredentials(username, password) {
      ReplaceAbsent(BaseDSN(t, dsn), ":@", ":" + username.value + "/" + password.value + "@");
    }
  }

  /**
    For MySQL the string ends with the timezone and SSL parameters, joined by
    `&` exactly when credentials were appended, and by `?` otherwise.
   */
  lemma MySqlParameters(t: DatabaseType, dsn: string, username: Option<string>, password: Option<string>)
    requires t.vendor == MYSQL
    ensures var cs := ConnectionString(t, dsn, username, password);
      var k := |cs| - |MYSQL_PARAMETERS|;
      k >= 1 && cs[k..] == MYSQL_PARAMETERS
      && cs[k - 1] == (if AppendsCredentials(t, dsn, username, password) then '&' else '?')
  {
  }

  /**
    A SQL Server string has no `?` and no `&`, ends with `;`, and gains a `;`
    only when the rewritten string did not already end with one.
   */
  lemma SqlServerDelimiters(t: DatabaseType, dsn: string, username: Option<string>, password: Option<string>)
    requires t.vendor == SQL_SERVER
    ensures var cs := ConnectionString(t, dsn, username, password);
      '?' !in cs && '&' !in cs && EndsWith(cs, ';')
    ensures var s := SemicolonDelimited(WithCredentialParameters(t, dsn, username, password));
      ConnectionString(t, dsn, username, password) == if EndsWith(s, ';') then s else s + ";"
  {
    var s := SemicolonDelimited(WithCredentialParameters(t, dsn, username, password));
    assert forall i :: 0 <= i < |s| ==> s[i] != '?' && s[i] != '&';
    assert '?' !in s + ";" && '&' !in s + ";" by {
      assert forall i :: 0 <= i < |s + ";"| ==> (s + ";")[i] != '?' && (s + ";")[i] != '&';
    }
  }

  /** MySQL with credentials to append: `?user=…&password=…`, then `&` and the fixed parameters. */
  lemma MySqlWithCredentials(t: DatabaseType, dsn: string, username: Option<string>, password: Option<string>)
    requires t.vendor == MYSQL && AppendsCredentials(t, dsn, username, password)
    ensures ConnectionString(t, dsn, username, password)
         == BaseDSN(t, dsn) + "?user=" + username.value + "&password=" + password.value + "&" + MYSQL_PARAMETERS
  {
  }

  /** The credential step of the MySQL example: `host/db` carries no `user=` of its own. */
  lemma MySqlExampleCredentials(t: DatabaseType, dsn: string, username: string, password: string)
    requires t.jdbcPrefix == "mysql:" && t.vendor != ORACLE
    requires dsn == "host/db" && username == "u" && password == "p"
    ensures AppendsCredentials(t, dsn, Some(username), Some(password))
  {
    var base := BaseDSN(t, dsn);
    assert forall i :: 0 <= i < |base| ==> base[i] != 'u';
    MissingCharNotContained(base, "user=", 0);
  }

  /** MySQL with user `u` and password `p` on `host/db`. */
  lemma MySqlExample(t: DatabaseType, dsn: string, username: string, password: string)
    requires t.vendor == MYSQL && t.jdbcPrefix == "mysql:"
    requires dsn == "host/db" && username == "u" && password == "p"
    ensures ConnectionString(t, dsn, Some(username), Some(password))
         == "jdbc:" + "mysql:" + "//" + "host/db" + "?user=" + "u" + "&password=" + "p" + "&" + "serverTimezone=UTC&useSSL=false"
  {
    MySqlExampleCredentials(t, dsn, username, password);
    MySqlWithCredentials(t, dsn, Some(username), Some(password));
  }

  /** The replacement step of the Oracle example: only the one `:@` marker is rewritten. */
  lemma OracleExampleReplace(head: string, rest: string)
    requires head == "jdbc:oracle:thin" && rest == "//host:1521/xe"
    ensures Replace(head + ":@" + rest, ":@", ":u/p@") == head + ":u/p@" + rest
  {
    var s := head + ":@" + rest;
    MissingCharNotContained(rest, ":@", 1);
    ReplaceAbsent(rest, ":@", ":u/p@");
    forall i | 0 <= i < |head| ensures !OccursAt(s, ":@", i) {
      assert s[i..i + 2][1] == s[i + 1] != '@';
    }
    ReplaceAfter(head, rest, ":@", ":u/p@");
  }

  /** Oracle with user `u` and password `p`: the credentials go in at the `:@` marker. */
  lemma OracleExample(t: DatabaseType, dsn: string, username: string, password: string)
    requires t.vendor == ORACLE && t.jdbcPrefix == "oracle:thin:@"
    requires dsn == "host:1521/xe" && username == "u" && password == "p"
    ensures ConnectionString(t, dsn, Some(username), Some(password)) == "jdbc:oracle:thin" + ":u/p@" + "//host:1521/xe"
  {
    var head, rest := "jdbc:oracle:thin", "//host:1521/xe";
    assert BaseDSN(t, dsn) == head + ":@" + rest;
    assert ":" + username + "/" + password + "@" == ":u/p@";
    OracleExampleReplace(head, rest);
  }
}
