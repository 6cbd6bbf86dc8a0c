/**
 * PostgreSQL connection strings: the query parameters of the URL are folded
 * into a set of defaulted settings, and the accessors read the URL and those
 * settings with fixed fallbacks.
 */
module PostgresConfig {
  import opened Wrappers
  import V = Values

  const DefaultSchema: string := "public"
  const DefaultStatementCacheSize: nat := 500
  const DefaultPort: nat := 5432
  const DefaultHost: string := "localhost"
  const DefaultDatabase: string := "postgres"

  type U16 = x: nat | x < 0x1_0000

  datatype SslMode = Disable | Prefer | Require

  datatype SslAcceptMode = Strict | AcceptInvalidCerts

  datatype SslParams = SslParams(
    certificateFile: Option<string>,
    identityFile: Option<string>,
    identityPassword: Option<string>,
    sslAcceptMode: SslAcceptMode)

  /** `PostgresUrlQueryParams`; timeouts are whole seconds. */
  datatype QueryParams = QueryParams(
    sslParams: SslParams,
    connectionLimit: Option<nat>,
    schema: string,
    sslMode: SslMode,
    pgBouncer: bool,
    host: Option<string>,
    socketTimeout: Option<nat>,
    connectTimeout: Option<nat>,
    statementCacheSize: nat)

  /** `ErrorKind::InvalidConnectionArguments`. */
  datatype ConfigError = InvalidConnectionArguments

  /** The settings before any query parameter is read. */
  function Defaults(): QueryParams {
    QueryParams(
      SslParams(None, None, None, AcceptInvalidCerts),
      None, DefaultSchema, Prefer, false, None, None, None, DefaultStatementCacheSize)
  }

  /** The keys `parse_query_params` reads; every other key is discarded. */
  const KnownKeys: set<string> := {
    "pgbouncer", "sslmode", "sslcert", "sslidentity", "sslpassword", "statement_cache_size",
    "sslaccept", "schema", "connection_limit", "host", "socket_timeout", "connect_timeout"}

  /** The keys whose value must parse as an unsigned integer. */
  const NumericKeys: set<string> := {"statement_cache_size", "connection_limit", "socket_timeout", "connect_timeout"}

  /** A value `parse_query_params` rejects: a flag other than `true` / `false`, or a malformed number. */
  predicate Malformed(key: string, value: string) {
    || (key == "pgbouncer" && V.ParseBool(value).None?)
    || (key in NumericKeys && V.ParseU64(value).None?)
  }

  /**
   * The settings after reading one `key=value` pair: it fails exactly on a
   * malformed value, and an unknown key changes nothing.
   */
  function Step(p: QueryParams, key: string, value: string): (r: Result<QueryParams, ConfigError>)
    ensures r.Failure? <==> Malformed(key, value)
    ensures key !in KnownKeys ==> r == Success(p)
  {
    match key
    case "pgbouncer" =>
      (match V.ParseBool(value)
       case Some(b) => Success(p.(pgBouncer := b))
       case None => Failure(InvalidConnectionArguments))
    case "sslmode" =>
      (match value
       case "disable" => Success(p.(sslMode := Disable))
       case "prefer" => Success(p.(sslMode := Prefer))
       case "require" => Success(p.(sslMode := Require))
       case _ => Success(p))
    case "sslcert" => Success(p.(sslParams := p.sslParams.(certificateFile := Some(value))))
    case "sslidentity" => Success(p.(sslParams := p.sslParams.(identityFile := Some(value))))
    case "sslpassword" => Success(p.(sslParams := p.sslParams.(identityPassword := Some(value))))
    case "statement_cache_size" =>
      (match V.ParseU64(value)
       case Some(n) => Success(p.(statementCacheSize := n))
       case None => Failure(InvalidConnectionArguments))
    case "sslaccept" =>
      (match value
       case "strict" => Success(p.(sslParams := p.sslParams.(sslAcceptMode := Strict)))
       case "accept_invalid_certs" => Success(p.(sslParams := p.sslParams.(sslAcceptMode := AcceptInvalidCerts)))
       case _ => Success(p.(sslParams := p.sslParams.(sslAcceptMode := Strict))))
    case "schema" => Success(p.(schema := value))
    case "connection_limit" =>
      (match V.ParseU64(value)
       case Some(n) => Success(p.(connectionLimit := Some(n)))
       case None => Failure(InvalidConnectionArguments))
    case "host" => Success(p.(host := Some(value)))
    case "socket_timeout" =>
      (match V.ParseU64(value)
       case Some(n) => Success(p.(socketTimeout := Some(n)))
       case None => Failure(InvalidConnectionArguments))
    case "connect_timeout" =>
      (match V.ParseU64(value)
       case Some(n) => Success(p.(connectTimeout := Some(n)))
       case None => Failure(InvalidConnectionArguments))
    case _ => Success(p)
  }

  /** The settings after reading `pairs` in order from `start`, stopping at the first bad value. */
  function Fold(start: QueryParams, pairs: seq<(string, string)>): Result<QueryParams, ConfigError> {
    if |pairs| == 0 then Success(start)
    else
      match Fold(start, pairs[..|pairs| - 1])
      case Failure(e) => Failure(e)
      case Success(p) => Step(p, pairs[|pairs| - 1].0, pairs[|pairs| - 1].1)
  }

  /** `parse_query_params`: a loop over the pairs updating one local per setting. */
  method ParseQueryParams(pairs: seq<(string, string)>) returns (r: Result<QueryParams, ConfigError>)
    ensures r == Fold(Defaults(), pairs)
  {
    var connectionLimit: Option<nat> := None;
    var schema := DefaultSchema;
    var certificateFile: Option<string> := None;
    var identityFile: Option<string> := None;
    var identityPassword: Option<string> := None;
    var sslAcceptMode := AcceptInvalidCerts;
    var sslMode := Prefer;
    var host: Option<string> := None;
    var socketTimeout: Option<nat> := None;
    var connectTimeout: Option<nat> := None;
    var pgBouncer := false;
    var statementCacheSize := DefaultStatementCacheSize;
    for i := 0 to |pairs|
      invariant Fold(Defaults(), pairs[..i]) == Success(QueryParams(
        SslParams(certificateFile, identityFile, identityPassword, sslAcceptMode),
        connectionLimit, schema, sslMode, pgBouncer, host, socketTimeout, connectTimeout, statementCacheSize))
    {
      assert pairs[..i + 1][..i] == pairs[..i];
      var (k, v) := pairs[i];
      match k {
        case "pgbouncer" =>
          var parsed := V.ParseBool(v);
          if parsed.None? {
            FoldFailureSticks(Defaults(), pairs, i + 1);
            return Failure(InvalidConnectionArguments);
          }
          pgBouncer := parsed.value;
        case "sslmode" =>
          match v {
            case "disable" => sslMode := Disable;
            case "prefer" => sslMode := Prefer;
            case "require" => sslMode := Require;
            case _ =>
          }
        case "sslcert" => certificateFile := Some(v);
        case "sslidentity" => identityFile := Some(v);
        case "sslpassword" => identityPassword := Some(v);
        case "statement_cache_size" =>
          var parsed := V.ParseU64(v);
          if parsed.None? {
            FoldFailureSticks(Defaults(), pairs, i + 1);
            return Failure(InvalidConnectionArguments);
          }
          statementCacheSize := parsed.value;
        case "sslaccept" =>
          match v {
            case "strict" => sslAcceptMode := Strict;
            case "accept_invalid_certs" => sslAcceptMode := AcceptInvalidCerts;
            case _ => sslAcceptMode := Strict;
          }
        case "schema" => schema := v;
        case "connection_limit" =>
          var parsed := V.ParseU64(v);
          if parsed.None? {
            FoldFailureSticks(Defaults(), pairs, i + 1);
            return Failure(InvalidConnectionArguments);
          }
          connectionLimit := Some(parsed.value);
        case "host" => host := Some(v);
        case "socket_timeout" =>
          var parsed := V.ParseU64(v);
          if parsed.None? {
            FoldFailureSticks(Defaults(), pairs, i + 1);
            return Failure(InvalidConnectionArguments);
          }
          socketTimeout := Some(parsed.value);
        case "connect_timeout" =>
          var parsed := V.ParseU64(v);
          if parsed.None? {
            FoldFailureSticks(Defaults(), pairs, i + 1);
            return Failure(InvalidConnectionArguments);
          }
          connectTimeout := Some(parsed.value);
        case _ =>
      }
    }
    assert pairs[..|pairs|] == pairs;
    return Success(QueryParams(
      SslParams(certificateFile, identityFile, identityPassword, sslAcceptMode),
      connectionLimit, schema, sslMode, pgBouncer, host, socketTimeout, connectTimeout, statementCacheSize));
  }

  /** Once a prefix of the pairs fails, the whole fold fails with the same error. */
  lemma {:induction false} FoldFailureSticks(start: QueryParams, pairs: seq<(string, string)>, k: nat)
    requires k <= |pairs|
    requires Fold(start, pairs[..k]).Failure?
    ensures Fold(start, pairs) == Fold(start, pairs[..k])
    decreases |pairs|
  {
    if k < |pairs| {
      var init := pairs[..|pairs| - 1];
      assert init[..k] == pairs[..k];
      FoldFailureSticks(start, init, k);
    } else {
      assert pairs[..k] == pairs;
    }
  }

  /** Reading fails exactly when some pair carries a malformed value. */
  lemma {:induction false} FoldFailsIffMalformed(start: QueryParams, pairs: seq<(string, string)>)
    ensures Fold(start, pairs).Failure? <==> exists i | 0 <= i < |pairs| :: Malformed(pairs[i].0, pairs[i].1)
  {
    if |pairs| > 0 {
      var init := pairs[..|pairs| - 1];
      FoldFailsIffMalformed(start, init);
      assert forall i | 0 <= i < |init| :: init[i] == pairs[i];
    }
  }

  /** The pairs whose key `parse_query_params` reads, in order. */
  function KnownPairs(pairs: seq<(string, string)>): (r: seq<(string, string)>)
    ensures |r| <= |pairs|
    ensures forall i | 0 <= i < |r| :: r[i].0 in KnownKeys && r[i] in pairs
  {
    if |pairs| == 0 then []
    else if pairs[|pairs| - 1].0 in KnownKeys then KnownPairs(pairs[..|pairs| - 1]) + [pairs[|pairs| - 1]]
    else KnownPairs(pairs[..|pairs| - 1])
  }

  /** Discarding the pairs with unknown keys does not change the outcome. */
  lemma {:induction false} UnknownKeysDiscarded(start: QueryParams, pairs: seq<(string, string)>)
    ensures Fold(start, KnownPairs(pairs)) == Fold(start, pairs)
  {
    if |pairs| > 0 {
      var init := pairs[..|pairs| - 1];
      var last := pairs[|pairs| - 1];
      UnknownKeysDiscarded(start, init);
      if last.0 in KnownKeys {
        var known := KnownPairs(init) + [last];
        assert known[..|known| - 1] == KnownPairs(init);
      }
    }
  }

  /** The value of the last pair with key `key`, if any. */
  function LastValue(pairs: seq<(string, string)>, key: string): Option<string> {
    if |pairs| == 0 then None
    else if pairs[|pairs| - 1].0 == key then Some(pairs[|pairs| - 1].1)
    else LastValue(pairs[..|pairs| - 1], key)
  }

  /** `LastValue` is the value of the last pair with the key, and `None` when no pair has it. */
  lemma {:induction false} LastValueIsLast(pairs: seq<(string, string)>, key: string)
    ensures LastValue(pairs, key).None? <==> forall i | 0 <= i < |pairs| :: pairs[i].0 != key
    ensures LastValue(pairs, key).Some? ==>
      exists i | 0 <= i < |pairs| :: pairs[i] == (key, LastValue(pairs, key).value) && forall j | i < j < |pairs| :: pairs[j].0 != key
  {
    if |pairs| > 0 && pairs[|pairs| - 1].0 != key {
      var init := pairs[..|pairs| - 1];
      LastValueIsLast(init, key);
      assert forall i | 0 <= i < |init| :: init[i] == pairs[i];
    }
  }

  /**
   * The free-text settings end with the last value given for their key,
   * and keep their starting value when the key is absent.
   */
  lemma {:induction false} LastTextWins(start: QueryParams, pairs: seq<(string, string)>)
    requires Fold(start, pairs).Success?
    ensures Fold(start, pairs).value.schema == LastValue(pairs, "schema").GetOr(start.schema)
    ensures Fold(start, pairs).value.host == (if LastValue(pairs, "host").Some? then LastValue(pairs, "host") else start.host)
    ensures Fold(start, pairs).value.sslParams.certificateFile ==
      (if LastValue(pairs, "sslcert").Some? then LastValue(pairs, "sslcert") else start.sslParams.certificateFile)
    ensures Fold(start, pairs).value.sslParams.identityFile ==
      (if LastValue(pairs, "sslidentity").Some? then LastValue(pairs, "sslidentity") else start.sslParams.identityFile)
    ensures Fold(start, pairs).value.sslParams.identityPassword ==
      (if LastValue(pairs, "sslpassword").Some? then LastValue(pairs, "sslpassword") else start.sslParams.identityPassword)
  {
    if |pairs| > 0 {
      var init := pairs[..|pairs| - 1];
      var (k, v) := pairs[|pairs| - 1];
      LastTextWins(start, init);
      var p := Fold(start, init).value;
      assert Fold(start, pairs) == Step(p, k, v);
      StepText(p, k, v);
    }
  }

  /** A number setting read from the last value given for it. */
  function NumberSetting(last: Option<string>): Option<nat> {
    if last.None? then None else V.ParseU64(last.value)
  }

  /**
   * The numeric settings end with the number the last value for their key
   * spells, and keep their starting value when the key is absent.
   */
  lemma {:induction false} LastNumberWins(start: QueryParams, pairs: seq<(string, string)>)
    requires Fold(start, pairs).Success?
    ensures Fold(start, pairs).value.statementCacheSize ==
      NumberSetting(LastValue(pairs, "statement_cache_size")).GetOr(start.statementCacheSize)
    ensures Fold(start, pairs).value.connectionLimit ==
      (if LastValue(pairs, "connection_limit").Some? then NumberSetting(LastValue(pairs, "connection_limit")) else start.connectionLimit)
    ensures Fold(start, pairs).value.socketTimeout ==
      (if LastValue(pairs, "socket_timeout").Some? then NumberSetting(LastValue(pairs, "socket_timeout")) else start.socketTimeout)
    ensures Fold(start, pairs).value.connectTimeout ==
      (if LastValue(pairs, "connect_timeout").Some? then NumberSetting(LastValue(pairs, "connect_timeout")) else start.connectTimeout)
  {
    if |pairs| > 0 {
      var init := pairs[..|pairs| - 1];
      var (k, v) := pairs[|pairs| - 1];
      LastNumberWins(start, init);
      var p := Fold(start, init).value;
      assert Fold(start, pairs) == Step(p, k, v);
      StepNumber(p, k, v);
    }
  }

  /** The SSL mode the last recognised `sslmode` value names, if any. */
  function LastSslMode(pairs: seq<(string, string)>): Option<SslMode> {
    if |pairs| == 0 then None
    else
      match pairs[|pairs| - 1]
      case ("sslmode", "disable") => Some(Disable)
      case ("sslmode", "prefer") => Some(Prefer)
      case ("sslmode", "require") => Some(Require)
      case _ => LastSslMode(pairs[..|pairs| - 1])
  }

  /**
   * The flags: `pgbouncer` ends with the last value given, the SSL mode with
   * the last value it recognises (an unknown mode is skipped), and the
   * accept mode with the last value given, any unknown one meaning strict.
   */
  lemma {:induction false} LastFlagWins(start: QueryParams, pairs: seq<(string, string)>)
    requires Fold(start, pairs).Success?
    ensures LastValue(pairs, "pgbouncer").Some? ==> V.ParseBool(LastValue(pairs, "pgbouncer").value) == Some(Fold(start, pairs).value.pgBouncer)
    ensures LastValue(pairs, "pgbouncer").None? ==> Fold(start, pairs).value.pgBouncer == start.pgBouncer
    ensures Fold(start, pairs).value.sslMode == LastSslMode(pairs).GetOr(start.sslMode)
    ensures Fold(start, pairs).value.sslParams.sslAcceptMode ==
      match LastValue(pairs, "sslaccept")
      case None => start.sslParams.sslAcceptMode
      case Some(v) => if v == "accept_invalid_certs" then AcceptInvalidCerts else Strict
  {
    if |pairs| > 0 {
      var init := pairs[..|pairs| - 1];
      var (k, v) := pairs[|pairs| - 1];
      LastFlagWins(start, init);
      var p := Fold(start, init).value;
      assert Fold(start, pairs) == Step(p, k, v);
      StepFlag(p, k, v);
    }
  }

  /** One pair sets at most the free-text setting its key names. */
  lemma StepText(p: QueryParams, k: string, v: string)
    requires Step(p, k, v).Success?
    ensures Step(p, k, v).value.schema == (if k == "schema" then v else p.schema)
    ensures Step(p, k, v).value.host == (if k == "host" then Some(v) else p.host)
    ensures Step(p, k, v).value.sslParams.certificateFile == (if k == "sslcert" then Some(v) else p.sslParams.certificateFile)
    ensures Step(p, k, v).value.sslParams.identityFile == (if k == "sslidentity" then Some(v) else p.sslParams.identityFile)
    ensures Step(p, k, v).value.sslParams.identityPassword == (if k == "sslpassword" then Some(v) else p.sslParams.identityPassword)
  {
    match k
    case "schema" =>
    case "host" =>
    case "sslcert" =>
    case "sslidentity" =>
    case "sslpassword" =>
    case _ =>
  }

  /** One pair sets at most the numeric setting its key names, to the number its value spells. */
  lemma StepNumber(p: QueryParams, k: string, v: string)
    requires Step(p, k, v).Success?
    ensures Step(p, k, v).value.statementCacheSize == (if k == "statement_cache_size" then V.ParseU64(v).value else p.statementCacheSize)
    ensures Step(p, k, v).value.connectionLimit == (if k == "connection_limit" then V.ParseU64(v) else p.connectionLimit)
    ensures Step(p, k, v).value.socketTimeout == (if k == "socket_timeout" then V.ParseU64(v) else p.socketTimeout)
    ensures Step(p, k, v).value.connectTimeout == (if k == "connect_timeout" then V.ParseU64(v) else p.connectTimeout)
  {
    match k
    case "statement_cache_size" =>
    case "connection_limit" =>
    case "socket_timeout" =>
    case "connect_timeout" =>
    case _ =>
  }

  /** One pair sets at most the flag its key names. */
  lemma StepFlag(p: QueryParams, k: string, v: string)
    requires Step(p, k, v).Success?
    ensures Step(p, k, v).value.pgBouncer == (if k == "pgbouncer" then V.ParseBool(v).value else p.pgBouncer)
    ensures Step(p, k, v).value.sslMode == LastSslMode([(k, v)]).GetOr(p.sslMode)
    ensures Step(p, k, v).value.sslParams.sslAcceptMode ==
      if k != "sslaccept" then p.sslParams.sslAcceptMode
      else if v == "accept_invalid_certs" then AcceptInvalidCerts
      else Strict
  {
    match k
    case "pgbouncer" =>
    case "sslmode" =>
    case "sslaccept" =>
    case _ =>
  }

  // ---------------------------------------------------------------------------
  // The URL and its accessors
  // ---------------------------------------------------------------------------

  /**
   * A parsed connection URL: the raw user name and password, the host and
   * port if given, the path, and the percent-decoded query pairs in order.
   */
  datatype Url = Url(
    username: string,
    password: Option<string>,
    hostStr: Option<string>,
    port: Option<U16>,
    path: string,
    queryPairs: seq<(string, string)>)

  /** `PostgresUrl`: the URL and the settings read from its query. */
  datatype PostgresUrl = PostgresUrl(url: Url, queryParams: QueryParams)

  /** `PostgresUrl::new`: fails exactly when the query holds a malformed value. */
  method New(url: Url) returns (r: Result<PostgresUrl, ConfigError>)
    ensures r.Failure? <==> exists i | 0 <= i < |url.queryPairs| :: Malformed(url.queryPairs[i].0, url.queryPairs[i].1)
    ensures r.Failure? ==> r.error == InvalidConnectionArguments
    ensures Fold(Defaults(), url.queryPairs).Success? ==> r == Success(PostgresUrl(url, Fold(Defaults(), url.queryPairs).value))
  {
    FoldFailsIffMalformed(Defaults(), url.queryPairs);
    var queryParams :- ParseQueryParams(url.queryPairs);
    return Success(PostgresUrl(url, queryParams));
  }

  /** The text up to the first `/`. */
  function FirstSegment(s: string): (r: string)
    ensures r <= s && '/' !in r
    ensures r == s || s[|r|] == '/'
  {
    if |s| == 0 || s[0] == '/' then "" else [s[0]] + FirstSegment(s[1..])
  }

  /**
   * `host`: the `host` query parameter, else the URL's host unless it is
   * missing or empty, else `localhost`.
   */
  function Host(u: PostgresUrl): (r: string)
    ensures u.queryParams.host.Some? ==> r == u.queryParams.host.value
    ensures u.queryParams.host.None? && u.url.hostStr.Some? && u.url.hostStr.value != "" ==> r == u.url.hostStr.value
    ensures u.queryParams.host.None? && (u.url.hostStr.None? || u.url.hostStr == Some("")) ==> r == DefaultHost
  {
    match (u.queryParams.host, u.url.hostStr)
    case (Some(host), _) => host
    case (None, Some("")) => DefaultHost
    case (None, None) => DefaultHost
    case (None, Some(host)) => host
  }

  /**
   * `dbname`: the first segment of the path when the path starts with `/`
   * (the URL then has path segments), else `postgres`.
   */
  function Dbname(u: PostgresUrl): (r: string)
    ensures '/' !in r
    ensures |u.url.path| > 0 && u.url.path[0] == '/' ==> r == FirstSegment(u.url.path[1..])
    ensures (|u.url.path| == 0 || u.url.path[0] != '/') ==> r == DefaultDatabase
  {
    if |u.url.path| > 0 && u.url.path[0] == '/' then FirstSegment(u.url.path[1..]) else DefaultDatabase
  }

  /** `port`: the URL's port, else 5432. */
  function Port(u: PostgresUrl): (r: U16)
    ensures u.url.port.Some? ==> r == u.url.port.value
    ensures u.url.port.None? ==> r == DefaultPort
  {
    u.url.port.GetOr(DefaultPort)
  }

  /** `schema`: the schema setting read from the query. */
  function Schema(u: PostgresUrl): string {
    u.queryParams.schema
  }

  /** The schema of a parsed URL is the last `schema` query parameter, else `public`. */
  lemma SchemaOfUrl(url: Url)
    requires Fold(Defaults(), url.queryPairs).Success?
    ensures Schema(PostgresUrl(url, Fold(Defaults(), url.queryPairs).value)) ==
      LastValue(url.queryPairs, "schema").GetOr(DefaultSchema)
  {
    LastTextWins(Defaults(), url.queryPairs);
  }

  /** The capacity of the prepared-statement cache `cache` creates: none behind PgBouncer. */
  function CacheCapacity(u: PostgresUrl): (r: nat)
    ensures u.queryParams.pgBouncer ==> r == 0
    ensures !u.queryParams.pgBouncer ==> r == u.queryParams.statementCacheSize
  {
    if u.queryParams.pgBouncer then 0 else u.queryParams.statementCacheSize
  }

  /**
   * `username`: the percent-decoded user name, or the raw one when it does
   * not decode to UTF-8; `decode` stands for percent-decoding.
   */
  function Username(u: PostgresUrl, decode: string -> Option<string>): (r: string)
    ensures decode(u.url.username).Some? ==> r == decode(u.url.username).value
    ensures decode(u.url.username).None? ==> r == u.url.username
  {
    decode(u.url.username).GetOr(u.url.username)
  }

  /** `password`: the percent-decoded password, else the raw one, else empty. */
  function Password(u: PostgresUrl, decode: string -> Option<string>): (r: string)
    ensures u.url.password.None? ==> r == ""
    ensures u.url.password.Some? && decode(u.url.password.value).Some? ==> r == decode(u.url.password.value).value
    ensures u.url.password.Some? && decode(u.url.password.value).None? ==> r == u.url.password.value
  {
    match u.url.password
    case None => ""
    case Some(pw) => decode(pw).GetOr(pw)
  }

  // ---------------------------------------------------------------------------
  // Defaults and the connection strings of the tests
  // ---------------------------------------------------------------------------

  /**
   * A URL without query parameters gets schema `public`, SSL mode prefer,
   * invalid certificates accepted, no PgBouncer and a cache of 500.
   */
  lemma NoQueryDefaults(url: Url)
    requires url.queryPairs == []
    ensures Fold(Defaults(), url.queryPairs) == Success(Defaults())
    ensures var u := PostgresUrl(url, Defaults());
      && Schema(u) == "public" && CacheCapacity(u) == 500
      && u.queryParams.sslMode == Prefer && u.queryParams.sslParams.sslAcceptMode == AcceptInvalidCerts
      && !u.queryParams.pgBouncer
  {
  }

  /** `postgresql:///<db>?host=<socket>`: the socket path is the host and the first path segment the database. */
  lemma SocketUrl(db: string, socket: string)
    requires '/' !in db
    ensures var url := Url("", None, None, None, "/" + db, [("host", socket)]);
      && Fold(Defaults(), url.queryPairs).Success?
      && var u := PostgresUrl(url, Fold(Defaults(), url.queryPairs).value);
      && Dbname(u) == db && Host(u) == socket
  {
    var url := Url("", None, None, None, "/" + db, [("host", socket)]);
    assert url.queryPairs[..0] == [];
    assert (("/" + db)[1..]) == db;
    FirstSegmentWhole(db);
  }

  lemma {:induction false} FirstSegmentWhole(s: string)
    requires '/' !in s
    ensures FirstSegment(s) == s
  {
    if |s| > 0 {
      assert s[0] in s;
      assert forall c | c in s[1..] :: c in s;
      FirstSegmentWhole(s[1..]);
    }
  }

  /** `postgresql:///<db>`: no host anywhere means `localhost`, with the cache of 500. */
  lemma DefaultHostUrl(db: string)
    requires '/' !in db
    ensures var u := PostgresUrl(Url("", None, None, None, "/" + db, []), Defaults());
      Dbname(u) == db && Host(u) == "localhost" && CacheCapacity(u) == 500 && Port(u) == 5432
  {
    assert (("/" + db)[1..]) == db;
    FirstSegmentWhole(db);
  }

  /** `statement_cache_size=<n>` sets the cache capacity to `n`, unless PgBouncer is on, which turns caching off. */
  lemma CacheSizeUrl(url: Url, n: nat)
    requires n <= V.U64Max
    ensures var pairs := [("statement_cache_size", V.NatToDecimal(n))];
      Fold(Defaults(), pairs).Success? && CacheCapacity(PostgresUrl(url, Fold(Defaults(), pairs).value)) == n
    ensures var pairs := [("statement_cache_size", V.NatToDecimal(n)), ("pgbouncer", "true")];
      Fold(Defaults(), pairs).Success? && CacheCapacity(PostgresUrl(url, Fold(Defaults(), pairs).value)) == 0
  {
    V.ParseU64OfDecimal(n);
    var one := [("statement_cache_size", V.NatToDecimal(n))];
    var two := one + [("pgbouncer", "true")];
    assert one[..0] == [];
    assert two[..1] == one;
  }
}
