/** The configuration (config/config.go): the settings read from the environment file, the two
    connection strings built from them, the conversion of configured seconds into a
    `time.Duration`, and the JWT settings whose two expiries can be changed after loading.
    Reading the file itself is left out: the loader starts from the key/value map it yields. A
    key is kept as the text it was configured with (`[]byte(s)` is the identity here). */
module Configs {
  import opened Wrappers
  import opened Text

  const NanosPerSecond := 1_000_000_000
  const TwoTo64 := 0x1_0000_0000_0000_0000

  /** An int64 result of an arithmetic operation: the exact value reduced modulo 2^64 into the
      int64 range, as Go's signed multiplication wraps. */
  function Wrap64(x: int): (r: int)
    ensures Int64Min <= r <= Int64Max
    ensures Int64Min <= x <= Int64Max ==> r == x
  {
    (x - Int64Min) % TwoTo64 + Int64Min
  }

  /** `time.Duration(int64(s) * int64(math.Pow10(9)))`: nanoseconds, wrapping on overflow. */
  function Duration(seconds: int): (d: int)
    ensures Int64Min <= d <= Int64Max
  {
    Wrap64(seconds * NanosPerSecond)
  }

  /** Up to about 292 years either way the conversion is exact. */
  lemma DurationExact(seconds: int)
    requires -9_223_372_036 <= seconds <= 9_223_372_036
    ensures Duration(seconds) == seconds * NanosPerSecond
  {
  }

  /** One second more and the product no longer fits: the duration turns negative. */
  lemma DurationWraps()
    ensures Duration(9_223_372_037) == 9_223_372_037 * NanosPerSecond - TwoTo64
    ensures Duration(9_223_372_037) < 0
  {
  }

  // ---------------------------------------------------------------- the settings

  datatype App = App(
    host: string,
    port: int,
    name: string,
    version: string,
    readTimeout: int,
    writeTimeout: int,
    bodyLimit: int,
    fileLimit: int,
    gcpbucket: string)

  datatype Db = Db(
    host: string,
    port: int,
    protocol: string,
    username: string,
    password: string,
    database: string,
    sslMode: string,
    maxConnections: int)

  datatype JwtSettings = JwtSettings(
    adminKey: string,
    secretKey: string,
    apiKey: string,
    accessExpiresAt: int,
    refreshExpiresAt: int)

  datatype Config = Config(app: App, db: Db, jwt: JwtSettings)

  /** `app.Url()`: host and port, joined by ':'. */
  function AppUrl(a: App): string {
    a.host + ":" + IntToDecimal(a.port)
  }

  /** The application address splits back into its host and its port. */
  lemma AppUrlSplits(a: App)
    requires Int64Min <= a.port <= Int64Max
    ensures AppUrl(a)[..|a.host|] == a.host && AppUrl(a)[|a.host|] == ':'
    ensures Atoi(AppUrl(a)[|a.host| + 1..]) == Some(a.port)
  {
    assert AppUrl(a)[|a.host| + 1..] == IntToDecimal(a.port);
    AtoiFormatsRoundTrip(a.port);
  }

  /** `key=value` pairs separated by single spaces. */
  function KeyValues(pairs: seq<(string, string)>): string {
    if pairs == [] then ""
    else if |pairs| == 1 then pairs[0].0 + "=" + pairs[0].1
    else KeyValues(pairs[..|pairs| - 1]) + " " + pairs[|pairs| - 1].0 + "=" + pairs[|pairs| - 1].1
  }

  /** The connection settings, in the order the connection string names them; the protocol is
      not among them. */
  function DbPairs(d: Db): seq<(string, string)> {
    [("host", d.host), ("port", IntToDecimal(d.port)), ("user", d.username), ("password", d.password),
     ("dbname", d.database), ("sslmode", d.sslMode)]
  }

  /** `db.Url()`. */
  function DbUrl(d: Db): string {
    "host=" + d.host + " port=" + IntToDecimal(d.port) + " user=" + d.username + " password=" + d.password +
    " dbname=" + d.database + " sslmode=" + d.sslMode
  }

  /** The connection string is the settings of `DbPairs`, as `key=value` pairs in that order. */
  lemma DbUrlIsKeyValues(d: Db)
    ensures DbUrl(d) == KeyValues(DbPairs(d))
  {
    var p := DbPairs(d);
    var port := IntToDecimal(d.port);
    assert p[..6] == p;
    assert p[..6][..5] == p[..5] && p[..5][..4] == p[..4] && p[..4][..3] == p[..3];
    assert p[..3][..2] == p[..2] && p[..2][..1] == p[..1];
    assert KeyValues(p[..1]) == "host=" + d.host;
    assert KeyValues(p[..2]) == "host=" + d.host + " port=" + port;
    assert KeyValues(p[..3]) == "host=" + d.host + " port=" + port + " user=" + d.username;
    assert KeyValues(p[..4]) == "host=" + d.host + " port=" + port + " user=" + d.username + " password=" + d.password;
    assert KeyValues(p[..5]) == "host=" + d.host + " port=" + port + " user=" + d.username + " password=" + d.password +
      " dbname=" + d.database;
  }

  // ---------------------------------------------------------------- loading

  /** The value of `key`, or "" when the file does not set it (a Go map's zero value). */
  function Get(env: map<string, string>, key: string): string {
    if key in env then env[key] else ""
  }

  /** The numeric settings, in the order the loader parses them, each with the message that
      stops loading when its value is not an integer. */
  const NumericFields: seq<(string, string)> := [
    ("APP_PORT", "load port failed"),
    ("APP_READ_TIMEOUT", "load ReadTimeout failed"),
    ("APP_WRITE_TIMEOUT", "load WriteTimeout failed"),
    ("APP_BODY_LIMIT", "load Body Limit failed"),
    ("APP_FILE_LIMIT", "load File Limit failed"),
    ("DB_PORT", "load DB port failed"),
    ("DB_MAX_CONNECTIONS", "load MaxConnections failed"),
    ("JWT_ACCESS_EXPIRES", "load AccessExpiresAt failed"),
    ("JWT_REFRESH_EXPIRES", "load RefreshExpiresAt failed")]

  /** The message of the first numeric setting that does not parse, if any. */
  function FirstUnparsed(env: map<string, string>, fields: seq<(string, string)>): (r: Option<string>)
    ensures r == None <==> forall i :: 0 <= i < |fields| ==> Atoi(Get(env, fields[i].0)).Some?
    ensures r.Some? ==> exists i :: 0 <= i < |fields| && r.value == fields[i].1 && Atoi(Get(env, fields[i].0)).None?
  {
    if fields == [] then None
    else if Atoi(Get(env, fields[0].0)).None? then Some(fields[0].1)
    else
      var rest := FirstUnparsed(env, fields[1..]);
      assert forall i :: 1 <= i < |fields| ==> fields[1..][i - 1] == fields[i];
      rest
  }

  /** The integer a numeric setting holds. */
  function Number(env: map<string, string>, key: string): int
    requires Atoi(Get(env, key)).Some?
  {
    Atoi(Get(env, key)).value
  }

  /** `LoadConfig`: the settings, or the message of the first numeric setting that is not an
      integer, which ends the process. Timeouts are configured in seconds. */
  function LoadConfig(env: map<string, string>): (r: Result<Config, string>)
    ensures r.Success? <==> forall i :: 0 <= i < |NumericFields| ==> Atoi(Get(env, NumericFields[i].0)).Some?
  {
    var bad := FirstUnparsed(env, NumericFields);
    if bad.Some? then Failure(bad.value)
    else
      assert NumericFields[0].0 == "APP_PORT" && NumericFields[1].0 == "APP_READ_TIMEOUT";
      assert NumericFields[2].0 == "APP_WRITE_TIMEOUT" && NumericFields[3].0 == "APP_BODY_LIMIT";
      assert NumericFields[4].0 == "APP_FILE_LIMIT" && NumericFields[5].0 == "DB_PORT";
      assert NumericFields[6].0 == "DB_MAX_CONNECTIONS" && NumericFields[7].0 == "JWT_ACCESS_EXPIRES";
      assert NumericFields[8].0 == "JWT_REFRESH_EXPIRES";
      Success(Config(
        App(Get(env, "APP_HOST"), Number(env, "APP_PORT"), Get(env, "APP_NAME"), Get(env, "APP_VERSION"),
            Duration(Number(env, "APP_READ_TIMEOUT")), Duration(Number(env, "APP_WRITE_TIMEOUT")),
            Number(env, "APP_BODY_LIMIT"), Number(env, "APP_FILE_LIMIT"), Get(env, "APP_GCP_BUCKET")),
        Db(Get(env, "DB_HOST"), Number(env, "DB_PORT"), Get(env, "DB_PROTOCOL"), Get(env, "DB_USERNAME"),
           Get(env, "DB_PASSWORD"), Get(env, "DB_DATABASE"), Get(env, "DB_SSL_MODE"), Number(env, "DB_MAX_CONNECTIONS")),
        JwtSettings(Get(env, "JWT_ADMIN_KEY"), Get(env, "JWT_SECRET_KEY"), Get(env, "JWT_API_KEY"),
                    Number(env, "JWT_ACCESS_EXPIRES"), Number(env, "JWT_REFRESH_EXPIRES"))))
  }

  /** A missing or non-integer port stops loading with the port's message, whatever else is
      set. */
  lemma UnparsedPortStops(env: map<string, string>)
    requires Atoi(Get(env, "APP_PORT")).None?
    ensures LoadConfig(env) == Failure("load port failed")
  {
  }

  /** A port written as decimal text is loaded as that number, and the application address
      shows it as it was written. */
  lemma LoadedPortReadsBack(env: map<string, string>, port: int)
    requires Int64Min <= port <= Int64Max && Get(env, "APP_PORT") == IntToDecimal(port)
    requires LoadConfig(env).Success?
    ensures LoadConfig(env).value.app.port == port
    ensures AppUrl(LoadConfig(env).value.app) == Get(env, "APP_HOST") + ":" + Get(env, "APP_PORT")
  {
    AtoiFormatsRoundTrip(port);
  }

  /** Timeouts are the configured seconds in nanoseconds. */
  lemma LoadedTimeouts(env: map<string, string>)
    requires LoadConfig(env).Success?
    ensures Atoi(Get(env, "APP_READ_TIMEOUT")).Some? && Atoi(Get(env, "APP_WRITE_TIMEOUT")).Some?
    ensures LoadConfig(env).value.app.readTimeout == Duration(Atoi(Get(env, "APP_READ_TIMEOUT")).value)
    ensures LoadConfig(env).value.app.writeTimeout == Duration(Atoi(Get(env, "APP_WRITE_TIMEOUT")).value)
  {
    assert NumericFields[1].0 == "APP_READ_TIMEOUT" && NumericFields[2].0 == "APP_WRITE_TIMEOUT";
  }

  // ---------------------------------------------------------------- the JWT settings

  /** The JWT settings as loaded; the two expiries can be changed afterwards. */
  class JwtConfig {
    var adminKey: string
    var secretKey: string
    var apiKey: string
    /** Seconds. */
    var accessExpiresAt: int
    /** Seconds. */
    var refreshExpiresAt: int

    constructor (s: JwtSettings)
      ensures Settings() == s
    {
      adminKey := s.adminKey;
      secretKey := s.secretKey;
      apiKey := s.apiKey;
      accessExpiresAt := s.accessExpiresAt;
      refreshExpiresAt := s.refreshExpiresAt;
    }

    function Settings(): JwtSettings
      reads this
    {
      JwtSettings(adminKey, secretKey, apiKey, accessExpiresAt, refreshExpiresAt)
    }

    /** `SetJwtAccessExpires`: only the access expiry changes. */
    method SetJwtAccessExpires(t: int)
      modifies this
      ensures Settings() == old(Settings()).(accessExpiresAt := t)
    {
      accessExpiresAt := t;
    }

    /** `SetJwtRefreshxpires`: only the refresh expiry changes. */
    method SetJwtRefreshxpires(t: int)
      modifies this
      ensures Settings() == old(Settings()).(refreshExpiresAt := t)
    {
      refreshExpiresAt := t;
    }
  }
}
