/**
 * The REST API's configuration (backend-rest-api/config/config.js): the
 * environment check that runs when the module loads, and the configuration
 * object built from the environment with its defaults. The environment is a
 * map from variable name to value; a name that is not in the map is unset.
 */
module Config {
  import opened Wrappers
  import opened Text
  import opened Seqs

  /** The variables that must be set, in the order they are reported. */
  const Required: seq<string> := ["NODE_ENV", "MONGO_URI", "JWT_SECRET"]

  /** `process.env[key]` is truthy: set and not empty. */
  predicate IsSet(env: map<string, string>, key: string)
  {
    key in env && env[key] != ""
  }

  /** `required.filter(key => !process.env[key])`. */
  function MissingVars(env: map<string, string>): (missing: seq<string>)
    ensures IsSubseq(missing, Required)
    ensures forall i :: 0 <= i < |missing| ==> !IsSet(env, missing[i])
    ensures forall i :: 0 <= i < |Required| && !IsSet(env, Required[i]) ==> Required[i] in missing
  {
    FilterIsSubseq(Required, k => !IsSet(env, k));
    Filter(Required, k => !IsSet(env, k))
  }

  /** No character of `s` is `c`: the regex class `[^c]`. */
  predicate Without(s: string, c: char)
  {
    forall i :: 0 <= i < |s| ==> s[i] != c
  }

  /**
   * `(?:[^&]+&?)*` matching all of `t`: a sequence of blocks, each a non-empty
   * run without '&' that may be followed by one '&'.
   */
  predicate Blocks(t: string)
    decreases |t|
  {
    t == [] ||
    exists n :: 1 <= n <= |t| && Without(t[..n], '&') &&
      (Blocks(t[n..]) || (n < |t| && t[n] == '&' && Blocks(t[n + 1..])))
  }

  /** `\/?\??`. */
  predicate SlashQuery(o: string)
  {
    o == "" || o == "/" || o == "?" || o == "/?"
  }

  /** `[^/]+\/?\??(?:[^&]+&?)*$`: the host, an optional "/", an optional "?", then the options. */
  predicate HostAndOptions(x: string)
  {
    exists h, k :: 0 < h <= k <= |x| && Without(x[..h], '/') && SlashQuery(x[h..k]) && Blocks(x[k..])
  }

  /** `[^:]+:[^@]+@` then the host part: a user, a ':', a password and an '@'. */
  predicate Credentials(r: string)
  {
    exists i, j :: 0 < i && i + 1 < j < |r| && r[i] == ':' && r[j] == '@' &&
      Without(r[..i], ':') && Without(r[i + 1..j], '@') && HostAndOptions(r[j + 1..])
  }

  const Scheme := "mongodb+srv://"

  /** `/^mongodb\+srv:\/\/[^:]+:[^@]+@[^/]+\/?\??(?:[^&]+&?)*$/.test(uri)`. */
  predicate IsAtlasUri(uri: string)
  {
    |Scheme| <= |uri| && uri[..|Scheme|] == Scheme && Credentials(uri[|Scheme|..])
  }

  /** `validateEnvVariables()`: `None` when it returns, `Some(message)` when it throws. */
  function ValidateEnv(env: map<string, string>): (thrown: Option<string>)
    ensures MissingVars(env) != [] ==>
      thrown == Some("Missing required environment variables: " + Join(MissingVars(env), ", "))
    ensures MissingVars(env) == [] ==>
      (thrown.None? <==> IsAtlasUri(env["MONGO_URI"])) &&
      (thrown.Some? ==> thrown.value == "Invalid MongoDB Atlas URI format")
  {
    var missing := MissingVars(env);
    if missing != [] then Some("Missing required environment variables: " + Join(missing, ", "))
    else
      assert IsSet(env, Required[1]);
      if !IsAtlasUri(env["MONGO_URI"]) then Some("Invalid MongoDB Atlas URI format") else None
  }

  /** The configuration object. A `parseInt` that yields NaN is `None`. */
  datatype Settings = Settings(
    env: string,
    port: Option<int>,
    mongoUri: string,
    jwtSecret: string,
    jwtExpiresIn: string,
    corsOrigin: string,
    minPoolSize: Option<int>,
    maxPoolSize: Option<int>,
    connectTimeoutMS: Option<int>,
    socketTimeoutMS: Option<int>)

  /** `process.env[key] || fallback`. */
  function OrDefault(env: map<string, string>, key: string, fallback: string): (v: string)
    ensures IsSet(env, key) ==> v == env[key]
    ensures !IsSet(env, key) ==> v == fallback
  {
    if IsSet(env, key) then env[key] else fallback
  }

  /**
   * `parseInt(process.env[key] || String(fallback), 10)`: the variable's value
   * when it is set, and otherwise the fallback, which reads back exactly.
   */
  function NumberSetting(env: map<string, string>, key: string, fallback: nat): (v: Option<int>)
    ensures IsSet(env, key) ==> v == ParseInt(env[key])
    ensures !IsSet(env, key) ==> v == Some(fallback)
  {
    var text := OrDefault(env, key, NatToString(fallback));
    ParseIntOfIntToString(fallback, "");
    assert IntToString(fallback) + "" == NatToString(fallback);
    ParseInt(text)
  }

  /** Loading the module: the check, then the object literal; a thrown message is `Err`. */
  function Load(env: map<string, string>): (r: Result<Settings, string>)
    ensures r.Err? <==> ValidateEnv(env).Some?
    ensures r.Err? ==> r.error == ValidateEnv(env).value
    ensures r.Ok? ==>
      && r.value.env == env["NODE_ENV"] && r.value.mongoUri == env["MONGO_URI"]
      && r.value.jwtSecret == env["JWT_SECRET"] && IsAtlasUri(r.value.mongoUri)
  {
    match ValidateEnv(env)
    case Some(message) => Err(message)
    case None =>
      assert IsSet(env, Required[0]) && IsSet(env, Required[1]) && IsSet(env, Required[2]);
      Ok(Settings(
        env := env["NODE_ENV"],
        port := NumberSetting(env, "PORT", 3000),
        mongoUri := env["MONGO_URI"],
        jwtSecret := env["JWT_SECRET"],
        jwtExpiresIn := OrDefault(env, "JWT_EXPIRES_IN", "1d"),
        corsOrigin := OrDefault(env, "CORS_ORIGIN", "http://localhost:5173"),
        minPoolSize := NumberSetting(env, "DB_MIN_POOL_SIZE", 10),
        maxPoolSize := NumberSetting(env, "DB_MAX_POOL_SIZE", 50),
        connectTimeoutMS := NumberSetting(env, "DB_CONNECT_TIMEOUT_MS", 30000),
        socketTimeoutMS := NumberSetting(env, "DB_SOCKET_TIMEOUT_MS", 45000)))
  }

  /**
   * A missing MONGO_URI is reported as missing, never as malformed: the
   * missing-variable check comes first.
   */
  lemma MissingUriReportedAsMissing(env: map<string, string>)
    requires !IsSet(env, "MONGO_URI")
    ensures ValidateEnv(env).Some?
    ensures ValidateEnv(env).value != "Invalid MongoDB Atlas URI format"
  {
    assert !IsSet(env, Required[1]);
    var m := MissingVars(env);
    assert m != [];
    var msg := "Missing required environment variables: " + Join(m, ", ");
    assert msg[0] == 'M';
  }

  /**
   * An accepted URI starts with the SRV scheme, then a non-empty user without
   * ':', a ':', a non-empty password without '@', an '@' and a non-empty host part.
   */
  lemma AcceptedUriShape(uri: string)
    requires IsAtlasUri(uri)
    ensures uri[..|Scheme|] == Scheme
    ensures var r := uri[|Scheme|..];
      exists i, j :: 0 < i && i + 1 < j && j + 1 < |r| && r[i] == ':' && r[j] == '@' &&
        Without(r[..i], ':') && Without(r[i + 1..j], '@')
  {
    var r := uri[|Scheme|..];
    var i, j :| 0 < i && i + 1 < j < |r| && r[i] == ':' && r[j] == '@' &&
      Without(r[..i], ':') && Without(r[i + 1..j], '@') && HostAndOptions(r[j + 1..]);
    var rest := r[j + 1..];
    var h, k :| 0 < h <= k <= |rest| && Without(rest[..h], '/') && SlashQuery(rest[h..k]) && Blocks(rest[k..]);
    assert j + 1 < |r|;
  }

  /** Options never start with '&' and never hold two '&' in a row. */
  lemma {:induction false} BlocksShape(t: string)
    requires Blocks(t)
    ensures t != [] ==> t[0] != '&'
    ensures forall i :: 0 <= i < |t| - 1 ==> !(t[i] == '&' && t[i + 1] == '&')
    decreases |t|
  {
    if t != [] {
      var n :| 1 <= n <= |t| && Without(t[..n], '&') &&
        (Blocks(t[n..]) || (n < |t| && t[n] == '&' && Blocks(t[n + 1..])));
      assert t[0] == t[..n][0];
      var skip := if Blocks(t[n..]) then n else n + 1;
      var u := t[skip..];
      BlocksShape(u);
      forall i | 0 <= i < |t| - 1
        ensures !(t[i] == '&' && t[i + 1] == '&')
      {
        if i + 1 < n {
          assert t[i] == t[..n][i];
        } else if i + 1 == n {
          assert t[i] == t[..n][i];
        } else if i == n {
          assert skip == n ==> t[i] == u[0];
          assert skip == n + 1 ==> t[i + 1] == u[0];
        } else {
          assert skip == n ==> t[i] == u[i - n] && t[i + 1] == u[i - n + 1];
          assert skip == n + 1 && i + 1 < |t| ==> t[i + 1] == u[i - n];
          if skip == n + 1 && i > n {
            assert t[i] == u[i - n - 1];
          }
        }
      }
    }
  }

  /** An optional variable that is left unset takes its default. */
  lemma DefaultsApply(env: map<string, string>)
    requires Load(env).Ok?
    requires !IsSet(env, "PORT") && !IsSet(env, "JWT_EXPIRES_IN") && !IsSet(env, "CORS_ORIGIN")
    requires !IsSet(env, "DB_MIN_POOL_SIZE") && !IsSet(env, "DB_MAX_POOL_SIZE")
    requires !IsSet(env, "DB_CONNECT_TIMEOUT_MS") && !IsSet(env, "DB_SOCKET_TIMEOUT_MS")
    ensures var s := Load(env).value;
      && s.port == Some(3000)
      && s.jwtExpiresIn == "1d"
      && s.corsOrigin == "http://localhost:5173"
      && s.minPoolSize == Some(10)
      && s.maxPoolSize == Some(50)
      && s.connectTimeoutMS == Some(30000)
      && s.socketTimeoutMS == Some(45000)
  {
  }
}
