/** Environment configuration: a snapshot of the process environment taken
    once, typed lookups with fallbacks, and the application defaults. */
module ConfigEnv {
  import opened Common

  /** The grouped application settings. */
  datatype AppConfig = AppConfig(nodeEnv: string, port: Number, baseUrl: Option<string>)

  /** The configuration object; both fields are read-only after construction. */
  datatype EnvConfig = EnvConfig(env: map<string, string>, app: AppConfig)

  function Raw(env: map<string, string>, key: string): Option<string>
  {
    if key in env then Some(env[key]) else None
  }

  /** `get(key, fallback)`: the stored value when defined, even "";
      otherwise the fallback; otherwise an error. */
  function Get(env: map<string, string>, key: string, fallback: Option<string>): (r: Result<string, string>)
    ensures key in env ==> r == Success(env[key])
    ensures key !in env && fallback.Some? ==> r == Success(fallback.value)
    ensures key !in env && fallback.None? ==> r == Failure("Missing environment variable: " + key)
  {
    match Raw(env, key)
    case Some(v) => Success(v)
    case None =>
      if fallback.Some? then Success(fallback.value) else Failure("Missing environment variable: " + key)
  }

  /** `getNumber(key, fallback)`: a missing or empty value gives the
      fallback or an error; otherwise `Number(raw)`, unless that is NaN. */
  function GetNumber(number: string -> Number, env: map<string, string>, key: string, fallback: Option<Number>): (r: Result<Number, string>)
    ensures (key !in env || env[key] == "") && fallback.Some? ==> r == Success(fallback.value)
    ensures (key !in env || env[key] == "") && fallback.None? ==> r == Failure("Missing numeric environment variable: " + key)
    ensures key in env && env[key] != "" && number(env[key]) == NaN ==> r == Failure("Environment variable " + key + " is not a number")
    ensures key in env && env[key] != "" && number(env[key]) != NaN ==> r == Success(number(env[key]))
    ensures r.Success? ==> r.value != NaN || (fallback == Some(NaN) && (key !in env || env[key] == ""))
  {
    var raw := Raw(env, key);
    if (raw.None? || raw.value == "") && fallback.Some? then Success(fallback.value)
    else if raw.None? || raw.value == "" then Failure("Missing numeric environment variable: " + key)
    else
      var n := number(raw.value);
      if n == NaN then Failure("Environment variable " + key + " is not a number") else Success(n)
  }

  /** `getBoolean(key, fallback)`: a missing or empty value gives the
      fallback or an error; otherwise true exactly for "true" and "1". */
  function GetBoolean(env: map<string, string>, key: string, fallback: Option<bool>): (r: Result<bool, string>)
    ensures (key !in env || env[key] == "") && fallback.Some? ==> r == Success(fallback.value)
    ensures (key !in env || env[key] == "") && fallback.None? ==> r == Failure("Missing boolean environment variable: " + key)
    ensures key in env && env[key] != "" ==> r.Success? && (r.value <==> env[key] == "true" || env[key] == "1")
  {
    var raw := Raw(env, key);
    if (raw.None? || raw.value == "") && fallback.Some? then Success(fallback.value)
    else if raw.None? || raw.value == "" then Failure("Missing boolean environment variable: " + key)
    else Success(raw.value == "true" || raw.value == "1")
  }

  /** `has(key)`: the key is defined, whatever its value. */
  function Has(env: map<string, string>, key: string): (r: bool)
    ensures r <==> Raw(env, key).Some?
    ensures r ==> Get(env, key, None).Success?
  {
    key in env
  }

  /** `all()`: a copy of the snapshot, holding every key with its value. */
  function All(c: EnvConfig): (r: map<string, string>)
    ensures forall k :: Has(c.env, k) <==> k in r
    ensures forall k :: k in r ==> Get(c.env, k, None) == Success(r[k])
  {
    map k | k in c.env :: c.env[k]
  }

  /** The constructor: snapshot the environment, then build the grouped
      settings, failing when a lookup fails. */
  function New(number: string -> Number, processEnv: map<string, string>): (r: Result<EnvConfig, string>)
    ensures r.Success? ==> r.value.env == processEnv
    ensures r.Failure? <==> "PORT" in processEnv && processEnv["PORT"] != "" && number(processEnv["PORT"]) == NaN
    ensures r.Success? ==> r.value.app.nodeEnv == (if "NODE_ENV" in processEnv then processEnv["NODE_ENV"] else "development")
    ensures r.Success? && ("PORT" !in processEnv || processEnv["PORT"] == "") ==> r.value.app.port == Num(3000.0)
    ensures r.Success? ==> (r.value.app.baseUrl.Some? <==> "VITE_REACT_APP_API_URL" in processEnv)
    ensures r.Success? && r.value.app.baseUrl.Some? ==> r.value.app.baseUrl.value == processEnv["VITE_REACT_APP_API_URL"]
  {
    var env := processEnv;
    var nodeEnv := Get(env, "NODE_ENV", Some("development"));
    var port := GetNumber(number, env, "PORT", Some(Num(3000.0)));
    if port.Failure? then Failure(port.error)
    else
      var baseUrl := if Has(env, "VITE_REACT_APP_API_URL") then Some(Get(env, "VITE_REACT_APP_API_URL", None).value) else None;
      Success(EnvConfig(env, AppConfig(nodeEnv.value, port.value, baseUrl)))
  }

  /** With an empty environment the defaults apply: "development", port
      3000 and no base URL. */
  lemma EmptyEnvironmentDefaults(number: string -> Number)
    ensures New(number, map[]) == Success(EnvConfig(map[], AppConfig("development", Num(3000.0), None)))
  {
  }

  /** Lookups on the configuration answer from the snapshot taken at
      construction, and `all()` returns that snapshot whole. */
  lemma LookupsReadTheSnapshot(number: string -> Number, processEnv: map<string, string>, key: string)
    requires New(number, processEnv).Success?
    ensures var c := New(number, processEnv).value;
      Get(c.env, key, None) == Get(processEnv, key, None) && All(c) == processEnv
  {
  }
}
