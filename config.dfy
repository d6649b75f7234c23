/**
 * Configuration: the three section dataclasses and `Config`, their
 * validation, the dict form (`from_dict`/`to_dict`), reading the
 * environment (given as a map from variable name to value) and the
 * file/environment merge of `load_config`. A dataclass instance is
 * modelled as a value; `from_dict` and `from_env` build that value
 * section by section as the classmethods assign the fields.
 */
module Config {
  import opened Wrappers
  import opened Text
  import opened Json
  import opened Exceptions
  import opened Fields

  datatype PrometheusConfig = PrometheusConfig(
    url: string,
    username: Option<string>,
    password: Option<string>,
    token: Option<string>,
    timeout: int,
    maxRetries: int,
    rateLimit: Option<int>,
    verifySsl: bool)

  datatype GrafanaConfig = GrafanaConfig(
    url: string,
    apiKey: Option<string>,
    username: Option<string>,
    password: Option<string>,
    orgId: Option<int>,
    timeout: int,
    maxRetries: int,
    rateLimit: Option<int>,
    verifySsl: bool)

  datatype LoggingConfig = LoggingConfig(level: string, format: string, file: Option<string>)

  datatype Config = Config(prometheus: Option<PrometheusConfig>, grafana: Option<GrafanaConfig>, logging: LoggingConfig)

  const DefaultLogFormat := "%(asctime)s - %(name)s - %(levelname)s - %(message)s"

  /** `LoggingConfig()`. */
  function DefaultLogging(): (l: LoggingConfig)
    ensures l.level == "INFO" && l.format == DefaultLogFormat && l.file.None?
  {
    LoggingConfig("INFO", DefaultLogFormat, None)
  }

  /** `PrometheusConfig(url=url)`: every other field at its default. */
  function DefaultPrometheus(url: string): (p: PrometheusConfig)
    ensures p.url == url && p.username.None? && p.password.None? && p.token.None?
    ensures p.timeout == 30 && p.maxRetries == 3 && p.rateLimit.None? && p.verifySsl
  {
    PrometheusConfig(url, None, None, None, 30, 3, None, true)
  }

  /** `GrafanaConfig(url=url)`: every other field at its default. */
  function DefaultGrafana(url: string): (g: GrafanaConfig)
    ensures g.url == url && g.apiKey.None? && g.username.None? && g.password.None? && g.orgId.None?
    ensures g.timeout == 30 && g.maxRetries == 3 && g.rateLimit.None? && g.verifySsl
  {
    GrafanaConfig(url, None, None, None, None, 30, 3, None, true)
  }

  /** `Config()`. */
  function DefaultConfig(): (c: Config)
    ensures c.prometheus.None? && c.grafana.None? && c.logging == DefaultLogging()
  {
    Config(None, None, DefaultLogging())
  }

  // ---------------------------------------------------------------------
  // validate
  // ---------------------------------------------------------------------

  predicate PrometheusAuthenticated(p: PrometheusConfig) {
    StrTruthy(p.token) || (StrTruthy(p.username) && StrTruthy(p.password))
  }

  predicate GrafanaAuthenticated(g: GrafanaConfig) {
    StrTruthy(g.apiKey) || (StrTruthy(g.username) && StrTruthy(g.password))
  }

  /** A configuration `validate` accepts: every present section has a URL and credentials. */
  predicate Valid(c: Config) {
    && (c.prometheus.Some? ==> c.prometheus.value.url != "" && PrometheusAuthenticated(c.prometheus.value))
    && (c.grafana.Some? ==> c.grafana.value.url != "" && GrafanaAuthenticated(c.grafana.value))
  }

  /** `Config.validate`: the `ConfigurationError` it raises, if any. */
  function Validate(c: Config): (r: Option<Error>)
    ensures r.None? <==> Valid(c)
    ensures r.Some? ==> r.value.kind == ConfigurationError
    ensures c.prometheus.Some? && c.prometheus.value.url == "" ==>
              r == Some(Raise(ConfigurationError, "Prometheus URL is required"))
  {
    if c.prometheus.Some? && c.prometheus.value.url == "" then
      Some(Raise(ConfigurationError, "Prometheus URL is required"))
    else if c.prometheus.Some? && !PrometheusAuthenticated(c.prometheus.value) then
      Some(Raise(ConfigurationError, "Prometheus authentication is required (token or username/password)"))
    else if c.grafana.Some? && c.grafana.value.url == "" then
      Some(Raise(ConfigurationError, "Grafana URL is required"))
    else if c.grafana.Some? && !GrafanaAuthenticated(c.grafana.value) then
      Some(Raise(ConfigurationError, "Grafana authentication is required (api_key or username/password)"))
    else
      None
  }

  /** Only the sections present are checked: a configuration with none is valid. */
  lemma EmptyConfigValid(logging: LoggingConfig)
    ensures Validate(Config(None, None, logging)).None?
  {
  }

  /** With both sections invalid, the Prometheus error is the one raised. */
  lemma PrometheusCheckedFirst(c: Config)
    requires c.prometheus.Some? && c.grafana.Some?
    requires !(c.prometheus.value.url != "" && PrometheusAuthenticated(c.prometheus.value))
    ensures Validate(c).Some?
    ensures Validate(c).value.message == (if c.prometheus.value.url == "" then "Prometheus URL is required"
                                          else "Prometheus authentication is required (token or username/password)")
  {
  }

  // ---------------------------------------------------------------------
  // from_dict / to_dict
  // ---------------------------------------------------------------------

  const PrometheusKeys := {"url", "username", "password", "token", "timeout", "max_retries", "rate_limit", "verify_ssl"}
  const GrafanaKeys := {"url", "api_key", "username", "password", "org_id", "timeout", "max_retries", "rate_limit", "verify_ssl"}
  const LoggingKeys := {"level", "format", "file"}

  /** The annotated type of a dataclass field, as the model stores it. */
  datatype FieldType = TStr | TOptStr | TInt | TOptInt | TBool

  /** `j` is a value of the annotated type. */
  predicate HasType(j: Json, t: FieldType) {
    match t
    case TStr => j.JStr?
    case TOptStr => j.JNull? || j.JStr?
    case TInt => j.JInt?
    case TOptInt => j.JNull? || j.JInt?
    case TBool => j.JBool?
  }

  /** Every value given for an annotated field has the field's type. */
  predicate WellTyped(fields: map<string, Json>, types: map<string, FieldType>) {
    forall k :: k in fields && k in types ==> HasType(fields[k], types[k])
  }

  const PrometheusTypes := map[
    "url" := TStr, "username" := TOptStr, "password" := TOptStr, "token" := TOptStr,
    "timeout" := TInt, "max_retries" := TInt, "rate_limit" := TOptInt, "verify_ssl" := TBool]
  const GrafanaTypes := map[
    "url" := TStr, "api_key" := TOptStr, "username" := TOptStr, "password" := TOptStr, "org_id" := TOptInt,
    "timeout" := TInt, "max_retries" := TInt, "rate_limit" := TOptInt, "verify_ssl" := TBool]
  const LoggingTypes := map["level" := TStr, "format" := TStr, "file" := TOptStr]

  /** `WellTyped` for the Prometheus section, key by key, reading an absent key as its default. */
  lemma PrometheusTyped(m: map<string, Json>)
    ensures WellTyped(m, PrometheusTypes) <==>
              && HasType(Get(m, "url", JStr("")), TStr)
              && HasType(Get(m, "username", JNull), TOptStr)
              && HasType(Get(m, "password", JNull), TOptStr)
              && HasType(Get(m, "token", JNull), TOptStr)
              && HasType(Get(m, "timeout", JInt(30)), TInt)
              && HasType(Get(m, "max_retries", JInt(3)), TInt)
              && HasType(Get(m, "rate_limit", JNull), TOptInt)
              && HasType(Get(m, "verify_ssl", JBool(true)), TBool)
  {
  }

  lemma GrafanaTyped(m: map<string, Json>)
    ensures WellTyped(m, GrafanaTypes) <==>
              && HasType(Get(m, "url", JStr("")), TStr)
              && HasType(Get(m, "api_key", JNull), TOptStr)
              && HasType(Get(m, "username", JNull), TOptStr)
              && HasType(Get(m, "password", JNull), TOptStr)
              && HasType(Get(m, "org_id", JNull), TOptInt)
              && HasType(Get(m, "timeout", JInt(30)), TInt)
              && HasType(Get(m, "max_retries", JInt(3)), TInt)
              && HasType(Get(m, "rate_limit", JNull), TOptInt)
              && HasType(Get(m, "verify_ssl", JBool(true)), TBool)
  {
  }

  lemma LoggingTyped(m: map<string, Json>)
    ensures WellTyped(m, LoggingTypes) <==>
              && HasType(Get(m, "level", JStr("INFO")), TStr)
              && HasType(Get(m, "format", JStr(DefaultLogFormat)), TStr)
              && HasType(Get(m, "file", JNull), TOptStr)
  {
  }

  /**
   * The keyword arguments of `Section(**value)` are accepted: `value` is a
   * mapping, names no field the dataclass lacks and has every required one.
   */
  function CheckKwargs(value: Json, fields: set<string>, required: set<string>): (r: Result<map<string, Json>, Error>)
    ensures r.Success? <==> value.JObj? && value.fields.Keys <= fields && required <= value.fields.Keys
    ensures r.Success? ==> r.value == value.fields
    ensures r.Failure? ==> r.error.kind == TypeError
  {
    if !value.JObj? then Failure(Raise(TypeError, "argument after ** must be a mapping"))
    else if !(value.fields.Keys <= fields) then Failure(Raise(TypeError, "__init__() got an unexpected keyword argument"))
    else if !(required <= value.fields.Keys) then
      Failure(Raise(TypeError, "__init__() missing 1 required positional argument: 'url'"))
    else Success(value.fields)
  }

  /**
   * `PrometheusConfig(**value)`: the keyword arguments are accepted and
   * well typed exactly when it succeeds, and then the section's dict form
   * is the defaults overridden by the given keys.
   */
  function PrometheusFromDict(value: Json): (r: Result<PrometheusConfig, Error>)
    ensures r.Success? <==> CheckKwargs(value, PrometheusKeys, {"url"}).Success? && WellTyped(value.fields, PrometheusTypes)
    ensures r.Success? ==> value.fields["url"] == JStr(r.value.url)
    ensures r.Success? ==> Get(value.fields, "username", JNull) == OptStr(r.value.username)
    ensures r.Success? ==> Get(value.fields, "password", JNull) == OptStr(r.value.password)
    ensures r.Success? ==> Get(value.fields, "token", JNull) == OptStr(r.value.token)
    ensures r.Success? ==> Get(value.fields, "timeout", JInt(30)) == JInt(r.value.timeout)
    ensures r.Success? ==> Get(value.fields, "max_retries", JInt(3)) == JInt(r.value.maxRetries)
    ensures r.Success? ==> Get(value.fields, "rate_limit", JNull) == OptInt(r.value.rateLimit)
    ensures r.Success? ==> Get(value.fields, "verify_ssl", JBool(true)) == JBool(r.value.verifySsl)
    ensures CheckKwargs(value, PrometheusKeys, {"url"}).Failure? ==> r.error.kind == TypeError
    ensures r.Failure? && CheckKwargs(value, PrometheusKeys, {"url"}).Success? ==> r.error.kind == MalformedBody
  {
    var m :- CheckKwargs(value, PrometheusKeys, {"url"});
    PrometheusTyped(m);
    var url :- AsStr(m["url"]);
    var username :- AsOptStr(Get(m, "username", JNull));
    var password :- AsOptStr(Get(m, "password", JNull));
    var token :- AsOptStr(Get(m, "token", JNull));
    var timeout :- AsInt(Get(m, "timeout", JInt(30)));
    var maxRetries :- AsInt(Get(m, "max_retries", JInt(3)));
    var rateLimit :- AsOptInt(Get(m, "rate_limit", JNull));
    var verifySsl :- AsBool(Get(m, "verify_ssl", JBool(true)));
    Success(PrometheusConfig(url, username, password, token, timeout, maxRetries, rateLimit, verifySsl))
  }


  /** `GrafanaConfig(**value)`, read as `PrometheusFromDict` reads its section. */
  function GrafanaFromDict(value: Json): (r: Result<GrafanaConfig, Error>)
    ensures r.Success? <==> CheckKwargs(value, GrafanaKeys, {"url"}).Success? && WellTyped(value.fields, GrafanaTypes)
    ensures r.Success? ==> value.fields["url"] == JStr(r.value.url)
    ensures r.Success? ==> Get(value.fields, "api_key", JNull) == OptStr(r.value.apiKey)
    ensures r.Success? ==> Get(value.fields, "username", JNull) == OptStr(r.value.username)
    ensures r.Success? ==> Get(value.fields, "password", JNull) == OptStr(r.value.password)
    ensures r.Success? ==> Get(value.fields, "org_id", JNull) == OptInt(r.value.orgId)
    ensures r.Success? ==> Get(value.fields, "timeout", JInt(30)) == JInt(r.value.timeout)
    ensures r.Success? ==> Get(value.fields, "max_retries", JInt(3)) == JInt(r.value.maxRetries)
    ensures r.Success? ==> Get(value.fields, "rate_limit", JNull) == OptInt(r.value.rateLimit)
    ensures r.Success? ==> Get(value.fields, "verify_ssl", JBool(true)) == JBool(r.value.verifySsl)
    ensures CheckKwargs(value, GrafanaKeys, {"url"}).Failure? ==> r.error.kind == TypeError
    ensures r.Failure? && CheckKwargs(value, GrafanaKeys, {"url"}).Success? ==> r.error.kind == MalformedBody
  {
    var m :- CheckKwargs(value, GrafanaKeys, {"url"});
    GrafanaTyped(m);
    var url :- AsStr(m["url"]);
    var apiKey :- AsOptStr(Get(m, "api_key", JNull));
    var username :- AsOptStr(Get(m, "username", JNull));
    var password :- AsOptStr(Get(m, "password", JNull));
    var orgId :- AsOptInt(Get(m, "org_id", JNull));
    var timeout :- AsInt(Get(m, "timeout", JInt(30)));
    var maxRetries :- AsInt(Get(m, "max_retries", JInt(3)));
    var rateLimit :- AsOptInt(Get(m, "rate_limit", JNull));
    var verifySsl :- AsBool(Get(m, "verify_ssl", JBool(true)));
    Success(GrafanaConfig(url, apiKey, username, password, orgId, timeout, maxRetries, rateLimit, verifySsl))
  }



  /** `LoggingConfig(**value)`: every field has a default. */
  function LoggingFromDict(value: Json): (r: Result<LoggingConfig, Error>)
    ensures value == JObj(map[]) ==> r == Success(DefaultLogging())
    ensures r.Success? <==> CheckKwargs(value, LoggingKeys, {}).Success? && WellTyped(value.fields, LoggingTypes)
    ensures r.Success? ==> Get(value.fields, "level", JStr("INFO")) == JStr(r.value.level)
    ensures r.Success? ==> Get(value.fields, "format", JStr(DefaultLogFormat)) == JStr(r.value.format)
    ensures r.Success? ==> Get(value.fields, "file", JNull) == OptStr(r.value.file)
    ensures CheckKwargs(value, LoggingKeys, {}).Failure? ==> r.error.kind == TypeError
    ensures r.Failure? && CheckKwargs(value, LoggingKeys, {}).Success? ==> r.error.kind == MalformedBody
  {
    var m :- CheckKwargs(value, LoggingKeys, {});
    LoggingTyped(m);
    var level :- AsStr(Get(m, "level", JStr("INFO")));
    var format :- AsStr(Get(m, "format", JStr(DefaultLogFormat)));
    var file :- AsOptStr(Get(m, "file", JNull));
    Success(LoggingConfig(level, format, file))
  }

  /** `Config.from_dict`: a section is set exactly when its key is present; the others keep their defaults. */
  function FromDict(data: map<string, Json>): (r: Result<Config, Error>)
    ensures r.Success? ==> (r.value.prometheus.Some? <==> "prometheus" in data)
    ensures r.Success? ==> (r.value.grafana.Some? <==> "grafana" in data)
    ensures r.Success? && "logging" !in data ==> r.value.logging == DefaultLogging()
    ensures r.Success? && "prometheus" in data ==> PrometheusFromDict(data["prometheus"]) == Success(r.value.prometheus.value)
    ensures r.Success? && "grafana" in data ==> GrafanaFromDict(data["grafana"]) == Success(r.value.grafana.value)
    ensures r.Success? && "logging" in data ==> LoggingFromDict(data["logging"]) == Success(r.value.logging)
    ensures data.Keys !! {"prometheus", "grafana", "logging"} ==> r == Success(DefaultConfig())
    ensures r.Success? <==>
              ("prometheus" in data ==> PrometheusFromDict(data["prometheus"]).Success?) &&
              ("grafana" in data ==> GrafanaFromDict(data["grafana"]).Success?) &&
              ("logging" in data ==> LoggingFromDict(data["logging"]).Success?)
    // The sections are read in the order prometheus, grafana, logging; the first failure is raised.
    ensures "prometheus" in data && PrometheusFromDict(data["prometheus"]).Failure? ==>
              r.Failure? && r.error == PrometheusFromDict(data["prometheus"]).error
    ensures ("prometheus" in data ==> PrometheusFromDict(data["prometheus"]).Success?) &&
            "grafana" in data && GrafanaFromDict(data["grafana"]).Failure? ==>
              r.Failure? && r.error == GrafanaFromDict(data["grafana"]).error
    ensures ("prometheus" in data ==> PrometheusFromDict(data["prometheus"]).Success?) &&
            ("grafana" in data ==> GrafanaFromDict(data["grafana"]).Success?) &&
            "logging" in data && LoggingFromDict(data["logging"]).Failure? ==>
              r.Failure? && r.error == LoggingFromDict(data["logging"]).error
  {
    var prometheus :- if "prometheus" in data then
                        var p :- PrometheusFromDict(data["prometheus"]); Success(Some(p))
                      else Success(None);
    var grafana :- if "grafana" in data then
                     var g :- GrafanaFromDict(data["grafana"]); Success(Some(g))
                   else Success(None);
    var logging :- if "logging" in data then LoggingFromDict(data["logging"]) else Success(DefaultLogging());
    Success(Config(prometheus, grafana, logging))
  }

  function PrometheusDict(p: PrometheusConfig): map<string, Json> {
    map[
      "url" := JStr(p.url),
      "username" := OptStr(p.username),
      "password" := OptStr(p.password),
      "token" := OptStr(p.token),
      "timeout" := JInt(p.timeout),
      "max_retries" := JInt(p.maxRetries),
      "rate_limit" := OptInt(p.rateLimit),
      "verify_ssl" := JBool(p.verifySsl)]
  }

  function GrafanaDict(g: GrafanaConfig): map<string, Json> {
    map[
      "url" := JStr(g.url),
      "api_key" := OptStr(g.apiKey),
      "username" := OptStr(g.username),
      "password" := OptStr(g.password),
      "org_id" := OptInt(g.orgId),
      "timeout" := JInt(g.timeout),
      "max_retries" := JInt(g.maxRetries),
      "rate_limit" := OptInt(g.rateLimit),
      "verify_ssl" := JBool(g.verifySsl)]
  }

  function LoggingDict(l: LoggingConfig): map<string, Json> {
    map["level" := JStr(l.level), "format" := JStr(l.format), "file" := OptStr(l.file)]
  }

  /**
   * `Config.to_dict`: "logging" always, "prometheus"/"grafana" exactly for
   * a present section (a dataclass instance is always truthy), each with
   * every field of its dataclass.
   */
  function ToDict(c: Config): (d: map<string, Json>)
    ensures "logging" in d && d["logging"].JObj? && d["logging"].fields.Keys == LoggingKeys
    ensures "prometheus" in d <==> c.prometheus.Some?
    ensures "grafana" in d <==> c.grafana.Some?
    ensures d.Keys <= {"prometheus", "grafana", "logging"}
    ensures c.prometheus.Some? ==> d["prometheus"].JObj? && d["prometheus"].fields.Keys == PrometheusKeys
    ensures c.grafana.Some? ==> d["grafana"].JObj? && d["grafana"].fields.Keys == GrafanaKeys
  {
    var d := map["logging" := JObj(LoggingDict(c.logging))];
    var d := if c.prometheus.Some? then d["prometheus" := JObj(PrometheusDict(c.prometheus.value))] else d;
    if c.grafana.Some? then d["grafana" := JObj(GrafanaDict(c.grafana.value))] else d
  }

  lemma PrometheusRoundTrip(p: PrometheusConfig)
    ensures PrometheusFromDict(JObj(PrometheusDict(p))) == Success(p)
  {
    var m := PrometheusDict(p);
    assert m.Keys == PrometheusKeys;
    assert CheckKwargs(JObj(m), PrometheusKeys, {"url"}) == Success(m);
    assert AsStr(m["url"]) == Success(p.url);
    assert AsOptStr(Get(m, "username", JNull)) == Success(p.username);
    assert AsOptStr(Get(m, "password", JNull)) == Success(p.password);
    assert AsOptStr(Get(m, "token", JNull)) == Success(p.token);
    assert AsInt(Get(m, "timeout", JInt(30))) == Success(p.timeout);
    assert AsInt(Get(m, "max_retries", JInt(3))) == Success(p.maxRetries);
    assert AsOptInt(Get(m, "rate_limit", JNull)) == Success(p.rateLimit);
    assert AsBool(Get(m, "verify_ssl", JBool(true))) == Success(p.verifySsl);
  }

  lemma GrafanaRoundTrip(g: GrafanaConfig)
    ensures GrafanaFromDict(JObj(GrafanaDict(g))) == Success(g)
  {
    var m := GrafanaDict(g);
    assert m.Keys == GrafanaKeys;
    assert CheckKwargs(JObj(m), GrafanaKeys, {"url"}) == Success(m);
    assert AsStr(m["url"]) == Success(g.url);
    assert AsOptStr(Get(m, "api_key", JNull)) == Success(g.apiKey);
    assert AsOptStr(Get(m, "username", JNull)) == Success(g.username);
    assert AsOptStr(Get(m, "password", JNull)) == Success(g.password);
    assert AsOptInt(Get(m, "org_id", JNull)) == Success(g.orgId);
    assert AsInt(Get(m, "timeout", JInt(30))) == Success(g.timeout);
    assert AsInt(Get(m, "max_retries", JInt(3))) == Success(g.maxRetries);
    assert AsOptInt(Get(m, "rate_limit", JNull)) == Success(g.rateLimit);
    assert AsBool(Get(m, "verify_ssl", JBool(true))) == Success(g.verifySsl);
  }

  lemma LoggingRoundTrip(l: LoggingConfig)
    ensures LoggingFromDict(JObj(LoggingDict(l))) == Success(l)
  {
    var m := LoggingDict(l);
    assert m.Keys == LoggingKeys;
  }

  /** `from_dict(to_dict(c))` reproduces `c`. */
  lemma DictRoundTrip(c: Config)
    ensures FromDict(ToDict(c)) == Success(c)
  {
    var d := ToDict(c);
    if c.prometheus.Some? {
      assert d["prometheus"] == JObj(PrometheusDict(c.prometheus.value));
      PrometheusRoundTrip(c.prometheus.value);
    }
    if c.grafana.Some? {
      assert d["grafana"] == JObj(GrafanaDict(c.grafana.value));
      GrafanaRoundTrip(c.grafana.value);
    }
    assert d["logging"] == JObj(LoggingDict(c.logging));
    LoggingRoundTrip(c.logging);
  }

  // ---------------------------------------------------------------------
  // from_env
  // ---------------------------------------------------------------------

  /** `os.getenv(key)`. */
  function GetEnv(env: map<string, string>, key: string): Option<string> {
    if key in env then Some(env[key]) else None
  }

  /** `os.getenv(key, default)`. */
  function GetEnvOr(env: map<string, string>, key: string, default: string): string {
    if key in env then env[key] else default
  }

  /** `int(text)`, raising `ValueError` on a non-numeral. */
  function Int(text: string): (r: Result<int, Error>)
    ensures r.Success? <==> ParseInt(text).Some?
    ensures r.Success? ==> r.value == ParseInt(text).value
    ensures r.Failure? ==> r.error.kind == ValueError
  {
    match ParseInt(text)
    case Some(n) => Success(n)
    case None => Failure(Raise(ValueError, "invalid literal for int() with base 10: '" + text + "'"))
  }

  /** `int(os.getenv(key) or 0) or None`: absent, empty or zero all give `None`. */
  function EnvOptInt(env: map<string, string>, key: string): (r: Result<Option<int>, Error>)
    ensures !StrTruthy(GetEnv(env, key)) ==> r == Success(None)
    ensures StrTruthy(GetEnv(env, key)) ==> (r.Success? <==> ParseInt(env[key]).Some?)
    ensures r.Success? && r.value.Some? ==> r.value.value != 0 && Some(r.value.value) == ParseInt(env[key])
    ensures r.Success? && StrTruthy(GetEnv(env, key)) && ParseInt(env[key]) != Some(0) ==> r.value == ParseInt(env[key])
  {
    var raw := GetEnv(env, key);
    if !StrTruthy(raw) then Success(None)
    else
      var n :- Int(raw.value);
      Success(if n != 0 then Some(n) else None)
  }

  /** `os.getenv(key, "true").lower() == "true"`. */
  function EnvFlag(env: map<string, string>, key: string): (b: bool)
    ensures key !in env ==> b
    ensures b <==> Lower(GetEnvOr(env, key, "true")) == "true"
  {
    Lower(GetEnvOr(env, key, "true")) == "true"
  }

  /** The textual defaults of `from_env` read as the dataclass defaults. */
  lemma DefaultNumbers()
    ensures ParseInt("30") == Some(30) && ParseInt("3") == Some(3)
  {
    assert AllDigits("30") && AllDigits("3");
    assert "30"[..1] == "3";
  }

  /**
   * The Prometheus section `from_env` builds from a truthy URL: the
   * credentials as set, the numbers parsed from their variables (or from
   * the textual defaults), a rate limit only when set to a non-zero
   * number, and TLS verification unless the flag reads otherwise.
   */
  function PrometheusFromEnv(env: map<string, string>, prefix: string, url: string): (r: Result<PrometheusConfig, Error>)
    ensures r.Success? <==> && ParseInt(GetEnvOr(env, prefix + "_PROMETHEUS_TIMEOUT", "30")).Some?
                            && ParseInt(GetEnvOr(env, prefix + "_PROMETHEUS_MAX_RETRIES", "3")).Some?
                            && EnvOptInt(env, prefix + "_PROMETHEUS_RATE_LIMIT").Success?
    ensures r.Success? ==> r.value == PrometheusConfig(
              url,
              GetEnv(env, prefix + "_PROMETHEUS_USERNAME"),
              GetEnv(env, prefix + "_PROMETHEUS_PASSWORD"),
              GetEnv(env, prefix + "_PROMETHEUS_TOKEN"),
              ParseInt(GetEnvOr(env, prefix + "_PROMETHEUS_TIMEOUT", "30")).value,
              ParseInt(GetEnvOr(env, prefix + "_PROMETHEUS_MAX_RETRIES", "3")).value,
              EnvOptInt(env, prefix + "_PROMETHEUS_RATE_LIMIT").value,
              EnvFlag(env, prefix + "_PROMETHEUS_VERIFY_SSL"))
    ensures r.Success? && prefix + "_PROMETHEUS_TIMEOUT" !in env ==> r.value.timeout == 30
    ensures r.Success? && prefix + "_PROMETHEUS_MAX_RETRIES" !in env ==> r.value.maxRetries == 3
    ensures r.Success? ==> (r.value.rateLimit.None? <==> var raw := GetEnv(env, prefix + "_PROMETHEUS_RATE_LIMIT");
                                                          !StrTruthy(raw) || ParseInt(raw.value) == Some(0))
    ensures r.Failure? ==> r.error.kind == ValueError
  {
    DefaultNumbers();
    var timeout :- Int(GetEnvOr(env, prefix + "_PROMETHEUS_TIMEOUT", "30"));
    var maxRetries :- Int(GetEnvOr(env, prefix + "_PROMETHEUS_MAX_RETRIES", "3"));
    var rateLimit :- EnvOptInt(env, prefix + "_PROMETHEUS_RATE_LIMIT");
    Success(PrometheusConfig(
      url,
      GetEnv(env, prefix + "_PROMETHEUS_USERNAME"),
      GetEnv(env, prefix + "_PROMETHEUS_PASSWORD"),
      GetEnv(env, prefix + "_PROMETHEUS_TOKEN"),
      timeout,
      maxRetries,
      rateLimit,
      EnvFlag(env, prefix + "_PROMETHEUS_VERIFY_SSL")))
  }

  /**
   * The Grafana section `from_env` builds from a truthy URL, read as the
   * Prometheus one, with an organisation id only when set to a non-zero
   * number.
   */
  function GrafanaFromEnv(env: map<string, string>, prefix: string, url: string): (r: Result<GrafanaConfig, Error>)
    ensures r.Success? <==> && EnvOptInt(env, prefix + "_GRAFANA_ORG_ID").Success?
                            && ParseInt(GetEnvOr(env, prefix + "_GRAFANA_TIMEOUT", "30")).Some?
                            && ParseInt(GetEnvOr(env, prefix + "_GRAFANA_MAX_RETRIES", "3")).Some?
                            && EnvOptInt(env, prefix + "_GRAFANA_RATE_LIMIT").Success?
    ensures r.Success? ==> r.value == GrafanaConfig(
              url,
              GetEnv(env, prefix + "_GRAFANA_API_KEY"),
              GetEnv(env, prefix + "_GRAFANA_USERNAME"),
              GetEnv(env, prefix + "_GRAFANA_PASSWORD"),
              EnvOptInt(env, prefix + "_GRAFANA_ORG_ID").value,
              ParseInt(GetEnvOr(env, prefix + "_GRAFANA_TIMEOUT", "30")).value,
              ParseInt(GetEnvOr(env, prefix + "_GRAFANA_MAX_RETRIES", "3")).value,
              EnvOptInt(env, prefix + "_GRAFANA_RATE_LIMIT").value,
              EnvFlag(env, prefix + "_GRAFANA_VERIFY_SSL"))
    ensures r.Success? && prefix + "_GRAFANA_TIMEOUT" !in env ==> r.value.timeout == 30
    ensures r.Success? && prefix + "_GRAFANA_MAX_RETRIES" !in env ==> r.value.maxRetries == 3
    ensures r.Success? ==> (r.value.orgId.None? <==> var raw := GetEnv(env, prefix + "_GRAFANA_ORG_ID");
                                                      !StrTruthy(raw) || ParseInt(raw.value) == Some(0))
    ensures r.Success? ==> (r.value.rateLimit.None? <==> var raw := GetEnv(env, prefix + "_GRAFANA_RATE_LIMIT");
                                                          !StrTruthy(raw) || ParseInt(raw.value) == Some(0))
    ensures r.Failure? ==> r.error.kind == ValueError
  {
    DefaultNumbers();
    var orgId :- EnvOptInt(env, prefix + "_GRAFANA_ORG_ID");
    var timeout :- Int(GetEnvOr(env, prefix + "_GRAFANA_TIMEOUT", "30"));
    var maxRetries :- Int(GetEnvOr(env, prefix + "_GRAFANA_MAX_RETRIES", "3"));
    var rateLimit :- EnvOptInt(env, prefix + "_GRAFANA_RATE_LIMIT");
    Success(GrafanaConfig(
      url,
      GetEnv(env, prefix + "_GRAFANA_API_KEY"),
      GetEnv(env, prefix + "_GRAFANA_USERNAME"),
      GetEnv(env, prefix + "_GRAFANA_PASSWORD"),
      orgId,
      timeout,
      maxRetries,
      rateLimit,
      EnvFlag(env, prefix + "_GRAFANA_VERIFY_SSL")))
  }

  /**
   * `Config.from_env`: a section exists exactly when its `_URL` variable
   * is truthy; logging is always read, with its defaults for absent
   * variables. A non-numeral in an integer variable raises `ValueError`.
   */
  function FromEnv(env: map<string, string>, prefix: string): (r: Result<Config, Error>)
    ensures r.Success? ==> (r.value.prometheus.Some? <==> StrTruthy(GetEnv(env, prefix + "_PROMETHEUS_URL")))
    ensures r.Success? ==> (r.value.grafana.Some? <==> StrTruthy(GetEnv(env, prefix + "_GRAFANA_URL")))
    ensures r.Success? ==> r.value.logging == LoggingConfig(GetEnvOr(env, prefix + "_LOG_LEVEL", "INFO"),
                                                            GetEnvOr(env, prefix + "_LOG_FORMAT", DefaultLogFormat),
                                                            GetEnv(env, prefix + "_LOG_FILE"))
    ensures r.Success? && r.value.prometheus.Some? ==>
              PrometheusFromEnv(env, prefix, env[prefix + "_PROMETHEUS_URL"]) == Success(r.value.prometheus.value)
    ensures r.Success? && r.value.grafana.Some? ==>
              GrafanaFromEnv(env, prefix, env[prefix + "_GRAFANA_URL"]) == Success(r.value.grafana.value)
    ensures r.Failure? <==> || (StrTruthy(GetEnv(env, prefix + "_PROMETHEUS_URL")) &&
                                PrometheusFromEnv(env, prefix, env[prefix + "_PROMETHEUS_URL"]).Failure?)
                            || (StrTruthy(GetEnv(env, prefix + "_GRAFANA_URL")) &&
                                GrafanaFromEnv(env, prefix, env[prefix + "_GRAFANA_URL"]).Failure?)
    ensures r.Failure? ==> r.error.kind == ValueError
    // Prometheus is read first, so its error is the one raised when both sections fail.
    ensures StrTruthy(GetEnv(env, prefix + "_PROMETHEUS_URL")) &&
            PrometheusFromEnv(env, prefix, env[prefix + "_PROMETHEUS_URL"]).Failure? ==>
              r.Failure? && r.error == PrometheusFromEnv(env, prefix, env[prefix + "_PROMETHEUS_URL"]).error
    ensures (StrTruthy(GetEnv(env, prefix + "_PROMETHEUS_URL")) ==>
               PrometheusFromEnv(env, prefix, env[prefix + "_PROMETHEUS_URL"]).Success?) &&
            StrTruthy(GetEnv(env, prefix + "_GRAFANA_URL")) &&
            GrafanaFromEnv(env, prefix, env[prefix + "_GRAFANA_URL"]).Failure? ==>
              r.Failure? && r.error == GrafanaFromEnv(env, prefix, env[prefix + "_GRAFANA_URL"]).error
  {
    var prometheusUrl := GetEnv(env, prefix + "_PROMETHEUS_URL");
    var prometheus :- if StrTruthy(prometheusUrl) then
                        var p :- PrometheusFromEnv(env, prefix, prometheusUrl.value); Success(Some(p))
                      else Success(None);
    var grafanaUrl := GetEnv(env, prefix + "_GRAFANA_URL");
    var grafana :- if StrTruthy(grafanaUrl) then
                     var g :- GrafanaFromEnv(env, prefix, grafanaUrl.value); Success(Some(g))
                   else Success(None);
    Success(Config(prometheus, grafana,
                   LoggingConfig(GetEnvOr(env, prefix + "_LOG_LEVEL", "INFO"),
                                 GetEnvOr(env, prefix + "_LOG_FORMAT", DefaultLogFormat),
                                 GetEnv(env, prefix + "_LOG_FILE"))))
  }

  /** With no variable set, `from_env` gives the default configuration. */
  lemma EmptyEnvironment(prefix: string)
    ensures FromEnv(map[], prefix) == Success(DefaultConfig())
  {
  }

  // ---------------------------------------------------------------------
  // from_file
  // ---------------------------------------------------------------------

  /** `key in s` for strings: `key` occurs in `s` as a substring. */
  predicate Occurs(key: string, s: string)
    decreases |s|
  {
    key <= s || (s != [] && Occurs(key, s[1..]))
  }

  /**
   * `key in data` for a document that is not a mapping: list membership,
   * substring for a string, and `None` for the `TypeError` of a value
   * that is not iterable.
   */
  function Membership(data: Json, key: string): (r: Option<bool>)
    ensures r.Some? <==> data.JArr? || data.JStr?
  {
    match data
    case JArr(items) => Some(JStr(key) in items)
    case JStr(s) => Some(Occurs(key, s))
    case _ => None
  }

  function TypeName(data: Json): string {
    match data
    case JNull => "NoneType"
    case JBool(_) => "bool"
    case JInt(_) => "int"
    case JFloat(_) => "float"
    case JStr(_) => "str"
    case JArr(_) => "list"
    case JObj(_) => "dict"
  }

  const SectionKeys := ["prometheus", "grafana", "logging"]

  /**
   * `Config.from_dict(data)` for any decoded document: a mapping goes
   * through `FromDict`; otherwise the `in` tests either raise
   * (`TypeError`: not iterable, or the subscript that follows a hit) or
   * all fail and the default configuration comes back.
   */
  function FromDocument(data: Json): (r: Result<Config, Error>)
    ensures data.JObj? ==> r == FromDict(data.fields)
    ensures !data.JObj? && r.Success? ==> r.value == DefaultConfig()
    ensures !data.JObj? && r.Failure? ==> r.error.kind == TypeError
    ensures (data.JArr? || data.JStr?) ==>
              (r.Success? <==> forall k :: k in SectionKeys ==> Membership(data, k) == Some(false))
    ensures data.JNull? || data.JBool? || data.JInt? || data.JFloat? ==> r.Failure?
  {
    if data.JObj? then FromDict(data.fields)
    else if Membership(data, "prometheus").None? then
      Failure(Raise(TypeError, "argument of type '" + TypeName(data) + "' is not iterable"))
    else if exists k :: k in SectionKeys && Membership(data, k) == Some(true) then
      Failure(Raise(TypeError, if data.JStr? then "string indices must be integers"
                               else "list indices must be integers or slices, not str"))
    else Success(DefaultConfig())
  }

  /** The `ConfigurationError` `from_file` raises around any failure while loading. */
  function LoadFailure(path: string, e: Error): (w: Error)
    ensures w.kind == ConfigurationError
    ensures w.message == "Failed to load config from " + path + ": " + Str(e)
  {
    Raise(ConfigurationError, "Failed to load config from " + path + ": " + Str(e))
  }

  /**
   * `Config.from_file`. The file system is four parameters: whether the
   * path exists, the error opening it raises (if any), its suffix, and
   * what parsing the opened file as YAML or JSON gave. Every failure after
   * the existence check, the unsupported suffix included, is re-raised as
   * a `ConfigurationError`; the file is opened before its suffix is
   * looked at.
   */
  function FromFile(path: string, exists_: bool, openError: Option<Error>, suffix: string, parsed: Result<Json, Error>)
    : (r: Result<Config, Error>)
    ensures !exists_ ==> r == Failure(Raise(ConfigurationError, "Config file not found: " + path))
    ensures r.Failure? ==> r.error.kind == ConfigurationError
    ensures exists_ && openError.Some? ==> r == Failure(LoadFailure(path, openError.value))
    ensures exists_ && openError.None? && Lower(suffix) !in {".yaml", ".yml", ".json"} ==>
              r == Failure(LoadFailure(path, Raise(ConfigurationError, "Unsupported config file format: " + suffix)))
    ensures r.Success? ==> exists_ && openError.None? && parsed.Success? && FromDocument(parsed.value) == r
    ensures exists_ && openError.None? && Lower(suffix) in {".yaml", ".yml", ".json"} && parsed.Success? ==>
              if FromDocument(parsed.value).Success? then r == FromDocument(parsed.value)
              else r == Failure(LoadFailure(path, FromDocument(parsed.value).error))
    ensures exists_ && openError.None? && Lower(suffix) in {".yaml", ".yml", ".json"} && parsed.Failure? ==>
              r == Failure(LoadFailure(path, parsed.error))
  {
    if !exists_ then Failure(Raise(ConfigurationError, "Config file not found: " + path))
    else if openError.Some? then Failure(LoadFailure(path, openError.value))
    else if Lower(suffix) !in {".yaml", ".yml", ".json"} then
      Failure(LoadFailure(path, Raise(ConfigurationError, "Unsupported config file format: " + suffix)))
    else if parsed.Failure? then Failure(LoadFailure(path, parsed.error))
    else
      match FromDocument(parsed.value)
      case Success(c) => Success(c)
      case Failure(e) => Failure(LoadFailure(path, e))
  }

  // ---------------------------------------------------------------------
  // load_config
  // ---------------------------------------------------------------------

  /**
   * The merge of `load_config`: an environment section replaces the
   * file's only when present, while logging is always the environment's
   * (a dataclass instance is always truthy).
   */
  function Merge(file: Config, environment: Config): (c: Config)
    ensures environment.prometheus.Some? ==> c.prometheus == environment.prometheus
    ensures environment.prometheus.None? ==> c.prometheus == file.prometheus
    ensures environment.grafana.Some? ==> c.grafana == environment.grafana
    ensures environment.grafana.None? ==> c.grafana == file.grafana
    ensures c.logging == environment.logging
  {
    Config(if environment.prometheus.Some? then environment.prometheus else file.prometheus,
           if environment.grafana.Some? then environment.grafana else file.grafana,
           environment.logging)
  }

  /** Merging with the environment's reading of an empty environment keeps the file's sections. */
  lemma MergeEmptyEnvironment(file: Config, prefix: string)
    ensures Merge(file, FromEnv(map[], prefix).value) == file.(logging := DefaultLogging())
  {
    EmptyEnvironment(prefix);
  }

  /**
   * `load_config`. A non-empty `configPath` is loaded with `from_file`
   * (the file system given as in `FromFile`); the environment, when read,
   * is merged over it with `Merge`; the result is what `validate` accepts,
   * or the `ConfigurationError` it raises.
   */
  method LoadConfig(configPath: string, exists_: bool, openError: Option<Error>, suffix: string, parsed: Result<Json, Error>,
                    fromEnv: bool, env: map<string, string>, prefix: string)
    returns (r: Result<Config, Error>)
    ensures r == (var loaded := FromFile(configPath, exists_, openError, suffix, parsed);
                  if configPath != "" && loaded.Failure? then loaded
                  else if fromEnv && FromEnv(env, prefix).Failure? then FromEnv(env, prefix)
                  else
                    var file := if configPath != "" then loaded.value else DefaultConfig();
                    var merged := if fromEnv then Merge(file, FromEnv(env, prefix).value) else file;
                    if Validate(merged).Some? then Failure(Validate(merged).value) else Success(merged))
    ensures r.Success? ==> Valid(r.value)
    ensures r.Failure? ==> r.error.kind == ConfigurationError || (fromEnv && r == FromEnv(env, prefix))
  {
    var config := DefaultConfig();
    if configPath != "" {
      var loaded := FromFile(configPath, exists_, openError, suffix, parsed);
      if loaded.Failure? {
        return loaded;
      }
      config := loaded.value;
    }
    if fromEnv {
      var envConfig := FromEnv(env, prefix);
      if envConfig.Failure? {
        return envConfig;
      }
      ghost var fileConfig := config;
      if envConfig.value.prometheus.Some? {
        config := config.(prometheus := envConfig.value.prometheus);
      }
      if envConfig.value.grafana.Some? {
        config := config.(grafana := envConfig.value.grafana);
      }
      config := config.(logging := envConfig.value.logging);
      assert config == Merge(fileConfig, envConfig.value);
    }
    var problem := Validate(config);
    if problem.Some? {
      return Failure(problem.value);
    }
    return Success(config);
  }
}
