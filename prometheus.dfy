/**
 * The Prometheus client: its auth header, the parameters of instant and
 * range queries, how `query`/`query_range` turn any failure into a failed
 * result, the normalisation and dispatch of `query_multiple`,
 * `create_queries`, and the target list of `get_targets_detailed`.
 */
module Prometheus {
  import opened Wrappers
  import opened Text
  import opened Json
  import opened Exceptions
  import opened Fields
  import opened Base
  import opened Models

  // ---------------------------------------------------------------------
  // Inputs of query_multiple and create_queries
  // ---------------------------------------------------------------------

  /**
   * A query written as a dict, by the keys the library reads. `name` tells
   * an absent key (outer `None`) from a `None` value, since `create_queries`
   * indexes it with `[]`; the other optional keys are read with `.get`, for
   * which the two are the same.
   */
  datatype QueryDict = QueryDict(
    name: Option<Option<string>>,
    query: Option<string>,
    description: Option<string>,
    category: Option<string>,
    timeout: Option<string>,
    start: Option<Time>,
    end: Option<Time>,
    step: Option<Step>)

  /** `d.get("name")`. */
  function DictName(d: QueryDict): Option<string> {
    if d.name.Some? then d.name.value else None
  }

  /** One element of the list given to `query_multiple`, by its Python type. */
  datatype QueryInput =
    | TextInput(text: string)
    | QueryObject(q: Query)
    | DictInput(d: QueryDict)
    | OtherInput(typeName: string)   // any other type, by its class name

  /** A range query that cannot be dispatched: its step is falsy. */
  predicate LacksStep(q: Query) {
    q.IsRangeQuery() && !StepTruthy(q.step)
  }

  function StepError(q: Query): (e: Error)
    ensures e.kind == ValueError
  {
    Raise(ValueError, "Range query '" + q.query + "' requires step parameter")
  }

  function KeyMissing(key: string): (e: Error)
    ensures e.kind == KeyError
  {
    Raise(KeyError, "'" + key + "'")
  }

  /** One step of the normalisation loop of `query_multiple`. */
  function Normalize(input: QueryInput): (r: Result<Query, Error>)
    ensures r.Success? ==> !LacksStep(r.value)
    ensures r.Failure? ==> r.error.kind == ValueError || r.error.kind == KeyError
    ensures input.TextInput? ==> r.Success? && r.value == QueryOf(input.text)
    ensures input.QueryObject? ==>
              (r.Success? <==> !LacksStep(input.q)) &&
              (r.Success? ==> r.value == input.q) &&
              (r.Failure? ==> r.error == StepError(input.q))
    ensures input.DictInput? ==>
              (r.Success? <==> input.d.query.Some? &&
                               !(input.d.start.Some? && input.d.end.Some? && !StepTruthy(input.d.step)))
    ensures input.DictInput? && input.d.query.None? ==> r == Failure(KeyMissing("query"))
    ensures input.DictInput? && r.Success? ==>
              r.value.name == DictName(input.d) && r.value.query == input.d.query.value &&
              r.value.start == input.d.start && r.value.end == input.d.end && r.value.step == input.d.step &&
              r.value.description.None? && r.value.category.None? && r.value.timeout.None?
    ensures input.DictInput? && input.d.query.Some? && r.Failure? ==>
              r.error.message == "Range query '" + input.d.query.value + "' requires step parameter"
    ensures input.OtherInput? ==>
              r == Failure(Raise(ValueError, "Unsupported query type: <class '" + input.typeName + "'>"))
  {
    match input
    case TextInput(text) => Success(QueryOf(text))
    case QueryObject(q) => if LacksStep(q) then Failure(StepError(q)) else Success(q)
    case DictInput(d) =>
      if d.query.None? then Failure(KeyMissing("query"))
      else
        var q := Query(DictName(d), d.query.value, None, None, None, d.start, d.end, d.step);
        if LacksStep(q) then Failure(StepError(q)) else Success(q)
    case OtherInput(typeName) =>
      Failure(Raise(ValueError, "Unsupported query type: <class '" + typeName + "'>"))
  }

  /** One element of `create_queries`: "name" is read before "query", both with `[]`. */
  function CreateQuery(d: QueryDict): (r: Result<Query, Error>)
    ensures r.Success? <==> d.name.Some? && d.query.Some?
    ensures d.name.None? ==> r == Failure(KeyMissing("name"))
    ensures d.name.Some? && d.query.None? ==> r == Failure(KeyMissing("query"))
    ensures r.Success? ==>
              r.value.name == d.name.value && r.value.query == d.query.value &&
              r.value.description == d.description && r.value.category == d.category &&
              r.value.timeout == d.timeout && r.value.start == d.start && r.value.end == d.end &&
              r.value.step == d.step
  {
    if d.name.None? then Failure(KeyMissing("name"))
    else if d.query.None? then Failure(KeyMissing("query"))
    else Success(Query(d.name.value, d.query.value, d.description, d.category, d.timeout, d.start, d.end, d.step))
  }

  /**
   * The two ways a dict becomes a `Query` agree on name, text and range
   * fields; `query_multiple` drops description, category and timeout, and
   * it alone refuses a range query without a step.
   */
  lemma DictPathsAgree(d: QueryDict)
    requires d.name.Some? && d.query.Some?
    ensures var created := CreateQuery(d).value;
            var normalised := Normalize(DictInput(d));
            (normalised.Success? <==> Normalize(QueryObject(created)).Success?) &&
            (normalised.Success? ==>
               normalised.value == created.(description := None, category := None, timeout := None))
  {
  }

  /** `create_queries`: one query per dict, in order; the first missing key raises. */
  method CreateQueries(dicts: seq<QueryDict>) returns (r: Result<seq<Query>, Error>)
    ensures r.Success? <==> forall i :: 0 <= i < |dicts| ==> dicts[i].name.Some? && dicts[i].query.Some?
    ensures r.Success? ==> |r.value| == |dicts|
    ensures r.Success? ==> forall i :: 0 <= i < |dicts| ==> CreateQuery(dicts[i]) == Success(r.value[i])
    ensures r.Failure? ==> r.error.kind == KeyError && exists i :: FailsFirstAt(CreateQuery, dicts, i, r.error)
  {
    r := TryMap(CreateQuery, dicts);
    if r.Failure? {
      var i :| FailsFirstAt(CreateQuery, dicts, i, r.error);
    }
  }

  /** The normalisation loop of `query_multiple`: every input, in order, or the first exception. */
  method NormalizeAll(inputs: seq<QueryInput>) returns (r: Result<seq<Query>, Error>)
    ensures r.Success? <==> forall i :: 0 <= i < |inputs| ==> Normalize(inputs[i]).Success?
    ensures r.Success? ==> |r.value| == |inputs|
    ensures r.Success? ==> forall i :: 0 <= i < |inputs| ==> Normalize(inputs[i]) == Success(r.value[i]) && !LacksStep(r.value[i])
    ensures r.Failure? ==> exists i :: FailsFirstAt(Normalize, inputs, i, r.error)
  {
    r := TryMap(Normalize, inputs);
  }

  // ---------------------------------------------------------------------
  // Query parameters
  // ---------------------------------------------------------------------

  /** The `params` of `query`: a `datetime` is always truthy, so "time" is there whenever a time is. */
  function InstantParams(query: string, queryTime: Option<Time>, timeout: Option<string>): (p: map<string, Json>)
    ensures p.Keys <= {"query", "time", "timeout"}
    ensures "query" in p && p["query"] == JStr(query)
    ensures "time" in p <==> queryTime.Some?
    ensures queryTime.Some? ==> p["time"] == JFloat(queryTime.value.epoch)
    ensures "timeout" in p <==> StrTruthy(timeout)
    ensures StrTruthy(timeout) ==> p["timeout"] == JStr(timeout.value)
  {
    var p := map["query" := JStr(query)];
    var p := if queryTime.Some? then p["time" := JFloat(queryTime.value.epoch)] else p;
    if StrTruthy(timeout) then p["timeout" := JStr(timeout.value)] else p
  }

  /** The `params` of `query_range`. */
  function RangeParams(query: string, start: Time, end: Time, step: Step, timeout: Option<string>): (p: map<string, Json>)
    ensures p.Keys == {"query", "start", "end", "step"} + (if StrTruthy(timeout) then {"timeout"} else {})
    ensures p["query"] == JStr(query) && p["start"] == JFloat(start.epoch) && p["end"] == JFloat(end.epoch)
    ensures p["step"] == StepJson(step)
    ensures StrTruthy(timeout) ==> p["timeout"] == JStr(timeout.value)
  {
    var p := map["query" := JStr(query), "start" := JFloat(start.epoch), "end" := JFloat(end.epoch),
                 "step" := StepJson(step)];
    if StrTruthy(timeout) then p["timeout" := JStr(timeout.value)] else p
  }

  /**
   * What `query`/`query_range` return for what `_request` ended in: the
   * decoded body, or `from_error` when the request raised or the body
   * could not be decoded. They never raise.
   */
  function ResultOf(query: string, kind: QueryKind, outcome: Outcome): (r: QueryResult)
    ensures WellFormed(r)
    ensures r.queryName.None? && r.query == query && r.queryType == kind && r.executionTime.None?
    ensures outcome.Raised? ==> r == FromError(None, query, outcome.error, None, kind)
    ensures outcome.Body? && FromResponseSpec(None, query, outcome.json, None, kind).Success? ==>
              r == FromResponseSpec(None, query, outcome.json, None, kind).value
    ensures outcome.Body? && FromResponseSpec(None, query, outcome.json, None, kind).Failure? ==>
              r == FromError(None, query, FromResponseSpec(None, query, outcome.json, None, kind).error, None, kind)
  {
    match outcome
    case Raised(e) => FromError(None, query, e, None, kind)
    case Body(json) =>
      match FromResponseSpec(None, query, json, None, kind)
      case Success(result) => result
      case Failure(e) => FromError(None, query, e, None, kind)
  }

  /** The `try` block of `query`/`query_range`, with the decoding loops of `from_response`. */
  method Decode(query: string, kind: QueryKind, outcome: Outcome) returns (r: QueryResult)
    ensures r == ResultOf(query, kind, outcome)
  {
    if outcome.Raised? {
      return FromError(None, query, outcome.error, None, kind);
    }
    var decoded := FromResponse(None, query, outcome.json, None, kind);
    if decoded.Failure? {
      return FromError(None, query, decoded.error, None, kind);
    }
    return decoded.value;
  }

  /**
   * The decorated result of one task of `query_multiple`: the query's
   * result with its execution time set and, only for a truthy name, its
   * name set.
   */
  function TaskResult(q: Query, outcome: Outcome, elapsed: real): (r: QueryResult)
    ensures WellFormed(r)
    ensures r.query == q.query && r.queryType == q.QueryType() && r.executionTime == Some(elapsed)
    ensures r.queryName == if StrTruthy(q.name) then q.name else None
    ensures outcome.Raised? ==> !r.success && r.status == "error" && r.error == Some(Str(outcome.error))
    ensures r.success ==> outcome.Body?
  {
    var result := ResultOf(q.query, q.QueryType(), outcome);
    result.(executionTime := Some(elapsed), queryName := if StrTruthy(q.name) then q.name else result.queryName)
  }

  /** Task `j` of `query_multiple`: the decorated result of query `q` sent as `request`. */
  function Task(transport: HttpRequest -> Outcome, elapsed: nat -> real): (Query, HttpRequest, nat) -> QueryResult
  {
    (q: Query, request: HttpRequest, j: nat) => TaskResult(q, transport(request), elapsed(j))
  }

  /** The results of the tasks: task `j` answers `transport(sent[j])` after `elapsed(j)`. */
  function TaskResults(queries: seq<Query>, sent: seq<HttpRequest>, transport: HttpRequest -> Outcome,
                       elapsed: nat -> real): (r: seq<QueryResult>)
    requires |sent| == |queries|
    ensures |r| == |queries|
  {
    MapPairs(queries, sent, Task(transport, elapsed))
  }

  /** Task `j` answers with the decorated result of its own request. */
  lemma TaskResultsAt(queries: seq<Query>, sent: seq<HttpRequest>, transport: HttpRequest -> Outcome,
                      elapsed: nat -> real, j: int)
    requires |sent| == |queries| && 0 <= j < |queries|
    ensures TaskResults(queries, sent, transport, elapsed)[j] == TaskResult(queries[j], transport(sent[j]), elapsed(j))
  {
    MapPairsAt(queries, sent, Task(transport, elapsed), j);
  }

  /** One more task appends the decorated result of its own request. */
  lemma TaskResultsStep(queries: seq<Query>, sent: seq<HttpRequest>, request: HttpRequest,
                        transport: HttpRequest -> Outcome, elapsed: nat -> real, i: int)
    requires 0 <= i < |queries| && |sent| == i
    ensures TaskResults(queries[..i + 1], sent + [request], transport, elapsed) ==
            TaskResults(queries[..i], sent, transport, elapsed) + [Task(transport, elapsed)(queries[i], request, i)]
  {
    assert queries[..i + 1][..i] == queries[..i];
    assert (sent + [request])[..i] == sent;
  }

  /** A wrapped failure: `PrometheusError(f"{prefix}: {str(e)}")`. */
  function Wrap(prefix: string, e: Error): (w: Error)
    ensures w.kind == PrometheusError && w.statusCode.None?
    ensures Str(w) == prefix + ": " + Str(e)
  {
    NewAPIError(PrometheusError, prefix + ": " + Str(e), None, None)
  }

  // ---------------------------------------------------------------------
  // Targets
  // ---------------------------------------------------------------------

  /** `PrometheusTarget`. */
  datatype Target = Target(
    instance: string,
    job: string,
    health: string,
    lastError: Option<string>,
    scrapeInterval: Option<string>,
    scrapeTimeout: Option<string>,
    labels: map<string, string>,
    discoveredLabels: map<string, string>,
    scrapePool: Option<string>,
    scrapeUrl: Option<string>,
    globalUrl: Option<string>)

  /** A JSON value an `Optional[str]` field accepts. */
  predicate OptStrValue(j: Json) {
    j.JNull? || j.JStr?
  }

  /** A JSON object all of whose values are strings: what a `Dict[str, str]` field accepts. */
  predicate StrObject(j: Json) {
    j.JObj? && forall k :: k in j.fields ==> j.fields[k].JStr?
  }

  /**
   * A target the loop of `get_targets_detailed` reads: an object whose
   * labels and discovered labels (default `{}`) are objects of strings and
   * whose other fields, where present, have the types `PrometheusTarget`
   * declares.
   */
  predicate TargetReadable(target: Json) {
    && target.JObj?
    && StrObject(Get(target.fields, "labels", JObj(map[])))
    && Get(target.fields, "health", JStr("")).JStr?
    && OptStrValue(Get(target.fields, "lastError", JNull))
    && OptStrValue(Get(target.fields, "scrapeInterval", JStr("")))
    && OptStrValue(Get(target.fields, "scrapeTimeout", JStr("")))
    && StrObject(Get(target.fields, "discoveredLabels", JObj(map[])))
    && OptStrValue(Get(target.fields, "scrapePool", JStr("")))
    && OptStrValue(Get(target.fields, "scrapeUrl", JStr("")))
    && OptStrValue(Get(target.fields, "globalUrl", JStr("")))
  }

  /** One target of the loop of `get_targets_detailed`. */
  function TargetOf(target: Json): (r: Result<Target, Error>)
    ensures r.Success? <==> TargetReadable(target)
    ensures r.Failure? ==> r.error.kind == MalformedBody
    ensures r.Success? ==> target.JObj? && Get(target.fields, "labels", JObj(map[])).JObj?
    ensures r.Success? ==>
              var labels := Get(target.fields, "labels", JObj(map[])).fields;
              StrMap(r.value.labels) == labels &&
              JStr(r.value.instance) == Get(labels, "__address__", JStr("unknown")) &&
              JStr(r.value.job) == Get(labels, "job", JStr("unknown")) &&
              JStr(r.value.health) == Get(target.fields, "health", JStr("")) &&
              OptStr(r.value.lastError) == Get(target.fields, "lastError", JNull) &&
              OptStr(r.value.scrapeInterval) == Get(target.fields, "scrapeInterval", JStr("")) &&
              OptStr(r.value.scrapeTimeout) == Get(target.fields, "scrapeTimeout", JStr("")) &&
              Get(target.fields, "discoveredLabels", JObj(map[])).JObj? &&
              StrMap(r.value.discoveredLabels) == Get(target.fields, "discoveredLabels", JObj(map[])).fields &&
              OptStr(r.value.scrapePool) == Get(target.fields, "scrapePool", JStr("")) &&
              OptStr(r.value.scrapeUrl) == Get(target.fields, "scrapeUrl", JStr("")) &&
              OptStr(r.value.globalUrl) == Get(target.fields, "globalUrl", JStr(""))
  {
    var fields :- AsObject(target);
    var rawLabels :- AsObject(Get(fields, "labels", JObj(map[])));
    var instance :- AsStr(Get(rawLabels, "__address__", JStr("unknown")));
    var job :- AsStr(Get(rawLabels, "job", JStr("unknown")));
    var health :- AsStr(Get(fields, "health", JStr("")));
    var lastError :- AsOptStr(Get(fields, "lastError", JNull));
    var scrapeInterval :- AsOptStr(Get(fields, "scrapeInterval", JStr("")));
    var scrapeTimeout :- AsOptStr(Get(fields, "scrapeTimeout", JStr("")));
    var labels :- AsStrMap(rawLabels);
    var rawDiscovered :- AsObject(Get(fields, "discoveredLabels", JObj(map[])));
    var discoveredLabels :- AsStrMap(rawDiscovered);
    var scrapePool :- AsOptStr(Get(fields, "scrapePool", JStr("")));
    var scrapeUrl :- AsOptStr(Get(fields, "scrapeUrl", JStr("")));
    var globalUrl :- AsOptStr(Get(fields, "globalUrl", JStr("")));
    Success(Target(instance, job, health, lastError, scrapeInterval, scrapeTimeout, labels, discoveredLabels,
                   scrapePool, scrapeUrl, globalUrl))
  }

  /**
   * The targets `get_targets_detailed` iterates over:
   * `response.get("data", {}).get("activeTargets", [])`, where the body and
   * its "data" must be objects and the targets a list (an empty object or
   * string counts as no targets).
   */
  function ActiveTargets(response: Json): (r: Result<seq<Json>, Error>)
    ensures r.Success? <==> response.JObj? && Get(response.fields, "data", JObj(map[])).JObj? &&
                            IterableOfObjects(Get(Get(response.fields, "data", JObj(map[])).fields, "activeTargets", JArr([])))
    ensures r.Success? ==> r == Iterated(Get(Get(response.fields, "data", JObj(map[])).fields, "activeTargets", JArr([])))
    ensures r.Failure? ==> r.error.kind == MalformedBody
    ensures response.JObj? && "data" !in response.fields ==> r == Success([])
  {
    var body :- AsObject(response);
    var data :- AsObject(Get(body, "data", JObj(map[])));
    Iterated(Get(data, "activeTargets", JArr([])))
  }

  // ---------------------------------------------------------------------
  // The client
  // ---------------------------------------------------------------------

  /** `PrometheusClient`: the shared client settings plus credentials. */
  class PrometheusClient {
    const base: BaseClient
    const username: Option<string>
    const password: Option<string>
    const token: Option<string>
    /** `base64.b64encode(s.encode()).decode()`, left uninterpreted. */
    const base64: string -> string

    constructor (url: string, username: Option<string>, password: Option<string>, token: Option<string>,
                 timeout: int, maxRetries: int, rateLimit: Option<int>, headers: Option<map<string, string>>,
                 verifySsl: bool, base64: string -> string)
      ensures base.baseUrl == RStrip(url, '/') && base.headers == headers.GetOr(map[])
      ensures base.timeout == timeout && base.maxRetries == maxRetries && base.verifySsl == verifySsl
      ensures base.throttleRate.Some? <==> IntTruthy(rateLimit)
      ensures this.username == username && this.password == password && this.token == token
      ensures this.base64 == base64
    {
      this.base := new BaseClient(url, timeout, maxRetries, rateLimit, headers, verifySsl);
      this.username := username;
      this.password := password;
      this.token := token;
      this.base64 := base64;
    }

    /**
     * `_prepare_auth_headers`: a truthy token wins; otherwise a truthy
     * username and password give Basic auth; otherwise no header.
     */
    function AuthHeaders(): (h: map<string, string>)
      ensures h.Keys <= {"Authorization"}
      ensures "Authorization" in h <==> StrTruthy(token) || (StrTruthy(username) && StrTruthy(password))
      ensures StrTruthy(token) ==> h["Authorization"] == "Bearer " + token.value
      ensures !StrTruthy(token) && "Authorization" in h ==>
                h["Authorization"] == "Basic " + base64(username.value + ":" + password.value)
    {
      if StrTruthy(token) then map["Authorization" := "Bearer " + token.value]
      else if StrTruthy(username) && StrTruthy(password) then
        map["Authorization" := "Basic " + base64(username.value + ":" + password.value)]
      else map[]
    }

    /** The request `query` sends. */
    function InstantRequest(query: string, queryTime: Option<Time>, timeout: Option<string>): (r: HttpRequest)
      ensures r == base.Prepare("GET", "api/v1/query", InstantParams(query, queryTime, timeout), None, Some(AuthHeaders()))
    {
      base.Prepare("GET", "api/v1/query", InstantParams(query, queryTime, timeout), None, Some(AuthHeaders()))
    }

    /** The request `query_range` sends. */
    function RangeRequest(query: string, start: Time, end: Time, step: Step, timeout: Option<string>): (r: HttpRequest)
      ensures r == base.Prepare("GET", "api/v1/query_range", RangeParams(query, start, end, step, timeout), None,
                                Some(AuthHeaders()))
    {
      base.Prepare("GET", "api/v1/query_range", RangeParams(query, start, end, step, timeout), None, Some(AuthHeaders()))
    }

    /** The request one task of `query_multiple` sends: the range endpoint exactly for a range query. */
    function TaskRequest(q: Query, queryTime: Option<Time>): (r: HttpRequest)
      requires !LacksStep(q)
      ensures q.IsRangeQuery() ==> r == RangeRequest(q.query, q.start.value, q.end.value, q.step.value, q.timeout)
      ensures q.IsInstantQuery() ==> r == InstantRequest(q.query, queryTime, q.timeout)
    {
      if q.IsRangeQuery() then RangeRequest(q.query, q.start.value, q.end.value, q.step.value, q.timeout)
      else InstantRequest(q.query, queryTime, q.timeout)
    }

    /** `query`: an instant query; any failure becomes a failed result. */
    method QueryInstant(query: string, queryTime: Option<Time>, timeout: Option<string>,
                        transport: HttpRequest -> Outcome)
      returns (r: QueryResult, sent: HttpRequest)
      ensures sent == InstantRequest(query, queryTime, timeout)
      ensures r == ResultOf(query, Instant, transport(sent))
    {
      var params := map["query" := JStr(query)];
      if queryTime.Some? {
        params := params["time" := JFloat(queryTime.value.epoch)];
      }
      if StrTruthy(timeout) {
        params := params["timeout" := JStr(timeout.value)];
      }
      var outcome;
      sent, outcome := base.Request("GET", "api/v1/query", params, None, Some(AuthHeaders()), transport);
      r := Decode(query, Instant, outcome);
    }

    /** `query_range`: a range query; any failure becomes a failed result. */
    method QueryRange(query: string, start: Time, end: Time, step: Step, timeout: Option<string>,
                      transport: HttpRequest -> Outcome)
      returns (r: QueryResult, sent: HttpRequest)
      ensures sent == RangeRequest(query, start, end, step, timeout)
      ensures r == ResultOf(query, Range, transport(sent))
    {
      var params := map["query" := JStr(query), "start" := JFloat(start.epoch), "end" := JFloat(end.epoch),
                        "step" := StepJson(step)];
      if StrTruthy(timeout) {
        params := params["timeout" := JStr(timeout.value)];
      }
      var outcome;
      sent, outcome := base.Request("GET", "api/v1/query_range", params, None, Some(AuthHeaders()), transport);
      r := Decode(query, Range, outcome);
    }

    /**
     * `execute_single_query`: the range endpoint for a range query, else the
     * instant one; the result then records the elapsed time and, when the
     * query has a non-empty name, that name.
     */
    method ExecuteSingleQuery(q: Query, queryTime: Option<Time>, transport: HttpRequest -> Outcome, elapsedTime: real)
      returns (result: QueryResult, request: HttpRequest)
      requires !LacksStep(q)
      ensures request == TaskRequest(q, queryTime)
      ensures result == TaskResult(q, transport(request), elapsedTime)
    {
      if q.IsRangeQuery() {
        result, request := QueryRange(q.query, q.start.value, q.end.value, q.step.value, q.timeout, transport);
      } else {
        result, request := QueryInstant(q.query, queryTime, q.timeout, transport);
      }
      result := result.(executionTime := Some(elapsedTime));
      if StrTruthy(q.name) {
        result := result.(queryName := q.name);
      }
    }

    /**
     * `query_multiple`, run one task after another: every input is
     * normalised first, and the first failure raises before any request is
     * sent; then each query yields exactly one result, in input order.
     * `elapsed(i)` is the duration the clock reports for task `i`.
     */
    method QueryMultiple(inputs: seq<QueryInput>, queryTime: Option<Time>, transport: HttpRequest -> Outcome,
                         elapsed: nat -> real)
      returns (r: Result<seq<QueryResult>, Error>, sent: seq<HttpRequest>)
      ensures r.Success? <==> forall i :: 0 <= i < |inputs| ==> Normalize(inputs[i]).Success?
      ensures r.Failure? ==> sent == [] && exists i :: FailsFirstAt(Normalize, inputs, i, r.error)
      ensures r.Success? ==> |r.value| == |inputs| && |sent| == |inputs|
      ensures r.Success? ==> forall i :: 0 <= i < |inputs| ==>
                var q := Normalize(inputs[i]).value;
                sent[i] == TaskRequest(q, queryTime) && r.value[i] == TaskResult(q, transport(sent[i]), elapsed(i))
    {
      var normalised := NormalizeAll(inputs);
      if normalised.Failure? {
        return Failure(normalised.error), [];
      }
      var queries := normalised.value;
      var results;
      results, sent := ExecuteAll(queries, queryTime, transport, elapsed);
      forall i | 0 <= i < |inputs|
        ensures sent[i] == TaskRequest(queries[i], queryTime)
        ensures results[i] == TaskResult(queries[i], transport(sent[i]), elapsed(i))
      {
        TaskRequestsAt(queries, queryTime, i);
        TaskResultsAt(queries, sent, transport, elapsed, i);
      }
      return Success(results), sent;
    }

    /** The requests of the tasks of `query_multiple`, one per query and in order. */
    function TaskRequests(queries: seq<Query>, queryTime: Option<Time>): (r: seq<HttpRequest>)
      requires forall j :: 0 <= j < |queries| ==> !LacksStep(queries[j])
      ensures |r| == |queries|
      decreases |queries|
    {
      if queries == [] then []
      else TaskRequests(queries[..|queries| - 1], queryTime) + [TaskRequest(queries[|queries| - 1], queryTime)]
    }

    /** Task `j` sends the request of query `j`. */
    lemma {:induction false} TaskRequestsAt(queries: seq<Query>, queryTime: Option<Time>, j: int)
      requires forall k :: 0 <= k < |queries| ==> !LacksStep(queries[k])
      requires 0 <= j < |queries|
      ensures TaskRequests(queries, queryTime)[j] == TaskRequest(queries[j], queryTime)
      decreases |queries|
    {
      if j < |queries| - 1 {
        TaskRequestsAt(queries[..|queries| - 1], queryTime, j);
      }
    }

    /** One more task sends one more request. */
    lemma TaskRequestsStep(queries: seq<Query>, queryTime: Option<Time>, i: int)
      requires forall k :: 0 <= k < |queries| ==> !LacksStep(queries[k])
      requires 0 <= i < |queries|
      ensures TaskRequests(queries[..i + 1], queryTime) == TaskRequests(queries[..i], queryTime) + [TaskRequest(queries[i], queryTime)]
    {
      assert queries[..i + 1][..i] == queries[..i];
    }

    /** The tasks of `query_multiple`, one per normalised query and in order. */
    method ExecuteAll(queries: seq<Query>, queryTime: Option<Time>, transport: HttpRequest -> Outcome,
                      elapsed: nat -> real)
      returns (results: seq<QueryResult>, sent: seq<HttpRequest>)
      requires forall j :: 0 <= j < |queries| ==> !LacksStep(queries[j])
      ensures sent == TaskRequests(queries, queryTime)
      ensures results == TaskResults(queries, sent, transport, elapsed)
    {
      results := [];
      sent := [];
      var i := 0;
      while i < |queries|
        invariant 0 <= i <= |queries|
        invariant sent == TaskRequests(queries[..i], queryTime)
        invariant results == TaskResults(queries[..i], sent, transport, elapsed)
      {
        var result, request := ExecuteSingleQuery(queries[i], queryTime, transport, elapsed(i));
        TaskRequestsStep(queries, queryTime, i);
        TaskResultsStep(queries, sent, request, transport, elapsed, i);
        results := results + [result];
        sent := sent + [request];
        i := i + 1;
      }
      assert queries[..i] == queries;
    }

    /**
     * `get_targets_detailed`: one target per active target, in order. A
     * failure of the request is wrapped twice (by `get_targets`, then here);
     * a target of the wrong shape is wrapped once.
     */
    method GetTargetsDetailed(transport: HttpRequest -> Outcome)
      returns (r: Result<seq<Target>, Error>, sent: HttpRequest)
      ensures sent == base.Prepare("GET", "api/v1/targets", map[], None, Some(AuthHeaders()))
      ensures transport(sent).Raised? ==>
                r == Failure(Wrap("Failed to get detailed targets", Wrap("Failed to get targets", transport(sent).error)))
      ensures r.Success? <==> transport(sent).Body? && ActiveTargets(transport(sent).json).Success? &&
                              forall t :: t in ActiveTargets(transport(sent).json).value ==> TargetReadable(t)
      ensures r.Success? ==>
                var items := ActiveTargets(transport(sent).json).value;
                |r.value| == |items| && forall i :: 0 <= i < |items| ==> TargetOf(items[i]) == Success(r.value[i])
      ensures r.Failure? && transport(sent).Body? ==>
                exists e: Error :: e.kind == MalformedBody && r.error == Wrap("Failed to get detailed targets", e)
    {
      var outcome;
      sent, outcome := base.Request("GET", "api/v1/targets", map[], None, Some(AuthHeaders()), transport);
      if outcome.Raised? {
        return Failure(Wrap("Failed to get detailed targets", Wrap("Failed to get targets", outcome.error))), sent;
      }
      var items := ActiveTargets(outcome.json);
      if items.Failure? {
        var e := items.error;
        r := Failure(Wrap("Failed to get detailed targets", e));
        assert e.kind == MalformedBody && r.error == Wrap("Failed to get detailed targets", e);
        return r, sent;
      }
      var targets := TryMap(TargetOf, items.value);
      if targets.Failure? {
        var i :| FailsFirstAt(TargetOf, items.value, i, targets.error);
        var e := targets.error;
        assert e.kind == MalformedBody;
        r := Failure(Wrap("Failed to get detailed targets", e));
        return r, sent;
      }
      return targets, sent;
    }
  }
}
