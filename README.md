# prom-tools, modelled in Dafny

prom-tools is an asynchronous Python client library for the Prometheus HTTP API and
the Grafana HTTP API. This project models the logic that shapes its requests and
reads its responses:

- **Query and result model** (`models.dfy`, module `Models`). `Query` decides whether
  it is an instant or a range query and what name it displays. `QueryResult.from_response`
  turns a Prometheus JSON body (`status`, `data.resultType`, `data.result`) into `Metric`
  records. `from_error` builds a failed result. There are also summaries of a result and of
  its metrics.
- **Prometheus client** (`prometheus.dfy`, module `Prometheus`). This covers:
  - the choice of auth header;
  - the parameters of instant and range queries;
  - how `query_multiple` normalises string / `Query` / dict inputs and maps each query to
    exactly one decorated result, in input order;
  - `create_queries`;
  - how `get_targets_detailed` maps the targets body.
- **Transport rules** (`base.dfy`, module `Base`; `exceptions.dfy`, module `Exceptions`).
  These are the client constructor, URL joining and header merging, how an HTTP status is
  classified into an error, and the exception hierarchy with the string form of `APIError`.
- **Utilities** (`utils.dfy`, module `Utils`). Metric-name sanitising, label merging, the
  rule, dashboard and panel dictionary builders, the batching loop of `batch_execute` and
  the loop of `retry_on_failure`.
- **Configuration** (`config.dfy`, module `Config`). The dataclass defaults, `validate`,
  `from_dict`/`to_dict` (a proved round trip), `from_env` over an environment map,
  `from_file` over an already-parsed document, and the file/environment merge of
  `load_config`.
- **Grafana client** (`grafana.dfy`, module `Grafana`). Auth headers, payload and
  query-parameter builders, datasource endpoint selection, the folder and datasource
  response models, and the order-preserving multi-dashboard operations.

Helper modules: `wrappers.dfy` (`Option`, `Result`, `TryMap`, a first-failure map
loop, and `MapPairs`, a map over pairs and their positions), `text.dfy` (decimal integers as text, strip, lower-case, join and split),
`json.dfy` (a JSON value datatype and Python truthiness), and `fields.dfy` (typed readers
for JSON values).

## How the environment is modelled

- **HTTP requests.** Every request goes through `BaseAsyncClient._request`, which also
  carries its tenacity retry. It is a function parameter
  `transport: HttpRequest -> Outcome`. An `Outcome` is either a decoded JSON body or a
  raised `Error`. The methods return the exact `HttpRequest` they sent, so their contracts
  state both the request and how the outcome is read.
- **The clock.** `time.time()` is an `elapsed` function parameter giving the duration of
  each query.
- **Base64.** It is a `string -> string` field of each client.
- **Sleeping.** `batch_execute` and `retry_on_failure` return the sleeps they would perform.
- **Config files.** `Config.from_file` takes as parameters the existence of the file, the
  error opening it raises (if any), its suffix and the outcome of YAML/JSON parsing.
- **The environment.** `os.getenv` reads a `map<string, string>`.
- **Parsed documents.** `from_file` tests `"prometheus" in data` on whatever YAML or JSON
  parsing returned. On a string this is Python's substring test, and `Config.Membership`
  does the same.
- **Dict order.** JSON objects and label dicts are maps, which record no key order. The
  one output that depends on that order, the "labels" text of `get_metrics_summary`, takes
  each metric's `labels.items()` as a parameter: a sequence listing every label once.
- **Exceptions** are values of `Exceptions.Error`, whose kind names the Python class. Two
  kinds name Python builtins: `ValueError` and `KeyError` (raised by normalisation and
  `int()`), and `TypeError` (bad keyword arguments).
- **Ill-typed values.** `MalformedBody` stands for any exception Python raises on a JSON
  value of the wrong type. Examples are `.get` on a list, iterating an integer, or a
  pydantic validation error. The configuration dataclasses are the exception: Python
  stores an ill-typed value unchecked, while the model rejects it (see "Left out").

## Where the code and its documentation differ (the model follows the code)

- Status 401 raises a plain `APIError("Authentication failed", 401)`, not
  `AuthenticationError` (`Base.NeverAuthenticationError`).
- The normalisation in `query_multiple` raises `ValueError`, or `KeyError` for a dict
  without "query". It does not raise a validation error type of the library.
- In the dict path of `query_multiple`, `description`, `category` and `timeout` are
  dropped. `create_queries` copies them (`Prometheus.DictPathsAgree`).
- A failed result can carry `error == None` when the body holds `"error": null`.
- The retry on `_request` is hard-coded to 3 attempts and ignores `max_retries`.
- `batch_execute` returns `[]` for a negative `batch_size` and raises `ValueError` (from
  `range`) for 0.
- `retry_on_failure` with `max_attempts <= 0` never calls the function and raises
  `TypeError` (it raises `None`).
- In `from_env`, a non-numeric TIMEOUT, MAX_RETRIES, RATE_LIMIT or ORG_ID raises
  `ValueError`.
- A `Query` whose name is `""` leaves `query_name` as `None` in `query_multiple`.
- In `from_file`, the "Unsupported config file format" error is raised inside the `try`.
  It is therefore re-wrapped as "Failed to load config from P: Unsupported config file
  format: S".
- `GrafanaDatasource` reads the fields `is_default` and `json_data` under their Python
  names. Grafana's `isDefault` and `jsonData` keys are ignored and the defaults apply.
- In `update_datasource`/`delete_datasource`, the "Either datasource_id or uid must be
  provided" error is raised before the `try`, so it is not wrapped.

## Model

| member | source | states |
|---|---|---|
| Models.QueryKind.Tag | src/prom_tools/models.py:40-43 | the tag is "range" exactly for a range query and "instant" otherwise |
| Models.DisplayNameOf | src/prom_tools/models.py:45-48 | a non-empty name is shown as is; otherwise the query is shown, cut to its first 50 characters followed by "..." when longer than 50, so at most 53 characters |
| Models.Query.QueryType | src/prom_tools/models.py:30-43 | a range query exactly when both start and end are present; instant is its negation; the tag agrees |
| Models.Query.DisplayName | src/prom_tools/models.py:45-48 | a non-empty name, else the abbreviated query text of at most 53 characters |
| Models.QueryOf | src/prom_tools/models.py:12-23 | a bare query string gives a nameless instant query with that text |
| Models.QueryResult.DisplayName | src/prom_tools/models.py:104-107 | the query name when non-empty, else the abbreviated query text |
| Models.WithoutName | src/prom_tools/models.py:176-177 | the labels less exactly "__name__", every other label unchanged |
| Models.NewMetric | src/prom_tools/models.py:70-76 | a metric is built exactly when the name is a string and every label value is a string, keeping name, labels, value, timestamp and values |
| Models.SamplePoints | src/prom_tools/models.py:190-196 | reading the pairs of a series succeeds exactly when every pair is readable, with at most one point per pair |
| Models.SeriesValues | src/prom_tools/models.py:190-196 | the points of a "values" container: a list reads as SamplePoints; a string gives none (every character is shorter than 2); an object gives none exactly when all its keys are shorter than 2 and fails otherwise; anything else fails |
| Models.CharsHaveNoPoints | src/prom_tools/models.py:190-196 | iterating a string gives one-character items, all skipped, so no points and no failure |
| Models.KeyItemsPoints | src/prom_tools/models.py:190-196 | iterating an object's keys gives no points, and succeeds exactly when every key is shorter than 2, whatever their order |
| Models.SeriesMetric | src/prom_tools/models.py:174-201 | succeeds exactly when SeriesReadable holds (an object with an object "metric"; for vector, a truthy "value" has a length and is an array when that length is 2 or more, and a sampled series has string name and labels; for matrix, "values" reads through SeriesValues and the name and labels are strings), else MalformedBody; a vector item with a sample gives one metric with its value and no values; a matrix item always gives one metric whose values are what SeriesValues reads from "values" (default []), so a string or an object of one-character keys gives no points; any other result type gives none |
| Models.SeriesMetrics | src/prom_tools/models.py:169-201 | succeeds exactly when every series decodes (SeriesMetric succeeds on each), with at most one metric per series |
| Models.SeriesMetricsFirstFailure | src/prom_tools/models.py:169-201 | a failed decoding reports the error of a series before which every series decodes: the first failing one |
| Models.DataMetrics | src/prom_tools/models.py:169-173 | a body without "data" yields no metrics; a non-object data, or a result that Python cannot iterate as objects, fails; an empty object or empty string result yields none; otherwise the metrics are SeriesMetrics of the result items |
| Models.FromResponseSpec | src/prom_tools/models.py:151-212 | succeeds exactly when the body is an object and, for a non-"success" status, the status is a string and the error a string or null, or, for "success", DataMetrics succeeds (whose error it then raises); every failure is MalformedBody; a non-"success" status (missing reads "unknown") gives a failed result with that status, no metrics, the body's error or "Unknown error" and the body as data; "success" gives a successful result whose metrics are those of the series, with the body as data |
| Models.FromError | src/prom_tools/models.py:214-226 | always a failed result with status "error", no metrics, error = str(exception), no data, keeping the name, query, time and type given |
| Models.SamplePointsFailurePersists | src/prom_tools/models.py:189-201 | once a prefix of the pairs fails to read, the whole series fails with the same error: the first malformed pair decides |
| Models.SeriesMetricsFailurePersists | src/prom_tools/models.py:169-201 | once a prefix of the series fails to decode, the whole result fails with the same error: the first malformed series decides |
| Models.LongPairs | src/prom_tools/models.py:194-196 | the filtered pairs all have at least two elements |
| Models.SamplePointsAreLongPairs | src/prom_tools/models.py:192-196 | the points of a matrix series are exactly its pairs with at least two elements, in input order |
| Models.MatrixOneMetricPerSeries | src/prom_tools/models.py:189-201 | a decoded matrix has exactly one metric per series, in order, each with the series' name (default "unknown") and labels less "__name__" |
| Models.Sampled | src/prom_tools/models.py:179-181 | the kept vector items all carry a sample of at least two entries |
| Models.VectorOneMetricPerSample | src/prom_tools/models.py:179-187 | a decoded vector has exactly one metric per item with a sample, in order |
| Models.OtherTypeNoMetrics | src/prom_tools/models.py:169-212 | an unrecognised result type yields zero metrics |
| Models.CollectPoints | src/prom_tools/models.py:192-196 | the loop over the pairs of a series computes SamplePoints |
| Models.BuildSeries | src/prom_tools/models.py:174-201 | the loop body for one series computes SeriesMetric |
| Models.CollectMetrics | src/prom_tools/models.py:169-201 | the loop over data.result computes SeriesMetrics: the first malformed series stops it with that error |
| Models.FromResponse | src/prom_tools/models.py:151-212 | the nested loops of from_response compute FromResponseSpec |
| Models.SliceEnd | src/prom_tools/models.py:141 | the length of metrics[:limit] under Python slicing, including negative limits |
| Models.GetMetricsSummary | src/prom_tools/models.py:136-149 | len(metrics[:limit]) entries, with indexes 1..k in metric order, each with the metric's name, value, timestamp, number of data points and its labels rendered as `", ".join(f"{k}={v}")` over `labels.items()` |
| Models.LabelsTextReadsBack | src/prom_tools/models.py:140 | the rendered labels are empty exactly when there are no labels; with no comma in a key or value, splitting the text at its commas gives one "k=v" piece per label, in items order, each naming a label with its value |
| Models.GetResultSummary | src/prom_tools/models.py:119-134 | the summary keys, with "error" present exactly for a failed result; query_name, query, status, metric count, success flag, query type and execution_time (a float or null) copied |
| Prometheus.StepError | src/prom_tools/prometheus.py:409-410 | a range query without a step raises ValueError |
| Prometheus.KeyMissing | src/prom_tools/prometheus.py:415 | a missing required dict key raises KeyError |
| Prometheus.Normalize | src/prom_tools/prometheus.py:401-423 | a string becomes a nameless instant query; a Query passes unless it is a range query with a falsy step; a dict needs "query" and maps name/query/start/end/step; any other type raises ValueError |
| Prometheus.CreateQuery | src/prom_tools/prometheus.py:477-487 | succeeds exactly when "name" and "query" are present (KeyError for the first one missing) and copies every optional field |
| Prometheus.DictPathsAgree | src/prom_tools/prometheus.py:411-419 | the two dict paths agree on name, query, start, end and step; only create_queries keeps description, category and timeout |
| Prometheus.CreateQueries | src/prom_tools/prometheus.py:466-488 | one Query per dict, in order, or the KeyError of the first dict lacking a required key |
| Prometheus.NormalizeAll | src/prom_tools/prometheus.py:401-425 | every input normalised in order with no step-less range query, or the error of the first input that fails |
| Prometheus.InstantParams | src/prom_tools/prometheus.py:58-63 | always "query"; "time" exactly when a time is given; "timeout" exactly when it is non-empty |
| Prometheus.RangeParams | src/prom_tools/prometheus.py:90-98 | always query/start/end/step, plus "timeout" exactly when it is non-empty |
| Prometheus.ResultOf | src/prom_tools/prometheus.py:65-76 | a query never raises: a body is decoded by from_response, and a raised error or a malformed body becomes from_error, with the given kind and no name |
| Prometheus.Decode | src/prom_tools/prometheus.py:65-76 | computes ResultOf |
| Prometheus.TaskResult | src/prom_tools/prometheus.py:436-452 | the per-query result carries the query's text and type and the elapsed time, and it takes the query's name only when that name is non-empty |
| Prometheus.Wrap | src/prom_tools/prometheus.py:200-201 | PrometheusError whose string is the prefix, ": " and the string of the cause |
| Prometheus.TargetOf | src/prom_tools/prometheus.py:211-224 | a target reads exactly when the item is an object whose labels and discoveredLabels are string maps, health a string and the other fields strings or null; it then reads instance/job from its labels (default "unknown") and its other fields with their defaults |
| Prometheus.ActiveTargets | src/prom_tools/prometheus.py:207 | succeeds exactly when the body and its data (default {}) are objects and activeTargets (default []) is a list, an empty object or an empty string; the items are then what iterating it gives; empty when "data" is absent |
| Prometheus.PrometheusClient.constructor | src/prom_tools/prometheus.py:25-36 | base-client normalisation, plus the credentials kept |
| Prometheus.PrometheusClient.AuthHeaders | src/prom_tools/prometheus.py:38-49 | a token gives Bearer; otherwise a non-empty username and password give Basic of base64("user:pass"); otherwise no Authorization |
| Prometheus.PrometheusClient.InstantRequest | src/prom_tools/prometheus.py:65-71 | GET api/v1/query with InstantParams and the auth headers |
| Prometheus.PrometheusClient.RangeRequest | src/prom_tools/prometheus.py:100-106 | GET api/v1/query_range with RangeParams and the auth headers |
| Prometheus.PrometheusClient.TaskRequest | src/prom_tools/prometheus.py:436-445 | the range endpoint exactly for a range query, else the instant one |
| Prometheus.PrometheusClient.QueryInstant | src/prom_tools/prometheus.py:51-76 | sends InstantRequest and returns ResultOf its outcome, tagged instant |
| Prometheus.PrometheusClient.QueryRange | src/prom_tools/prometheus.py:78-109 | sends RangeRequest and returns ResultOf its outcome, tagged range |
| Prometheus.PrometheusClient.ExecuteSingleQuery | src/prom_tools/prometheus.py:429-452 | one task sends exactly TaskRequest for its query and returns exactly TaskResult of that request's outcome and the elapsed time |
| Prometheus.PrometheusClient.TaskRequestsAt | src/prom_tools/prometheus.py:463-464 | task j of the gathered tasks sends the request of query j |
| Prometheus.TaskResultsAt | src/prom_tools/prometheus.py:463-464 | result j of the gathered tasks is the decorated answer to request j |
| Prometheus.PrometheusClient.ExecuteAll | src/prom_tools/prometheus.py:463-464 | running the tasks one after another yields one request and one result per query, in query order |
| Prometheus.PrometheusClient.QueryMultiple | src/prom_tools/prometheus.py:364-464 | a normalisation failure is the first input's error and nothing is sent; otherwise one request and one TaskResult per input, in input order |
| Prometheus.PrometheusClient.GetTargetsDetailed | src/prom_tools/prometheus.py:192-227 | GET api/v1/targets; succeeds exactly when the body is returned, its active targets read and every one of them reads as a target; then one target per active target, in order; any failure becomes PrometheusError "Failed to get detailed targets: …" |
| Base.JoinUrl | src/prom_tools/base.py:96 | the joined URL is exactly the base, "/", and the endpoint without its leading slashes (proved in JoinUrlOneSeparator) |
| Base.JoinUrlOneSeparator | src/prom_tools/base.py:96 | after the constructor's rstrip, exactly one "/" separates the base from the endpoint text |
| Base.MergeHeaders | src/prom_tools/base.py:97 | the keys are the union, and a per-call value wins on a shared key |
| Base.ClassifyStatus | src/prom_tools/base.py:147-186 | below 400 nothing; 429 is RateLimitError with retry_after = int(Retry-After) or None (ValueError for a non-numeric header); 401 is APIError "Authentication failed"; other codes are APIError with the status and the body text |
| Base.NeverAuthenticationError | src/prom_tools/base.py:156-160 | no status ever yields AuthenticationError |
| Base.BaseClient.constructor | src/prom_tools/base.py:18-38 | trailing "/" stripped, headers default to {}, and a throttle exactly for a truthy rate limit |
| Base.BaseClient.Prepare | src/prom_tools/base.py:82-102 | the request's URL is JoinUrl and its headers are MergeHeaders of the defaults and the call's headers |
| Base.BaseClient.Request | src/prom_tools/base.py:82-102 | sends the prepared request and returns the transport's outcome |
| Exceptions.NewAPIError | src/prom_tools/exceptions.py:11-20 | message and status kept; response defaults to {} |
| Exceptions.NewRateLimitError | src/prom_tools/exceptions.py:43-53 | message defaults to "Rate limit exceeded"; retry_after, status and response forwarded; it is an APIError |
| Exceptions.Raise | src/prom_tools/exceptions.py:56-63 | a plain exception keeps its message and has no status |
| Exceptions.Str | src/prom_tools/exceptions.py:22-25 | the message, followed by " (HTTP code)" exactly for an APIError with a truthy status |
| Exceptions.StrShowsStatus | src/prom_tools/exceptions.py:22-25 | a truthy status shows as "message (HTTP n)" with n in decimal |
| Exceptions.Hierarchy | src/prom_tools/exceptions.py:8-63 | every kind is an Exception; the APIError subclasses are exactly Prometheus, Grafana, Authentication and RateLimit errors; configuration and validation errors are not |
| Utils.ReplaceInvalid | src/prom_tools/utils.py:62 | same length; characters in [A-Za-z0-9_] kept in place and every other character replaced by "_" |
| Utils.SanitizeMetricName | src/prom_tools/utils.py:58-66 | empty exactly for empty input; the result is all metric characters; it starts neither with a digit nor with "_"; "metric_" is prefixed exactly when the replaced name starts with a digit or "_" |
| Utils.ReplaceInvalidKeepsValid | src/prom_tools/utils.py:62 | replacement leaves a valid name unchanged |
| Utils.SanitizeIdempotent | src/prom_tools/utils.py:58-66 | sanitising twice equals sanitising once |
| Utils.MergeLabels | src/prom_tools/utils.py:69-75 | the keys are the union of the inputs, and each key takes the value of the last dict holding it |
| Utils.AlertLabels | src/prom_tools/utils.py:104-109 | "severity" plus the user labels, with a user "severity" overriding the argument |
| Utils.AlertAnnotations | src/prom_tools/utils.py:110-116 | summary and description with their "Alert: name" / "Alert triggered for name" defaults, overridden by user annotations |
| Utils.CreateAlertRule | src/prom_tools/utils.py:78-119 | exactly alert, expr, for, labels and annotations, built from the arguments |
| Utils.CreateRecordingRule | src/prom_tools/utils.py:122-144 | exactly record, expr and labels (default {}) |
| Utils.CreateRuleGroup | src/prom_tools/utils.py:147-167 | exactly name, interval and rules |
| Utils.DictOr | src/prom_tools/utils.py:200-207 | a non-empty dict, else the default |
| Utils.TagList | src/prom_tools/utils.py:197 | `tags or []`: one JSON string per tag, in order, and empty when no tags are given |
| Utils.DashboardFields | src/prom_tools/utils.py:194-208 | the dashboard without uid has exactly the ten fixed keys |
| Utils.CreateDashboard | src/prom_tools/utils.py:170-213 | the fixed keys plus "uid" exactly for a non-empty uid; time and templating default when empty; schemaVersion 38, version 1, timezone "browser" |
| Utils.IntMap | src/prom_tools/utils.py:252 | integers carried over key by key |
| Utils.CreatePanel | src/prom_tools/utils.py:216-258 | "description" exactly when given; a single target with refId "A"; gridPos defaults to x 0, y 0, w 12, h 8 |
| Utils.BatchCount | src/prom_tools/utils.py:277-288 | the number of slices of n tasks by b: at least one for n > 0, and exactly one when n <= b |
| Utils.BatchExecute | src/prom_tools/utils.py:261-288 | batch_size 0 raises ValueError; negative gives []; otherwise the slices [i, i+b) in order, concatenating to the tasks, with one sleep between consecutive batches and none after the last |
| Utils.Retry | src/prom_tools/utils.py:291-362 | at most max_attempts calls; every call before the last failed with a caught exception; stops at the first success or the first uncaught failure; sleeps delay·backoff^k between attempts, none after the last; max_attempts <= 0 raises TypeError without a call |
| Config.DefaultLogging | src/prom_tools/config.py:40-45 | level INFO, the default format, no file |
| Config.DefaultPrometheus | src/prom_tools/config.py:13-23 | timeout 30, max_retries 3, no rate limit, verify_ssl true, no credentials |
| Config.DefaultGrafana | src/prom_tools/config.py:26-37 | the same defaults, with no api key and no org id |
| Config.DefaultConfig | src/prom_tools/config.py:48-53 | no Prometheus section, no Grafana section, default logging |
| Config.Validate | src/prom_tools/config.py:136-150 | no error exactly when every present section has a url and credentials (a token or api key, or username and password); every error is a ConfigurationError |
| Config.EmptyConfigValid | src/prom_tools/config.py:136-150 | absent sections pass validation |
| Config.PrometheusCheckedFirst | src/prom_tools/config.py:138-150 | when both sections are invalid, the Prometheus error is raised |
| Config.CheckKwargs | src/prom_tools/config.py:60-67 | a section must be a mapping with known keys and a url, else TypeError |
| Config.PrometheusFromDict | src/prom_tools/config.py:60-61 | succeeds exactly when the keyword arguments are accepted and every given value has its field's type; each field is then the given value or its default (timeout 30, max_retries 3, verify_ssl true, the rest None); bad keywords are TypeError |
| Config.GrafanaFromDict | src/prom_tools/config.py:63-64 | the same for the Grafana section, org_id and api_key included |
| Config.LoggingFromDict | src/prom_tools/config.py:66-67 | an empty dict gives the default logging section; succeeds exactly when the keywords are accepted and well typed, each field then the given value or its default |
| Config.FromDict | src/prom_tools/config.py:55-69 | succeeds exactly when every present section parses; a section is then set exactly when its key is present and absent sections keep their defaults; otherwise the error is that of the first failing section in the order prometheus, grafana, logging |
| Config.ToDict | src/prom_tools/config.py:152-187 | always "logging"; "prometheus" and "grafana" exactly when set; every dataclass field listed |
| Config.PrometheusRoundTrip | src/prom_tools/config.py:156-166 | from_dict reads the Prometheus section written by to_dict back unchanged |
| Config.GrafanaRoundTrip | src/prom_tools/config.py:168-179 | from_dict reads the Grafana section written by to_dict back unchanged |
| Config.LoggingRoundTrip | src/prom_tools/config.py:181-185 | from_dict reads the logging section written by to_dict back unchanged |
| Config.DictRoundTrip | src/prom_tools/config.py:152-187 | from_dict(to_dict(c)) == c |
| Config.Int | src/prom_tools/config.py:106-108 | int() succeeds exactly on a decimal literal, else ValueError |
| Config.EnvOptInt | src/prom_tools/config.py:120-123 | a missing, empty or "0" ORG_ID or RATE_LIMIT variable (same rule at line 108) gives None; otherwise the parsed integer |
| Config.EnvFlag | src/prom_tools/config.py:109 | VERIFY_SSL (same rule at line 124) is true exactly when the lower-cased value is "true", and true when unset |
| Config.PrometheusFromEnv | src/prom_tools/config.py:99-110 | succeeds exactly when TIMEOUT, MAX_RETRIES (or their textual defaults) and RATE_LIMIT parse; the section is then the url, the USERNAME, PASSWORD and TOKEN variables, the parsed numbers, the rate limit (None exactly when unset, empty or "0") and the VERIFY_SSL flag; a failure is ValueError |
| Config.GrafanaFromEnv | src/prom_tools/config.py:113-125 | the same for the Grafana section, with API_KEY, and ORG_ID read like RATE_LIMIT (None exactly when unset, empty or "0") |
| Config.FromEnv | src/prom_tools/config.py:93-134 | a section exactly when its _URL variable is non-empty, and then it is what PrometheusFromEnv/GrafanaFromEnv build from that URL; fails exactly when a present section fails, with ValueError, raising the Prometheus section's error first and the Grafana section's only when Prometheus is absent or reads; logging always set from the environment or its defaults |
| Config.EmptyEnvironment | src/prom_tools/config.py:93-134 | an empty environment gives the default config |
| Config.FromDocument | src/prom_tools/config.py:55-69 | a mapping goes through from_dict; any other document either gives the default config or raises TypeError |
| Config.LoadFailure | src/prom_tools/config.py:90-91 | ConfigurationError "Failed to load config from path: cause" |
| Config.Merge | src/prom_tools/config.py:235-240 | an environment section replaces the file's only when present; logging is always the environment's |
| Config.MergeEmptyEnvironment | src/prom_tools/config.py:235-240 | merging an empty environment keeps the file's sections but resets logging to its defaults |
| Config.FromFile | src/prom_tools/config.py:71-91 | a missing file raises "Config file not found: path" unwrapped; an open error comes before the suffix check; an open error, an unsupported suffix, a parse failure or a from_dict failure is wrapped; success is FromDocument of the parsed document |
| Config.LoadConfig | src/prom_tools/config.py:208-245 | the result is exactly: a file failure, else an environment failure, else the merged configuration (Merge) when validate accepts it, or validate's ConfigurationError |
| Grafana.Required | src/prom_tools/models.py:243-259 | a required model field must be present |
| Grafana.FolderOf | src/prom_tools/models.py:255-259 | a folder is built exactly from an object with an integer id and string uid and title |
| Grafana.DatasourceOf | src/prom_tools/models.py:243-252 | succeeds exactly when the body is an object with an integer id, string uid, name, type, url and access, and is_default/json_data (when given) a bool and an object; it keeps those fields, with is_default false and json_data {} by default |
| Fields.Iterated | src/prom_tools/grafana.py:203 | iterating a list gives its items, and iterating an empty object or an empty string gives none (same loop at line 309) |
| Grafana.Wrap | src/prom_tools/grafana.py:65-66 | GrafanaError whose string is the prefix, ": " and the string of the cause |
| Grafana.Answer | src/prom_tools/grafana.py:59-66 | the body on success; a raised error is wrapped with the prefix |
| Grafana.FolderAnswer | src/prom_tools/grafana.py:232-241 | a folder read from the body, and any failure wrapped as GrafanaError |
| Grafana.DatasourceAnswer | src/prom_tools/grafana.py:381-390 | a datasource read from the body, and any failure wrapped as GrafanaError |
| Grafana.CreateDashboardPayload | src/prom_tools/grafana.py:89-95 | always "dashboard"; "folderId" exactly when given (0 kept); "overwrite": true exactly when overwrite |
| Grafana.UpdateDashboardPayload | src/prom_tools/grafana.py:114-117 | always "dashboard" and "overwrite"; "message" exactly when non-empty |
| Grafana.IdListRoundTrip | src/prom_tools/grafana.py:162-165 | splitting the comma-joined id list at "," gives back each id, in order |
| Grafana.PutIf | src/prom_tools/grafana.py:154-169 | one conditional key assignment: the key is added exactly when present, and other keys are unchanged |
| Grafana.SearchParams | src/prom_tools/grafana.py:154-169 | each parameter exactly when its argument is truthy; id lists comma-joined |
| Grafana.OptionalStrPayload | src/prom_tools/grafana.py:227-230 | the fixed field, plus the optional one exactly when non-empty; `CreateFolderPayload` ("title", "uid") and `MovePayload` ("dashboardUid", "folderUid", grafana.py:283-286) are this shape |
| Grafana.UpdateFolderPayload | src/prom_tools/grafana.py:250-253 | "title", plus "version" exactly when truthy |
| Grafana.AlertParams | src/prom_tools/grafana.py:424-435 | each parameter exactly when its argument is truthy |
| Grafana.DatasourceEndpoint | src/prom_tools/grafana.py:374-379 | the id endpoint for a truthy id, else the uid endpoint for a truthy uid, else GrafanaError |
| Grafana.DatasourceEndpointRoundTrip | src/prom_tools/grafana.py:374-379 | the chosen endpoint determines which reference (id or uid) was used, and its value |
| Grafana.GrafanaClient.constructor | src/prom_tools/grafana.py:22-35 | base-client normalisation, plus the credentials and org id kept |
| Grafana.GrafanaClient.AuthHeaders | src/prom_tools/grafana.py:37-51 | an api key gives Bearer, else username and password give Basic; X-Grafana-Org-Id is present exactly for a truthy org id, and its text reads back as that id |
| Grafana.GrafanaClient.Call | src/prom_tools/grafana.py:60-64 | a request carries the auth headers merged over the client's defaults |
| Grafana.GrafanaClient.GetDashboard | src/prom_tools/grafana.py:54-66 | GET api/dashboards/uid/{uid}; a failure becomes "Failed to get dashboard uid: …" |
| Grafana.GrafanaClient.CreateDashboard | src/prom_tools/grafana.py:82-105 | POST api/dashboards/db with CreateDashboardPayload; failures wrapped |
| Grafana.GrafanaClient.UpdateDashboard | src/prom_tools/grafana.py:107-127 | POST api/dashboards/db with UpdateDashboardPayload; failures wrapped |
| Grafana.GrafanaClient.SearchDashboards | src/prom_tools/grafana.py:143-179 | GET api/search with SearchParams; failures wrapped |
| Grafana.GrafanaClient.GetFolders | src/prom_tools/grafana.py:193-207 | succeeds exactly when the body is returned, Python can iterate it as objects and every item reads as a folder; then one folder per item, in order; otherwise the first item that fails decides the GrafanaError |
| Grafana.GrafanaClient.CreateFolder | src/prom_tools/grafana.py:221-241 | POST api/folders with CreateFolderPayload; the body read as a folder |
| Grafana.GrafanaClient.UpdateFolder | src/prom_tools/grafana.py:243-264 | PUT api/folders/{uid} with UpdateFolderPayload; the body read as a folder |
| Grafana.GrafanaClient.MoveDashboard | src/prom_tools/grafana.py:277-296 | POST api/dashboards/belongsTo with MovePayload; failures wrapped |
| Grafana.GrafanaClient.GetDatasources | src/prom_tools/grafana.py:299-313 | succeeds exactly when the body is returned, Python can iterate it as objects and every item reads as a datasource; then one datasource per item, in order; otherwise the first item that fails decides the GrafanaError |
| Grafana.GrafanaClient.UpdateDatasource | src/prom_tools/grafana.py:367-390 | no request and the unwrapped error when neither id nor uid is truthy; otherwise PUT to the selected endpoint and the body read as a datasource |
| Grafana.GrafanaClient.DeleteDatasource | src/prom_tools/grafana.py:392-412 | no request and the unwrapped error when neither id nor uid is truthy; otherwise DELETE at the selected endpoint |
| Grafana.GrafanaClient.GetAlerts | src/prom_tools/grafana.py:415-445 | GET api/alerts with AlertParams; failures wrapped |
| Grafana.GrafanaClient.GetMultipleDashboards | src/prom_tools/grafana.py:578-591 | one entry per uid, in order, each the outcome of get_dashboard, with errors returned in place |
| Grafana.GrafanaClient.CreateMultipleDashboards | src/prom_tools/grafana.py:593-606 | one entry per dashboard, in order, each the outcome of create_dashboard with defaults, with errors returned in place |

## Left out

- HTTP transport: sessions, `close`, `_request_aiohttp` and `_request_httpx`. A request is an abstract `transport` outcome, as above.
- Concurrency: the asyncio semaphores and `gather` (modelled as a sequential, order-preserving map) and the `Throttler` rate limiter.
- The tenacity retry on `_request`. It is inside `transport`, and `ClassifyStatus` is stated on its own rather than chained into the outcome, because tenacity changes the exception that finally surfaces.
- Times, datetimes and timedeltas are opaque: `Time` holds epoch seconds, and a timedelta step is given as its already-formatted text. `parse_time_range` and `format_duration` are not part of this model (clock and floating point).
- Sample values and timestamps stay raw JSON. The `float()` conversion of sample strings is not modelled, and neither is the `ValueError` it raises on a non-numeric string.
- Config.Int, Base.ClassifyStatus: Python `int()` also accepts surrounding whitespace, underscores between digits (`int("1_0") == 10`) and non-ASCII decimal digits. The model's `int()` (`Config.Int`, and `ParseInt` on the `Retry-After` header in `Base.ClassifyStatus`) accepts only an optional sign ("+" or "-") followed by ASCII digits, and raises `ValueError` for the rest.
- The `__str__` methods of `Query` and `Metric`, and `Query.get_query_summary`: these are display-only text.
- `Config.save`, `setup_logging`, `export_dashboard_json` and `load_dashboard_json`: these are file and logging I/O.
- YAML and JSON parsing in `Config.from_file`. It is the `parsed` parameter.
- The pydantic lax coercions (for example, an integer-valued string accepted for an `int` field). An ill-typed field is always `MalformedBody`.
- The dataclass keyword-argument checks in `Config.from_dict` are modelled as `TypeError`, without the exact Python messages beyond the three the model names.
- The thin Prometheus wrappers (`get_targets` alone, `query_series`, `query_labels`, `query_label_values`, `get_rules`, `get_alerts`, `get_alert_managers`, `delete_series`, `clean_tombstones`, `create_snapshot`, `get_health`, `get_ready`, `get_config`, `get_flags`): each is one fixed request with a wrapped failure, the same shape as `GetTargetsDetailed` without the mapping.
- The thin Grafana wrappers (`get_dashboard_by_id`, `delete_dashboard`, `get_home_dashboard`, `get_folder`, `delete_folder`, `get_datasource*`, `create_datasource`, `pause_alert`, notification channels, organisation, users, health, stats, admin): each is a fixed endpoint with the `Answer` / `FolderAnswer` / `DatasourceAnswer` shape modelled above.
- Prometheus.PrometheusClient.QueryMultiple: the `except` around each task in `execute_single_query` is not modelled, because `query` and `query_range` never raise (`ResultOf`), so it cannot be reached.
- Grafana.GrafanaClient.GetMultipleDashboards, Grafana.GrafanaClient.CreateMultipleDashboards and Prometheus.PrometheusClient.QueryMultiple: `max_concurrent` is not a parameter. It sizes an `asyncio.Semaphore`, so a value of 0 makes every task wait forever and a negative value raises `ValueError` before any request; the model describes a call with a positive value.
- PrometheusFromDict, GrafanaFromDict, LoggingFromDict: the dataclasses do not check their field types, so Python stores, say, `"timeout": "60"` as the string "60" and loads the file. The model's sections are typed, so it rejects such a value with `MalformedBody`, and `from_file` then reports "Failed to load config from …".
- Prometheus.QueryDict: a dict whose "query" key holds `None` is not representable (the key is either absent or a string). Python's `Query` rejects that value with a pydantic validation error in both `query_multiple` and `create_queries`.
- FromFile: the path appears in the messages as given, while Python prints the `Path` made from it, which normalises separators (for example, a trailing "/").
- BuildSeries, SeriesValues: a JSON object is a map without key order, so for an object given as "values" the model decides success from the set of keys (all shorter than 2 characters) rather than from the first long key in Python's iteration order. `Models.KeyItemsPoints` shows that the outcome does not depend on that order.
