/**
 * The helpers of `utils.py`: metric-name sanitising, label merging, the
 * rule/dashboard/panel dictionary builders, batch chunking and the retry
 * loop. Awaiting, sleeping and calling user functions are abstracted: a
 * task or an attempt is its outcome, and a sleep is recorded, not taken.
 */
module Utils {
  import opened Wrappers
  import opened Text
  import opened Json
  import opened Exceptions

  // ---------------------------------------------------------------------
  // sanitize_metric_name
  // ---------------------------------------------------------------------

  /** A character of the class `[a-zA-Z0-9_]`. */
  predicate MetricChar(c: char) {
    'a' <= c <= 'z' || 'A' <= c <= 'Z' || '0' <= c <= '9' || c == '_'
  }

  predicate AllMetricChars(s: string) {
    forall i :: 0 <= i < |s| ==> MetricChar(s[i])
  }

  /** `re.sub(r'[^a-zA-Z0-9_]', '_', name)`. */
  function ReplaceInvalid(name: string): (r: string)
    ensures |r| == |name| && AllMetricChars(r)
    ensures forall i :: 0 <= i < |name| && MetricChar(name[i]) ==> r[i] == name[i]
    ensures forall i :: 0 <= i < |name| && !MetricChar(name[i]) ==> r[i] == '_'
  {
    seq(|name|, i requires 0 <= i < |name| => if MetricChar(name[i]) then name[i] else '_')
  }

  const MetricPrefix := "metric_"

  /** `sanitize_metric_name`. */
  function SanitizeMetricName(name: string): (r: string)
    ensures r == [] <==> name == []
    ensures AllMetricChars(r)
    ensures r != [] ==> !IsDigit(r[0]) && r[0] != '_'
    ensures var s := ReplaceInvalid(name);
            if s != [] && (IsDigit(s[0]) || s[0] == '_') then r == MetricPrefix + s else r == s
  {
    var sanitized := ReplaceInvalid(name);
    if sanitized != [] && (IsDigit(sanitized[0]) || sanitized[0] == '_') then MetricPrefix + sanitized
    else sanitized
  }

  /** Replacing invalid characters leaves a name made of valid ones unchanged. */
  lemma ReplaceInvalidKeepsValid(s: string)
    requires AllMetricChars(s)
    ensures ReplaceInvalid(s) == s
  {
    var r := ReplaceInvalid(s);
    assert forall i :: 0 <= i < |s| ==> r[i] == s[i];
  }

  /** Sanitising a sanitised name changes nothing. */
  lemma SanitizeIdempotent(name: string)
    ensures SanitizeMetricName(SanitizeMetricName(name)) == SanitizeMetricName(name)
  {
    var once := SanitizeMetricName(name);
    ReplaceInvalidKeepsValid(once);
  }

  // ---------------------------------------------------------------------
  // merge_labels
  // ---------------------------------------------------------------------

  /** `dicts[i]` is the last of the dicts that holds `k`. */
  predicate LastHolder(dicts: seq<map<string, string>>, k: string, i: int) {
    0 <= i < |dicts| && k in dicts[i] && forall j :: i < j < |dicts| ==> k !in dicts[j]
  }

  /**
   * `merge_labels(*label_dicts)`: the keys of all dicts, each with the
   * value of the last dict that holds it.
   */
  method MergeLabels(dicts: seq<map<string, string>>) returns (result: map<string, string>)
    ensures forall k :: k in result <==> exists i :: 0 <= i < |dicts| && k in dicts[i]
    ensures forall k, i :: LastHolder(dicts, k, i) ==> result[k] == dicts[i][k]
  {
    result := map[];
    var n := 0;
    while n < |dicts|
      invariant 0 <= n <= |dicts|
      invariant forall k :: k in result <==> exists i :: 0 <= i < n && k in dicts[i]
      invariant forall k, i :: LastHolder(dicts[..n], k, i) ==> result[k] == dicts[i][k]
    {
      var labels := dicts[n];
      if labels != map[] {
        result := result + labels;
      }
      forall k, i | LastHolder(dicts[..n + 1], k, i)
        ensures result[k] == dicts[i][k]
      {
        if i < n {
          assert LastHolder(dicts[..n], k, i);
        }
      }
      n := n + 1;
    }
    assert dicts[..n] == dicts;
  }

  // ---------------------------------------------------------------------
  // Rule, dashboard and panel builders
  // ---------------------------------------------------------------------

  /** `{"severity": severity, **(labels or {})}`: a user "severity" label wins. */
  function AlertLabels(severity: string, labels: Option<map<string, string>>): (r: map<string, string>)
    ensures r.Keys == {"severity"} + (if labels.Some? then labels.value.Keys else {})
    ensures labels.Some? ==> forall k :: k in labels.value ==> r[k] == labels.value[k]
    ensures r["severity"] == if labels.Some? && "severity" in labels.value then labels.value["severity"] else severity
  {
    map["severity" := severity] + labels.GetOr(map[])
  }

  /**
   * The annotations of an alert rule: "summary" and "description" default
   * to "Alert: <name>" and "Alert triggered for <name>" when falsy, and
   * user annotations override both.
   */
  function AlertAnnotations(name: string, summary: Option<string>, description: Option<string>,
                            annotations: Option<map<string, string>>): (r: map<string, string>)
    ensures r.Keys == {"summary", "description"} + (if annotations.Some? then annotations.value.Keys else {})
    ensures annotations.Some? ==> forall k :: k in annotations.value ==> r[k] == annotations.value[k]
    ensures annotations.None? || "summary" !in annotations.value ==>
              r["summary"] == if StrTruthy(summary) then summary.value else "Alert: " + name
    ensures annotations.None? || "description" !in annotations.value ==>
              r["description"] == if StrTruthy(description) then description.value else "Alert triggered for " + name
  {
    map["summary" := if StrTruthy(summary) then summary.value else "Alert: " + name,
        "description" := if StrTruthy(description) then description.value else "Alert triggered for " + name]
    + annotations.GetOr(map[])
  }

  /** `create_alert_rule`. */
  function CreateAlertRule(name: string, expr: string, severity: string, summary: Option<string>,
                           description: Option<string>, labels: Option<map<string, string>>,
                           annotations: Option<map<string, string>>, forDuration: string): (r: Json)
    ensures r.JObj? && r.fields.Keys == {"alert", "expr", "for", "labels", "annotations"}
    ensures r.fields["alert"] == JStr(name) && r.fields["expr"] == JStr(expr) && r.fields["for"] == JStr(forDuration)
    ensures r.fields["labels"] == JObj(StrMap(AlertLabels(severity, labels)))
    ensures r.fields["annotations"] == JObj(StrMap(AlertAnnotations(name, summary, description, annotations)))
  {
    JObj(map[
      "alert" := JStr(name),
      "expr" := JStr(expr),
      "for" := JStr(forDuration),
      "labels" := JObj(StrMap(AlertLabels(severity, labels))),
      "annotations" := JObj(StrMap(AlertAnnotations(name, summary, description, annotations)))])
  }

  /** `create_recording_rule`: `labels or {}`. */
  function CreateRecordingRule(name: string, expr: string, labels: Option<map<string, string>>): (r: Json)
    ensures r.JObj? && r.fields.Keys == {"record", "expr", "labels"}
    ensures r.fields["record"] == JStr(name) && r.fields["expr"] == JStr(expr)
    ensures r.fields["labels"] == JObj(StrMap(labels.GetOr(map[])))
  {
    JObj(map["record" := JStr(name), "expr" := JStr(expr), "labels" := JObj(StrMap(labels.GetOr(map[])))])
  }

  /** `create_prometheus_rule_group`: the rules are kept as given, in order. */
  function CreateRuleGroup(name: string, rules: seq<Json>, interval: string): (r: Json)
    ensures r.JObj? && r.fields.Keys == {"name", "interval", "rules"}
    ensures r.fields["name"] == JStr(name) && r.fields["interval"] == JStr(interval)
    ensures r.fields["rules"] == JArr(rules)
  {
    JObj(map["name" := JStr(name), "interval" := JStr(interval), "rules" := JArr(rules)])
  }

  /** Python's `d or default` for an optional dict. */
  function DictOr(d: Option<map<string, Json>>, default: map<string, Json>): (r: map<string, Json>)
    ensures r == if d.Some? && d.value != map[] then d.value else default
  {
    if d.Some? && d.value != map[] then d.value else default
  }

  const DefaultTimeRange := map["from" := JStr("now-1h"), "to" := JStr("now")]
  const DefaultTemplating := map["list" := JArr([])]

  /** The JSON list of a dashboard's tags: `tags or []`. */
  function TagList(tags: Option<seq<string>>): (r: seq<Json>)
    ensures tags.None? ==> r == []
    ensures tags.Some? ==> |r| == |tags.value| && forall i :: 0 <= i < |r| ==> r[i] == JStr(tags.value[i])
  {
    if tags.Some? then seq(|tags.value|, i requires 0 <= i < |tags.value| => JStr(tags.value[i])) else []
  }

  /** The keys every dashboard of `create_grafana_dashboard` has. */
  function DashboardFields(title: string, panels: seq<Json>, tags: Option<seq<string>>,
                           time: Option<map<string, Json>>, templating: Option<map<string, Json>>,
                           refresh: string): (m: map<string, Json>)
    ensures m.Keys == {"id", "title", "tags", "timezone", "panels", "time", "refresh", "schemaVersion",
                       "version", "templating"}
  {
    map[
      "id" := JNull,
      "title" := JStr(title),
      "tags" := JArr(TagList(tags)),
      "timezone" := JStr("browser"),
      "panels" := JArr(panels),
      "time" := JObj(DictOr(time, DefaultTimeRange)),
      "refresh" := JStr(refresh),
      "schemaVersion" := JInt(38),
      "version" := JInt(1),
      "templating" := JObj(DictOr(templating, DefaultTemplating))]
  }

  /** `create_grafana_dashboard`. */
  function CreateDashboard(title: string, panels: seq<Json>, tags: Option<seq<string>>, uid: Option<string>,
                           time: Option<map<string, Json>>, templating: Option<map<string, Json>>,
                           refresh: string): (r: Json)
    ensures r.JObj?
    ensures r.fields.Keys == {"id", "title", "tags", "timezone", "panels", "time", "refresh", "schemaVersion",
                              "version", "templating"} + (if StrTruthy(uid) then {"uid"} else {})
    ensures StrTruthy(uid) ==> r.fields["uid"] == JStr(uid.value)
    ensures r.fields["id"] == JNull && r.fields["title"] == JStr(title) && r.fields["panels"] == JArr(panels)
    ensures r.fields["timezone"] == JStr("browser") && r.fields["refresh"] == JStr(refresh)
    ensures r.fields["schemaVersion"] == JInt(38) && r.fields["version"] == JInt(1)
    ensures r.fields["tags"] == JArr(TagList(tags))
    ensures time.None? || time.value == map[] ==> r.fields["time"] == JObj(DefaultTimeRange)
    ensures time.Some? && time.value != map[] ==> r.fields["time"] == JObj(time.value)
    ensures templating.None? || templating.value == map[] ==> r.fields["templating"] == JObj(DefaultTemplating)
    ensures templating.Some? && templating.value != map[] ==> r.fields["templating"] == JObj(templating.value)
  {
    var dashboard := DashboardFields(title, panels, tags, time, templating, refresh);
    JObj(if StrTruthy(uid) then dashboard["uid" := JStr(uid.value)] else dashboard)
  }

  const DefaultGridPos := map["x" := 0, "y" := 0, "w" := 12, "h" := 8]

  function IntMap(m: map<string, int>): (r: map<string, Json>)
    ensures r.Keys == m.Keys && forall k :: k in m ==> r[k] == JInt(m[k])
  {
    map k | k in m :: JInt(m[k])
  }

  /** `create_grafana_panel`. */
  function CreatePanel(title: string, expr: string, datasource: string, panelType: string,
                       position: Option<map<string, int>>, description: Option<string>,
                       legendFormat: Option<string>): (r: Json)
    ensures r.JObj?
    ensures r.fields.Keys == {"id", "title", "type", "datasource", "targets", "gridPos"} +
                             (if StrTruthy(description) then {"description"} else {})
    ensures StrTruthy(description) ==> r.fields["description"] == JStr(description.value)
    ensures r.fields["id"] == JNull && r.fields["title"] == JStr(title) && r.fields["type"] == JStr(panelType)
    ensures r.fields["datasource"] == JObj(map["type" := JStr("prometheus"), "uid" := JStr(datasource)])
    ensures r.fields["targets"].JArr? && |r.fields["targets"].items| == 1
    ensures r.fields["targets"].items[0] ==
              JObj(map["expr" := JStr(expr), "legendFormat" := OptStr(legendFormat), "refId" := JStr("A")])
    ensures position.None? || position.value == map[] ==> r.fields["gridPos"] == JObj(IntMap(DefaultGridPos))
    ensures position.Some? && position.value != map[] ==> r.fields["gridPos"] == JObj(IntMap(position.value))
  {
    var gridPos := if position.Some? && position.value != map[] then position.value else DefaultGridPos;
    var panel := map[
      "id" := JNull,
      "title" := JStr(title),
      "type" := JStr(panelType),
      "datasource" := JObj(map["type" := JStr("prometheus"), "uid" := JStr(datasource)]),
      "targets" := JArr([JObj(map["expr" := JStr(expr), "legendFormat" := OptStr(legendFormat), "refId" := JStr("A")])]),
      "gridPos" := JObj(IntMap(gridPos))];
    JObj(if StrTruthy(description) then panel["description" := JStr(description.value)] else panel)
  }

  // ---------------------------------------------------------------------
  // batch_execute
  // ---------------------------------------------------------------------

  /**
   * `ceil(n / b)`, by counting: the number of batches of at most `b`
   * among `n` tasks.
   */
  function BatchCount(n: nat, b: nat): (c: nat)
    requires b > 0
    ensures n > 0 ==> c >= 1
    ensures n <= b ==> c == (if n == 0 then 0 else 1)
    decreases n
  {
    if n == 0 then 0 else if n <= b then 1 else 1 + BatchCount(n - b, b)
  }

  /** The end of batch `k`: `min((k + 1) * b, n)`. */
  function BatchEnd(k: nat, b: nat, n: nat): nat {
    if (k + 1) * b < n then (k + 1) * b else n
  }

  /**
   * `batch_execute`. Each task stands for its outcome, as
   * `gather(..., return_exceptions=True)` delivers it; `batches` are the
   * slices gathered together and `sleeps` counts the pauses between them.
   * A zero batch size is the `ValueError` of `range()`; a negative one
   * makes the range empty.
   */
  method BatchExecute<T>(tasks: seq<T>, batchSize: int)
    returns (r: Result<seq<T>, Error>, batches: seq<seq<T>>, sleeps: nat)
    ensures batchSize == 0 ==> r.Failure? && r.error.kind == ValueError && batches == [] && sleeps == 0
    ensures batchSize < 0 ==> r == Success([]) && batches == [] && sleeps == 0
    ensures batchSize > 0 ==> r == Success(tasks)
    ensures batchSize > 0 ==> |batches| == BatchCount(|tasks|, batchSize)
    ensures batchSize > 0 ==> forall k :: 0 <= k < |batches| ==>
              k * batchSize <= BatchEnd(k, batchSize, |tasks|) <= |tasks| &&
              batches[k] == tasks[k * batchSize .. BatchEnd(k, batchSize, |tasks|)]
    ensures batchSize > 0 ==> sleeps == if tasks == [] then 0 else BatchCount(|tasks|, batchSize) - 1
  {
    batches := [];
    sleeps := 0;
    if batchSize == 0 {
      return Failure(Raise(ValueError, "range() arg 3 must not be zero")), batches, sleeps;
    }
    if batchSize < 0 {
      return Success([]), batches, sleeps;
    }
    var b: nat := batchSize;
    var n := |tasks|;
    var results: seq<T> := [];
    var i: nat := 0;
    while i < n
      invariant i == |batches| * b
      invariant i < n ==> |batches| + BatchCount(n - i, b) == BatchCount(n, b)
      invariant i >= n ==> |batches| == BatchCount(n, b)
      invariant results == tasks[..if i < n then i else n]
      invariant forall k :: 0 <= k < |batches| ==>
                  k * b <= BatchEnd(k, b, n) <= n && batches[k] == tasks[k * b .. BatchEnd(k, b, n)]
      invariant sleeps == if |batches| == 0 then 0 else if i < n then |batches| else |batches| - 1
      decreases n - i
    {
      var end := if i + b < n then i + b else n;
      var batch := tasks[i..end];
      assert end == BatchEnd(|batches|, b, n);
      assert tasks[..end] == tasks[..i] + batch;
      results := results + batch;
      batches := batches + [batch];
      if i + b < n {
        sleeps := sleeps + 1;
      }
      i := i + b;
    }
    assert results == tasks;
    return Success(results), batches, sleeps;
  }

  // ---------------------------------------------------------------------
  // retry_on_failure
  // ---------------------------------------------------------------------

  /** The `k`-th delay of the retry loop: `delay * backoff ** k`. */
  function Backoff(delay: real, backoff: real, k: nat): real {
    if k == 0 then delay else Backoff(delay, backoff, k - 1) * backoff
  }

  /** One more failed attempt multiplies the delay by `backoff`. */
  lemma BackoffStep(delay: real, backoff: real, k: nat)
    ensures Backoff(delay, backoff, k + 1) == Backoff(delay, backoff, k) * backoff
  {
  }

  /** `isinstance(e, exceptions)` for the tuple of classes given to the decorator. */
  predicate Caught(catches: seq<Kind>, e: Error) {
    exists c :: c in catches && IsA(e.kind, c)
  }

  /**
   * The loop of `sync_wrapper` and `async_wrapper` (the same loop):
   * `call(k)` is what attempt `k` ends in, `calls` the number of attempts
   * made and `sleeps` the delays slept, in order. With no attempt at all
   * the wrapper raises `None`, which is a `TypeError`.
   */
  method Retry<T(==)>(maxAttempts: int, delay: real, backoff: real, catches: seq<Kind>, call: nat -> Result<T, Error>)
    returns (r: Result<T, Error>, calls: nat, sleeps: seq<real>)
    ensures maxAttempts <= 0 ==>
              calls == 0 && sleeps == [] && r == Failure(Raise(TypeError, "exceptions must derive from BaseException"))
    ensures maxAttempts > 0 ==> 1 <= calls <= maxAttempts && r == call(calls - 1) && |sleeps| == calls - 1
    ensures forall j :: 0 <= j < calls - 1 ==> call(j).Failure? && Caught(catches, call(j).error)
    ensures maxAttempts > 0 && calls < maxAttempts ==> r.Success? || !Caught(catches, r.error)
    ensures forall k :: 0 <= k < |sleeps| ==> sleeps[k] == Backoff(delay, backoff, k)
  {
    var currentDelay := delay;
    var lastException: Option<Error> := None;
    calls := 0;
    sleeps := [];
    var attempt := 0;
    while attempt < maxAttempts
      invariant 0 <= attempt && (maxAttempts > 0 ==> attempt <= maxAttempts) && (maxAttempts <= 0 ==> attempt == 0)
      invariant calls == attempt
      invariant |sleeps| == if attempt < maxAttempts || attempt == 0 then attempt else attempt - 1
      invariant forall j :: 0 <= j < attempt ==> call(j).Failure? && Caught(catches, call(j).error)
      invariant attempt == 0 ==> lastException.None?
      invariant attempt > 0 ==> lastException == Some(call(attempt - 1).error)
      invariant currentDelay == Backoff(delay, backoff, |sleeps|)
      invariant forall k :: 0 <= k < |sleeps| ==> sleeps[k] == Backoff(delay, backoff, k)
    {
      var outcome := call(attempt);
      calls := calls + 1;
      if outcome.Success? {
        return outcome, calls, sleeps;
      }
      if !Caught(catches, outcome.error) {
        return outcome, calls, sleeps;
      }
      lastException := Some(outcome.error);
      if attempt < maxAttempts - 1 {
        BackoffStep(delay, backoff, |sleeps|);
        sleeps := sleeps + [currentDelay];
        currentDelay := currentDelay * backoff;
      }
      attempt := attempt + 1;
    }
    if lastException.None? {
      return Failure(Raise(TypeError, "exceptions must derive from BaseException")), calls, sleeps;
    }
    return Failure(lastException.value), calls, sleeps;
  }
}
