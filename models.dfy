/**
 * The query and result model: what a `Query` is (instant or range), how
 * a Prometheus HTTP API body becomes a `QueryResult` of `Metric`s, and
 * how an exception becomes a failed `QueryResult`.
 *
 * Fields that the library reads from a body and that pydantic types as
 * `str` (or `Dict[str, str]`) must be JSON strings; a body of another
 * shape makes `from_response` raise, which is the `MalformedBody` error
 * here. Sample values and timestamps stay raw JSON: their conversion to
 * `float` and `datetime` is not modelled.
 */
module Models {
  import opened Wrappers
  import opened Text
  import opened Json
  import opened Exceptions
  import opened Fields

  /** A point in time, by its Unix epoch seconds (what `.timestamp()` gives). */
  datatype Time = Time(epoch: real)

  /** `step: Optional[Union[str, int]]`. */
  datatype Step = StepText(text: string) | StepSeconds(seconds: int)

  /** Python truthiness of an optional step: `None`, `""` and `0` are falsy. */
  predicate StepTruthy(s: Option<Step>) {
    match s
    case None => false
    case Some(StepText(t)) => t != ""
    case Some(StepSeconds(n)) => n != 0
  }

  function StepJson(s: Step): Json {
    match s
    case StepText(t) => JStr(t)
    case StepSeconds(n) => JInt(n)
  }

  /** The `query_type` tag of queries and results. */
  datatype QueryKind = Instant | Range {
    function Tag(): (t: string)
      ensures t == "instant" || t == "range"
      ensures t == "range" <==> this == Range
    {
      if Range? then "range" else "instant"
    }
  }

  /**
   * `query[:50] + ("..." if len(query) > 50 else "")`, the display name
   * of a query or result whose name is falsy.
   */
  function Abbreviate(query: string): string {
    Take(query, 50) + (if |query| > 50 then "..." else "")
  }

  /** `name or query[:50] + ("..." if len(query) > 50 else "")`. */
  function DisplayNameOf(name: Option<string>, query: string): (r: string)
    ensures StrTruthy(name) ==> r == name.value
    ensures !StrTruthy(name) && |query| <= 50 ==> r == query
    ensures !StrTruthy(name) && |query| > 50 ==> |r| == 53 && r[..50] == query[..50] && r[50..] == "..."
    ensures !StrTruthy(name) ==> |r| <= 53
  {
    if StrTruthy(name) then name.value else Abbreviate(query)
  }

  /** One query, instant or range (`models.Query`). */
  datatype Query = Query(
    name: Option<string>,
    query: string,
    description: Option<string>,
    category: Option<string>,
    timeout: Option<string>,
    start: Option<Time>,
    end: Option<Time>,
    step: Option<Step>)
  {
    /** `is_range_query`: both `start` and `end` are present. */
    predicate IsRangeQuery() {
      start.Some? && end.Some?
    }

    /** `is_instant_query`. */
    predicate IsInstantQuery() {
      !IsRangeQuery()
    }

    /** `query_type`. */
    function QueryType(): (k: QueryKind)
      ensures k == Range <==> start.Some? && end.Some?
      ensures k == Instant <==> IsInstantQuery()
      ensures k.Tag() == (if start.Some? && end.Some? then "range" else "instant")
    {
      if IsRangeQuery() then Range else Instant
    }

    /** `display_name`. */
    function DisplayName(): (r: string)
      ensures StrTruthy(name) ==> r == name.value
      ensures !StrTruthy(name) ==> |r| <= 53 && r == Abbreviate(query)
    {
      DisplayNameOf(name, query)
    }
  }

  /** A query with only its text set (what a plain string input becomes). */
  function QueryOf(text: string): (q: Query)
    ensures q.query == text && q.name.None? && q.IsInstantQuery()
  {
    Query(None, text, None, None, None, None, None, None)
  }

  /** One `(timestamp, value)` sample of a range series, both kept as raw JSON. */
  datatype Point = Point(timestamp: Json, value: Json)

  /** One series of a result (`models.Metric`). */
  datatype Metric = Metric(
    name: string,
    labels: map<string, string>,
    value: Option<Json>,
    timestamp: Option<Json>,
    values: Option<seq<Point>>)

  /** `models.QueryResult`. */
  datatype QueryResult = QueryResult(
    queryName: Option<string>,
    query: string,
    queryType: QueryKind,
    success: bool,
    status: string,
    metrics: seq<Metric>,
    error: Option<string>,
    executionTime: Option<real>,
    data: Option<map<string, Json>>)
  {
    /** `metric_count`. */
    function MetricCount(): nat {
      |metrics|
    }

    /** `display_name`. */
    function DisplayName(): (r: string)
      ensures StrTruthy(queryName) ==> r == queryName.value
      ensures !StrTruthy(queryName) ==> |r| <= 53 && r == Abbreviate(query)
    {
      DisplayNameOf(queryName, query)
    }

    predicate IsRangeQuery() {
      queryType.Tag() == "range"
    }

    predicate IsInstantQuery() {
      queryType.Tag() == "instant"
    }
  }

  /** The shape every result built by `from_response` and `from_error` keeps. */
  predicate WellFormed(r: QueryResult) {
    (r.success ==> r.status == "success") && (!r.success ==> r.metrics == [])
  }

  // ---------------------------------------------------------------------
  // from_response, as specification functions
  // ---------------------------------------------------------------------

  const NameLabel := "__name__"

  /** `item.get("metric", {})` when the series and its label set are objects. */
  function SeriesLabelSet(item: Json): map<string, Json> {
    if item.JObj? && Get(item.fields, "metric", JObj(map[])).JObj? then
      Get(item.fields, "metric", JObj(map[])).fields
    else
      map[]
  }

  /** `{k: v for k, v in metric.items() if k != "__name__"}`. */
  function WithoutName(labels: map<string, Json>): (r: map<string, Json>)
    ensures NameLabel !in r
    ensures forall k :: k in r <==> k in labels && k != NameLabel
    ensures forall k :: k in r ==> r[k] == labels[k]
  {
    map k | k in labels && k != NameLabel :: labels[k]
  }

  /** `Metric(name=..., labels=..., ...)`: pydantic checks the name and the labels are strings. */
  function NewMetric(rawName: Json, rawLabels: map<string, Json>, value: Option<Json>,
                     timestamp: Option<Json>, values: Option<seq<Point>>): (r: Result<Metric, Error>)
    ensures r.Success? <==> AsStr(rawName).Success? && AsStrMap(rawLabels).Success?
    ensures r.Success? ==> JStr(r.value.name) == rawName && StrMap(r.value.labels) == rawLabels
    ensures r.Success? ==> r.value.value == value && r.value.timestamp == timestamp && r.value.values == values
    ensures r.Failure? ==> r.error.kind == MalformedBody
  {
    match AsStr(rawName)
    case Failure(e) => Failure(e)
    case Success(name) =>
      match AsStrMap(rawLabels)
      case Failure(e) => Failure(e)
      case Success(labels) => Success(Metric(name, labels, value, timestamp, values))
  }

  /** A pair that the matrix loop keeps: an array of at least two entries. */
  predicate LongPair(pair: Json) {
    pair.JArr? && |pair.items| >= 2
  }

  /**
   * A pair the matrix loop gets past: `len(pair)` is defined, and when it is
   * at least 2 the pair is an array (indexing a string or an object there
   * ends in a `TypeError` or `KeyError`).
   */
  predicate ReadablePair(pair: Json) {
    PyLen(pair).Some? && (PyLen(pair).value >= 2 ==> pair.JArr?)
  }

  /**
   * The `values` list built for one matrix series: pairs with fewer than
   * two entries are skipped, the others become a point, in order.
   */
  function SamplePoints(pairs: seq<Json>): (r: Result<seq<Point>, Error>)
    ensures r.Success? <==> forall i :: 0 <= i < |pairs| ==> ReadablePair(pairs[i])
    ensures r.Success? ==> |r.value| <= |pairs|
    ensures r.Failure? ==> r.error.kind == MalformedBody
    decreases |pairs|
  {
    if pairs == [] then Success([])
    else
      match SamplePoints(pairs[..|pairs| - 1])
      case Failure(e) => Failure(e)
      case Success(points) =>
        var pair := pairs[|pairs| - 1];
        if !ReadablePair(pair) then Failure(Malformed("sample is not an array"))
        else if LongPair(pair) then Success(points + [Point(pair.items[0], pair.items[1])])
        else Success(points)
  }

  /** The items `for value_pair in s` visits for a string: its characters, each a one-character string. */
  function Chars(s: string): (r: seq<Json>)
    ensures |r| == |s| && forall i :: 0 <= i < |s| ==> r[i] == JStr([s[i]])
  {
    seq(|s|, i requires 0 <= i < |s| => JStr([s[i]]))
  }

  /** Iterating a string gives no points: every character has length 1 and is skipped. */
  lemma {:induction false} CharsHaveNoPoints(s: string)
    ensures SamplePoints(Chars(s)) == Success([])
    decreases |s|
  {
    if s != [] {
      var n := |s| - 1;
      assert Chars(s)[..n] == Chars(s[..n]);
      CharsHaveNoPoints(s[..n]);
    }
  }

  /** The items `for value_pair in d` visits for an object, given the order its keys come in. */
  function KeyItems(keys: seq<string>): (r: seq<Json>)
    ensures |r| == |keys| && forall i :: 0 <= i < |keys| ==> r[i] == JStr(keys[i])
  {
    seq(|keys|, i requires 0 <= i < |keys| => JStr(keys[i]))
  }

  /**
   * Iterating an object's keys, in whatever order they come, gives no
   * points when every key is shorter than two characters, and fails
   * otherwise (a longer key is indexed, and its first character is no
   * timestamp).
   */
  lemma {:induction false} KeyItemsPoints(keys: seq<string>)
    ensures var r := SamplePoints(KeyItems(keys));
            (r.Success? <==> forall i :: 0 <= i < |keys| ==> |keys[i]| < 2) && (r.Success? ==> r.value == [])
    decreases |keys|
  {
    if keys != [] {
      var n := |keys| - 1;
      assert KeyItems(keys)[..n] == KeyItems(keys[..n]);
      KeyItemsPoints(keys[..n]);
    }
  }

  /**
   * The `values` list of a matrix series, for whatever `item.get("values", [])`
   * holds: an array's pairs as `SamplePoints` reads them; a string's
   * characters, which are all skipped; an object's keys, which are all
   * skipped when shorter than two characters and fail otherwise; any other
   * value is not iterable.
   */
  function SeriesValues(values: Json): (r: Result<seq<Point>, Error>)
    ensures values.JArr? ==> r == SamplePoints(values.items)
    ensures values.JStr? ==> r == SamplePoints(Chars(values.s)) && r == Success([])
    ensures values.JObj? ==> (r.Success? <==> forall k :: k in values.fields ==> |k| < 2)
    ensures values.JObj? && r.Success? ==> r.value == []
    ensures !(values.JArr? || values.JStr? || values.JObj?) ==> r.Failure? && r.error.kind == MalformedBody
    ensures r.Failure? ==> r.error.kind == MalformedBody
  {
    match values
    case JArr(pairs) => SamplePoints(pairs)
    case JStr(s) => CharsHaveNoPoints(s); SamplePoints(Chars(s))
    case JObj(m) => if forall k :: k in m ==> |k| < 2 then Success([]) else Failure(Malformed("sample is not an array"))
    case _ => Failure(Malformed("samples are not iterable"))
  }

  /** A vector series that yields a metric: its `value` is an array of at least two entries. */
  predicate HasSample(item: Json) {
    item.JObj? && LongPair(Get(item.fields, "value", JNull))
  }

  /** A series' labels make a metric: the name (default "unknown") and every other label are strings. */
  predicate LabelsReadable(labels: map<string, Json>) {
    && Get(labels, NameLabel, JStr("unknown")).JStr?
    && forall k :: k in labels && k != NameLabel ==> labels[k].JStr?
  }

  /**
   * A series `from_response` gets past: an object whose "metric" (default
   * `{}`) is an object; for "vector" a truthy "value" has a length and is
   * an array when that length is at least 2, and a sampled series has
   * readable labels; for "matrix" the "values" iterate into points and the
   * labels are readable. Any other result type reads nothing more.
   */
  predicate SeriesReadable(item: Json, resultType: Json) {
    && item.JObj?
    && Get(item.fields, "metric", JObj(map[])).JObj?
    && var labels := Get(item.fields, "metric", JObj(map[])).fields;
       var value := Get(item.fields, "value", JNull);
       && (resultType == JStr("vector") ==>
             (Truthy(value) ==> ReadablePair(value)) && (LongPair(value) ==> LabelsReadable(labels)))
       && (resultType == JStr("matrix") ==>
             SeriesValues(Get(item.fields, "values", JArr([]))).Success? && LabelsReadable(labels))
  }

  /**
   * The metric one series contributes, if any: for "vector" a series with
   * a sample, for "matrix" every series, for any other result type none.
   */
  function SeriesMetric(item: Json, resultType: Json): (r: Result<Option<Metric>, Error>)
    ensures r.Success? <==> SeriesReadable(item, resultType)
    ensures r.Failure? ==> r.error.kind == MalformedBody
    ensures r.Success? && r.value.Some? ==>
              NameLabel !in r.value.value.labels &&
              StrMap(r.value.value.labels) == WithoutName(SeriesLabelSet(item)) &&
              JStr(r.value.value.name) == Get(SeriesLabelSet(item), NameLabel, JStr("unknown"))
    ensures resultType == JStr("vector") && r.Success? ==>
              (r.value.Some? <==> HasSample(item)) &&
              (r.value.Some? ==>
                 var sample := Get(item.fields, "value", JNull).items;
                 r.value.value.value == Some(sample[1]) &&
                 r.value.value.timestamp == Some(sample[0]) &&
                 r.value.value.values.None?)
    ensures resultType == JStr("matrix") && r.Success? ==>
              r.value.Some? && r.value.value.value.None? && r.value.value.timestamp.None? &&
              r.value.value.values.Some? &&
              SeriesValues(Get(item.fields, "values", JArr([]))) == Success(r.value.value.values.value)
    ensures resultType != JStr("vector") && resultType != JStr("matrix") && r.Success? ==> r.value.None?
  {
    if !item.JObj? then Failure(Malformed("series is not an object"))
    else
      var metric := Get(item.fields, "metric", JObj(map[]));
      if !metric.JObj? then Failure(Malformed("series labels are not an object"))
      else
        var rawName := Get(metric.fields, NameLabel, JStr("unknown"));
        var rawLabels := WithoutName(metric.fields);
        if resultType == JStr("vector") then
          var valueData := Get(item.fields, "value", JNull);
          if !Truthy(valueData) then Success(None)
          else if !ReadablePair(valueData) then Failure(Malformed("sample is not an array"))
          else if !LongPair(valueData) then Success(None)
          else
            match NewMetric(rawName, rawLabels, Some(valueData.items[1]), Some(valueData.items[0]), None)
            case Failure(e) => Failure(e)
            case Success(m) => Success(Some(m))
        else if resultType == JStr("matrix") then
          match SeriesValues(Get(item.fields, "values", JArr([])))
          case Failure(e) => Failure(e)
          case Success(points) =>
            match NewMetric(rawName, rawLabels, None, None, Some(points))
            case Failure(e) => Failure(e)
            case Success(m) => Success(Some(m))
        else
          Success(None)
  }

  /** The `metrics` list built from `data.result`: series in order, each adding at most one metric. */
  function SeriesMetrics(items: seq<Json>, resultType: Json): (r: Result<seq<Metric>, Error>)
    ensures r.Success? ==> |r.value| <= |items|
    ensures r.Success? <==> forall i :: 0 <= i < |items| ==> SeriesMetric(items[i], resultType).Success?
    ensures r.Failure? ==> r.error.kind == MalformedBody
    decreases |items|
  {
    if items == [] then Success([])
    else
      match SeriesMetrics(items[..|items| - 1], resultType)
      case Failure(e) => Failure(e)
      case Success(metrics) =>
        match SeriesMetric(items[|items| - 1], resultType)
        case Failure(e) => Failure(e)
        case Success(None) => Success(metrics)
        case Success(Some(m)) => Success(metrics + [m])
  }

  /**
   * The metrics of a "success" body: none when it has no "data" key;
   * otherwise "data" must be an object, and its "result" (default `[]`) is
   * iterated series by series. An empty object or string there gives no
   * series.
   */
  function DataMetrics(body: map<string, Json>): (r: Result<seq<Metric>, Error>)
    ensures "data" !in body ==> r == Success([])
    ensures r.Failure? ==> r.error.kind == MalformedBody
    ensures "data" in body && !body["data"].JObj? ==> r.Failure? && r.error.kind == MalformedBody
    ensures "data" in body && body["data"].JObj? ==>
              var data := body["data"].fields;
              var results := Get(data, "result", JArr([]));
              (!IterableOfObjects(results) ==> r.Failure? && r.error.kind == MalformedBody) &&
              (IterableOfObjects(results) ==> r == SeriesMetrics(Iterated(results).value, Get(data, "resultType", JStr(""))))
  {
    if "data" !in body then Success([])
    else
      var data := body["data"];
      if !data.JObj? then Failure(Malformed("data is not an object"))
      else
        var resultType := Get(data.fields, "resultType", JStr(""));
        var items :- Iterated(Get(data.fields, "result", JArr([])));
        SeriesMetrics(items, resultType)
  }

  /**
   * `QueryResult.from_response`: a body whose status is not "success"
   * (a missing status reads "unknown") gives a failed result carrying the
   * body's "error" (default "Unknown error"); a "success" body gives a
   * successful result with its metrics. `Failure` is the exception the
   * classmethod raises on a body of the wrong shape.
   */
  function FromResponseSpec(queryName: Option<string>, query: string, response: Json,
                            executionTime: Option<real>, queryType: QueryKind): (r: Result<QueryResult, Error>)
    ensures r.Success? ==> response.JObj? && WellFormed(r.value)
    ensures r.Success? ==>
              r.value.queryName == queryName && r.value.query == query &&
              r.value.queryType == queryType && r.value.executionTime == executionTime &&
              r.value.data == Some(response.fields)
    ensures r.Success? ==>
              (r.value.success <==> Get(response.fields, "status", JStr("unknown")) == JStr("success"))
    ensures r.Success? && !r.value.success ==>
              JStr(r.value.status) == Get(response.fields, "status", JStr("unknown")) &&
              OptStr(r.value.error) == Get(response.fields, "error", JStr("Unknown error"))
    ensures r.Success? && r.value.success ==>
              r.value.error.None? && DataMetrics(response.fields) == Success(r.value.metrics)
    ensures r.Success? <==>
              response.JObj? &&
              var status := Get(response.fields, "status", JStr("unknown"));
              (status != JStr("success") ==>
                 status.JStr? && AsOptStr(Get(response.fields, "error", JStr("Unknown error"))).Success?) &&
              (status == JStr("success") ==> DataMetrics(response.fields).Success?)
    ensures response.JObj? && Get(response.fields, "status", JStr("unknown")) == JStr("success") && r.Failure? ==>
              r.error == DataMetrics(response.fields).error
    ensures r.Failure? ==> r.error.kind == MalformedBody
  {
    if !response.JObj? then Failure(Malformed("response is not an object"))
    else
      var body := response.fields;
      var status := Get(body, "status", JStr("unknown"));
      if status != JStr("success") then
        match AsStr(status)
        case Failure(e) => Failure(e)
        case Success(statusText) =>
          match AsOptStr(Get(body, "error", JStr("Unknown error")))
          case Failure(e) => Failure(e)
          case Success(error) =>
            Success(QueryResult(queryName, query, queryType, false, statusText, [], error, executionTime, Some(body)))
      else
        match DataMetrics(body)
        case Failure(e) => Failure(e)
        case Success(metrics) =>
          Success(QueryResult(queryName, query, queryType, true, "success", metrics, None, executionTime, Some(body)))
  }

  /** `QueryResult.from_error`. */
  function FromError(queryName: Option<string>, query: string, error: Error,
                     executionTime: Option<real>, queryType: QueryKind): (r: QueryResult)
    ensures WellFormed(r) && !r.success && r.status == "error" && r.metrics == []
    ensures r.error == Some(Str(error)) && r.data.None?
    ensures r.queryName == queryName && r.query == query && r.queryType == queryType
    ensures r.executionTime == executionTime
  {
    QueryResult(queryName, query, queryType, false, "error", [], Some(Str(error)), executionTime, None)
  }

  // ---------------------------------------------------------------------
  // Properties of the specification functions
  // ---------------------------------------------------------------------

  /** Once a prefix of the samples fails, the whole list fails with the same exception. */
  lemma {:induction false} SamplePointsFailurePersists(pairs: seq<Json>, j: nat)
    requires j <= |pairs| && SamplePoints(pairs[..j]).Failure?
    ensures SamplePoints(pairs) == SamplePoints(pairs[..j])
    decreases |pairs| - j
  {
    if j < |pairs| {
      assert pairs[..j + 1][..j] == pairs[..j];
      SamplePointsFailurePersists(pairs, j + 1);
    } else {
      assert pairs[..j] == pairs;
    }
  }

  /** Once a prefix of the series fails, the whole list fails with the same exception. */
  lemma {:induction false} SeriesMetricsFailurePersists(items: seq<Json>, resultType: Json, j: nat)
    requires j <= |items| && SeriesMetrics(items[..j], resultType).Failure?
    ensures SeriesMetrics(items, resultType) == SeriesMetrics(items[..j], resultType)
    decreases |items| - j
  {
    if j < |items| {
      assert items[..j + 1][..j] == items[..j];
      SeriesMetricsFailurePersists(items, resultType, j + 1);
    } else {
      assert items[..j] == items;
    }
  }

  /** Series `i` is the first that fails to decode, and it fails with `e`. */
  predicate FirstFailingSeries(items: seq<Json>, resultType: Json, i: int, e: Error) {
    && 0 <= i < |items|
    && SeriesMetric(items[i], resultType).Failure?
    && SeriesMetric(items[i], resultType).error == e
    && forall j :: 0 <= j < i ==> SeriesMetric(items[j], resultType).Success?
  }

  /**
   * A failed decoding reports the error of its first failing series: every
   * series before it decodes.
   */
  lemma {:induction false} SeriesMetricsFirstFailure(items: seq<Json>, resultType: Json)
    requires SeriesMetrics(items, resultType).Failure?
    ensures exists i :: FirstFailingSeries(items, resultType, i, SeriesMetrics(items, resultType).error)
    decreases |items|
  {
    var n := |items|;
    var init := items[..n - 1];
    var e := SeriesMetrics(items, resultType).error;
    if SeriesMetrics(init, resultType).Failure? {
      SeriesMetricsFirstFailure(init, resultType);
      var i :| FirstFailingSeries(init, resultType, i, e);
      assert forall j :: 0 <= j <= i ==> items[j] == init[j];
      assert FirstFailingSeries(items, resultType, i, e);
    } else {
      assert forall j :: 0 <= j < n - 1 ==> items[j] == init[j];
      assert FirstFailingSeries(items, resultType, n - 1, e);
    }
  }

  /** The pairs a matrix series keeps, in input order. */
  function LongPairs(pairs: seq<Json>): (r: seq<Json>)
    ensures forall i :: 0 <= i < |r| ==> LongPair(r[i])
    decreases |pairs|
  {
    if pairs == [] then []
    else LongPairs(pairs[..|pairs| - 1]) + (if LongPair(pairs[|pairs| - 1]) then [pairs[|pairs| - 1]] else [])
  }

  /**
   * The matrix `values` list keeps input order and drops short pairs:
   * it is the long pairs, each read as (timestamp, value).
   */
  lemma {:induction false} SamplePointsAreLongPairs(pairs: seq<Json>)
    requires SamplePoints(pairs).Success?
    ensures var points := SamplePoints(pairs).value;
            |points| == |LongPairs(pairs)| &&
            forall i :: 0 <= i < |points| ==>
              points[i] == Point(LongPairs(pairs)[i].items[0], LongPairs(pairs)[i].items[1])
    decreases |pairs|
  {
    if pairs != [] {
      var init := pairs[..|pairs| - 1];
      SamplePointsAreLongPairs(init);
    }
  }

  /** For a "matrix" body: exactly one metric per series, in order. */
  lemma {:induction false} MatrixOneMetricPerSeries(items: seq<Json>)
    requires SeriesMetrics(items, JStr("matrix")).Success?
    ensures var metrics := SeriesMetrics(items, JStr("matrix")).value;
            |metrics| == |items| &&
            forall i :: 0 <= i < |items| ==> SeriesMetric(items[i], JStr("matrix")) == Success(Some(metrics[i]))
    decreases |items|
  {
    if items != [] {
      var init := items[..|items| - 1];
      MatrixOneMetricPerSeries(init);
      var metrics := SeriesMetrics(items, JStr("matrix")).value;
      var last := SeriesMetric(items[|items| - 1], JStr("matrix"));
      assert last.Success? && last.value.Some?;
      assert metrics == SeriesMetrics(init, JStr("matrix")).value + [last.value.value];
      forall i | 0 <= i < |items|
        ensures SeriesMetric(items[i], JStr("matrix")) == Success(Some(metrics[i]))
      {
        if i < |items| - 1 {
          assert items[i] == init[i];
        }
      }
    }
  }

  /** The series of a "vector" body that carry a sample, in input order. */
  function Sampled(items: seq<Json>): (r: seq<Json>)
    ensures forall i :: 0 <= i < |r| ==> HasSample(r[i])
    decreases |items|
  {
    if items == [] then []
    else Sampled(items[..|items| - 1]) + (if HasSample(items[|items| - 1]) then [items[|items| - 1]] else [])
  }

  /**
   * For a "vector" body: one metric per series that has a sample of at
   * least two entries, in order; other series are skipped.
   */
  lemma {:induction false} VectorOneMetricPerSample(items: seq<Json>)
    requires SeriesMetrics(items, JStr("vector")).Success?
    ensures var metrics := SeriesMetrics(items, JStr("vector")).value;
            |metrics| == |Sampled(items)| &&
            forall i :: 0 <= i < |metrics| ==> SeriesMetric(Sampled(items)[i], JStr("vector")) == Success(Some(metrics[i]))
    decreases |items|
  {
    if items != [] {
      var init := items[..|items| - 1];
      VectorOneMetricPerSample(init);
    }
  }

  /** For any other result type: no metrics at all. */
  lemma {:induction false} OtherTypeNoMetrics(items: seq<Json>, resultType: Json)
    requires resultType != JStr("vector") && resultType != JStr("matrix")
    requires SeriesMetrics(items, resultType).Success?
    ensures SeriesMetrics(items, resultType).value == []
    decreases |items|
  {
    if items != [] {
      OtherTypeNoMetrics(items[..|items| - 1], resultType);
    }
  }

  // ---------------------------------------------------------------------
  // from_response as the source runs it: nested loops that append
  // ---------------------------------------------------------------------

  /** The inner loop of the matrix branch. */
  method CollectPoints(pairs: seq<Json>) returns (r: Result<seq<Point>, Error>)
    ensures r == SamplePoints(pairs)
  {
    var points: seq<Point> := [];
    var i := 0;
    while i < |pairs|
      invariant 0 <= i <= |pairs|
      invariant SamplePoints(pairs[..i]) == Success(points)
    {
      var pair := pairs[i];
      assert pairs[..i + 1][..i] == pairs[..i];
      if !ReadablePair(pair) {
        SamplePointsFailurePersists(pairs, i + 1);
        return Failure(Malformed("sample is not an array"));
      }
      if LongPair(pair) {
        points := points + [Point(pair.items[0], pair.items[1])];
      }
      i := i + 1;
    }
    assert pairs[..i] == pairs;
    return Success(points);
  }

  /** The body of the outer loop: one series. */
  method BuildSeries(item: Json, resultType: Json) returns (r: Result<Option<Metric>, Error>)
    ensures r == SeriesMetric(item, resultType)
  {
    if !item.JObj? {
      return Failure(Malformed("series is not an object"));
    }
    var metric := Get(item.fields, "metric", JObj(map[]));
    if !metric.JObj? {
      return Failure(Malformed("series labels are not an object"));
    }
    var rawName := Get(metric.fields, NameLabel, JStr("unknown"));
    var rawLabels := WithoutName(metric.fields);
    if resultType == JStr("vector") {
      var valueData := Get(item.fields, "value", JNull);
      if Truthy(valueData) {
        if !ReadablePair(valueData) {
          return Failure(Malformed("sample is not an array"));
        }
        if LongPair(valueData) {
          var m := NewMetric(rawName, rawLabels, Some(valueData.items[1]), Some(valueData.items[0]), None);
          if m.Failure? {
            return Failure(m.error);
          }
          return Success(Some(m.value));
        }
      }
      return Success(None);
    } else if resultType == JStr("matrix") {
      var pairs := Get(item.fields, "values", JArr([]));
      var points;
      if pairs.JArr? {
        points := CollectPoints(pairs.items);
      } else if pairs.JStr? {
        points := CollectPoints(Chars(pairs.s));
      } else if pairs.JObj? {
        points := SeriesValues(pairs);
      } else {
        return Failure(Malformed("samples are not iterable"));
      }
      if points.Failure? {
        return Failure(points.error);
      }
      var m := NewMetric(rawName, rawLabels, None, None, Some(points.value));
      if m.Failure? {
        return Failure(m.error);
      }
      return Success(Some(m.value));
    }
    return Success(None);
  }

  /** `QueryResult.from_response`, appending metrics series by series. */
  method FromResponse(queryName: Option<string>, query: string, response: Json,
                      executionTime: Option<real>, queryType: QueryKind)
    returns (r: Result<QueryResult, Error>)
    ensures r == FromResponseSpec(queryName, query, response, executionTime, queryType)
  {
    if !response.JObj? {
      return Failure(Malformed("response is not an object"));
    }
    var body := response.fields;
    var status := Get(body, "status", JStr("unknown"));
    if status != JStr("success") {
      var statusText := AsStr(status);
      if statusText.Failure? {
        return Failure(statusText.error);
      }
      var error := AsOptStr(Get(body, "error", JStr("Unknown error")));
      if error.Failure? {
        return Failure(error.error);
      }
      return Success(QueryResult(queryName, query, queryType, false, statusText.value, [], error.value,
                                 executionTime, Some(body)));
    }
    var metrics: seq<Metric> := [];
    if "data" in body {
      var data := body["data"];
      if !data.JObj? {
        return Failure(Malformed("data is not an object"));
      }
      var resultType := Get(data.fields, "resultType", JStr(""));
      var items := Iterated(Get(data.fields, "result", JArr([])));
      if items.Failure? {
        return Failure(items.error);
      }
      var collected := CollectMetrics(items.value, resultType);
      if collected.Failure? {
        return Failure(collected.error);
      }
      metrics := collected.value;
    }
    return Success(QueryResult(queryName, query, queryType, true, "success", metrics, None, executionTime, Some(body)));
  }

  /** The loop of `from_response` over `data.result`, appending one metric per decoded series. */
  method CollectMetrics(items: seq<Json>, resultType: Json) returns (r: Result<seq<Metric>, Error>)
    ensures r == SeriesMetrics(items, resultType)
  {
    var metrics: seq<Metric> := [];
    var i := 0;
    while i < |items|
      invariant 0 <= i <= |items|
      invariant SeriesMetrics(items[..i], resultType) == Success(metrics)
    {
      assert items[..i + 1][..i] == items[..i] && items[..i + 1][i] == items[i];
      var series := BuildSeries(items[i], resultType);
      if series.Failure? {
        SeriesMetricsFailurePersists(items, resultType, i + 1);
        return Failure(series.error);
      }
      if series.value.Some? {
        metrics := metrics + [series.value.value];
      }
      i := i + 1;
    }
    assert items[..i] == items;
    return Success(metrics);
  }

  // ---------------------------------------------------------------------
  // Summaries
  // ---------------------------------------------------------------------

  /** Python's `[:limit]` end index on a list of length `n` (a negative limit counts from the end). */
  function SliceEnd(n: nat, limit: int): (k: nat)
    ensures k <= n
    ensures limit >= 0 ==> k == if limit < n then limit else n
    ensures limit < 0 ==> k == if n + limit > 0 then n + limit else 0
  {
    if limit >= 0 then (if limit < n then limit else n)
    else if n + limit > 0 then n + limit else 0
  }

  /**
   * `items` is `labels.items()`: every label exactly once, in the order
   * the dict visits them, which a map does not record.
   */
  ghost predicate ItemsOf(items: seq<(string, string)>, labels: map<string, string>) {
    && |items| == |labels|
    && (forall j :: 0 <= j < |items| ==> items[j].0 in labels && labels[items[j].0] == items[j].1)
    && (forall k :: k in labels ==> (k, labels[k]) in items)
  }

  /** `f"{k}={v}"` for each item. */
  function LabelItems(items: seq<(string, string)>): (r: seq<string>)
    ensures |r| == |items|
  {
    seq(|items|, j requires 0 <= j < |items| => items[j].0 + "=" + items[j].1)
  }

  /** `", ".join(f"{k}={v}" for k, v in labels.items())`. */
  function LabelsText(items: seq<(string, string)>): string {
    Join(", ", LabelItems(items))
  }

  lemma CommaFree(a: string, b: string)
    requires ',' !in a && ',' !in b
    ensures ',' !in a + b
  {
  }

  /** With no comma inside a key or value, the text splits at its commas into the items, each but the first led by a space. */
  lemma SplitLabelsText(items: seq<(string, string)>)
    requires |items| >= 1
    requires forall j :: 0 <= j < |items| ==> ',' !in items[j].0 && ',' !in items[j].1
    ensures Split(LabelsText(items), ',') == LedBySpace(LabelItems(items))
  {
    var led := LedBySpace(LabelItems(items));
    JoinCommaSpace(LabelItems(items));
    forall j | 0 <= j < |led|
      ensures ',' !in led[j]
    {
      var lead := if j == 0 then "" else " ";
      assert led[j] == lead + (items[j].0 + "=" + items[j].1);
      CommaFree(lead, items[j].0 + "=" + items[j].1);
      CommaFree(items[j].0 + "=", items[j].1);
      CommaFree(items[j].0, "=");
    }
    SplitJoin(led, ',');
    assert Join(",", led) == Join([','], led);
  }

  /**
   * The rendered labels read back: when no key or value holds a comma,
   * splitting the text at its commas gives one "k=v" piece per label, in
   * the visiting order (each but the first led by the joining space), each
   * naming a label with its value; and the text is empty exactly when
   * there are no labels.
   */
  lemma LabelsTextReadsBack(labels: map<string, string>, items: seq<(string, string)>)
    requires ItemsOf(items, labels)
    requires forall k :: k in labels ==> ',' !in k && ',' !in labels[k]
    ensures LabelsText(items) == "" <==> labels == map[]
    ensures labels != map[] ==>
              var parts := Split(LabelsText(items), ',');
              |parts| == |labels| &&
              forall j :: 0 <= j < |parts| ==>
                parts[j] == (if j == 0 then "" else " ") + items[j].0 + "=" + labels[items[j].0]
  {
    if labels == map[] {
      assert |items| == 0;
    } else {
      var k0 :| k0 in labels;
      assert (k0, labels[k0]) in items;
      SplitLabelsText(items);
      var head := items[0].0 + "=" + items[0].1;
      assert Split(LabelsText(items), ',')[0] == head;
      assert head[|items[0].0|] == '=';
      assert Split("", ',') == [""];
    }
  }

  /** One entry of `get_metrics_summary`. */
  datatype MetricSummary = MetricSummary(
    index: int,
    name: string,
    value: Option<Json>,
    labels: string,
    timestamp: Option<Json>,
    dataPoints: nat)

  /** `get_metrics_summary(limit)`: one entry per metric of `metrics[:limit]`, numbered from 1. */
  method GetMetricsSummary(result: QueryResult, limit: int, labelItems: seq<seq<(string, string)>>)
    returns (summary: seq<MetricSummary>)
    requires |labelItems| == |result.metrics|
    requires forall i :: 0 <= i < |labelItems| ==> ItemsOf(labelItems[i], result.metrics[i].labels)
    ensures |summary| == SliceEnd(|result.metrics|, limit)
    ensures forall i :: 0 <= i < |summary| ==>
              var m := result.metrics[i];
              summary[i].index == i + 1 && summary[i].name == m.name && summary[i].value == m.value &&
              summary[i].labels == LabelsText(labelItems[i]) && summary[i].timestamp == m.timestamp &&
              summary[i].dataPoints == (if m.values.Some? then |m.values.value| else 0)
  {
    var shown := result.metrics[..SliceEnd(|result.metrics|, limit)];
    summary := [];
    var i := 0;
    while i < |shown|
      invariant 0 <= i <= |shown|
      invariant |summary| == i
      invariant forall j :: 0 <= j < i ==>
                  var m := shown[j];
                  summary[j].index == j + 1 && summary[j].name == m.name && summary[j].value == m.value &&
                  summary[j].labels == LabelsText(labelItems[j]) && summary[j].timestamp == m.timestamp &&
                  summary[j].dataPoints == (if m.values.Some? then |m.values.value| else 0)
    {
      var metric := shown[i];
      var points := if metric.values.Some? && metric.values.value != [] then |metric.values.value| else 0;
      var labels := LabelsText(labelItems[i]);
      summary := summary + [MetricSummary(i + 1, metric.name, metric.value, labels, metric.timestamp, points)];
      i := i + 1;
    }
  }

  /** `get_result_summary()`: the "error" key is present exactly for a failed result. */
  function GetResultSummary(r: QueryResult): (s: map<string, Json>)
    ensures "error" in s <==> !r.success
    ensures !r.success ==> s["error"] == OptStr(r.error)
    ensures s.Keys - {"error"} == {"query_name", "query", "query_type", "success", "status", "metric_count", "execution_time"}
    ensures s["query_name"] == OptStr(r.queryName) && s["query"] == JStr(r.query) && s["status"] == JStr(r.status)
    ensures s["metric_count"] == JInt(r.MetricCount()) && s["success"] == JBool(r.success)
    ensures s["query_type"] == JStr(r.queryType.Tag())
    ensures s["execution_time"] == if r.executionTime.Some? then JFloat(r.executionTime.value) else JNull
  {
    var summary := map[
      "query_name" := OptStr(r.queryName),
      "query" := JStr(r.query),
      "query_type" := JStr(r.queryType.Tag()),
      "success" := JBool(r.success),
      "status" := JStr(r.status),
      "metric_count" := JInt(r.MetricCount()),
      "execution_time" := if r.executionTime.Some? then JFloat(r.executionTime.value) else JNull
    ];
    if !r.success then summary["error" := OptStr(r.error)] else summary
  }
}
