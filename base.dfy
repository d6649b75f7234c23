/**
 * The shared HTTP client: constructor normalisation, how `_request`
 * forms the URL and the header set, and how a response status becomes
 * an exception. The socket I/O itself is the `transport` parameter: it
 * receives the fully formed request and answers with a decoded body or
 * with the exception `_request` ends in.
 */
module Base {
  import opened Wrappers
  import opened Text
  import opened Json
  import opened Exceptions

  /** A request exactly as `_request` hands it to the HTTP session. */
  datatype HttpRequest = HttpRequest(
    verb: string,
    url: string,
    params: map<string, Json>,
    body: Option<Json>,
    headers: map<string, string>)

  /** What a call of `_request` ends in: a decoded JSON body, or a raised exception. */
  datatype Outcome = Body(json: Json) | Raised(error: Error)

  /** `f"{base_url}/{endpoint.lstrip('/')}"`. */
  function JoinUrl(baseUrl: string, endpoint: string): string {
    baseUrl + "/" + LStrip(endpoint, '/')
  }

  /**
   * With a base URL that went through the constructor's `rstrip("/")`,
   * exactly one '/' separates it from the endpoint's remainder: the
   * characters around the separator are not slashes and the endpoint's
   * text, less its leading slashes, follows unchanged.
   */
  lemma JoinUrlOneSeparator(rawBase: string, endpoint: string)
    ensures var b := RStrip(rawBase, '/');
            var e := LStrip(endpoint, '/');
            var u := JoinUrl(b, endpoint);
            u[..|b|] == b && u[|b|] == '/' && u[|b| + 1..] == e &&
            (|b| > 0 ==> u[|b| - 1] != '/') &&
            (|e| > 0 ==> u[|b| + 1] != '/')
  {
  }

  /** `{**defaults, **(headers or {})}`: per-call headers win on a shared key. */
  function MergeHeaders(defaults: map<string, string>, extra: Option<map<string, string>>): (r: map<string, string>)
    ensures extra.None? ==> r == defaults
    ensures extra.Some? ==> r.Keys == defaults.Keys + extra.value.Keys
    ensures extra.Some? ==> forall k :: k in extra.value ==> r[k] == extra.value[k]
    ensures forall k :: k in defaults && (extra.None? || k !in extra.value) ==> r[k] == defaults[k]
  {
    defaults + extra.GetOr(map[])
  }

  /**
   * `_handle_response` and `_handle_httpx_response` (identical rules):
   * the exception a response with this status raises, if any. A 429 is
   * checked first and reads its `Retry-After` header with `int()`, which
   * itself raises `ValueError` on a non-numeric value.
   */
  function ClassifyStatus(status: int, retryAfter: Option<string>, text: string): (r: Option<Error>)
    ensures r.None? <==> status < 400
    ensures status == 429 && !StrTruthy(retryAfter) ==>
              r == Some(NewRateLimitError(Some("Rate limit exceeded"), None, Some(429), None))
    ensures status == 429 && StrTruthy(retryAfter) && ParseInt(retryAfter.value).Some? ==>
              r == Some(NewRateLimitError(Some("Rate limit exceeded"), ParseInt(retryAfter.value), Some(429), None))
    ensures status == 429 && StrTruthy(retryAfter) && ParseInt(retryAfter.value).None? ==>
              r.Some? && r.value.kind == ValueError
    ensures status == 401 ==> r == Some(NewAPIError(APIError, "Authentication failed", Some(401), None))
    ensures status >= 400 && status != 429 && status != 401 ==>
              r == Some(NewAPIError(APIError, "Request failed: " + text, Some(status), None))
    ensures r.Some? && r.value.kind != ValueError ==> r.value.statusCode == Some(status)
  {
    if status == 429 then
      if StrTruthy(retryAfter) then
        match ParseInt(retryAfter.value)
        case None => Some(Raise(ValueError, "invalid literal for int() with base 10: '" + retryAfter.value + "'"))
        case Some(seconds) => Some(NewRateLimitError(Some("Rate limit exceeded"), Some(seconds), Some(status), None))
      else
        Some(NewRateLimitError(Some("Rate limit exceeded"), None, Some(status), None))
    else if status == 401 then
      Some(NewAPIError(APIError, "Authentication failed", Some(status), None))
    else if status >= 400 then
      Some(NewAPIError(APIError, "Request failed: " + text, Some(status), None))
    else
      None
  }

  /** No status is ever classified as `AuthenticationError`, not even 401. */
  lemma NeverAuthenticationError(status: int, retryAfter: Option<string>, text: string)
    ensures var r := ClassifyStatus(status, retryAfter, text);
            r.Some? ==> r.value.kind in {RateLimitError, APIError, ValueError}
  {
  }

  /** The part of `BaseAsyncClient` that outlives construction: its settings. */
  class BaseClient {
    const baseUrl: string
    const timeout: int
    const maxRetries: int
    const verifySsl: bool
    const headers: map<string, string>
    /** The rate (requests per second) of the throttler, when one was created. */
    const throttleRate: Option<int>

    constructor (baseUrl: string, timeout: int, maxRetries: int, rateLimit: Option<int>,
                 headers: Option<map<string, string>>, verifySsl: bool)
      ensures this.baseUrl == RStrip(baseUrl, '/')
      ensures this.timeout == timeout && this.maxRetries == maxRetries && this.verifySsl == verifySsl
      ensures this.headers == headers.GetOr(map[])
      ensures this.throttleRate.Some? <==> IntTruthy(rateLimit)
      ensures this.throttleRate.Some? ==> this.throttleRate == rateLimit
    {
      this.baseUrl := RStrip(baseUrl, '/');
      this.timeout := timeout;
      this.maxRetries := maxRetries;
      this.verifySsl := verifySsl;
      this.headers := headers.GetOr(map[]);
      this.throttleRate := if IntTruthy(rateLimit) then rateLimit else None;
    }

    /** The request `_request(method, endpoint, params, json_data, headers)` sends. */
    function Prepare(verb: string, endpoint: string, params: map<string, Json>,
                     body: Option<Json>, extra: Option<map<string, string>>): (r: HttpRequest)
      ensures r.url == JoinUrl(baseUrl, endpoint)
      ensures r.headers == MergeHeaders(headers, extra)
      ensures r.verb == verb && r.params == params && r.body == body
    {
      HttpRequest(verb, JoinUrl(baseUrl, endpoint), params, body, MergeHeaders(headers, extra))
    }

    /** `_request`: sends the prepared request once through `transport`. */
    method Request(verb: string, endpoint: string, params: map<string, Json>, body: Option<Json>,
                   extra: Option<map<string, string>>, transport: HttpRequest -> Outcome)
      returns (sent: HttpRequest, outcome: Outcome)
      ensures sent == Prepare(verb, endpoint, params, body, extra)
      ensures outcome == transport(sent)
    {
      var url := JoinUrl(baseUrl, endpoint);
      var requestHeaders := MergeHeaders(headers, extra);
      sent := HttpRequest(verb, url, params, body, requestHeaders);
      outcome := transport(sent);
    }
  }
}
