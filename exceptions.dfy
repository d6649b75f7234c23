/**
 * The library's exception hierarchy (`APIError` and its subclasses,
 * `ConfigurationError`, `ValidationError`) together with the Python
 * built-in exceptions the core raises (`ValueError`, `KeyError`,
 * `TypeError`), as one error record tagged with its class.
 */
module Exceptions {
  import opened Wrappers
  import opened Text
  import opened Json

  /** The class of a raised exception. */
  datatype Kind =
    | Exception            // any other exception, e.g. a network failure
    | APIError
    | PrometheusError
    | GrafanaError
    | AuthenticationError
    | RateLimitError
    | ConfigurationError
    | ValidationError
    | ValueError
    | KeyError
    | TypeError
    | MalformedBody        // AttributeError, TypeError or pydantic's ValidationError on a value of the wrong JSON type

  /** `issubclass(k, ancestor)` for the classes above. */
  predicate IsA(k: Kind, ancestor: Kind) {
    || k == ancestor
    || ancestor == Exception
    || (ancestor == APIError && k in {PrometheusError, GrafanaError, AuthenticationError, RateLimitError})
  }

  /**
   * A raised exception. `statusCode`, `response` and `retryAfter` are the
   * attributes `APIError` and `RateLimitError` carry; other classes leave
   * them at `None`/`{}`/`None`.
   */
  datatype Error = Error(
    kind: Kind,
    message: string,
    statusCode: Option<int>,
    response: map<string, Json>,
    retryAfter: Option<int>)

  /** `APIError(message, status_code, response)` or one of its plain subclasses. */
  function NewAPIError(kind: Kind, message: string, statusCode: Option<int>,
                       response: Option<map<string, Json>>): (e: Error)
    requires IsA(kind, APIError) && kind != RateLimitError
    ensures e.kind == kind && e.message == message && e.statusCode == statusCode
    ensures response.None? ==> e.response == map[]
    ensures response.Some? ==> e.response == response.value
    ensures e.retryAfter.None?
  {
    Error(kind, message, statusCode, response.GetOr(map[]), None)
  }

  /** `RateLimitError(message="Rate limit exceeded", retry_after=None, **kwargs)`. */
  function NewRateLimitError(message: Option<string>, retryAfter: Option<int>,
                             statusCode: Option<int>, response: Option<map<string, Json>>): (e: Error)
    ensures e.kind == RateLimitError && IsA(e.kind, APIError)
    ensures e.message == if message.Some? then message.value else "Rate limit exceeded"
    ensures e.retryAfter == retryAfter && e.statusCode == statusCode
    ensures e.response == if response.Some? then response.value else map[]
  {
    Error(RateLimitError, message.GetOr("Rate limit exceeded"), statusCode, response.GetOr(map[]), retryAfter)
  }

  /** An exception outside the `APIError` family, carrying only its `str()` text. */
  function Raise(kind: Kind, message: string): (e: Error)
    requires !IsA(kind, APIError)
    ensures e.kind == kind && e.message == message
    ensures e.statusCode.None? && e.response == map[] && e.retryAfter.None?
  {
    Error(kind, message, None, map[], None)
  }

  const HttpInfix := " (HTTP "

  /**
   * `str(e)`. For the `APIError` family this is `APIError.__str__`: the
   * message, followed by " (HTTP <code>)" only when the status code is
   * truthy (so 0 and None both give the bare message).
   */
  function Str(e: Error): (r: string)
    ensures |r| >= |e.message| && r[..|e.message|] == e.message
    ensures r == e.message <==> !(IsA(e.kind, APIError) && IntTruthy(e.statusCode))
  {
    if IsA(e.kind, APIError) && IntTruthy(e.statusCode) then
      e.message + HttpInfix + IntToString(e.statusCode.value) + ")"
    else
      e.message
  }

  /** The status code printed by `APIError.__str__` reads back as the error's code. */
  lemma StrShowsStatus(e: Error)
    requires IsA(e.kind, APIError) && IntTruthy(e.statusCode)
    ensures var r := Str(e);
            |r| >= |e.message| + |HttpInfix| + 1 &&
            r[|e.message|..|e.message| + |HttpInfix|] == HttpInfix &&
            ParseInt(r[|e.message| + |HttpInfix|..|r| - 1]) == Some(e.statusCode.value)
  {
    var code := IntToString(e.statusCode.value);
    var r := Str(e);
    assert r == e.message + HttpInfix + code + ")";
    assert r[|e.message| + |HttpInfix|..|r| - 1] == code;
    ParseIntOfIntToString(e.statusCode.value);
  }

  /** Every library exception derives from `Exception`; only four derive from `APIError`. */
  lemma Hierarchy()
    ensures forall k: Kind :: IsA(k, Exception)
    ensures forall k: Kind :: IsA(k, APIError) <==>
              k in {APIError, PrometheusError, GrafanaError, AuthenticationError, RateLimitError}
    ensures !IsA(ConfigurationError, APIError) && !IsA(ValidationError, APIError)
  {
  }
}
