/**
 * The HTTP client of the rider app: the module-level token and the three
 * registered callbacks, the request interceptor that adds the Bearer header,
 * the response interceptors that decide which callbacks fire, and the pure
 * helpers (failure classification, rider path, multipart configuration).
 *
 * A registered callback is identified by a number; firing it is recorded as an
 * `Invocation` that the caller (the navigator) interprets.
 */
module ApiClient {
  import opened Wrappers

  const BackendUrl: string := "https://petals-backend-dni0.onrender.com"
  const RiderApiBase: string := "/api/v1/rider"

  const SessionExpired: string := "Session expired. Please login again."
  const PermissionDenied: string := "Permission denied for this action."
  const ServerIssue: string := "Server issue. Please try again shortly."
  const YouAreOffline: string := "You are offline. Check your internet connection."
  const SomethingWrong: string := "Something went wrong. Please retry."

  /** What a failed request carries that the classifier reads: the HTTP status of
      the response (absent when no response arrived), the transport error code and
      message, and the `message` field of the response body. */
  datatype Failure = Failure(
    status: Option<int>,
    code: Option<string>,
    message: Option<string>,
    responseMessage: Option<string>)

  /** The normalised error handed to the error callback. */
  datatype ApiError = ApiError(status: Option<int>, message: string, isNetworkError: bool, raw: Failure)

  /** A JavaScript truthiness test on an optional number. */
  predicate StatusTruthy(status: Option<int>) { status.Some? && status.value != 0 }

  /** The canned message for a failure whose body carries none, chosen in the
      order 401, 403, 5xx, network, anything else. */
  function CannedMessage(status: Option<int>, isNetworkError: bool): (m: string)
    ensures m == SessionExpired <==> status == Some(401)
    ensures m == PermissionDenied <==> status == Some(403)
    ensures m == ServerIssue <==> status.Some? && status.value >= 500
    ensures m == YouAreOffline <==>
      isNetworkError && status != Some(401) && status != Some(403) && !(status.Some? && status.value >= 500)
    ensures m == SomethingWrong <==>
      !isNetworkError && status != Some(401) && status != Some(403) && !(status.Some? && status.value >= 500)
  {
    if status == Some(401) then SessionExpired
    else if status == Some(403) then PermissionDenied
    else if status.Some? && status.value >= 500 then ServerIssue
    else if isNetworkError then YouAreOffline
    else SomethingWrong
  }

  /** `normalizeApiError`: never fails, always yields a non-empty message, and a
      message supplied by the backend overrides every canned one. */
  function NormalizeApiError(f: Failure): (e: ApiError)
    ensures e.status == f.status && e.raw == f
    ensures e.isNetworkError <==>
      f.status.None? || f.status == Some(0) || f.code == Some("ERR_NETWORK") || f.message == Some("Network Error")
    ensures e.message != ""
    ensures TextTruthy(f.responseMessage) ==> e.message == f.responseMessage.value
    ensures !TextTruthy(f.responseMessage) ==> e.message == CannedMessage(f.status, e.isNetworkError)
  {
    var isNetworkError := !StatusTruthy(f.status) || f.code == Some("ERR_NETWORK") || f.message == Some("Network Error");
    var message := if TextTruthy(f.responseMessage) then f.responseMessage.value
                   else CannedMessage(f.status, isNetworkError);
    ApiError(f.status, message, isNetworkError, f)
  }

  /** A 5xx response keeps the server message even when the transport also reports
      a network error; a network error is still flagged. */
  lemma ServerStatusBeatsNetworkCode(status: int, message: Option<string>)
    requires status >= 500
    ensures var e := NormalizeApiError(Failure(Some(status), Some("ERR_NETWORK"), message, None));
      e.isNetworkError && e.message == ServerIssue
  {
  }

  /** Without a response the failure is a network error, and the offline message is
      used unless the body supplied one. */
  lemma NoResponseIsOffline(code: Option<string>, message: Option<string>)
    ensures var e := NormalizeApiError(Failure(None, code, message, None));
      e.isNetworkError && e.message == YouAreOffline
  {
  }

  /** `riderPath`: every endpoint lives under the rider API base. */
  function RiderPath(path: string): (r: string)
    ensures |r| == |RiderApiBase| + |path|
    ensures r[..|RiderApiBase|] == RiderApiBase && r[|RiderApiBase|..] == path
  {
    RiderApiBase + path
  }

  /** Distinct endpoint paths give distinct URLs. */
  lemma RiderPathInjective(p: string, q: string)
    requires RiderPath(p) == RiderPath(q)
    ensures p == q
  {
    assert p == RiderPath(p)[|RiderApiBase|..];
  }

  /** A request configuration as the interceptors see it: the header map (always
      present in an outgoing request) and every other option. */
  datatype RequestConfig = RequestConfig(options: map<string, string>, headers: map<string, string>)

  /** A caller-supplied configuration: both the configuration and its headers may be
      absent. */
  datatype CallerConfig = CallerConfig(options: map<string, string>, headers: Option<map<string, string>>)

  /** `asMultipartConfig`: keeps every option and header but forces the content type. */
  function AsMultipartConfig(config: Option<CallerConfig>): (r: CallerConfig)
    ensures r.headers.Some? && "Content-Type" in r.headers.value
    ensures r.headers.value["Content-Type"] == "multipart/form-data"
    ensures config.Some? ==> r.options == config.value.options
    ensures config.None? ==> r.options == map[]
    ensures forall k :: k != "Content-Type" && config.Some? && config.value.headers.Some? && k in config.value.headers.value ==>
      k in r.headers.value && r.headers.value[k] == config.value.headers.value[k]
    ensures forall k :: k in r.headers.value && k != "Content-Type" ==>
      config.Some? && config.value.headers.Some? && k in config.value.headers.value
  {
    var options := if config.Some? then config.value.options else map[];
    var headers := if config.Some? && config.value.headers.Some? then config.value.headers.value else map[];
    CallerConfig(options, Some(headers["Content-Type" := "multipart/form-data"]))
  }

  /** Applying the multipart transform twice is applying it once. */
  lemma AsMultipartIdempotent(config: Option<CallerConfig>)
    ensures AsMultipartConfig(Some(AsMultipartConfig(config))) == AsMultipartConfig(config)
  {
    var once := AsMultipartConfig(config);
    var twice := AsMultipartConfig(Some(once));
    assert twice.headers.value == once.headers.value;
  }

  /** The call of one registered callback, in the order the interceptor makes it. */
  datatype Invocation =
    | CallUnauthorized(handler: nat)
    | CallNetworkStatus(handler: nat, isOnline: bool)
    | CallApiError(handler: nat, error: ApiError)

  /** The callbacks the error interceptor fires for a normalised error, in order:
      the unauthorized one for a 401, the network one with `false` for a network
      error, then the error callback with every error. */
  function ErrorCalls(unauthorized: Option<nat>, apiError: Option<nat>, network: Option<nat>, e: ApiError): (r: seq<Invocation>)
    ensures |r| <= 3
    ensures unauthorized.Some? ==> (CallUnauthorized(unauthorized.value) in r <==> e.status == Some(401))
    ensures network.Some? ==> (CallNetworkStatus(network.value, false) in r <==> e.isNetworkError)
    ensures apiError.Some? ==> CallApiError(apiError.value, e) in r
    ensures forall i :: 0 <= i < |r| && r[i].CallUnauthorized? ==>
      unauthorized.Some? && r[i] == CallUnauthorized(unauthorized.value)
    ensures forall i :: 0 <= i < |r| && r[i].CallNetworkStatus? ==>
      network.Some? && r[i] == CallNetworkStatus(network.value, false)
    ensures forall i :: 0 <= i < |r| && r[i].CallApiError? ==>
      apiError.Some? && r[i] == CallApiError(apiError.value, e)
    ensures apiError.Some? ==> r[|r| - 1] == CallApiError(apiError.value, e)
  {
    (if e.status == Some(401) && unauthorized.Some? then [CallUnauthorized(unauthorized.value)] else [])
    + (if e.isNetworkError && network.Some? then [CallNetworkStatus(network.value, false)] else [])
    + (if apiError.Some? then [CallApiError(apiError.value, e)] else [])
  }

  /** A 401 that arrives without a response body over a dead link fires all three. */
  lemma UnauthorizedOfflineFiresAll(u: nat, a: nat, n: nat)
    ensures var e := NormalizeApiError(Failure(Some(401), Some("ERR_NETWORK"), None, None));
      ErrorCalls(Some(u), Some(a), Some(n), e)
        == [CallUnauthorized(u), CallNetworkStatus(n, false), CallApiError(a, e)]
  {
  }

  /** The module-level client state. */
  class Client {
    var authToken: Option<string>
    var unauthorizedHandler: Option<nat>
    var apiErrorHandler: Option<nat>
    var networkStatusHandler: Option<nat>

    /** At load time nothing is set. */
    constructor()
      ensures authToken == None && unauthorizedHandler == None
      ensures apiErrorHandler == None && networkStatusHandler == None
    {
      authToken := None;
      unauthorizedHandler := None;
      apiErrorHandler := None;
      networkStatusHandler := None;
    }

    /** `setAuthToken`: replaces the token (`None` for `null`). */
    method SetAuthToken(token: Option<string>)
      modifies this
      ensures authToken == token
      ensures unauthorizedHandler == old(unauthorizedHandler) && apiErrorHandler == old(apiErrorHandler)
      ensures networkStatusHandler == old(networkStatusHandler)
    {
      authToken := token;
    }

    /** `setUnauthorizedHandler`: replaces the previous callback; `None` disables it. */
    method SetUnauthorizedHandler(handler: Option<nat>)
      modifies this
      ensures unauthorizedHandler == handler
      ensures authToken == old(authToken) && apiErrorHandler == old(apiErrorHandler)
      ensures networkStatusHandler == old(networkStatusHandler)
    {
      unauthorizedHandler := handler;
    }

    /** `setApiErrorHandler`. */
    method SetApiErrorHandler(handler: Option<nat>)
      modifies this
      ensures apiErrorHandler == handler
      ensures authToken == old(authToken) && unauthorizedHandler == old(unauthorizedHandler)
      ensures networkStatusHandler == old(networkStatusHandler)
    {
      apiErrorHandler := handler;
    }

    /** `setNetworkStatusHandler`. */
    method SetNetworkStatusHandler(handler: Option<nat>)
      modifies this
      ensures networkStatusHandler == handler
      ensures authToken == old(authToken) && unauthorizedHandler == old(unauthorizedHandler)
      ensures apiErrorHandler == old(apiErrorHandler)
    {
      networkStatusHandler := handler;
    }

    /** The request interceptor: a truthy token sets the Authorization header to
        the Bearer form; otherwise the configuration passes untouched. */
    method InterceptRequest(config: RequestConfig) returns (out: RequestConfig)
      ensures out.options == config.options
      ensures TextTruthy(authToken) ==>
        out.headers == config.headers["Authorization" := "Bearer " + authToken.value]
      ensures !TextTruthy(authToken) ==> out == config
    {
      out := config;
      if authToken.Some? && authToken.value != "" {
        out := out.(headers := out.headers["Authorization" := "Bearer " + authToken.value]);
      }
    }

    /** The success interceptor: reports the link as up to the network callback
        when one is registered, and passes the response through. */
    method InterceptResponse() returns (calls: seq<Invocation>)
      ensures networkStatusHandler.Some? ==> calls == [CallNetworkStatus(networkStatusHandler.value, true)]
      ensures networkStatusHandler.None? ==> calls == []
    {
      calls := [];
      if networkStatusHandler.Some? {
        calls := calls + [CallNetworkStatus(networkStatusHandler.value, true)];
      }
    }

    /** The failure interceptor: normalises the failure, fires the callbacks in
        order, and rejects with the original failure. */
    method InterceptError(f: Failure) returns (calls: seq<Invocation>, rejected: Failure)
      ensures rejected == f
      ensures calls == ErrorCalls(unauthorizedHandler, apiErrorHandler, networkStatusHandler, NormalizeApiError(f))
    {
      var normalized := NormalizeApiError(f);
      calls := [];
      if normalized.status == Some(401) && unauthorizedHandler.Some? {
        calls := calls + [CallUnauthorized(unauthorizedHandler.value)];
      }
      if normalized.isNetworkError && networkStatusHandler.Some? {
        calls := calls + [CallNetworkStatus(networkStatusHandler.value, false)];
      }
      if apiErrorHandler.Some? {
        calls := calls + [CallApiError(apiErrorHandler.value, normalized)];
      }
      rejected := f;
    }
  }
}
