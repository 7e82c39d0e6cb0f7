/**
 * The shared HTTP client of the admin front-end (src/api/client.ts): how its base URL is
 * chosen, the request step that attaches the bearer token, the 401 recovery step, and the
 * translation of a failed request into a message for the user.
 */
module ApiClient {
  import opened Wrappers
  import opened JsStrings
  import Runtime

  const DEFAULT_BASE_URL: string := "http://localhost:8080"
  const LOGIN_PATH: string := "/api/auth/login"
  const LOGOUT_PATH: string := "/api/auth/logout"
  const VERIFY_PATH: string := "/api/auth/verify"
  const AUTHORIZATION: string := "Authorization"
  const BEARER_PREFIX: string := "Bearer "
  /** The headers the shared client starts every request with. */
  const DEFAULT_HEADERS: map<string, string> := map["Content-Type" := "application/json"]

  const NETWORK_MSG: string := "서버에 연결할 수 없습니다. 백엔드 주소(VITE_API_BASE_URL)와 실행 여부를 확인하세요."
  const TIMEOUT_MSG: string := "요청 시간이 초과되었습니다."
  const UNREACHABLE_MSG: string := "서버에 연결할 수 없습니다."
  const UNKNOWN_MSG: string := "알 수 없는 오류가 발생했습니다."

  // ---------------------------------------------------------------- base URL

  /** `import.meta.env.VITE_API_BASE_URL || 'http://localhost:8080'`; `None` is an unset variable. */
  function ConfiguredBaseUrl(env: Option<string>): (url: string)
    ensures url != ""
    ensures env.Some? && env.value != "" ==> url == env.value
    ensures env.None? || env == Some("") ==> url == DEFAULT_BASE_URL
  {
    if env.Some? && env.value != "" then env.value else DEFAULT_BASE_URL
  }

  /**
   * `getApiBaseUrl()`. `pageOrigin` is `window.location.origin`, `None` outside a browser;
   * `originOf(s)` is `new URL(s).origin`, `None` where the URL constructor throws.
   * The empty result means "relative to the page". Nothing here can fail.
   */
  function GetApiBaseUrl(env: Option<string>, pageOrigin: Option<string>,
                         originOf: string -> Option<string>): (base: string)
    ensures base == "" || base == ConfiguredBaseUrl(env)
    ensures base == "" <==> pageOrigin.Some? && originOf(ConfiguredBaseUrl(env)) == Some(pageOrigin.value)
    ensures pageOrigin.None? ==> base == ConfiguredBaseUrl(env)
  {
    var configured := ConfiguredBaseUrl(env);
    if pageOrigin.Some? then
      match originOf(configured)
      case Some(origin) => if origin == pageOrigin.value then "" else configured
      case None => configured
    else
      configured
  }

  // ---------------------------------------------------------------- errors

  datatype FieldError = FieldError(field: string, message: string)

  /** The `ApiError` body a server sends with a failed request; `message` may be absent or empty. */
  datatype ApiErrorBody = ApiErrorBody(message: Option<string>, errors: Option<seq<FieldError>>)

  /** `error.response`: the status and the body, `None` when the body is not an object. */
  datatype Response = Response(status: int, data: Option<ApiErrorBody>)

  /**
   * What a failed request rejects with: an axios error (its `code`, its `message`,
   * `error.config?.url` and `error.response`), or any other thrown value.
   */
  datatype RequestError =
    | AxiosError(code: Option<string>, message: string, url: Option<string>, response: Option<Response>)
    | OtherError

  /** `error.response?.status === 401` */
  predicate IsUnauthorized(e: RequestError) {
    e.AxiosError? && e.response.Some? && e.response.value.status == 401
  }

  /** `error.config?.url || ''` */
  function RequestUrl(e: RequestError): string {
    if e.AxiosError? && e.url.Some? then e.url.value else ""
  }

  /** The URLs the 401 recovery step leaves to the caller: those containing the login or logout path. */
  predicate IsAuthEndpoint(url: string) {
    Includes(url, LOGIN_PATH) || Includes(url, LOGOUT_PATH)
  }

  /** The login and logout calls are excluded from 401 recovery; the verify call is not. */
  lemma AuthEndpoints()
    ensures IsAuthEndpoint(LOGIN_PATH) && IsAuthEndpoint(LOGOUT_PATH)
    ensures !IsAuthEndpoint(VERIFY_PATH)
  {
    assert StartsWith(LOGIN_PATH, LOGIN_PATH);
    assert StartsWith(LOGOUT_PATH, LOGOUT_PATH);
    var v := VERIFY_PATH;
    assert v[10] != LOGIN_PATH[10] && v[10] != LOGOUT_PATH[10];
    assert !StartsWith(v, LOGIN_PATH) && !StartsWith(v, LOGOUT_PATH);
    assert v[1..][0] != '/';
    assert !StartsWith(v[1..], LOGIN_PATH) && !StartsWith(v[1..], LOGOUT_PATH);
    ShortExcludes(v[2..], LOGIN_PATH);
    ShortExcludes(v[1..], LOGOUT_PATH);
  }

  /** A 401 on the login or logout call is left to the caller. */
  lemma AuthCallsExcluded(e: RequestError)
    requires e.AxiosError? ==> e.url == Some(LOGIN_PATH) || e.url == Some(LOGOUT_PATH)
    ensures !(IsUnauthorized(e) && !IsAuthEndpoint(RequestUrl(e)))
  {
    AuthEndpoints();
  }

  /** A 401 on the verify call goes through recovery. */
  lemma VerifyCallRecovered(e: RequestError)
    requires e.AxiosError? ==> e.url == Some(VERIFY_PATH)
    ensures IsUnauthorized(e) ==> !IsAuthEndpoint(RequestUrl(e))
  {
    AuthEndpoints();
  }

  // ---------------------------------------------------------------- interceptors

  /** The part of an axios request config the interceptors see. */
  class RequestConfig {
    var url: string
    var headers: map<string, string>

    constructor (url: string, headers: map<string, string>)
      ensures this.url == url && this.headers == headers
    {
      this.url := url;
      this.headers := headers;
    }
  }

  /** The request step: a stored non-empty token becomes `Authorization: Bearer <token>`. */
  method OnRequest(config: RequestConfig, browser: Runtime.Browser) returns (sent: RequestConfig)
    modifies config
    ensures sent == config && config.url == old(config.url)
    ensures Runtime.TokenPresent(browser.authToken) ==>
              config.headers == old(config.headers)[AUTHORIZATION := BEARER_PREFIX + browser.authToken.value]
    ensures !Runtime.TokenPresent(browser.authToken) ==> config.headers == old(config.headers)
  {
    var token := browser.authToken;
    if Runtime.TokenPresent(token) {
      config.headers := config.headers[AUTHORIZATION := BEARER_PREFIX + token.value];
    }
    sent := config;
  }

  /**
   * The error step of the response interceptor. A 401 outside the login and logout endpoints
   * removes the token and dispatches one `auth:logout` event (`dispatched` says whether it did);
   * every error is rejected to the caller unchanged.
   */
  method OnResponseError(e: RequestError, browser: Runtime.Browser)
    returns (outcome: Result<Response, RequestError>, dispatched: bool)
    modifies browser
    ensures outcome == Failure(e)
    ensures dispatched <==> IsUnauthorized(e) && !IsAuthEndpoint(RequestUrl(e))
    ensures dispatched ==> browser.authToken == None
                           && browser.logoutEvents == old(browser.logoutEvents) + 1
    ensures !dispatched ==> browser.authToken == old(browser.authToken)
                            && browser.logoutEvents == old(browser.logoutEvents)
  {
    dispatched := false;
    if e.AxiosError? && e.response.Some? && e.response.value.status == 401 {
      var requestUrl := if e.url.Some? && e.url.value != "" then e.url.value else "";
      var isAuthEndpoint := Includes(requestUrl, LOGIN_PATH) || Includes(requestUrl, LOGOUT_PATH);
      if !isAuthEndpoint {
        browser.RemoveToken();
        browser.DispatchLogout();
        dispatched := true;
      }
    }
    outcome := Failure(e);
  }

  // ---------------------------------------------------------------- messages

  /** `errors.map((e) => e.message)` */
  function Messages(errors: seq<FieldError>): (ms: seq<string>)
    ensures |ms| == |errors|
    ensures forall i :: 0 <= i < |errors| ==> ms[i] == errors[i].message
  {
    seq(|errors|, i requires 0 <= i < |errors| => errors[i].message)
  }

  /** The body's message, when it is present and non-empty. */
  predicate HasBodyMessage(r: Response) {
    r.data.Some? && r.data.value.message.Some? && r.data.value.message.value != ""
  }

  /** The body's field errors, when the list is present and non-empty. */
  predicate HasFieldErrors(r: Response) {
    r.data.Some? && r.data.value.errors.Some? && |r.data.value.errors.value| > 0
  }

  /** `getErrorMessage(error)` */
  function GetErrorMessage(e: RequestError): (m: string)
    ensures e.OtherError? ==> m == UNKNOWN_MSG
    ensures m == "" ==> e.AxiosError? && e.response.Some? && !HasBodyMessage(e.response.value)
                        && HasFieldErrors(e.response.value)
  {
    match e
    case OtherError => UNKNOWN_MSG
    case AxiosError(code, message, _, None) =>
      if code == Some("ERR_NETWORK") || message == "Network Error" then NETWORK_MSG
      else if code == Some("ECONNABORTED") then TIMEOUT_MSG
      else if message != "" then message
      else UNREACHABLE_MSG
    case AxiosError(_, message, _, Some(r)) =>
      if HasBodyMessage(r) then r.data.value.message.value
      else if HasFieldErrors(r) then Join(Messages(r.data.value.errors.value), ", ")
      else if message != "" then message
      else UNKNOWN_MSG
  }

  /** Without a response, the network test comes first and wins over a timeout code. */
  lemma NoResponseMessages(code: Option<string>, message: string, url: Option<string>)
    ensures var m := GetErrorMessage(AxiosError(code, message, url, None));
      && (code == Some("ERR_NETWORK") || message == "Network Error" ==> m == NETWORK_MSG)
      && (code == Some("ECONNABORTED") && message != "Network Error" ==> m == TIMEOUT_MSG)
      && ((code != Some("ERR_NETWORK") && code != Some("ECONNABORTED") && message != "Network Error")
          ==> m == (if message != "" then message else UNREACHABLE_MSG))
  {
  }

  /**
   * With a response: a non-empty body message wins, then the field errors joined with ", "
   * in their order, then the error's own message, then the generic text.
   */
  lemma ResponseMessages(code: Option<string>, message: string, url: Option<string>, r: Response)
    ensures var m := GetErrorMessage(AxiosError(code, message, url, Some(r)));
      && (HasBodyMessage(r) ==> m == r.data.value.message.value)
      && (!HasBodyMessage(r) && HasFieldErrors(r) ==> m == Join(Messages(r.data.value.errors.value), ", "))
      && (!HasBodyMessage(r) && !HasFieldErrors(r) ==> m == (if message != "" then message else UNKNOWN_MSG))
  {
  }

  /** Joining with a two-character separator gives "" only for no parts or one empty part. */
  lemma {:induction false} JoinEmpty(parts: seq<string>)
    ensures Join(parts, ", ") == "" <==> parts == [] || parts == [""]
  {
    if |parts| >= 2 {
      assert |parts[0] + ", " + Join(parts[1..], ", ")| >= 2;
    }
  }

  /**
   * The message is never empty, except for a response whose body has no message and exactly
   * one field error whose own message is empty.
   */
  lemma MessageEmptyOnlyForBlankFieldError(e: RequestError)
    ensures GetErrorMessage(e) == "" <==>
      && e.AxiosError? && e.response.Some? && !HasBodyMessage(e.response.value)
      && e.response.value.data.Some? && e.response.value.data.value.errors.Some?
      && |e.response.value.data.value.errors.value| == 1
      && e.response.value.data.value.errors.value[0].message == ""
  {
    if e.AxiosError? && e.response.Some? && !HasBodyMessage(e.response.value) && HasFieldErrors(e.response.value) {
      var errs := e.response.value.data.value.errors.value;
      JoinEmpty(Messages(errs));
      if |errs| == 1 {
        assert Messages(errs) == [errs[0].message];
      } else {
        assert Messages(errs) != [] && Messages(errs) != [""];
      }
    }
  }
}
