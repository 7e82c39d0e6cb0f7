/**
 * The session context (src/contexts/AuthContext.tsx): whether the user is authenticated and
 * whether the first check is still running, kept in step with the token in localStorage and
 * with the `auth:logout` events of the HTTP client.
 *
 * The asynchronous handlers are split at their awaits: the outcome of each backend call is a
 * parameter of the method that models what runs when it settles. `window.dispatchEvent` runs
 * listeners synchronously, so a dispatch by the 401 step is followed at once by
 * `handleAuthLogout` while the provider is listening.
 */
module AuthContext {
  import opened Wrappers
  import Runtime
  import ApiClient

  const USE_AUTH_ERROR: string := "useAuth must be used within an AuthProvider"

  /** `LoginResponse` */
  datatype LoginResponse = LoginResponse(token: string, username: string)

  /** What `useAuth` hands to components. */
  datatype AuthContextValue = AuthContextValue(isAuthenticated: bool, isLoading: bool)

  /** `useAuth()`: outside a provider there is no context and it throws. */
  function UseAuth(context: Option<AuthContextValue>): (r: Result<AuthContextValue, string>)
    ensures r.Failure? <==> context.None?
    ensures r.Success? ==> r.value == context.value
    ensures r.Failure? ==> r.error == USE_AUTH_ERROR
  {
    match context
    case None => Failure(USE_AUTH_ERROR)
    case Some(value) => Success(value)
  }

  /** An error that a request to `path` can reject with: an axios error carries that URL. */
  predicate ErrorOf(e: ApiClient.RequestError, path: string) {
    e.AxiosError? ==> e.url == Some(path)
  }

  class AuthProvider {
    var isAuthenticated: bool
    var isLoading: bool
    /** The mount effect has run. */
    var mounted: bool
    /** The mount-time verify call has been issued and has not settled. */
    var verifyPending: bool
    /** `handleAuthLogout` is registered for `auth:logout`. */
    var listening: bool
    const browser: Runtime.Browser

    /** `isLoading` is true exactly until the first check has been resolved. */
    ghost predicate Valid()
      reads this
    {
      && isLoading == (!mounted || verifyPending)
      && (verifyPending ==> mounted)
    }

    /** The provider's initial state: not authenticated, loading. */
    constructor (browser: Runtime.Browser)
      ensures Valid() && this.browser == browser
      ensures !isAuthenticated && isLoading
      ensures !mounted && !verifyPending && !listening
    {
      this.browser := browser;
      isAuthenticated := false;
      isLoading := true;
      mounted := false;
      verifyPending := false;
      listening := false;
    }

    /**
     * The mount effect: with a stored token a verify call is issued, otherwise loading ends
     * at once; either way the `auth:logout` listener is registered.
     */
    method Mount()
      requires Valid() && !mounted
      modifies this
      ensures Valid() && mounted && listening
      ensures verifyPending == Runtime.TokenPresent(browser.authToken)
      ensures isLoading == verifyPending
      ensures isAuthenticated == old(isAuthenticated)
    {
      mounted := true;
      var token := browser.authToken;
      if Runtime.TokenPresent(token) {
        verifyPending := true;
      } else {
        isLoading := false;
      }
      listening := true;
    }

    /** The effect's cleanup: the listener is removed. */
    method Unmount()
      requires Valid()
      modifies this
      ensures Valid() && !listening
      ensures isAuthenticated == old(isAuthenticated) && isLoading == old(isLoading)
      ensures mounted == old(mounted) && verifyPending == old(verifyPending)
    {
      listening := false;
    }

    /** `handleAuthLogout`: not authenticated any more, and the token is removed. */
    method HandleAuthLogout()
      requires Valid()
      modifies this, browser
      ensures Valid() && !isAuthenticated && browser.authToken == None
      ensures browser.logoutEvents == old(browser.logoutEvents)
      ensures isLoading == old(isLoading) && mounted == old(mounted)
      ensures verifyPending == old(verifyPending) && listening == old(listening)
    {
      isAuthenticated := false;
      browser.RemoveToken();
    }

    /** Delivery of a dispatched `auth:logout` event to this provider, if it listens. */
    method Deliver(dispatched: bool)
      requires Valid()
      modifies this, browser
      ensures Valid()
      ensures dispatched && listening ==> !isAuthenticated && browser.authToken == None
      ensures !(dispatched && listening) ==>
                isAuthenticated == old(isAuthenticated) && browser.authToken == old(browser.authToken)
      ensures browser.logoutEvents == old(browser.logoutEvents)
      ensures isLoading == old(isLoading) && mounted == old(mounted)
      ensures verifyPending == old(verifyPending) && listening == old(listening)
    {
      if dispatched && listening {
        HandleAuthLogout();
      }
    }

    /**
     * `authApi.verifyToken()` through the shared client: any failure becomes `false`, and a
     * 401 first runs the 401 step, because the verify URL is not excluded from it.
     */
    method VerifyToken(response: Result<(), ApiClient.RequestError>) returns (isValid: bool)
      requires Valid()
      requires response.Failure? ==> ErrorOf(response.error, ApiClient.VERIFY_PATH)
      modifies this, browser
      ensures Valid()
      ensures isValid == response.Success?
      ensures response.Failure? && ApiClient.IsUnauthorized(response.error) ==>
                && browser.authToken == None
                && browser.logoutEvents == old(browser.logoutEvents) + 1
                && (listening ==> !isAuthenticated)
      ensures !(response.Failure? && ApiClient.IsUnauthorized(response.error)) ==>
                && browser.authToken == old(browser.authToken)
                && browser.logoutEvents == old(browser.logoutEvents)
                && isAuthenticated == old(isAuthenticated)
      ensures isLoading == old(isLoading) && mounted == old(mounted)
      ensures verifyPending == old(verifyPending) && listening == old(listening)
    {
      match response
      case Success(_) =>
        isValid := true;
      case Failure(e) =>
        ApiClient.VerifyCallRecovered(e);
        var _, dispatched := ApiClient.OnResponseError(e, browser);
        Deliver(dispatched);
        isValid := false;
    }

    /**
     * What the mount effect does when the verify call settles: `then` takes the verdict
     * (removing the token when it is false), `catch` treats a rejection as invalid, and
     * `finally` ends loading.
     */
    method OnVerifySettled(result: Result<bool, ApiClient.RequestError>)
      requires Valid() && verifyPending
      modifies this, browser
      ensures Valid() && !isLoading && !verifyPending
      ensures isAuthenticated <==> result == Success(true)
      ensures result != Success(true) ==> browser.authToken == None
      ensures result == Success(true) ==> browser.authToken == old(browser.authToken)
      ensures browser.logoutEvents == old(browser.logoutEvents)
      ensures mounted == old(mounted) && listening == old(listening)
    {
      match result {
        case Success(isValid) =>
          isAuthenticated := isValid;
          if !isValid {
            browser.RemoveToken();
          }
        case Failure(_) =>
          isAuthenticated := false;
          browser.RemoveToken();
      }
      isLoading := false;
      verifyPending := false;
    }

    /**
     * The whole mount-time check once the verify response is known. A 401 on verify clears
     * the token twice over (by the 401 step and by the context) and dispatches one event.
     */
    method MountVerify(response: Result<(), ApiClient.RequestError>)
      requires Valid() && verifyPending
      requires response.Failure? ==> ErrorOf(response.error, ApiClient.VERIFY_PATH)
      modifies this, browser
      ensures Valid() && !isLoading
      ensures isAuthenticated <==> response.Success?
      ensures response.Failure? ==> browser.authToken == None
      ensures response.Success? ==> browser.authToken == old(browser.authToken)
      ensures browser.logoutEvents ==
                old(browser.logoutEvents) + if response.Failure? && ApiClient.IsUnauthorized(response.error) then 1 else 0
      ensures mounted == old(mounted) && listening == old(listening)
    {
      var isValid := VerifyToken(response);
      OnVerifySettled(Success(isValid));
    }

    /**
     * `login(credentials)` once the login call has settled: on success the token is stored
     * and then the state becomes authenticated; on failure the error is rethrown and nothing
     * changes, because the login URL is excluded from the 401 step.
     */
    method Login(response: Result<LoginResponse, ApiClient.RequestError>)
      returns (r: Result<(), ApiClient.RequestError>)
      requires Valid()
      requires response.Failure? ==> ErrorOf(response.error, ApiClient.LOGIN_PATH)
      modifies this, browser
      ensures Valid()
      ensures response.Success? ==>
                r == Success(()) && isAuthenticated && browser.authToken == Some(response.value.token)
      ensures response.Failure? ==>
                && r == Failure(response.error)
                && isAuthenticated == old(isAuthenticated)
                && browser.authToken == old(browser.authToken)
      ensures browser.logoutEvents == old(browser.logoutEvents)
      ensures isLoading == old(isLoading) && mounted == old(mounted)
      ensures verifyPending == old(verifyPending) && listening == old(listening)
    {
      match response
      case Failure(e) =>
        ApiClient.AuthCallsExcluded(e);
        var outcome, dispatched := ApiClient.OnResponseError(e, browser);
        Deliver(dispatched);
        r := Failure(outcome.error);
      case Success(res) =>
        browser.StoreToken(res.token);
        isAuthenticated := true;
        r := Success(());
    }

    /**
     * `logout()`: the token is removed and the state flips at once; the backend call that
     * follows goes out without a token, and whatever it returns changes nothing locally,
     * because the logout URL is excluded from the 401 step. `sentHeaders` are the headers
     * of that backend call.
     */
    method Logout(backend: Result<(), ApiClient.RequestError>) returns (sentHeaders: map<string, string>)
      requires Valid()
      requires backend.Failure? ==> ErrorOf(backend.error, ApiClient.LOGOUT_PATH)
      modifies this, browser
      ensures Valid()
      ensures !isAuthenticated && browser.authToken == None
      ensures browser.logoutEvents == old(browser.logoutEvents)
      ensures ApiClient.AUTHORIZATION !in sentHeaders
      ensures isLoading == old(isLoading) && mounted == old(mounted)
      ensures verifyPending == old(verifyPending) && listening == old(listening)
    {
      browser.RemoveToken();
      isAuthenticated := false;
      var config := new ApiClient.RequestConfig(ApiClient.LOGOUT_PATH, ApiClient.DEFAULT_HEADERS);
      var sent := ApiClient.OnRequest(config, browser);
      sentHeaders := sent.headers;
      if backend.Failure? {
        ApiClient.AuthCallsExcluded(backend.error);
        var _, dispatched := ApiClient.OnResponseError(backend.error, browser);
        Deliver(dispatched);
      }
    }
  }

  /**
   * A session from mount to a 401 on an ordinary call: the verify succeeds, then a later
   * request fails with 401; the one dispatched event reaches the listening provider, which
   * ends unauthenticated with no token, and loading never comes back.
   */
  method SessionExpires(stored: string, later: ApiClient.RequestError) returns (p: AuthProvider)
    requires stored != ""
    requires ApiClient.IsUnauthorized(later) && !ApiClient.IsAuthEndpoint(ApiClient.RequestUrl(later))
    ensures p.Valid() && !p.isAuthenticated && !p.isLoading
    ensures p.browser.authToken == None && p.browser.logoutEvents == 1
  {
    var browser := new Runtime.Browser(Some(stored));
    p := new AuthProvider(browser);
    p.Mount();
    p.MountVerify(Success(()));
    assert p.isAuthenticated && p.listening;
    var _, dispatched := ApiClient.OnResponseError(later, browser);
    p.Deliver(dispatched);
  }
}
