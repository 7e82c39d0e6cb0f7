/**
 * The two pieces of browser state the access layer writes: the `auth_token` entry of
 * localStorage and the `auth:logout` events dispatched on `window`. Events carry no payload,
 * so the event channel is modelled by how many have been dispatched.
 */
module Runtime {
  import opened Wrappers

  const AUTH_TOKEN_KEY: string := "auth_token"
  const AUTH_LOGOUT_EVENT: string := "auth:logout"

  /** `if (token)`: a stored token counts only when it is a non-empty string. */
  predicate TokenPresent(stored: Option<string>) {
    stored.Some? && stored.value != ""
  }

  class Browser {
    /** `localStorage.getItem('auth_token')`; `None` stands for `null`. */
    var authToken: Option<string>
    /** The number of `auth:logout` events dispatched so far. */
    var logoutEvents: nat

    constructor (stored: Option<string>)
      ensures authToken == stored && logoutEvents == 0
    {
      authToken := stored;
      logoutEvents := 0;
    }

    /** `localStorage.setItem('auth_token', token)` */
    method StoreToken(token: string)
      modifies this
      ensures authToken == Some(token) && logoutEvents == old(logoutEvents)
    {
      authToken := Some(token);
    }

    /** `localStorage.removeItem('auth_token')` */
    method RemoveToken()
      modifies this
      ensures authToken == None && logoutEvents == old(logoutEvents)
    {
      authToken := None;
    }

    /** `window.dispatchEvent(new CustomEvent('auth:logout'))` */
    method DispatchLogout()
      modifies this
      ensures authToken == old(authToken) && logoutEvents == old(logoutEvents) + 1
    {
      logoutEvents := logoutEvents + 1;
    }
  }
}
