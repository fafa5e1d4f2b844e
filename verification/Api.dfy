/**
  The HTTP client wrapper: a request interceptor that attaches the stored token as a bearer
  credential, and a response interceptor that forces a logout on a 401 and always rejects the
  error again. The token is read from browser storage under `TokenStorageKey`; that read is a
  parameter here, independent of the session store's `token`.
 */
module Api {
  import opened Js
  import opened Http
  import opened AuthSlice

  const TokenStorageKey := "growtwitter_token"
  const AuthorizationHeader := "Authorization"
  const BearerPrefix := "Bearer "

  /** The header value for a stored token: present exactly when the token is truthy. */
  function BearerHeader(storedToken: Option<string>): (h: Option<string>)
    ensures h.Some? <==> storedToken.Some? && Truthy(storedToken.value)
    ensures h.Some? ==> BearerToken(h.value) == storedToken
  {
    if storedToken.Some? && Truthy(storedToken.value) then Some(BearerPrefix + storedToken.value) else None
  }

  /** Reads the token back out of an `Authorization` value of the bearer scheme. */
  function BearerToken(header: string): (t: Option<string>)
    ensures t.Some? ==> BearerPrefix + t.value == header
  {
    if BearerPrefix <= header then Some(header[|BearerPrefix|..]) else None
  }

  /** The outgoing request's configuration; the interceptor edits its headers in place. */
  class RequestConfig {
    var headers: map<string, string>

    constructor (headers: map<string, string>)
      ensures this.headers == headers
    {
      this.headers := headers;
    }
  }

  /**
    The request interceptor: sets `Authorization: Bearer <token>` when the stored token is
    non-empty and otherwise hands the configuration back unchanged.
   */
  method InterceptRequest(config: RequestConfig, storedToken: Option<string>) returns (r: RequestConfig)
    modifies config
    ensures r == config
    ensures BearerHeader(storedToken).Some? ==>
      config.headers == old(config.headers)[AuthorizationHeader := BearerHeader(storedToken).value]
    ensures BearerHeader(storedToken).None? ==> config.headers == old(config.headers)
  {
    if storedToken.Some? && Truthy(storedToken.value) {
      config.headers := config.headers[AuthorizationHeader := BearerPrefix + storedToken.value];
    }
    r := config;
  }

  /** The request interceptor's error branch: the same error, rejected again. */
  function InterceptRequestError<T>(error: Thrown): (r: Settled<T>)
    ensures r.Rejected? && r.error == error
  {
    Rejected(error)
  }

  /** The response interceptor's success branch: the response, passed through. */
  function InterceptResponse<T>(response: T): (r: Settled<T>)
    ensures r.Resolved? && r.value == response
  {
    Resolved(response)
  }

  /** The response interceptors and the store registered with them. */
  class Interceptors {
    /** `storeRef`: null until `setupAxiosInterceptors` runs. */
    var storeRef: AuthStore?

    constructor ()
      ensures storeRef == null
    {
      storeRef := null;
    }

    /** `setupAxiosInterceptors`: registers the store the 401 branch dispatches to. */
    method Setup(store: AuthStore)
      modifies this
      ensures storeRef == store
    {
      storeRef := store;
    }

    /**
      The error branch: a 401 with a registered store dispatches `logout`; every error,
      401 or not, is rejected again unchanged.
     */
    method OnResponseError<T>(error: Thrown) returns (r: Settled<T>)
      modifies if storeRef == null then {} else {storeRef}
      ensures r.Rejected? && r.error == error
      ensures storeRef == old(storeRef)
      ensures storeRef != null && IsUnauthorized(error) ==>
        storeRef.State() == Reduce(old(storeRef.State()), Logout)
      ensures storeRef != null && !IsUnauthorized(error) ==> storeRef.State() == old(storeRef.State())
    {
      if IsUnauthorized(error) {
        if storeRef != null {
          storeRef.Logout();
        }
      }
      r := Rejected(error);
    }
  }

  /** After a 401 with a registered store, the session is logged out and holds no token. */
  method UnauthorizedAfterSetup(store: AuthStore, error: Thrown) returns (r: Settled<int>)
    requires IsUnauthorized(error)
    modifies store
    ensures r == Rejected(error)
    ensures !store.isLoggedIn && store.token == None && store.State() == InitialState
  {
    var interceptors := new Interceptors();
    interceptors.Setup(store);
    r := interceptors.OnResponseError(error);
  }
}
