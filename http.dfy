/**
 * The pieces of axios that the client's interceptors work on: a request
 * config object that is mutated in place, the errors a request can reject
 * with, and the Bearer header rule.
 */
module Http {
  import opened Wrappers
  import opened JsStrings
  import opened Storage

  const AuthorizationHeader: string := "Authorization"

  function Bearer(token: string): string {
    "Bearer " + token
  }

  /** An axios request config. Interceptors and the 401 handler change its fields in place. */
  class RequestConfig {
    const url: string
    const data: map<string, string>
    var headers: map<string, string>
    /** The `_retry` mark the 401 handler puts on the request it refreshes for. */
    var retry: bool

    constructor (url: string, data: map<string, string>, headers: map<string, string>)
      ensures this.url == url && this.data == data && this.headers == headers && !retry
    {
      this.url := url;
      this.data := data;
      this.headers := headers;
      retry := false;
    }
  }

  /** Why a request or a refresh failed. */
  datatype ErrorInfo =
    | HttpError(status: Option<int>, message: string)   // an axios error; no status when no response arrived
    | ScriptError(message: string)                      // an `Error` thrown by the client's own code

  /** `error.response?.status`. */
  function StatusOf(error: ErrorInfo): (s: Option<int>)
    ensures error.HttpError? ==> s == error.status
    ensures error.ScriptError? ==> s == None
  {
    if error.HttpError? then error.status else None
  }

  /** How a promise settles. */
  datatype Settlement<T> = Resolved(value: T) | Rejected(reason: ErrorInfo)

  /**
   * The request interceptors' header rule: with a truthy stored access token,
   * `Authorization` becomes its Bearer form; otherwise the headers are kept.
   * No other header is touched.
   */
  function WithBearer(headers: map<string, string>, store: Store): (h: map<string, string>)
    ensures HasToken(store, AccessTokenKey) ==>
      h.Keys == headers.Keys + {AuthorizationHeader} && h[AuthorizationHeader] == Bearer(store[AccessTokenKey])
    ensures !HasToken(store, AccessTokenKey) ==> h == headers
    ensures forall k :: k in headers && k != AuthorizationHeader ==> h[k] == headers[k]
  {
    if HasToken(store, AccessTokenKey) then headers[AuthorizationHeader := Bearer(store[AccessTokenKey])] else headers
  }

  /** Running the interceptor a second time against the same storage changes nothing. */
  lemma WithBearerIdempotent(headers: map<string, string>, store: Store)
    ensures WithBearer(WithBearer(headers, store), store) == WithBearer(headers, store)
  {
  }

  /**
   * After a refresh stored `token`, a request whose header was already set to
   * `Bearer token` still carries exactly that header after the interceptor,
   * even when `token` is empty and the interceptor therefore skips it.
   */
  lemma BearerSurvivesInterceptor(headers: map<string, string>, store: Store, token: string, refreshToken: string)
    ensures var h := WithBearer(headers[AuthorizationHeader := Bearer(token)], SetTokens(store, token, refreshToken));
      AuthorizationHeader in h && h[AuthorizationHeader] == Bearer(token)
  {
  }
}
