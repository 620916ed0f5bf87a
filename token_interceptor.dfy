/** The request interceptor registered on the global axios instance (interceptors/token.interceptor.ts). */
module TokenInterceptor {
  import opened Storage
  import opened Http

  /**
   * The fulfilled handler: reads the stored access token, sets the Bearer
   * header on the config in place and hands back the same object.
   */
  method OnRequest(config: RequestConfig, store: Store) returns (r: RequestConfig)
    modifies config`headers
    ensures r == config
    ensures config.headers == WithBearer(old(config.headers), store)
  {
    config.headers := WithBearer(config.headers, store);
    r := config;
  }

  /** The rejected handler: a request-setup error is passed on unchanged. */
  function OnRequestError(error: ErrorInfo): (r: Settlement<RequestConfig>)
    ensures r.Rejected? && r.reason == error
  {
    Rejected(error)
  }
}
