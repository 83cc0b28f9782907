/** The client instance: its resolved base address, the browser's token stores,
    the request interceptor, the response interceptor's error handler, and the
    chain that dispatches one request until it settles. */
module Gateway {
  import opened Js
  import opened BaseUrl
  import opened RetryPolicy

  /** A request configuration. The interceptors update it in place and every
      retry re-dispatches this same object. `metadata` holds `retryCount`. */
  class RequestConfig {
    var url: string
    var headers: map<string, string>
    var metadata: Option<nat>

    constructor (url: string, headers: map<string, string>)
      ensures this.url == url && this.headers == headers && metadata == None
    {
      this.url := url;
      this.headers := headers;
      metadata := None;
    }
  }

  /** The error the response interceptor receives: the configuration of the
      failed request, when the error carries one, and the status of the
      response, `None` when no response arrived. */
  datatype AxiosError = AxiosError(config: RequestConfig?, status: Option<int>)

  /** What the error handler resolves to: the original error, rejected, or the
      same configuration dispatched again after a delay. */
  datatype Handled = Rejection(error: AxiosError) | Retry(config: RequestConfig, delayMs: nat)

  class Client {
    const baseUrl: string
    /** `localStorage` and the cookie jar, as key/value maps. */
    var localStorage: map<string, string>
    var cookies: map<string, string>

    /** The instance is created once; its base address is resolved at that moment. */
    constructor (envOverride: Option<string>, hostname: string,
                 localStorage: map<string, string>, cookies: map<string, string>)
      ensures baseUrl == GetBaseUrl(envOverride, hostname)
      ensures this.localStorage == localStorage && this.cookies == cookies
    {
      baseUrl := GetBaseUrl(envOverride, hostname);
      this.localStorage := localStorage;
      this.cookies := cookies;
    }

    /** `localStorage.getItem("session_id")`. */
    function StoredToken(): Option<string>
      reads this
    {
      if SessionKey in localStorage then Some(localStorage[SessionKey]) else None
    }

    /** The request interceptor: attach the stored token as a bearer credential
        when it is truthy, and reset the retry counter to 0. */
    method DecorateRequest(config: RequestConfig)
      modifies config
      ensures config.headers == AuthHeaders(old(config.headers), StoredToken())
      ensures config.metadata == Some(0)
      ensures config.url == old(config.url)
    {
      var token := StoredToken();
      if Truthy(token) {
        config.headers := config.headers[AuthorizationHeader := BearerPrefix + token.value];
      }
      config.metadata := Some(0);
    }

    /** The response interceptor's success branch: the response is handed back
        as it is, and nothing changes. */
    method PassThrough(response: Response) returns (r: Response)
      ensures r == response
    {
      r := response;
    }

    /** The response interceptor's error branch. A 401 clears the session from
        both stores; a 429 or a failure without a response may be re-dispatched
        with the counter raised by one, as `Classify` decides; anything else
        rejects with the original error. */
    method HandleError(err: AxiosError) returns (h: Handled)
      modifies this, err.config
      ensures localStorage == if ClearsSession(err.status) then old(localStorage) - {SessionKey} else old(localStorage)
      ensures cookies == if ClearsSession(err.status) then old(cookies) - {SessionKey} else old(cookies)
      ensures err.config == null ==> h == Rejection(err)
      ensures err.config != null ==>
        var v := Classify(err.status, true, old(err.config.metadata));
        && err.config.metadata == v.retryCount
        && err.config.headers == old(err.config.headers)
        && err.config.url == old(err.config.url)
        && h == (if v.action.Reject? then Rejection(err) else Retry(err.config, v.action.delayMs))
    {
      if err.status == Some(Unauthorized) {
        cookies := cookies - {SessionKey};
        localStorage := localStorage - {SessionKey};
      }
      // A 500 is only logged.

      if err.status == Some(TooManyRequests) && err.config != null {
        var config := err.config;
        if config.metadata.Some? && config.metadata.value < RateLimitRetries {
          var count := config.metadata.value + 1;
          config.metadata := Some(count);
          var delay := Pow2(count - 1) * RateLimitBaseDelayMs;
          return Retry(config, delay);
        }
      }

      if err.status.None? && err.config != null {
        var config := err.config;
        if config.metadata.Some? && config.metadata.value < NetworkRetries {
          config.metadata := Some(config.metadata.value + 1);
          return Retry(config, NetworkDelayMs);
        }
      }

      return Rejection(err);
    }

    /** One request from the caller's point of view. Every dispatch, the first
        and each retry alike, passes through the request interceptor again;
        `replies` scripts the transport's answer to each dispatch in turn.
        The result is `Run` under the as-written counter policy. */
    method Send(config: RequestConfig, replies: seq<Reply>) returns (t: Trace)
      modifies this, config
      ensures t == Run(replies, old(config.metadata), ResetOnEveryDispatch)
      ensures localStorage == if t.outcome == Rejected(Some(Unauthorized)) then old(localStorage) - {SessionKey} else old(localStorage)
      ensures cookies == if t.outcome == Rejected(Some(Unauthorized)) then old(cookies) - {SessionKey} else old(cookies)
      ensures config.headers == if replies == [] then old(config.headers) else AuthHeaders(old(config.headers), old(StoredToken()))
      ensures config.metadata == t.retryCount
      ensures config.url == old(config.url)
    {
      ghost var token := StoredToken();
      var delays: seq<nat> := [];
      var i := 0;
      while i < |replies|
        invariant 0 <= i <= |replies|
        invariant localStorage == old(localStorage) && cookies == old(cookies)
        invariant config.url == old(config.url)
        invariant config.headers == if i == 0 then old(config.headers) else AuthHeaders(old(config.headers), token)
        invariant var rest := Run(replies[i..], config.metadata, ResetOnEveryDispatch);
          Run(replies, old(config.metadata), ResetOnEveryDispatch) == rest.(delays := delays + rest.delays)
        decreases |replies| - i
      {
        DecorateRequest(config);
        assert replies[i..][0] == replies[i];
        match replies[i]
        case Answered(response) =>
          var r := PassThrough(response);
          return Trace(Delivered(r), delays, config.metadata);
        case Failed(status) =>
          var h := HandleError(AxiosError(config, status));
          if h.Rejection? {
            return Trace(Rejected(status), delays, config.metadata);
          }
          assert replies[i..][1..] == replies[i + 1..];
          delays := delays + [h.delayMs];
          i := i + 1;
      }
      t := Trace(Unresolved, delays, config.metadata);
    }
  }
}
