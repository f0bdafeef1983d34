/** The axios instance of src/services/api.js with its two interceptors: the
    request interceptor puts the current access token into an `Authorization`
    header, and the response interceptor answers a first 401 with one token
    refresh and one resend. The backend is a parameter: `server(n)` is its
    answer to the n-th request this instance sends. */
module Api {
  import opened JsValues
  import opened UserStore
  import opened Auth

  type Headers = map<string, string>

  /** The parts of an axios request config the interceptors read and write:
      the headers and the `_retry` mark. */
  datatype Config = Config(headers: Headers, retry: bool)

  /** The body and status of a successful response. */
  datatype ApiResponse = ApiResponse(status: int, body: string)

  /** How the promise returned for a request settles. */
  datatype Outcome = Resolved(response: ApiResponse) | Rejected(error: AuthError)

  /** Everything one request can change: the session, the log of headers sent,
      and the request config, which the interceptors mutate. */
  datatype Trace = Trace(auth: AuthState, sent: seq<Headers>, config: Config, outcome: Outcome)

  /** The request interceptor. */
  function WithBearer(s: AuthState, headers: Headers): Headers {
    var token := s.GetAccessToken();
    if Truthy(token) then headers["Authorization" := "Bearer " + token.s] else headers
  }

  predicate IsUnauthorized(e: HttpError) {
    e.status == Some(401)
  }

  /** One pass through `api(config)`: request interceptor, send, then the
      response interceptor, which may refresh and resend the same config once. */
  function Dispatch(s: AuthState, env: Env, config: Config, sent: seq<Headers>,
                    server: nat -> Reply<ApiResponse>, refreshReply: Reply<TokenResponse>): Trace
    requires env.Valid()
    decreases if config.retry then 0 else 1
  {
    var c1 := config.(headers := WithBearer(s, config.headers));
    var sent1 := sent + [c1.headers];
    match server(|sent|)
    case Ok(response) => Trace(s, sent1, c1, Resolved(response))
    case Fail(e) =>
      if IsUnauthorized(e) && !c1.retry then
        var c2 := c1.(retry := true);
        var refreshed := s.RefreshAccessToken(env, refreshReply);
        if refreshed.1.Failure? then
          Trace(refreshed.0.Logout(env), sent1, c2, Rejected(refreshed.1.error))
        else
          var s2 := refreshed.0;
          var c3 := c2.(headers := c2.headers["Authorization" := "Bearer " + ToText(s2.GetAccessToken())]);
          Dispatch(s2, env, c3, sent1, server, refreshReply)
      else
        Trace(s, sent1, c1, Rejected(Http(e)))
  }

  // ---- properties ----

  /** The header is set, to the bearer form of the token, exactly when
      `getAccessToken()` gives a truthy token; no other header changes. */
  lemma BearerInjection(s: AuthState, headers: Headers)
    ensures var h := WithBearer(s, headers);
      && (forall k :: k in headers && k != "Authorization" ==> k in h && h[k] == headers[k])
      && (forall k :: k in h ==> k in headers || k == "Authorization")
      && (Truthy(s.GetAccessToken()) ==> "Authorization" in h && h["Authorization"] == "Bearer " + s.GetAccessToken().s)
      && (!Truthy(s.GetAccessToken()) ==> h == headers)
  {
  }

  /** A successful response resolves the request as it is; nothing else happens. */
  lemma SuccessPassesThrough(s: AuthState, env: Env, config: Config, sent: seq<Headers>,
                             server: nat -> Reply<ApiResponse>, refreshReply: Reply<TokenResponse>)
    requires env.Valid() && server(|sent|).Ok?
    ensures var t := Dispatch(s, env, config, sent, server, refreshReply);
      t.outcome == Resolved(server(|sent|).data) && t.auth == s && t.sent == sent + [WithBearer(s, config.headers)]
  {
  }

  /** An error other than 401 is rejected unchanged: one send, no refresh, no logout. */
  lemma OtherErrorsRejected(s: AuthState, env: Env, config: Config, sent: seq<Headers>,
                            server: nat -> Reply<ApiResponse>, refreshReply: Reply<TokenResponse>)
    requires env.Valid() && server(|sent|).Fail? && !IsUnauthorized(server(|sent|).error)
    ensures var t := Dispatch(s, env, config, sent, server, refreshReply);
      t.outcome == Rejected(Http(server(|sent|).error)) && t.auth == s && |t.sent| == |sent| + 1
  {
  }

  /** A request already marked as retried is never refreshed again: its 401
      is rejected as it is. */
  lemma RetriedRequestRejected(s: AuthState, env: Env, config: Config, sent: seq<Headers>,
                               server: nat -> Reply<ApiResponse>, refreshReply: Reply<TokenResponse>)
    requires env.Valid() && config.retry && server(|sent|).Fail?
    ensures var t := Dispatch(s, env, config, sent, server, refreshReply);
      t.outcome == Rejected(Http(server(|sent|).error)) && t.auth == s && |t.sent| == |sent| + 1
  {
  }

  /** A request is sent at most twice, and twice exactly when the first answer
      was a 401, the request was not yet retried and the refresh succeeded. */
  lemma AtMostOneResend(s: AuthState, env: Env, config: Config, sent: seq<Headers>,
                        server: nat -> Reply<ApiResponse>, refreshReply: Reply<TokenResponse>)
    requires env.Valid()
    ensures var t := Dispatch(s, env, config, sent, server, refreshReply);
      && |sent| < |t.sent| <= |sent| + 2 && t.sent[..|sent|] == sent
      && (|t.sent| == |sent| + 2 <==>
            server(|sent|).Fail? && IsUnauthorized(server(|sent|).error) && !config.retry
            && s.RefreshAccessToken(env, refreshReply).1.Success?)
  {
    var c1 := config.(headers := WithBearer(s, config.headers));
    if server(|sent|).Fail? && IsUnauthorized(server(|sent|).error) && !config.retry {
      var refreshed := s.RefreshAccessToken(env, refreshReply);
      if refreshed.1.Success? {
        var c3 := c1.(retry := true).(headers := c1.headers["Authorization" := "Bearer " + ToText(refreshed.0.GetAccessToken())]);
        var sent1 := sent + [c1.headers];
        var t := Dispatch(refreshed.0, env, c3, sent1, server, refreshReply);
        assert |t.sent| == |sent1| + 1;
        assert t.sent[..|sent|] == sent by {
          assert t.sent[..|sent1|] == sent1;
          assert sent1[..|sent|] == sent;
        }
      }
    }
  }

  /** The resent request carries the bearer form of the token as it is after the
      refresh, whether or not the request interceptor rewrites it on the way out. */
  lemma ResendCarriesNewToken(s: AuthState, env: Env, config: Config, sent: seq<Headers>,
                              server: nat -> Reply<ApiResponse>, refreshReply: Reply<TokenResponse>)
    requires env.Valid() && server(|sent|).Fail? && IsUnauthorized(server(|sent|).error) && !config.retry
    requires s.RefreshAccessToken(env, refreshReply).1.Success?
    ensures var t := Dispatch(s, env, config, sent, server, refreshReply);
      var s2 := s.RefreshAccessToken(env, refreshReply).0;
      && |t.sent| == |sent| + 2
      && "Authorization" in t.sent[|sent| + 1]
      && t.sent[|sent| + 1]["Authorization"] == "Bearer " + ToText(s2.GetAccessToken())
      && t.config.retry
      && t.auth == s2
      && (server(|sent| + 1).Ok? ==> t.outcome == Resolved(server(|sent| + 1).data))
      && (server(|sent| + 1).Fail? ==> t.outcome == Rejected(Http(server(|sent| + 1).error)))
  {
  }

  /** When the refresh fails the request is rejected with the refresh error, not
      the 401, after a second logout: the session is cleared and, since that
      logout finds no refresh token any more, the last navigation recorded is to
      /login. */
  lemma RefreshFailureLogsOut(s: AuthState, env: Env, config: Config, sent: seq<Headers>,
                              server: nat -> Reply<ApiResponse>, refreshReply: Reply<TokenResponse>)
    requires env.Valid() && s.Valid() && server(|sent|).Fail? && IsUnauthorized(server(|sent|).error) && !config.retry
    requires s.RefreshAccessToken(env, refreshReply).1.Failure?
    ensures var t := Dispatch(s, env, config, sent, server, refreshReply);
      && t.outcome == Rejected(s.RefreshAccessToken(env, refreshReply).1.error)
      && t.auth.Valid() && t.auth.store.Cleared() && t.auth.store.storage.IsEmpty() && t.auth.timers == map[]
      && |t.auth.effects| > 0 && t.auth.effects[|t.auth.effects| - 1] == RouterPush("/login")
      && |t.sent| == |sent| + 1
  {
    var s1 := s.RefreshAccessToken(env, refreshReply).0;
    if Truthy(s.StoredRefreshToken()) {
      RefreshFailure(s, env, refreshReply.error);
    } else {
      RedirectEffect(s, env);
    }
    LogoutEffect(s1, env);
  }

  /** Every request leaves the session invariant intact. */
  lemma DispatchValid(s: AuthState, env: Env, config: Config, sent: seq<Headers>,
                      server: nat -> Reply<ApiResponse>, refreshReply: Reply<TokenResponse>)
    requires env.Valid() && s.Valid()
    ensures Dispatch(s, env, config, sent, server, refreshReply).auth.Valid()
    decreases if config.retry then 0 else 1
  {
    var c1 := config.(headers := WithBearer(s, config.headers));
    if server(|sent|).Fail? && IsUnauthorized(server(|sent|).error) && !c1.retry {
      var refreshed := s.RefreshAccessToken(env, refreshReply);
      if Truthy(s.StoredRefreshToken()) {
        if refreshReply.Ok? {
          RefreshSuccess(s, env, refreshReply.data);
        } else {
          RefreshFailure(s, env, refreshReply.error);
        }
      } else {
        RedirectEffect(s, env);
      }
      if refreshed.1.Failure? {
        LogoutEffect(refreshed.0, env);
      } else {
        var c3 := c1.(retry := true).(headers := c1.headers["Authorization" := "Bearer " + ToText(refreshed.0.GetAccessToken())]);
        DispatchValid(refreshed.0, env, c3, sent + [c1.headers], server, refreshReply);
      }
    }
  }

  /** A mutable axios request config. */
  class RequestConfig {
    var headers: Headers
    /** `originalRequest._retry`. */
    var retry: bool

    constructor (headers: Headers)
      ensures this.headers == headers && !retry
    {
      this.headers := headers;
      retry := false;
    }

    function Value(): Config
      reads this
    {
      Config(headers, retry)
    }
  }

  /** The axios instance. */
  class Client {
    const auth: AuthService
    /** The headers of every request sent, in order. */
    var sent: seq<Headers>

    constructor (auth: AuthService)
      ensures this.auth == auth && sent == []
    {
      this.auth := auth;
      sent := [];
    }

    ghost predicate Valid()
      reads this, auth, auth.store
    {
      auth.Valid()
    }

    method InterceptRequest(config: RequestConfig)
      modifies config
      ensures config.headers == WithBearer(auth.Snap(), old(config.headers)) && config.retry == old(config.retry)
    {
      var token := auth.GetAccessToken();
      if Truthy(token) {
        config.headers := config.headers["Authorization" := "Bearer " + token.s];
      }
    }

    /** `api(config)`. */
    method Request(config: RequestConfig, server: nat -> Reply<ApiResponse>, refreshReply: Reply<TokenResponse>)
      returns (outcome: Outcome)
      requires Valid()
      modifies this, config, auth, auth.store
      decreases if config.retry then 0 else 1
      ensures Valid()
      ensures auth.Snap() == Dispatch(old(auth.Snap()), auth.env, old(config.Value()), old(sent), server, refreshReply).auth
      ensures sent == Dispatch(old(auth.Snap()), auth.env, old(config.Value()), old(sent), server, refreshReply).sent
      ensures config.Value() == Dispatch(old(auth.Snap()), auth.env, old(config.Value()), old(sent), server, refreshReply).config
      ensures outcome == Dispatch(old(auth.Snap()), auth.env, old(config.Value()), old(sent), server, refreshReply).outcome
    {
      InterceptRequest(config);
      var reply := server(|sent|);
      sent := sent + [config.headers];
      if reply.Ok? {
        return Resolved(reply.data);
      }
      if IsUnauthorized(reply.error) && !config.retry {
        config.retry := true;
        var refreshed := auth.RefreshAccessToken(refreshReply);
        if refreshed.Failure? {
          auth.Logout();
          return Rejected(refreshed.error);
        }
        var token := auth.GetAccessToken();
        config.headers := config.headers["Authorization" := "Bearer " + ToText(token)];
        outcome := Request(config, server, refreshReply);
        return;
      }
      outcome := Rejected(Http(reply.error));
    }
  }
}
