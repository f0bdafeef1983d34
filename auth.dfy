/** `AuthService` of src/services/auth.js: the OAuth 2.0 authorization code
    grant with PKCE against Keycloak (section 4.1 of RFC 6749, RFC 7636), the
    refresh token grant (section 6 of RFC 6749), the userinfo call, the refresh
    timer and logout.

    The outside world is explicit. Every network call takes its reply as a
    parameter. Navigations and requests are appended to an effect log. Timers
    are the browser's table of live timers. `Math.random()` is the function
    `Env.random`, read at a running call counter. SHA-256 followed by `btoa` is
    the function `Env.sha256Base64`.

    `AuthState` is the session (store, service fields and world) as a value, with
    one function per operation; the class `AuthService` performs the same steps
    in place and each method is proved to agree with its function. */
module Auth {
  import opened JsValues
  import opened UserStore
  import Pkce

  // ---- Keycloak configuration and endpoints ----

  const Realm := "your-keycloak-realm"
  const ClientId := "your-admin-frontend-client-id"
  const AuthServerUrl := "https://your-keycloak-domain/auth"
  const EndpointBase := AuthServerUrl + "/realms/" + Realm + "/protocol/openid-connect"
  const AuthUrl := EndpointBase + "/auth"
  const TokenUrl := EndpointBase + "/token"
  const UserInfoUrl := EndpointBase + "/userinfo"
  const LogoutUrl := EndpointBase + "/logout"
  const Scope := "openid profile email"
  /** The refresh timer fires this many seconds before the access token expires. */
  const RefreshMarginSeconds := 30

  /** The name/value pairs of a `URLSearchParams`, in insertion order. */
  type Params = seq<(string, string)>

  /** `URLSearchParams.get`: the first value under `key`. */
  function Param(ps: Params, key: string): Option<string> {
    if ps == [] then None else if ps[0].0 == key then Some(ps[0].1) else Param(ps[1..], key)
  }

  /** What the program does to the world, in order. */
  datatype Effect =
    | AssignLocation(url: string, query: Params)  // window.location.href = `${url}?${query}`
    | RouterPush(path: string)                    // router.push(path)
    | RouterReplace(query: Params)                // router.replace({ query })
    | Post(url: string, form: Params)             // axios.post of a form-encoded body
    | Get(url: string, authorization: string)     // axios.get with an Authorization header

  /** An axios error: the HTTP status of the response, if there was one. */
  datatype HttpError = HttpError(status: Option<int>, detail: string)

  /** The outcome of one network call. */
  datatype Reply<T> = Ok(data: T) | Fail(error: HttpError)

  /** The body of a token endpoint response; absent fields are `Undefined`. */
  datatype TokenResponse = TokenResponse(accessToken: JsString, refreshToken: JsString, expiresIn: int)

  /** What the operations throw. */
  datatype AuthError =
    | NoAuthorizationCode       // 'No authorization code found in callback URL.'
    | NoRefreshToken            // 'No refresh token found.'
    | AccessTokenNotAvailable   // 'Access token not available.'
    | Http(cause: HttpError)    // a failed axios call, rethrown

  datatype Result<T> = Success(value: T) | Failure(error: AuthError)

  /** What the browser supplies: the page origin, the results of successive
      `Math.random()` calls, and base64 of the SHA-256 digest of a string. */
  datatype Env = Env(origin: string, random: nat -> real, sha256Base64: string -> string) {
    ghost predicate Valid() {
      Pkce.IsRandomSource(random)
    }

    function RedirectUri(): string {
      origin + "/callback"
    }
  }

  function AuthorizationQuery(env: Env, challenge: string, state: string): Params {
    [("client_id", ClientId), ("redirect_uri", env.RedirectUri()), ("response_type", "code"),
     ("scope", Scope), ("code_challenge", challenge), ("code_challenge_method", "S256"), ("state", state)]
  }

  /** The code exchange form; `URLSearchParams` converts a missing verifier to text. */
  function CodeExchangeForm(env: Env, code: string, verifier: JsString): Params {
    [("client_id", ClientId), ("grant_type", "authorization_code"), ("code", code),
     ("redirect_uri", env.RedirectUri()), ("code_verifier", ToText(verifier))]
  }

  function RefreshForm(refreshToken: string): Params {
    [("client_id", ClientId), ("grant_type", "refresh_token"), ("refresh_token", refreshToken)]
  }

  function EndSessionQuery(env: Env, refreshToken: string): Params {
    [("client_id", ClientId), ("refresh_token", refreshToken), ("redirect_uri", env.origin)]
  }

  /** The delay `setTimeout` is asked for: `(expiresInSeconds - 30) * 1000`. */
  function RefreshDelay(expiresIn: int): int {
    (expiresIn - RefreshMarginSeconds) * 1000
  }

  /** The session as a value: the store, the three fields of `AuthService`
      (`codeVerifier`, `state`, `tokenRefreshTimeout`) and the world they act on. */
  datatype AuthState = AuthState(
    store: StoreState,
    codeVerifier: JsString,
    state: JsString,
    refreshTimeout: Option<nat>,  // tokenRefreshTimeout: handle of the last timer armed
    timers: map<nat, int>,        // the browser's live timers: handle to delay in ms
    nextTimer: nat,               // the handle the next setTimeout returns
    randomCalls: nat,             // Math.random() results used so far
    effects: seq<Effect>)
  {
    /** The store's invariant, and: the only timer that can be live is the one
        `tokenRefreshTimeout` names, and that handle was issued already. */
    ghost predicate Valid() {
      && store.Valid()
      && (forall h :: h in timers ==> refreshTimeout == Some(h))
      && (refreshTimeout.Some? ==> refreshTimeout.value < nextTimer)
    }

    /** `userStore.accessToken || localStorage.getItem('accessToken')`. */
    function GetAccessToken(): JsString {
      Or(store.accessToken, FromStorage(store.storage.accessToken))
    }

    /** `userStore.refreshToken || localStorage.getItem('refreshToken')`, read by
        refresh and logout. */
    function StoredRefreshToken(): JsString {
      Or(store.refreshToken, FromStorage(store.storage.refreshToken))
    }

    /** `clearTimeout(this.tokenRefreshTimeout)`; the handle itself is kept. */
    function ClearRefreshTimer(): AuthState {
      if refreshTimeout.Some? then this.(timers := timers - {refreshTimeout.value}) else this
    }

    /** Cancel the pending timer (handles are positive, hence truthy) and arm a
        new one. */
    function ScheduleTokenRefresh(expiresIn: int): AuthState {
      var cleared := ClearRefreshTimer();
      cleared.(timers := cleared.timers[nextTimer := RefreshDelay(expiresIn)],
               refreshTimeout := Some(nextTimer), nextTimer := nextTimer + 1)
    }

    function GenerateCodeVerifier(env: Env): (AuthState, string)
      requires env.Valid()
    {
      var v := Pkce.RandomText(Pkce.VerifierCharset, env.random, randomCalls, Pkce.VerifierLength);
      (this.(codeVerifier := Str(v), randomCalls := randomCalls + Pkce.VerifierLength), v)
    }

    function GenerateState(env: Env): (AuthState, string)
      requires env.Valid()
    {
      var st := Pkce.RandomText(Pkce.StateCharset, env.random, randomCalls, Pkce.StateLength);
      (this.(state := Str(st), randomCalls := randomCalls + Pkce.StateLength), st)
    }

    /** New verifier, its challenge and a new state; erase the persisted session,
        clear the store, cancel the timer, and navigate to the authorization
        endpoint. */
    function RedirectToKeycloakLogin(env: Env): AuthState
      requires env.Valid()
    {
      var s1 := GenerateCodeVerifier(env).0;
      var verifier := GenerateCodeVerifier(env).1;
      var challenge := Pkce.CodeChallenge(env.sha256Base64, verifier);
      var s2 := s1.GenerateState(env).0;
      var st := s1.GenerateState(env).1;
      var erased := s2.store.(storage := s2.store.storage.(accessToken := None, refreshToken := None, userProfile := None));
      var s3 := s2.(store := erased.ClearUser()).ClearRefreshTimer();
      s3.(effects := s3.effects + [AssignLocation(AuthUrl, AuthorizationQuery(env, challenge, st))])
    }

    /** The callback: a state different from `this.state` only produces a console
        warning, so `urlState` does not influence the outcome. */
    function HandleKeycloakCallback(env: Env, code: JsString, urlState: JsString, reply: Reply<TokenResponse>)
      : (AuthState, Result<TokenResponse>)
    {
      if !Truthy(code) then (this, Failure(NoAuthorizationCode))
      else
        var s1 := this.(effects := effects + [Post(TokenUrl, CodeExchangeForm(env, code.s, codeVerifier))]);
        match reply
        case Fail(e) => (s1, Failure(Http(e)))
        case Ok(d) =>
          var s2 := s1.(store := s1.store.SetTokens(d.accessToken, d.refreshToken)).ScheduleTokenRefresh(d.expiresIn);
          (s2.(effects := s2.effects + [RouterReplace([])]), Success(d))
    }

    function RefreshAccessToken(env: Env, reply: Reply<TokenResponse>): (AuthState, Result<JsString>)
      requires env.Valid()
    {
      var token := StoredRefreshToken();
      if !Truthy(token) then (RedirectToKeycloakLogin(env), Failure(NoRefreshToken))
      else
        var s1 := this.(effects := effects + [Post(TokenUrl, RefreshForm(token.s))]);
        match reply
        case Fail(e) => (s1.Logout(env), Failure(Http(e)))
        case Ok(d) =>
          var s2 := s1.(store := s1.store.SetTokens(d.accessToken, Or(d.refreshToken, s1.store.refreshToken)));
          (s2.ScheduleTokenRefresh(d.expiresIn), Success(d.accessToken))
    }

    /** The refresh timer going off: the browser drops the timer and runs
        `refreshAccessToken`, whose rejection the callback only logs. */
    function RefreshTimerFires(env: Env, reply: Reply<TokenResponse>): AuthState
      requires env.Valid()
    {
      if refreshTimeout.Some? && refreshTimeout.value in timers then
        this.(timers := timers - {refreshTimeout.value}).RefreshAccessToken(env, reply).0
      else this
    }

    function GetUserProfile(env: Env, reply: Reply<Profile>): (AuthState, Result<Profile>) {
      if !Truthy(store.accessToken) then (this, Failure(AccessTokenNotAvailable))
      else
        var s1 := this.(effects := effects + [Get(UserInfoUrl, "Bearer " + store.accessToken.s)]);
        match reply
        case Fail(e) => (s1.Logout(env), Failure(Http(e)))
        case Ok(p) => (s1.(store := s1.store.SetUser(p)), Success(p))
    }

    /** Read the refresh token, clear the store and the timer, then leave through
        the end-session endpoint when there was a refresh token, else to /login. */
    function Logout(env: Env): AuthState {
      var token := StoredRefreshToken();
      var s1 := this.(store := store.ClearUser()).ClearRefreshTimer();
      var exit := if Truthy(token) then AssignLocation(LogoutUrl, EndSessionQuery(env, token.s)) else RouterPush("/login");
      s1.(effects := s1.effects + [exit])
    }
  }

  /** The service as constructed over a store. */
  function InitialState(store: StoreState): (s: AuthState)
    ensures s.store == store && s.codeVerifier.Null? && s.state.Null? && s.refreshTimeout.None? && s.timers == map[]
    ensures s.effects == [] && s.randomCalls == 0
    ensures store.Valid() ==> s.Valid()
  {
    AuthState(store, Null, Null, None, map[], 1, 0, [])
  }

  // ---- properties ----

  /** The live timers are at most one, by the invariant. */
  lemma AtMostOneTimer(s: AuthState)
    requires s.Valid()
    ensures |s.timers| <= 1
  {
    if s.refreshTimeout.Some? && s.refreshTimeout.value in s.timers {
      assert s.timers.Keys == {s.refreshTimeout.value};
    } else {
      assert s.timers.Keys == {};
    }
  }

  /** Scheduling leaves exactly one live timer, with delay `(e - 30) * 1000`,
      and whatever timer was pending before is cancelled. */
  lemma ScheduleLeavesOneTimer(s: AuthState, expiresIn: int)
    requires s.Valid()
    ensures var t := s.ScheduleTokenRefresh(expiresIn);
      && t.Valid()
      && t.timers == map[s.nextTimer := (expiresIn - 30) * 1000]
      && t.refreshTimeout == Some(s.nextTimer)
      && (s.refreshTimeout.Some? ==> s.refreshTimeout.value !in t.timers)
      && t.store == s.store && t.effects == s.effects
      && t.codeVerifier == s.codeVerifier && t.state == s.state && t.randomCalls == s.randomCalls
  {
    var c := s.ClearRefreshTimer();
    assert c.timers == map[];
  }

  /** Scheduling twice in a row is the same as scheduling once with the second
      delay, apart from the handle numbers used up. */
  lemma ScheduleTwice(s: AuthState, e1: int, e2: int)
    requires s.Valid()
    ensures var t := s.ScheduleTokenRefresh(e1).ScheduleTokenRefresh(e2);
      t.timers == map[s.nextTimer + 1 := RefreshDelay(e2)] && |t.timers| == 1
  {
    ScheduleLeavesOneTimer(s, e1);
    ScheduleLeavesOneTimer(s.ScheduleTokenRefresh(e1), e2);
  }

  lemma GeneratedVerifier(s: AuthState, env: Env)
    requires env.Valid()
    ensures var out := s.GenerateCodeVerifier(env); var t, v := out.0, out.1;
      && |v| == 128 && (forall i :: 0 <= i < |v| ==> Pkce.Unreserved(v[i]))
      && t.codeVerifier == Str(v) && t == s.(codeVerifier := Str(v), randomCalls := s.randomCalls + 128)
  {
    Pkce.VerifierWellFormed(env.random, s.randomCalls);
  }

  lemma GeneratedState(s: AuthState, env: Env)
    requires env.Valid()
    ensures var out := s.GenerateState(env); var t, st := out.0, out.1;
      && |st| == 32 && (forall i :: 0 <= i < |st| ==> Pkce.Alphanumeric(st[i]))
      && t.state == Str(st) && t == s.(state := Str(st), randomCalls := s.randomCalls + 32)
  {
    Pkce.StateWellFormed(env.random, s.randomCalls);
  }

  /** The login redirect clears the store, erases the persisted session, cancels
      the timer, stores a fresh well-formed verifier and state, and navigates to
      the authorization endpoint with the challenge of that verifier and that
      state. */
  lemma RedirectEffect(s: AuthState, env: Env)
    requires env.Valid() && s.Valid()
    ensures var t := s.RedirectToKeycloakLogin(env);
      && t.Valid() && t.store.Cleared() && t.store.storage.IsEmpty() && t.timers == map[]
      && t.codeVerifier.Str? && |t.codeVerifier.s| == 128
      && (forall i :: 0 <= i < |t.codeVerifier.s| ==> Pkce.Unreserved(t.codeVerifier.s[i]))
      && t.state.Str? && |t.state.s| == 32
      && (forall i :: 0 <= i < |t.state.s| ==> Pkce.Alphanumeric(t.state.s[i]))
      && t.randomCalls == s.randomCalls + 160
      && t.effects == s.effects + [AssignLocation(AuthUrl,
           AuthorizationQuery(env, Pkce.CodeChallenge(env.sha256Base64, t.codeVerifier.s), t.state.s))]
  {
    var g1 := s.GenerateCodeVerifier(env);
    GeneratedVerifier(s, env);
    var g2 := g1.0.GenerateState(env);
    GeneratedState(g1.0, env);
    var t := s.RedirectToKeycloakLogin(env);
    assert t.codeVerifier == Str(g1.1) && t.state == Str(g2.1);
  }

  /** The first value of the parameter at position `i` when no earlier pair has its name. */
  lemma {:induction false} ParamAt(ps: Params, i: nat, key: string)
    requires i < |ps| && ps[i].0 == key
    requires forall j :: 0 <= j < i ==> ps[j].0 != key
    ensures Param(ps, key) == Some(ps[i].1)
  {
    if i > 0 {
      ParamAt(ps[1..], i - 1, key);
    }
  }

  /** The authorization request asks this client's code flow with an S256 challenge. */
  lemma {:induction false} AuthorizationRequestKind(env: Env, challenge: string, state: string)
    ensures var q := AuthorizationQuery(env, challenge, state);
      && Param(q, "client_id") == Some(ClientId)
      && Param(q, "response_type") == Some("code")
      && Param(q, "scope") == Some("openid profile email")
      && Param(q, "code_challenge_method") == Some("S256")
  {
    var q := AuthorizationQuery(env, challenge, state);
    ParamAt(q, 0, "client_id");
    ParamAt(q, 2, "response_type");
    ParamAt(q, 3, "scope");
    ParamAt(q, 5, "code_challenge_method");
  }

  /** The authorization request carries the challenge, the state and the
      callback address of this origin. */
  lemma {:induction false} AuthorizationRequestBinding(env: Env, challenge: string, state: string)
    ensures var q := AuthorizationQuery(env, challenge, state);
      && Param(q, "redirect_uri") == Some(env.origin + "/callback")
      && Param(q, "code_challenge") == Some(challenge)
      && Param(q, "state") == Some(state)
  {
    var q := AuthorizationQuery(env, challenge, state);
    ParamAt(q, 1, "redirect_uri");
    ParamAt(q, 4, "code_challenge");
    ParamAt(q, 6, "state");
  }

  /** The code exchange sends the code, the registered redirect URI and the
      stored verifier as text ("null" when none is stored). */
  lemma {:induction false} CodeExchangeFormFields(env: Env, code: string, verifier: JsString)
    ensures var f := CodeExchangeForm(env, code, verifier);
      && Param(f, "grant_type") == Some("authorization_code")
      && Param(f, "code") == Some(code)
      && Param(f, "redirect_uri") == Some(env.origin + "/callback")
      && Param(f, "code_verifier") == Some(ToText(verifier))
      && (verifier.Null? ==> Param(f, "code_verifier") == Some("null"))
  {
    var f := CodeExchangeForm(env, code, verifier);
    ParamAt(f, 1, "grant_type");
    ParamAt(f, 2, "code");
    ParamAt(f, 3, "redirect_uri");
    ParamAt(f, 4, "code_verifier");
  }

  /** The refresh grant names the token that was found. */
  lemma {:induction false} RefreshFormFields(refreshToken: string)
    ensures var f := RefreshForm(refreshToken);
      Param(f, "grant_type") == Some("refresh_token") && Param(f, "refresh_token") == Some(refreshToken)
  {
    var f := RefreshForm(refreshToken);
    ParamAt(f, 1, "grant_type");
    ParamAt(f, 2, "refresh_token");
  }

  /** The end-session request passes the refresh token as a hint and returns to the origin. */
  lemma {:induction false} EndSessionFields(env: Env, refreshToken: string)
    ensures var q := EndSessionQuery(env, refreshToken);
      Param(q, "client_id") == Some(ClientId) && Param(q, "refresh_token") == Some(refreshToken)
      && Param(q, "redirect_uri") == Some(env.origin)
  {
    var q := EndSessionQuery(env, refreshToken);
    ParamAt(q, 0, "client_id");
    ParamAt(q, 1, "refresh_token");
    ParamAt(q, 2, "redirect_uri");
  }

  /** A callback without a code fails before any token request and changes nothing. */
  lemma CallbackWithoutCode(s: AuthState, env: Env, code: JsString, urlState: JsString, reply: Reply<TokenResponse>)
    requires !Truthy(code)
    ensures s.HandleKeycloakCallback(env, code, urlState, reply) == (s, Failure(NoAuthorizationCode))
  {
  }

  /** A state that differs from the stored one is tolerated: the outcome is the
      same whatever state the callback URL carries. */
  lemma CallbackIgnoresState(s: AuthState, env: Env, code: JsString, st1: JsString, st2: JsString, reply: Reply<TokenResponse>)
    ensures s.HandleKeycloakCallback(env, code, st1, reply) == s.HandleKeycloakCallback(env, code, st2, reply)
  {
  }

  /** A successful exchange sends the stored verifier, stores both tokens,
      leaves exactly one timer armed for the new expiry and clears the query. */
  lemma CallbackSuccess(s: AuthState, env: Env, code: JsString, urlState: JsString, d: TokenResponse)
    requires s.Valid() && Truthy(code)
    ensures var out := s.HandleKeycloakCallback(env, code, urlState, Ok(d)); var t, r := out.0, out.1;
      && r == Success(d) && t.Valid()
      && t.effects == s.effects + [Post(TokenUrl, CodeExchangeForm(env, code.s, s.codeVerifier)), RouterReplace([])]
      && t.store == s.store.SetTokens(d.accessToken, d.refreshToken)
      && t.timers == map[s.nextTimer := RefreshDelay(d.expiresIn)]
  {
    ScheduleLeavesOneTimer(s.(effects := s.effects + [Post(TokenUrl, CodeExchangeForm(env, code.s, s.codeVerifier))])
                             .(store := s.store.SetTokens(d.accessToken, d.refreshToken)), d.expiresIn);
  }

  /** The login redirect leaves the page, so the callback runs in a newly loaded
      application: a new service over a store created from the same storage.
      Its exchange then sends the text "null" as `code_verifier`, not the
      verifier whose challenge the redirect sent. */
  lemma CallbackAfterPageLoad(s: AuthState, env: Env, code: JsString, urlState: JsString, reply: Reply<TokenResponse>)
    requires env.Valid() && s.Valid() && Truthy(code)
    ensures var r := s.RedirectToKeycloakLogin(env);
      var loaded := InitialState(Initial(r.store.storage));
      var t := loaded.HandleKeycloakCallback(env, code, urlState, reply).0;
      && |t.effects| >= 1 && t.effects[0].Post? && t.effects[0].url == TokenUrl
      && Param(t.effects[0].form, "code_verifier") == Some("null")
      && r.codeVerifier.Str? && |r.codeVerifier.s| == 128
  {
    RedirectEffect(s, env);
    CodeExchangeFormFields(env, code.s, Null);
  }

  /** A failed exchange is rethrown; nothing but the request is recorded. */
  lemma CallbackExchangeFails(s: AuthState, env: Env, code: JsString, urlState: JsString, e: HttpError)
    requires Truthy(code)
    ensures s.HandleKeycloakCallback(env, code, urlState, Fail(e))
         == (s.(effects := s.effects + [Post(TokenUrl, CodeExchangeForm(env, code.s, s.codeVerifier))]), Failure(Http(e)))
  {
  }

  /** With no refresh token in the store or in storage, refresh performs the
      login redirect and then fails, sending no token request. */
  lemma RefreshWithoutToken(s: AuthState, env: Env, reply: Reply<TokenResponse>)
    requires env.Valid() && !Truthy(s.store.refreshToken) && (s.store.storage.refreshToken.None? || s.store.storage.refreshToken == Some(""))
    ensures s.RefreshAccessToken(env, reply) == (s.RedirectToKeycloakLogin(env), Failure(NoRefreshToken))
  {
  }

  /** A successful refresh keeps the old refresh token when the response has
      none, stores the new access token and re-arms the timer. */
  lemma RefreshSuccess(s: AuthState, env: Env, d: TokenResponse)
    requires env.Valid() && s.Valid() && Truthy(s.StoredRefreshToken())
    ensures var out := s.RefreshAccessToken(env, Ok(d)); var t, r := out.0, out.1;
      && r == Success(d.accessToken) && t.Valid()
      && t.store.accessToken == d.accessToken
      && t.store.refreshToken == (if Truthy(d.refreshToken) then d.refreshToken else s.store.refreshToken)
      && t.store.user == s.store.user && t.store.isAuthenticated == s.store.isAuthenticated
      && t.timers == map[s.nextTimer := RefreshDelay(d.expiresIn)]
      && t.effects == s.effects + [Post(TokenUrl, RefreshForm(s.StoredRefreshToken().s))]
  {
    var s1 := s.(effects := s.effects + [Post(TokenUrl, RefreshForm(s.StoredRefreshToken().s))]);
    ScheduleLeavesOneTimer(s1.(store := s1.store.SetTokens(d.accessToken, Or(d.refreshToken, s1.store.refreshToken))), d.expiresIn);
  }

  /** A failed refresh logs out (leaving through the end-session endpoint with
      the token that was sent) before the error is rethrown. */
  lemma RefreshFailure(s: AuthState, env: Env, e: HttpError)
    requires env.Valid() && s.Valid() && Truthy(s.StoredRefreshToken())
    ensures var out := s.RefreshAccessToken(env, Fail(e)); var t, r := out.0, out.1;
      && r == Failure(Http(e)) && t.Valid()
      && t.store.Cleared() && t.store.storage.IsEmpty() && t.timers == map[]
      && var rt := s.StoredRefreshToken().s;
         t.effects == s.effects + [Post(TokenUrl, RefreshForm(rt)), AssignLocation(LogoutUrl, EndSessionQuery(env, rt))]
  {
  }

  /** A successful refresh fired by the timer arms the next timer, so the chain
      of refreshes goes on while the token endpoint answers; a failed one ends in
      logout with no timer left. */
  lemma TimerRefreshChain(s: AuthState, env: Env, reply: Reply<TokenResponse>)
    requires env.Valid() && s.Valid() && s.refreshTimeout.Some? && s.refreshTimeout.value in s.timers
    requires Truthy(s.StoredRefreshToken())
    ensures var t := s.RefreshTimerFires(env, reply);
      && t.Valid()
      && (reply.Ok? ==> t.timers == map[s.nextTimer := RefreshDelay(reply.data.expiresIn)])
      && (reply.Fail? ==> t.timers == map[] && t.store.Cleared())
  {
    var s0 := s.(timers := s.timers - {s.refreshTimeout.value});
    if reply.Ok? {
      RefreshSuccess(s0, env, reply.data);
    } else {
      RefreshFailure(s0, env, reply.error);
    }
  }

  /** When only storage holds the refresh token and the response carries no new
      one, the fall-back `refresh_token || userStore.refreshToken` stores the text
      "null", which the next refresh then sends as a token. */
  lemma RefreshWithStorageOnlyToken(s: AuthState, env: Env, d: TokenResponse, token: string)
    requires env.Valid() && s.store.refreshToken.Null? && s.store.storage.refreshToken == Some(token) && token != ""
    requires d.refreshToken.Undefined?
    ensures var t := s.RefreshAccessToken(env, Ok(d)).0;
      && t.store.refreshToken == Null && t.store.storage.refreshToken == Some("null")
      && t.StoredRefreshToken() == Str("null") && Truthy(t.StoredRefreshToken())
  {
  }

  /** Logout reads the refresh token before clearing; it clears the store, the
      persisted session and the timer, and leaves through the end-session
      endpoint if a refresh token existed, else to /login. */
  lemma LogoutEffect(s: AuthState, env: Env)
    requires s.Valid()
    ensures var t := s.Logout(env);
      && t.Valid() && t.store.Cleared() && t.store.storage.IsEmpty() && t.timers == map[]
      && t.codeVerifier == s.codeVerifier && t.state == s.state
      && t.effects == s.effects + [if Truthy(s.StoredRefreshToken())
                                   then AssignLocation(LogoutUrl, EndSessionQuery(env, s.StoredRefreshToken().s))
                                   else RouterPush("/login")]
  {
  }

  /** Without an access token in the store the profile fetch fails at once,
      without a network call and without changing anything. */
  lemma ProfileWithoutToken(s: AuthState, env: Env, reply: Reply<Profile>)
    requires !Truthy(s.store.accessToken)
    ensures s.GetUserProfile(env, reply) == (s, Failure(AccessTokenNotAvailable))
  {
  }

  /** A fetched profile is installed in the store; a failed fetch logs out:
      the store is cleared, the timer cancelled, and the page leaves as
      `logout` decides. */
  lemma ProfileOutcome(s: AuthState, env: Env, reply: Reply<Profile>)
    requires s.Valid() && Truthy(s.store.accessToken)
    ensures var out := s.GetUserProfile(env, reply); var t, r := out.0, out.1;
      && t.Valid()
      && t.effects[..|s.effects| + 1] == s.effects + [Get(UserInfoUrl, "Bearer " + s.store.accessToken.s)]
      && (reply.Ok? ==> r == Success(reply.data) && t.store == s.store.SetUser(reply.data) && t.store.isAuthenticated)
      && (reply.Fail? ==> r == Failure(Http(reply.error)) && t.store.Cleared() && t.store.storage.IsEmpty())
      && (reply.Fail? ==> t == s.(effects := s.effects + [Get(UserInfoUrl, "Bearer " + s.store.accessToken.s)]).Logout(env)
                          && t.timers == map[])
  {
    LogoutEffect(s.(effects := s.effects + [Get(UserInfoUrl, "Bearer " + s.store.accessToken.s)]), env);
  }

  /** The access token used for API calls falls back to storage. */
  lemma AccessTokenFallback(s: AuthState)
    ensures Truthy(s.GetAccessToken()) <==> Truthy(s.store.accessToken) || (s.store.storage.accessToken.Some? && s.store.storage.accessToken.value != "")
    ensures Truthy(s.store.accessToken) ==> s.GetAccessToken() == s.store.accessToken
  {
  }

  /** The running service object. */
  class AuthService {
    const env: Env
    const store: Store
    var codeVerifier: JsString
    var state: JsString
    var tokenRefreshTimeout: Option<nat>
    /** The browser's live timers, by handle. */
    var timers: map<nat, int>
    var nextTimer: nat
    /** How many `Math.random()` results have been used. */
    var randomCalls: nat
    /** Navigations and network requests, in order. */
    var effects: seq<Effect>

    function Snap(): AuthState
      reads this, store
    {
      AuthState(store.State(), codeVerifier, state, tokenRefreshTimeout, timers, nextTimer, randomCalls, effects)
    }

    ghost predicate Valid()
      reads this, store
    {
      env.Valid() && Snap().Valid()
    }

    constructor (env: Env, store: Store)
      requires env.Valid() && store.Valid()
      ensures this.env == env && this.store == store
      ensures Snap() == InitialState(store.State()) && Valid()
    {
      this.env := env;
      this.store := store;
      codeVerifier, state := Null, Null;
      tokenRefreshTimeout := None;
      timers := map[];
      nextTimer := 1;
      randomCalls := 0;
      effects := [];
    }

    method GenerateCodeVerifier() returns (verifier: string)
      requires Valid()
      modifies this
      ensures Valid()
      ensures Snap() == old(Snap()).GenerateCodeVerifier(env).0
      ensures verifier == old(Snap()).GenerateCodeVerifier(env).1
      ensures |verifier| == 128 && forall i :: 0 <= i < |verifier| ==> Pkce.Unreserved(verifier[i])
    {
      verifier := Pkce.BuildRandomText(Pkce.VerifierCharset, env.random, randomCalls, Pkce.VerifierLength);
      Pkce.VerifierWellFormed(env.random, randomCalls);
      randomCalls := randomCalls + Pkce.VerifierLength;
      codeVerifier := Str(verifier);
    }

    method GenerateState() returns (st: string)
      requires Valid()
      modifies this
      ensures Valid()
      ensures Snap() == old(Snap()).GenerateState(env).0
      ensures st == old(Snap()).GenerateState(env).1
      ensures |st| == 32 && forall i :: 0 <= i < |st| ==> Pkce.Alphanumeric(st[i])
    {
      st := Pkce.BuildRandomText(Pkce.StateCharset, env.random, randomCalls, Pkce.StateLength);
      Pkce.StateWellFormed(env.random, randomCalls);
      randomCalls := randomCalls + Pkce.StateLength;
      state := Str(st);
    }

    method ClearRefreshTimer()
      requires Valid()
      modifies this
      ensures Valid() && Snap() == old(Snap()).ClearRefreshTimer()
    {
      if tokenRefreshTimeout.Some? {
        timers := timers - {tokenRefreshTimeout.value};
      }
    }

    method ScheduleTokenRefresh(expiresIn: int)
      requires Valid()
      modifies this
      ensures Valid() && Snap() == old(Snap()).ScheduleTokenRefresh(expiresIn)
      ensures timers == map[old(nextTimer) := RefreshDelay(expiresIn)]
    {
      ScheduleLeavesOneTimer(Snap(), expiresIn);
      ClearRefreshTimer();
      timers := timers[nextTimer := RefreshDelay(expiresIn)];
      tokenRefreshTimeout := Some(nextTimer);
      nextTimer := nextTimer + 1;
    }

    method RedirectToKeycloakLogin()
      requires Valid()
      modifies this, store
      ensures Valid() && Snap() == old(Snap()).RedirectToKeycloakLogin(env)
    {
      RedirectEffect(Snap(), env);
      var verifier := GenerateCodeVerifier();
      var challenge := Pkce.CodeChallenge(env.sha256Base64, verifier);
      var st := GenerateState();
      store.storage := store.storage.(accessToken := None);
      store.storage := store.storage.(refreshToken := None);
      store.storage := store.storage.(userProfile := None);
      store.ClearUser();
      ClearRefreshTimer();
      effects := effects + [AssignLocation(AuthUrl, AuthorizationQuery(env, challenge, st))];
    }

    method HandleKeycloakCallback(code: JsString, urlState: JsString, reply: Reply<TokenResponse>)
      returns (r: Result<TokenResponse>)
      requires Valid()
      modifies this, store
      ensures Valid() && (Snap(), r) == old(Snap()).HandleKeycloakCallback(env, code, urlState, reply)
    {
      if !Truthy(code) {
        return Failure(NoAuthorizationCode);
      }
      effects := effects + [Post(TokenUrl, CodeExchangeForm(env, code.s, codeVerifier))];
      if reply.Fail? {
        return Failure(Http(reply.error));
      }
      var d := reply.data;
      store.SetTokens(d.accessToken, d.refreshToken);
      ScheduleTokenRefresh(d.expiresIn);
      effects := effects + [RouterReplace([])];
      r := Success(d);
    }

    method RefreshAccessToken(reply: Reply<TokenResponse>) returns (r: Result<JsString>)
      requires Valid()
      modifies this, store
      ensures Valid() && (Snap(), r) == old(Snap()).RefreshAccessToken(env, reply)
    {
      var token := Or(store.refreshToken, FromStorage(store.storage.refreshToken));
      if !Truthy(token) {
        RedirectToKeycloakLogin();
        return Failure(NoRefreshToken);
      }
      effects := effects + [Post(TokenUrl, RefreshForm(token.s))];
      if reply.Fail? {
        Logout();
        return Failure(Http(reply.error));
      }
      var d := reply.data;
      store.SetTokens(d.accessToken, Or(d.refreshToken, store.refreshToken));
      ScheduleTokenRefresh(d.expiresIn);
      r := Success(d.accessToken);
    }

    /** The browser running the callback of the armed refresh timer. */
    method RefreshTimerFires(reply: Reply<TokenResponse>)
      requires Valid()
      modifies this, store
      ensures Valid() && Snap() == old(Snap()).RefreshTimerFires(env, reply)
    {
      if tokenRefreshTimeout.Some? && tokenRefreshTimeout.value in timers {
        timers := timers - {tokenRefreshTimeout.value};
        var _ := RefreshAccessToken(reply);
      }
    }

    method GetUserProfile(reply: Reply<Profile>) returns (r: Result<Profile>)
      requires Valid()
      modifies this, store
      ensures Valid() && (Snap(), r) == old(Snap()).GetUserProfile(env, reply)
    {
      if !Truthy(store.accessToken) {
        return Failure(AccessTokenNotAvailable);
      }
      effects := effects + [Get(UserInfoUrl, "Bearer " + store.accessToken.s)];
      if reply.Fail? {
        Logout();
        return Failure(Http(reply.error));
      }
      store.SetUser(reply.data);
      r := Success(reply.data);
    }

    function GetAccessToken(): (token: JsString)
      reads this, store
      ensures token == Snap().GetAccessToken()
      ensures Truthy(token) <==> Truthy(store.accessToken) || Truthy(FromStorage(store.storage.accessToken))
    {
      Or(store.accessToken, FromStorage(store.storage.accessToken))
    }

    method Logout()
      requires Valid()
      modifies this, store
      ensures Valid() && Snap() == old(Snap()).Logout(env)
    {
      var token := Or(store.refreshToken, FromStorage(store.storage.refreshToken));
      store.ClearUser();
      ClearRefreshTimer();
      if Truthy(token) {
        effects := effects + [AssignLocation(LogoutUrl, EndSessionQuery(env, token.s))];
      } else {
        effects := effects + [RouterPush("/login")];
      }
    }
  }
}
