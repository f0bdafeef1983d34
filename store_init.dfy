/** `initAuth` of src/stores/user.js, the restoration of a session at start-up.
    It calls into the authentication service, so it is modelled over the whole
    session (`Auth.AuthState`) rather than inside module UserStore. The build
    flag `VITE_SKIP_AUTH === 'true'` is the parameter `skipAuth`; the replies of
    the refresh and userinfo calls are parameters as well. */
module StoreInit {
  import opened JsValues
  import opened UserStore
  import opened Auth

  /** All three entries are present and truthy (a stored profile is JSON text,
      never empty). */
  predicate HasStoredSession(storage: LocalStorage) {
    Truthy(FromStorage(storage.accessToken)) && Truthy(FromStorage(storage.refreshToken)) && storage.userProfile.Some?
  }

  /** The store as restored from storage before the refresh: tokens and user,
      but not the roles. */
  function Restored(store: StoreState): StoreState
    requires store.storage.userProfile.Some?
  {
    store.(accessToken := FromStorage(store.storage.accessToken), refreshToken := FromStorage(store.storage.refreshToken),
           user := store.storage.userProfile, isAuthenticated := true)
  }

  /** The store after the refresh re-reads both tokens from storage. */
  function Reread(store: StoreState): StoreState {
    store.(accessToken := FromStorage(store.storage.accessToken), refreshToken := FromStorage(store.storage.refreshToken))
  }

  function InitAuth(s: AuthState, env: Env, skipAuth: bool, refreshReply: Reply<TokenResponse>, profileReply: Reply<Profile>)
    : AuthState
    requires env.Valid()
  {
    if skipAuth then s.(store := s.store.InitAuthSkipped())
    else if !HasStoredSession(s.store.storage) then s
    else
      var r1 := s.(store := Restored(s.store)).RefreshAccessToken(env, refreshReply);
      if r1.1.Failure? then r1.0.(store := r1.0.store.ClearUser())
      else
        var r2 := r1.0.(store := Reread(r1.0.store)).GetUserProfile(env, profileReply);
        if r2.1.Failure? then r2.0.(store := r2.0.store.ClearUser())
        else r2.0.(store := r2.0.store.SetUser(r2.1.value))
  }

  // ---- properties ----

  /** In skip mode the store ends authenticated with a truthy access token and
      nothing else of the session changes. */
  lemma SkippedInitAuthenticates(s: AuthState, env: Env, refreshReply: Reply<TokenResponse>, profileReply: Reply<Profile>)
    requires env.Valid()
    ensures var t := InitAuth(s, env, true, refreshReply, profileReply);
      && t.store.Valid() && t.store.isAuthenticated && Truthy(t.store.accessToken)
      && t == s.(store := t.store)
  {
    InitAuthSkippedAuthenticates(s.store);
  }

  /** Without all three stored entries nothing happens: no request, no change. */
  lemma NoStoredSessionNoChange(s: AuthState, env: Env, refreshReply: Reply<TokenResponse>, profileReply: Reply<Profile>)
    requires env.Valid() && !HasStoredSession(s.store.storage)
    ensures InitAuth(s, env, false, refreshReply, profileReply) == s
  {
  }

  /** A stored session always leads to a refresh request with the stored
      refresh token. */
  lemma StoredSessionRefreshes(s: AuthState, env: Env, refreshReply: Reply<TokenResponse>, profileReply: Reply<Profile>)
    requires env.Valid() && HasStoredSession(s.store.storage)
    ensures var t := InitAuth(s, env, false, refreshReply, profileReply);
      && |t.effects| > |s.effects|
      && t.effects[|s.effects|] == Post(TokenUrl, RefreshForm(s.store.storage.refreshToken.value))
  {
    var s1 := s.(store := Restored(s.store));
    assert s1.StoredRefreshToken() == Str(s.store.storage.refreshToken.value);
    var r1 := s1.RefreshAccessToken(env, refreshReply);
    assert r1.0.effects[..|s.effects| + 1] == s.effects + [Post(TokenUrl, RefreshForm(s.store.storage.refreshToken.value))];
    if r1.1.Success? {
      var s2 := r1.0.(store := Reread(r1.0.store));
      var r2 := s2.GetUserProfile(env, profileReply);
      assert r2.0.effects[..|s2.effects|] == s2.effects;
    }
  }

  /** A failed refresh leaves the session cleared: logged out, storage erased,
      no timer, and the end-session navigation recorded. */
  lemma RefreshFailureClears(s: AuthState, env: Env, e: HttpError, profileReply: Reply<Profile>)
    requires env.Valid() && s.Valid() && HasStoredSession(s.store.storage)
    ensures var t := InitAuth(s, env, false, Fail(e), profileReply);
      && t.Valid() && t.store.Cleared() && t.store.storage.IsEmpty() && t.timers == map[]
      && var rt := s.store.storage.refreshToken.value;
         t.effects == s.effects + [Post(TokenUrl, RefreshForm(rt)), AssignLocation(LogoutUrl, EndSessionQuery(env, rt))]
  {
    var s1 := s.(store := Restored(s.store));
    RefreshFailure(s1, env, e);
  }

  /** A failed profile fetch after a good refresh also leaves the session
      cleared; the timer is cancelled by the logout of the failed fetch, which
      happens whenever the new access token is not empty text. */
  lemma ProfileFailureClears(s: AuthState, env: Env, d: TokenResponse, e: HttpError)
    requires env.Valid() && s.Valid() && HasStoredSession(s.store.storage)
    ensures var t := InitAuth(s, env, false, Ok(d), Fail(e));
      && t.Valid() && t.store.Cleared() && t.store.storage.IsEmpty()
      && (d.accessToken != Str("") ==> t.timers == map[])
  {
    var s1 := s.(store := Restored(s.store));
    RefreshSuccess(s1, env, d);
    var r1 := s1.RefreshAccessToken(env, Ok(d));
    var s2 := r1.0.(store := Reread(r1.0.store));
    if Truthy(s2.store.accessToken) {
      ProfileOutcome(s2, env, Fail(e));
      LogoutEffect(s2.(effects := s2.effects + [Get(UserInfoUrl, "Bearer " + s2.store.accessToken.s)]), env);
    }
  }

  /** An empty access token in the refresh response makes the profile fetch
      throw before any request and without logging out: the store is cleared
      but the refresh timer just armed stays live. */
  lemma EmptyAccessTokenKeepsTimer(s: AuthState, env: Env, d: TokenResponse, profileReply: Reply<Profile>)
    requires env.Valid() && s.Valid() && HasStoredSession(s.store.storage) && d.accessToken == Str("")
    ensures var t := InitAuth(s, env, false, Ok(d), profileReply);
      && t.Valid() && t.store.Cleared() && t.store.storage.IsEmpty()
      && t.timers == map[s.nextTimer := RefreshDelay(d.expiresIn)]
      && t.effects == s.effects + [Post(TokenUrl, RefreshForm(s.store.storage.refreshToken.value))]
  {
    RefreshSuccess(s.(store := Restored(s.store)), env, d);
  }

  /** When both calls succeed the session is restored with the fetched profile
      and its roles, the tokens as re-read from storage (text, so an absent
      access token becomes "undefined"), and one timer armed for the new expiry. */
  lemma InitAuthRestores(s: AuthState, env: Env, d: TokenResponse, p: Profile)
    requires env.Valid() && s.Valid() && HasStoredSession(s.store.storage) && d.accessToken != Str("")
    ensures var t := InitAuth(s, env, false, Ok(d), Ok(p));
      && t.Valid() && t.store.user == Some(p) && t.store.isAuthenticated && t.store.roles == RolesOf(p)
      && t.store.accessToken == Str(ToText(d.accessToken))
      && t.store.refreshToken == Str(ToText(Or(d.refreshToken, FromStorage(s.store.storage.refreshToken))))
      && t.store.storage.userProfile == Some(p)
      && t.timers == map[s.nextTimer := RefreshDelay(d.expiresIn)]
      && t.effects == s.effects + [Post(TokenUrl, RefreshForm(s.store.storage.refreshToken.value)),
                                   Get(UserInfoUrl, "Bearer " + ToText(d.accessToken))]
  {
    var s1 := s.(store := Restored(s.store));
    RefreshSuccess(s1, env, d);
    var r1 := s1.RefreshAccessToken(env, Ok(d));
    var s2 := r1.0.(store := Reread(r1.0.store));
    assert s2.store.accessToken == Str(ToText(d.accessToken));
    ProfileOutcome(s2, env, Ok(p));
  }

  /** The store's invariant and the session's hold after `initAuth`, on every path. */
  lemma InitAuthValid(s: AuthState, env: Env, skipAuth: bool, refreshReply: Reply<TokenResponse>, profileReply: Reply<Profile>)
    requires env.Valid() && s.Valid()
    ensures InitAuth(s, env, skipAuth, refreshReply, profileReply).Valid()
  {
    if skipAuth {
      InitAuthSkippedAuthenticates(s.store);
    } else if HasStoredSession(s.store.storage) {
      match refreshReply
      case Fail(e) => RefreshFailureClears(s, env, e, profileReply);
      case Ok(d) =>
        match profileReply
        case Fail(e) => ProfileFailureClears(s, env, d, e);
        case Ok(p) =>
          if d.accessToken == Str("") {
            EmptyAccessTokenKeepsTimer(s, env, d, profileReply);
          } else {
            InitAuthRestores(s, env, d, p);
          }
    }
  }

  /** The restoration path of `initAuth`, from the stored entries onwards. */
  method RunRestoreSession(auth: AuthService, refreshReply: Reply<TokenResponse>, profileReply: Reply<Profile>)
    requires auth.Valid() && HasStoredSession(auth.store.storage)
    modifies auth, auth.store
    ensures auth.Valid()
    ensures auth.Snap() == InitAuth(old(auth.Snap()), auth.env, false, refreshReply, profileReply)
  {
    ghost var s0 := auth.Snap();
    var store := auth.store;
    store.accessToken := FromStorage(store.storage.accessToken);
    store.refreshToken := FromStorage(store.storage.refreshToken);
    store.user := store.storage.userProfile;
    store.isAuthenticated := true;
    assert auth.Snap() == s0.(store := Restored(s0.store));
    var refreshed := auth.RefreshAccessToken(refreshReply);
    ghost var s1 := auth.Snap();
    if refreshed.Failure? {
      store.ClearUser();
      return;
    }
    store.accessToken := FromStorage(store.storage.accessToken);
    store.refreshToken := FromStorage(store.storage.refreshToken);
    assert auth.Snap() == s1.(store := Reread(s1.store));
    var fetched := auth.GetUserProfile(profileReply);
    if fetched.Failure? {
      store.ClearUser();
      return;
    }
    store.SetUser(fetched.value);
  }

  /** `userStore.initAuth()` on the running objects. */
  method RunInitAuth(auth: AuthService, skipAuth: bool, refreshReply: Reply<TokenResponse>, profileReply: Reply<Profile>)
    requires auth.Valid()
    modifies auth, auth.store
    ensures auth.Valid()
    ensures auth.Snap() == InitAuth(old(auth.Snap()), auth.env, skipAuth, refreshReply, profileReply)
  {
    if skipAuth {
      auth.store.InitAuthSkipped();
      return;
    }
    var storedAccess := FromStorage(auth.store.storage.accessToken);
    var storedRefresh := FromStorage(auth.store.storage.refreshToken);
    if Truthy(storedAccess) && Truthy(storedRefresh) && auth.store.storage.userProfile.Some? {
      RunRestoreSession(auth, refreshReply, profileReply);
    }
  }
}
