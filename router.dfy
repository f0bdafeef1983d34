/** The router of src/router/index.js: the static route table, the global
    `beforeEach` guard, and the `beforeEnter` guard of the /callback route.
    A guard's decision is how it calls `next`: `next()`, `next(path)`, or not
    at all (the login redirect has left the page instead). */
module Router {
  import opened JsValues
  import opened UserStore
  import opened Auth

  // ---- the route table ----

  /** Route metadata; a child's fields override its parent's (vue-router merges
      `to.meta` from the matched records, outermost first). */
  datatype Meta = Meta(requiresAuth: Option<bool>, title: Option<string>)

  function MergeMeta(parent: Meta, child: Meta): Meta {
    Meta(if child.requiresAuth.Some? then child.requiresAuth else parent.requiresAuth,
         if child.title.Some? then child.title else parent.title)
  }

  datatype ChildRoute = ChildRoute(path: string, name: string, meta: Meta)

  datatype RouteRecord = RouteRecord(path: string, name: Option<string>, redirect: Option<string>,
                                     meta: Meta, children: seq<ChildRoute>)

  /** The pattern of the not-found route, which matches every path. */
  const CatchAll := "/:pathMatch(.*)*"

  const DashboardRoute := ChildRoute("dashboard", "dashboard", Meta(None, Some("仪表盘")))
  const DevicesRoute := ChildRoute("devices", "devices", Meta(None, Some("设备管理")))
  const UsersRoute := ChildRoute("users", "users", Meta(None, Some("用户管理")))
  const BindingsRoute := ChildRoute("bindings", "bindings", Meta(None, Some("绑定管理")))
  const RulesRoute := ChildRoute("rules", "rules", Meta(None, Some("规则管理")))

  /** The admin layout at "/", which redirects to the dashboard. */
  const LayoutRoute := RouteRecord("/", None, Some("/dashboard"), Meta(Some(true), Some("首页")),
                                   [DashboardRoute, DevicesRoute, UsersRoute, BindingsRoute, RulesRoute])
  const LoginRoute := RouteRecord("/login", Some("login"), None, Meta(None, Some("登录")), [])
  const CallbackRoute := RouteRecord("/callback", Some("callback"), None, Meta(None, Some("认证回调")), [])
  const NotFoundRoute := RouteRecord(CatchAll, Some("NotFound"), None, Meta(None, Some("页面未找到")), [])

  const Routes: seq<RouteRecord> := [LayoutRoute, LoginRoute, CallbackRoute, NotFoundRoute]

  /** Where a path leads: a route (with its merged metadata), a redirect, or nowhere. */
  datatype Resolution = Found(name: Option<string>, meta: Meta) | Redirect(target: string) | NoMatch

  /** The absolute path of a child route under a parent. */
  function ChildPath(parent: string, child: string): string {
    if parent == "/" then parent + child else parent + "/" + child
  }

  function MatchChildren(parent: RouteRecord, children: seq<ChildRoute>, path: string): Resolution {
    if children == [] then NoMatch
    else if ChildPath(parent.path, children[0].path) == path then
      Found(Some(children[0].name), MergeMeta(parent.meta, children[0].meta))
    else MatchChildren(parent, children[1..], path)
  }

  /** The first record that matches, in table order (the catch-all is last, so
      this agrees with vue-router's ranking for this table). */
  function MatchRoutes(routes: seq<RouteRecord>, path: string): Resolution {
    if routes == [] then NoMatch
    else
      var r := routes[0];
      if r.path == path || r.path == CatchAll then
        if r.redirect.Some? then Redirect(r.redirect.value) else Found(r.name, r.meta)
      else
        var c := MatchChildren(r, r.children, path);
        if c.Found? then c else MatchRoutes(routes[1..], path)
  }

  /** The route a navigation to `path` ends at, following one redirect. */
  function Resolve(path: string): Resolution {
    match MatchRoutes(Routes, path)
    case Redirect(target) => MatchRoutes(Routes, target)
    case other => other
  }

  predicate RequiresAuth(path: string) {
    var r := Resolve(path);
    r.Found? && r.meta.requiresAuth == Some(true)
  }

  const ProtectedPaths: set<string> := {"/", "/dashboard", "/devices", "/users", "/bindings", "/rules"}

  /** The metadata of a child of the layout: protected, with its own title. */
  function ChildMeta(c: ChildRoute): Meta {
    MergeMeta(LayoutRoute.meta, c.meta)
  }

  lemma {:induction false} LayoutChildrenMatch(path: string)
    ensures MatchChildren(LayoutRoute, LayoutRoute.children, path) ==
      if path == "/dashboard" then Found(Some("dashboard"), ChildMeta(DashboardRoute))
      else if path == "/devices" then Found(Some("devices"), ChildMeta(DevicesRoute))
      else if path == "/users" then Found(Some("users"), ChildMeta(UsersRoute))
      else if path == "/bindings" then Found(Some("bindings"), ChildMeta(BindingsRoute))
      else if path == "/rules" then Found(Some("rules"), ChildMeta(RulesRoute))
      else NoMatch
  {
    var L := LayoutRoute;
    var c1 := [DevicesRoute, UsersRoute, BindingsRoute, RulesRoute];
    var c2 := [UsersRoute, BindingsRoute, RulesRoute];
    var c3 := [BindingsRoute, RulesRoute];
    var c4 := [RulesRoute];
    assert ChildPath("/", "dashboard") == "/dashboard";
    assert ChildPath("/", "devices") == "/devices";
    assert ChildPath("/", "users") == "/users";
    assert ChildPath("/", "bindings") == "/bindings";
    assert ChildPath("/", "rules") == "/rules";
    assert L.children[1..] == c1 && c1[1..] == c2 && c2[1..] == c3 && c3[1..] == c4 && c4[1..] == [];
    assert MatchChildren(L, c4, path) == if path == "/rules" then Found(Some("rules"), ChildMeta(RulesRoute)) else NoMatch;
    assert MatchChildren(L, c3, path) == if path == "/bindings" then Found(Some("bindings"), ChildMeta(BindingsRoute)) else MatchChildren(L, c4, path);
    assert MatchChildren(L, c2, path) == if path == "/users" then Found(Some("users"), ChildMeta(UsersRoute)) else MatchChildren(L, c3, path);
    assert MatchChildren(L, c1, path) == if path == "/devices" then Found(Some("devices"), ChildMeta(DevicesRoute)) else MatchChildren(L, c2, path);
  }

  /** The table read as a case split on the path. */
  lemma {:induction false} TableMatch(path: string)
    ensures MatchRoutes(Routes, path) ==
      if path == "/" then Redirect("/dashboard")
      else if path in ProtectedPaths then MatchChildren(LayoutRoute, LayoutRoute.children, path)
      else if path == "/login" then Found(Some("login"), LoginRoute.meta)
      else if path == "/callback" then Found(Some("callback"), CallbackRoute.meta)
      else Found(Some("NotFound"), NotFoundRoute.meta)
  {
    LayoutChildrenMatch(path);
    var r1 := [LoginRoute, CallbackRoute, NotFoundRoute];
    var r2 := [CallbackRoute, NotFoundRoute];
    var r3 := [NotFoundRoute];
    assert Routes[1..] == r1 && r1[1..] == r2 && r2[1..] == r3;
    assert MatchRoutes(r3, path) == Found(Some("NotFound"), NotFoundRoute.meta);
    assert MatchRoutes(r2, path) == if path == "/callback" then Found(Some("callback"), CallbackRoute.meta) else MatchRoutes(r3, path);
    assert MatchRoutes(r1, path) == if path == "/login" then Found(Some("login"), LoginRoute.meta) else MatchRoutes(r2, path);
  }

  /** Exactly the layout route and its five children require authentication;
      "/" lands on the dashboard. */
  lemma RouteTableProtection(path: string)
    ensures RequiresAuth(path) <==> path in ProtectedPaths
    ensures Resolve("/") == Found(Some("dashboard"), Meta(Some(true), Some("仪表盘")))
  {
    TableMatch(path);
    TableMatch("/");
    TableMatch("/dashboard");
    LayoutChildrenMatch(path);
    LayoutChildrenMatch("/dashboard");
  }

  /** Every path that is not one of the named routes reaches the not-found page. */
  lemma UnknownPathsNotFound(path: string)
    requires path !in ProtectedPaths && path != "/login" && path != "/callback"
    ensures Resolve(path) == Found(Some("NotFound"), Meta(None, Some("页面未找到")))
  {
    TableMatch(path);
  }

  // ---- the guards ----

  datatype Decision =
    | Next              // next(): the navigation proceeds
    | NextTo(path: string)  // next(path): the navigation is redirected
    | NoNext            // next is never called

  /** `router.beforeEach`, for a navigation to `to`; `skipAuth` is the build flag
      `VITE_SKIP_AUTH === 'true'`. */
  function BeforeEach(s: AuthState, env: Env, skipAuth: bool, to: string, profileReply: Reply<Profile>)
    : (AuthState, Decision)
    requires env.Valid()
  {
    if skipAuth && RequiresAuth(to) then
      if !s.store.isAuthenticated then
        (s.(store := s.store.SetUser(DevProfile).SetTokens(DummyAccessToken, DummyRefreshToken)), Next)
      else (s, Next)
    else if RequiresAuth(to) && !s.store.isAuthenticated then
      if Truthy(s.GetAccessToken()) then
        var fetched := s.GetUserProfile(env, profileReply);
        if fetched.1.Success? then (fetched.0.(store := fetched.0.store.SetUser(fetched.1.value)), Next)
        else (fetched.0.RedirectToKeycloakLogin(env), NoNext)
      else (s.RedirectToKeycloakLogin(env), NoNext)
    else (s, Next)
  }

  /** The `beforeEnter` guard of /callback: exchange the code, fetch the profile,
      install it and go home; on any failure go to /login. */
  function CallbackBeforeEnter(s: AuthState, env: Env, code: JsString, urlState: JsString,
                               tokenReply: Reply<TokenResponse>, profileReply: Reply<Profile>): (AuthState, Decision)
  {
    var exchanged := s.HandleKeycloakCallback(env, code, urlState, tokenReply);
    if exchanged.1.Failure? then (exchanged.0, NextTo("/login"))
    else
      var fetched := exchanged.0.GetUserProfile(env, profileReply);
      if fetched.1.Failure? then (fetched.0, NextTo("/login"))
      else (fetched.0.(store := fetched.0.store.SetUser(fetched.1.value)), NextTo("/"))
  }

  // ---- properties of the guards ----

  /** A route that does not require authentication proceeds, with no change. */
  lemma PublicRouteProceeds(s: AuthState, env: Env, skipAuth: bool, to: string, profileReply: Reply<Profile>)
    requires env.Valid() && !RequiresAuth(to)
    ensures BeforeEach(s, env, skipAuth, to, profileReply) == (s, Next)
  {
  }

  /** An authenticated user reaches a protected route with no network call. */
  lemma AuthenticatedProceeds(s: AuthState, env: Env, skipAuth: bool, to: string, profileReply: Reply<Profile>)
    requires env.Valid() && s.store.isAuthenticated
    ensures BeforeEach(s, env, skipAuth, to, profileReply) == (s, Next)
  {
  }

  /** With a token, an unauthenticated visit to a protected route proceeds when
      the profile fetch succeeds, and otherwise ends in the login redirect. */
  lemma ProfileDecidesEntry(s: AuthState, env: Env, to: string, profileReply: Reply<Profile>)
    requires env.Valid() && s.Valid() && RequiresAuth(to) && !s.store.isAuthenticated && Truthy(s.store.accessToken)
    ensures var out := BeforeEach(s, env, false, to, profileReply); var t, d := out.0, out.1;
      && t.Valid()
      && (profileReply.Ok? ==> d == Next && t.store.user == Some(profileReply.data) && t.store.isAuthenticated
                               && t.effects == s.effects + [Get(UserInfoUrl, "Bearer " + s.store.accessToken.s)])
      && (profileReply.Fail? ==> d == NoNext && t.store.Cleared() && t.store.storage.IsEmpty()
                                 && t.effects[|t.effects| - 1].AssignLocation? && t.effects[|t.effects| - 1].url == AuthUrl)
  {
    ProfileOutcome(s, env, profileReply);
    var fetched := s.GetUserProfile(env, profileReply);
    if profileReply.Fail? {
      RedirectEffect(fetched.0, env);
    }
  }

  /** Without any access token the guard performs the login redirect and never
      calls `next`. */
  lemma NoTokenRedirects(s: AuthState, env: Env, to: string, profileReply: Reply<Profile>)
    requires env.Valid() && RequiresAuth(to) && !s.store.isAuthenticated && !Truthy(s.GetAccessToken())
    ensures BeforeEach(s, env, false, to, profileReply) == (s.RedirectToKeycloakLogin(env), NoNext)
  {
  }

  /** A token present only in storage passes the guard's check but not the
      profile fetch's, which reads the store: the fetch throws without a request
      and the guard redirects to login. */
  lemma StorageOnlyTokenRedirects(s: AuthState, env: Env, to: string, profileReply: Reply<Profile>)
    requires env.Valid() && RequiresAuth(to) && !s.store.isAuthenticated
    requires !Truthy(s.store.accessToken) && Truthy(s.GetAccessToken())
    ensures BeforeEach(s, env, false, to, profileReply) == (s.RedirectToKeycloakLogin(env), NoNext)
  {
  }

  /** In skip mode a protected route always proceeds, installing the stand-in
      user and dummy tokens first when nobody is signed in. */
  lemma SkipModeProceeds(s: AuthState, env: Env, to: string, profileReply: Reply<Profile>)
    requires env.Valid() && RequiresAuth(to)
    ensures var out := BeforeEach(s, env, true, to, profileReply); var t, d := out.0, out.1;
      && d == Next && t.store.isAuthenticated
      && (!s.store.isAuthenticated ==> t.store.user == Some(DevProfile) && t.store.roles == ["admin", "operator"]
                                       && t.store.accessToken == DummyAccessToken && t.store.refreshToken == DummyRefreshToken)
      && (s.store.isAuthenticated ==> t == s)
      && t.effects == s.effects
  {
  }

  /** The guard is sound: outside skip mode, whenever it lets a navigation to a
      protected route proceed, the store is authenticated; whenever it does not,
      the last effect is the navigation to the authorization endpoint. */
  lemma GuardSound(s: AuthState, env: Env, to: string, profileReply: Reply<Profile>)
    requires env.Valid() && s.Valid()
    ensures var out := BeforeEach(s, env, false, to, profileReply); var t, d := out.0, out.1;
      && t.Valid() && (d == Next || d == NoNext)
      && (d == Next && RequiresAuth(to) ==> t.store.isAuthenticated)
      && (d == NoNext ==> t.store.Cleared() && t.effects[|t.effects| - 1].AssignLocation?
                          && t.effects[|t.effects| - 1].url == AuthUrl)
  {
    if RequiresAuth(to) && !s.store.isAuthenticated {
      if Truthy(s.GetAccessToken()) {
        var fetched := s.GetUserProfile(env, profileReply);
        if Truthy(s.store.accessToken) {
          ProfileOutcome(s, env, profileReply);
        }
        if fetched.1.Failure? {
          RedirectEffect(fetched.0, env);
        }
      } else {
        RedirectEffect(s, env);
      }
    }
  }

  /** The callback guard goes home exactly when a code was present, the exchange
      succeeded with a non-empty access token and the profile was fetched, and
      to /login otherwise; going home leaves the user signed in with that profile. */
  lemma CallbackRouting(s: AuthState, env: Env, code: JsString, urlState: JsString,
                        tokenReply: Reply<TokenResponse>, profileReply: Reply<Profile>)
    requires s.Valid()
    ensures var out := CallbackBeforeEnter(s, env, code, urlState, tokenReply, profileReply); var t, d := out.0, out.1;
      && t.Valid()
      && (d == NextTo("/") || d == NextTo("/login"))
      && (d == NextTo("/") <==> Truthy(code) && tokenReply.Ok? && Truthy(tokenReply.data.accessToken) && profileReply.Ok?)
      && (d == NextTo("/") ==> t.store.isAuthenticated && t.store.user == Some(profileReply.data)
                               && t.store.accessToken == tokenReply.data.accessToken)
  {
    if Truthy(code) && tokenReply.Ok? {
      CallbackSuccess(s, env, code, urlState, tokenReply.data);
      var exchanged := s.HandleKeycloakCallback(env, code, urlState, tokenReply);
      if Truthy(exchanged.0.store.accessToken) {
        ProfileOutcome(exchanged.0, env, profileReply);
      }
    }
  }

  // ---- the guards on the running objects ----

  method RunBeforeEach(auth: AuthService, skipAuth: bool, to: string, profileReply: Reply<Profile>) returns (d: Decision)
    requires auth.Valid()
    modifies auth, auth.store
    ensures auth.Valid()
    ensures auth.Snap() == BeforeEach(old(auth.Snap()), auth.env, skipAuth, to, profileReply).0
    ensures d == BeforeEach(old(auth.Snap()), auth.env, skipAuth, to, profileReply).1
  {
    var store := auth.store;
    var requiresAuth := RequiresAuth(to);
    if skipAuth && requiresAuth {
      if !store.isAuthenticated {
        store.SetUser(DevProfile);
        store.SetTokens(DummyAccessToken, DummyRefreshToken);
      }
      return Next;
    }
    if requiresAuth && !store.isAuthenticated {
      var token := auth.GetAccessToken();
      if Truthy(token) {
        var fetched := auth.GetUserProfile(profileReply);
        if fetched.Success? {
          store.SetUser(fetched.value);
          return Next;
        }
      }
      auth.RedirectToKeycloakLogin();
      return NoNext;
    }
    return Next;
  }

  method RunCallbackBeforeEnter(auth: AuthService, code: JsString, urlState: JsString,
                                tokenReply: Reply<TokenResponse>, profileReply: Reply<Profile>) returns (d: Decision)
    requires auth.Valid()
    modifies auth, auth.store
    ensures auth.Valid()
    ensures auth.Snap() == CallbackBeforeEnter(old(auth.Snap()), auth.env, code, urlState, tokenReply, profileReply).0
    ensures d == CallbackBeforeEnter(old(auth.Snap()), auth.env, code, urlState, tokenReply, profileReply).1
  {
    var exchanged := auth.HandleKeycloakCallback(code, urlState, tokenReply);
    if exchanged.Failure? {
      return NextTo("/login");
    }
    var fetched := auth.GetUserProfile(profileReply);
    if fetched.Failure? {
      return NextTo("/login");
    }
    auth.store.SetUser(fetched.value);
    return NextTo("/");
  }
}
