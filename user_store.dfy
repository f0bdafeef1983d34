/** The session store of src/stores/user.js: five in-memory fields and their
    durable mirror in `localStorage`. `StoreState` is the store as a value, with
    one function per action; the class `Store` holds the same fields and its
    methods update them in place, each proved to agree with its function.
    `initAuth`, which calls into the authentication service, is in module
    StoreInit. */
module UserStore {
  import opened JsValues

  /** `realm_access` of a Keycloak profile. */
  datatype RealmAccess = RealmAccess(roles: Option<seq<string>>)

  /** The claims object of the userinfo endpoint, reduced to what the store reads.
      An absent claim is `Undefined` or `None`. */
  datatype Profile = Profile(
    preferredUsername: JsString,
    email: JsString,
    sub: JsString,
    realmAccess: Option<RealmAccess>,
    roles: Option<seq<string>>)

  /** `profile.realm_access?.roles || profile.roles || []`. A present array is
      truthy even when it is empty. */
  function RolesOf(p: Profile): seq<string> {
    if p.realmAccess.Some? && p.realmAccess.value.roles.Some? then p.realmAccess.value.roles.value
    else if p.roles.Some? then p.roles.value
    else []
  }

  /** The stand-in user installed when authentication is skipped. */
  const DevProfile := Profile(Str("dev_user"), Str("dev@hubx.com"), Str("dev_user_id_123"), None, Some(["admin", "operator"]))
  const DummyAccessToken := Str("dummy_access_token")
  const DummyRefreshToken := Str("dummy_refresh_token")

  /** The three `localStorage` entries the session code reads and writes,
      under the keys `accessToken`, `refreshToken` and `userProfile`. Token
      entries hold text; the profile entry holds the profile whose JSON text is
      stored (parsing what was stringified gives the profile back). */
  datatype LocalStorage = LocalStorage(
    accessToken: Option<string>,
    refreshToken: Option<string>,
    userProfile: Option<Profile>)
  {
    predicate IsEmpty() {
      accessToken.None? && refreshToken.None? && userProfile.None?
    }
  }

  /** The state of the store as a value. */
  datatype StoreState = StoreState(
    user: Option<Profile>,
    isAuthenticated: bool,
    accessToken: JsString,
    refreshToken: JsString,
    roles: seq<string>,
    storage: LocalStorage)
  {
    /** The store's invariant: authenticated exactly when a user is present. */
    predicate Valid() {
      isAuthenticated <==> user.Some?
    }

    /** The store as every action except `setUser` leaves it when no user is known. */
    predicate Cleared() {
      user.None? && !isAuthenticated && accessToken.Null? && refreshToken.Null? && roles == []
    }

    // ---- getters ----

    function UserName(): JsString {
      if user.Some? then user.value.preferredUsername else Str("访客")
    }

    function UserEmail(): JsString {
      if user.Some? then user.value.email else Str("")
    }

    predicate HasRole(role: string) {
      role in roles
    }

    // ---- actions ----

    function SetUser(p: Profile): StoreState {
      this.(user := Some(p), isAuthenticated := true, roles := RolesOf(p),
            storage := storage.(userProfile := Some(p)))
    }

    /** `localStorage.setItem` stores `String(v)`, so an absent token is stored
        as the text "null" or "undefined". */
    function SetTokens(access: JsString, refresh: JsString): StoreState {
      this.(accessToken := access, refreshToken := refresh,
            storage := storage.(accessToken := Some(ToText(access)), refreshToken := Some(ToText(refresh))))
    }

    function ClearUser(): StoreState {
      StoreState(None, false, Null, Null, [],
                 storage.(userProfile := None, accessToken := None, refreshToken := None))
    }

    /** The branch of `initAuth` taken when authentication is skipped: restore
        the stored profile and access token (not the refresh token, and with the
        top-level roles only), or install the stand-in user and dummy tokens. */
    function InitAuthSkipped(): StoreState {
      var storedAccess := FromStorage(storage.accessToken);
      if storage.userProfile.Some? && Truthy(storedAccess) then
        var p := storage.userProfile.value;
        this.(user := Some(p), accessToken := storedAccess, isAuthenticated := true,
              roles := if p.roles.Some? then p.roles.value else [])
      else
        SetUser(DevProfile).SetTokens(DummyAccessToken, DummyRefreshToken)
    }
  }

  /** The store as Pinia creates it over a given `localStorage`. */
  function Initial(storage: LocalStorage): (s: StoreState)
    ensures s.Valid() && s.Cleared() && s.storage == storage
  {
    StoreState(None, false, Null, Null, [], storage)
  }

  // ---- properties of the actions ----

  lemma SetUserEffect(s: StoreState, p: Profile)
    ensures var t := s.SetUser(p);
      && t.Valid() && t.user == Some(p) && t.isAuthenticated && t.roles == RolesOf(p)
      && t.storage == s.storage.(userProfile := Some(p))
      && t.accessToken == s.accessToken && t.refreshToken == s.refreshToken
  {
  }

  /** After `setUser(p)`, `hasRole(r)` holds exactly for the roles of `p`: the
      realm roles when the profile has them (even an empty list), else the
      top-level roles, else none. */
  lemma HasRoleAfterSetUser(s: StoreState, p: Profile, role: string)
    ensures s.SetUser(p).HasRole(role) <==>
      if p.realmAccess.Some? && p.realmAccess.value.roles.Some? then role in p.realmAccess.value.roles.value
      else p.roles.Some? && role in p.roles.value
  {
  }

  lemma SetTokensEffect(s: StoreState, access: JsString, refresh: JsString)
    ensures var t := s.SetTokens(access, refresh);
      && t.accessToken == access && t.refreshToken == refresh
      && t.storage.accessToken == Some(ToText(access)) && t.storage.refreshToken == Some(ToText(refresh))
      && t.storage.userProfile == s.storage.userProfile
      && t.user == s.user && t.isAuthenticated == s.isAuthenticated && t.roles == s.roles
      && (s.Valid() ==> t.Valid())
  {
  }

  lemma ClearUserEffect(s: StoreState)
    ensures var t := s.ClearUser();
      t.Valid() && t.Cleared() && t.storage.IsEmpty() && t.ClearUser() == t
  {
  }

  /** Without a user the getters fall back to the guest name and no e-mail;
      by the invariant this is the case exactly when not authenticated. */
  lemma GuestWhenUnauthenticated(s: StoreState)
    requires s.Valid() && !s.isAuthenticated
    ensures s.UserName() == Str("访客") && s.UserEmail() == Str("")
  {
  }

  lemma InitAuthSkippedAuthenticates(s: StoreState)
    ensures var t := s.InitAuthSkipped();
      t.Valid() && t.isAuthenticated && Truthy(t.accessToken)
  {
  }

  /** An empty `realm_access.roles` list hides the top-level roles, since an
      empty array is truthy in JavaScript. */
  lemma EmptyRealmRolesShadowTopLevel(p: Profile)
    requires p.realmAccess == Some(RealmAccess(Some([])))
    ensures RolesOf(p) == []
  {
  }

  /** The store object of the running application. */
  class Store {
    var user: Option<Profile>
    var isAuthenticated: bool
    var accessToken: JsString
    var refreshToken: JsString
    var roles: seq<string>
    /** `localStorage`, the durable mirror. */
    var storage: LocalStorage

    function State(): StoreState
      reads this
    {
      StoreState(user, isAuthenticated, accessToken, refreshToken, roles, storage)
    }

    ghost predicate Valid()
      reads this
    {
      State().Valid()
    }

    constructor (persisted: LocalStorage)
      ensures State() == Initial(persisted) && Valid()
    {
      user, isAuthenticated := None, false;
      accessToken, refreshToken := Null, Null;
      roles := [];
      storage := persisted;
    }

    method SetUser(p: Profile)
      modifies this
      ensures State() == old(State()).SetUser(p) && Valid()
    {
      user := Some(p);
      isAuthenticated := true;
      roles := RolesOf(p);
      storage := storage.(userProfile := Some(p));
    }

    method SetTokens(access: JsString, refresh: JsString)
      modifies this
      ensures State() == old(State()).SetTokens(access, refresh)
      ensures old(Valid()) ==> Valid()
    {
      accessToken := access;
      refreshToken := refresh;
      storage := storage.(accessToken := Some(ToText(access)));
      storage := storage.(refreshToken := Some(ToText(refresh)));
    }

    /** The skip-auth branch of `initAuth`. */
    method InitAuthSkipped()
      modifies this
      ensures State() == old(State()).InitAuthSkipped() && Valid()
    {
      var storedAccess := FromStorage(storage.accessToken);
      if storage.userProfile.Some? && Truthy(storedAccess) {
        var p := storage.userProfile.value;
        user := Some(p);
        accessToken := storedAccess;
        isAuthenticated := true;
        roles := if p.roles.Some? then p.roles.value else [];
      } else {
        SetUser(DevProfile);
        SetTokens(DummyAccessToken, DummyRefreshToken);
      }
    }

    method ClearUser()
      modifies this
      ensures State() == old(State()).ClearUser() && Valid() && State().Cleared()
    {
      user := None;
      isAuthenticated := false;
      accessToken := Null;
      refreshToken := Null;
      roles := [];
      storage := storage.(userProfile := None);
      storage := storage.(accessToken := None);
      storage := storage.(refreshToken := None);
    }
  }
}
