# Session and authentication core of the admin front-end, in Dafny

This project models how the Vue admin front-end signs users in through Keycloak
and keeps their session. It covers:

- the OAuth 2.0 authorization code grant (section 4.1 of RFC 6749) with PKCE (RFC 7636);
- the refresh token grant (section 6 of RFC 6749) and the timer that re-arms it;
- the userinfo call and logout through the end-session endpoint;
- the Pinia user store with its `localStorage` mirror;
- the axios interceptors that attach the bearer token and retry a request once after a 401;
- the router guards that decide whether a navigation may proceed.

Modules, one per concern:

| module | file | models |
|---|---|---|
| `JsValues` | js_values.dfy | `null`/`undefined`/string values, truthiness, `\|\|`, `String()` |
| `Pkce` | pkce.dfy | the verifier and state builders, base64url post-processing of the challenge |
| `UserStore` | user_store.dfy | the store's state, getters and actions (`StoreState` and class `Store`) |
| `Auth` | auth.dfy | `AuthService`: state as a value (`AuthState`) and as an object (class `AuthService`) |
| `StoreInit` | store_init.dfy | the store's `initAuth`, which calls into `AuthService` |
| `Api` | api.dfy | the request and response interceptors (`Dispatch`, class `Client`) |
| `Router` | router.dfy | the route table, `beforeEach` and the `/callback` `beforeEnter` guard |

Each stateful operation is written twice:

- once as a function on a value (`StoreState`, `AuthState`) that the properties are proved about;
- once as a method on the class that updates the fields in place, with a postcondition saying the new state equals that function of the old state.

The outside world is explicit:

- Every network call takes its reply as a parameter (`Reply<T>`: `Ok(data)` or `Fail(error)`).
- Navigations and requests are appended to an effect log.
- The browser's timers are a map from handle to delay.
- `Math.random()` is a function from call number to a real in [0, 1), read at a running counter.
- btoa(SHA-256(·)) is a function parameter.

Notes on what the code does:

- After the callback, the PKCE verifier and the state are not cleared. Only the query string is replaced.
- A successful code exchange on its own does not authenticate the store. The user is set only by the profile fetch that follows.
- `initAuth` restores the tokens and the user but not the roles before its refresh.

## Model

| member | source | states |
|---|---|---|
| JsValues.Or | src/services/auth.js:129 | `a \|\| b` is truthy iff either operand is; it is `a` when `a` is truthy, else `b` |
| JsValues.StoreThenRead | src/stores/user.js:29-30 | storing a value and reading it back gives its text; a stored `null` comes back as the truthy text "null" |
| UserStore.Initial | src/stores/user.js:7-13 | a new store holds no user, is unauthenticated, has no tokens and no roles, and keeps the given storage |
| UserStore.SetUserEffect | src/stores/user.js:20-25 | `setUser(p)` sets the user, authenticates, derives the roles from `p`, writes `userProfile`, and leaves the tokens alone |
| UserStore.HasRoleAfterSetUser | src/stores/user.js:17-23 | after `setUser(p)`, `hasRole(r)` holds iff `r` is a realm role of `p` when those are present, else a top-level role |
| UserStore.EmptyRealmRolesShadowTopLevel | src/stores/user.js:23 | an empty `realm_access.roles` list yields no roles, even when top-level roles exist |
| UserStore.SetTokensEffect | src/stores/user.js:26-31 | both tokens are set and mirrored to storage as text; user, authentication, roles and the stored profile are unchanged; the invariant is kept |
| UserStore.ClearUserEffect | src/stores/user.js:32-41 | all five fields are reset, all three storage entries removed, the invariant holds, and clearing again changes nothing |
| UserStore.GuestWhenUnauthenticated | src/stores/user.js:15-16 | an unauthenticated store reports the guest name "访客" and an empty e-mail |
| UserStore.InitAuthSkippedAuthenticates | src/stores/user.js:44-63 | the skip-auth branch of `initAuth` always ends authenticated with a truthy access token and the invariant kept |
| UserStore.Store.constructor | src/stores/user.js:7-13 | a new store has no user, is not authenticated, holds no tokens and no roles, and keeps the given storage |
| UserStore.Store.SetUser | src/stores/user.js:20-25 | the in-place update equals `SetUser` on the old state and keeps the invariant |
| UserStore.Store.SetTokens | src/stores/user.js:26-31 | the in-place update equals `SetTokens` on the old state |
| UserStore.Store.ClearUser | src/stores/user.js:32-41 | the in-place update equals `ClearUser` on the old state and leaves the store cleared |
| UserStore.Store.InitAuthSkipped | src/stores/user.js:44-63 | the in-place skip-auth branch equals `InitAuthSkipped` on the old state and keeps the invariant |
| Pkce.Pick | src/services/auth.js:31 | `charset.charAt(Math.floor(x * charset.length))` with x in [0, 1) is a character of the set |
| Pkce.RandomText | src/services/auth.js:30-32 | the built text has the requested length, and character i is the one selected by the i-th random number |
| Pkce.BuildRandomText | src/services/auth.js:29-32 | the counted `+=` loop builds exactly `RandomText` |
| Pkce.VerifierWellFormed | src/services/auth.js:27-35 | a verifier has 128 characters (within 43..128) and each is unreserved in RFC 7636's sense |
| Pkce.StateWellFormed | src/services/auth.js:47-55 | a state has 32 characters, all alphanumeric |
| Pkce.Base64Url | src/services/auth.js:41-44 | the replace chain leaves no '+', '/' or '=' |
| Pkce.CodeChallenge | src/services/auth.js:37-45 | the challenge contains no '+', '/' or '=' |
| Pkce.Base64UrlIdempotent | src/services/auth.js:42-44 | applying the replace chain twice equals applying it once |
| Pkce.Base64UrlOfPadded | src/services/auth.js:41-44 | on canonical base64 the chain substitutes '+' and '/' and drops exactly the padding |
| Pkce.UndoSubstitutions | src/services/auth.js:42-43 | on the base64 alphabet the two substitutions are undone by their reverses |
| Pkce.Base64UrlRoundTrip | src/services/auth.js:41-44 | for canonical base64, undoing the substitutions and re-padding recovers the input: no information is lost |
| Auth.InitialState | src/services/auth.js:20-24 | the service starts with no verifier, no state and no timer, and satisfies the invariant |
| Auth.AtMostOneTimer | src/services/auth.js:160-169 | under the invariant, at most one refresh timer is live |
| Auth.ScheduleLeavesOneTimer | src/services/auth.js:160-169 | scheduling leaves exactly one live timer, with delay (e − 30) · 1000, cancels the earlier one, and touches nothing else |
| Auth.ScheduleTwice | src/services/auth.js:160-169 | scheduling twice leaves only the second timer |
| Auth.GeneratedVerifier | src/services/auth.js:27-35 | `generateCodeVerifier` stores and returns a 128-character unreserved string and changes nothing else |
| Auth.GeneratedState | src/services/auth.js:47-55 | `generateState` stores and returns a 32-character alphanumeric string and changes nothing else |
| Auth.RedirectEffect | src/services/auth.js:58-82 | the login redirect clears the store, erases storage and the timer, stores a fresh well-formed verifier and state, and records one navigation to the authorization endpoint with their challenge and state |
| Auth.ParamAt | src/services/auth.js:63-71 | a key's first occurrence decides what `get` returns |
| Auth.AuthorizationRequestKind | src/services/auth.js:63-71 | the authorization request names the client, `response_type=code`, the OpenID scope and `code_challenge_method=S256` |
| Auth.AuthorizationRequestBinding | src/services/auth.js:63-71 | the authorization request carries the callback URI, the challenge and the state |
| Auth.CodeExchangeFormFields | src/services/auth.js:103-109 | the exchange sends `grant_type=authorization_code`, the code, the redirect URI and the stored verifier as text ("null" when none) |
| Auth.RefreshFormFields | src/services/auth.js:136-140 | the refresh form has `grant_type=refresh_token` and the token found |
| Auth.EndSessionFields | src/services/auth.js:203-207 | the end-session request carries the client, the refresh token and the origin as return address |
| Auth.CallbackWithoutCode | src/services/auth.js:98-100 | a callback without a truthy code fails with "no authorization code" and changes nothing (no token request) |
| Auth.CallbackIgnoresState | src/services/auth.js:91-95 | the outcome of the callback does not depend on the state in the URL |
| Auth.CallbackSuccess | src/services/auth.js:103-124 | a successful exchange sends the stored verifier, stores both tokens, arms one timer for the expiry, clears the query and returns the token data |
| Auth.CallbackAfterPageLoad | src/services/auth.js:81-109 | after the login redirect reloads the page, the new service's code exchange sends the text "null" as `code_verifier`, although the redirect stored a 128-character verifier |
| Auth.CallbackExchangeFails | src/services/auth.js:111-115 | a failed exchange is rethrown; only the request is recorded and there is no logout |
| Auth.RefreshWithoutToken | src/services/auth.js:129-134 | with no refresh token in the store or storage, refresh is the login redirect followed by a "no refresh token" failure |
| Auth.RefreshSuccess | src/services/auth.js:142-152 | a successful refresh stores the new access token, keeps the old refresh token when none is returned, re-arms the timer, and returns the access token |
| Auth.RefreshFailure | src/services/auth.js:153-157 | a failed refresh logs out (store cleared, storage erased, no timer, end-session navigation with the token sent) before rethrowing |
| Auth.TimerRefreshChain | src/services/auth.js:166-168 | when the armed timer fires, a successful refresh arms the next timer; a failed one leaves none and a cleared store |
| Auth.RefreshWithStorageOnlyToken | src/services/auth.js:129-150 | when only storage holds the refresh token and the response omits one, the text "null" is stored and becomes the next refresh token |
| Auth.LogoutEffect | src/services/auth.js:196-212 | logout reads the refresh token first, clears store, storage and timer, keeps verifier and state, and records the end-session navigation if there was a token, else a push to /login |
| Auth.ProfileWithoutToken | src/services/auth.js:173-175 | without an access token in the store the fetch fails at once, with no request and no change |
| Auth.ProfileOutcome | src/services/auth.js:176-211 | the fetch sends the bearer token; success installs the profile; failure is `logout()` after the request (store and storage cleared, timer cancelled, exit through end-session or /login) and rethrows the error |
| Auth.AccessTokenFallback | src/services/auth.js:191-194 | `getAccessToken` is truthy iff the store's or the stored token is, and is the store's when that one is truthy |
| Auth.AuthService.constructor | src/services/auth.js:20-24 | a new service is in the initial state over the given store |
| Auth.AuthService.GenerateCodeVerifier | src/services/auth.js:27-35 | the loop-built verifier and new fields equal `GenerateCodeVerifier`; the verifier is 128 unreserved characters |
| Auth.AuthService.GenerateState | src/services/auth.js:47-55 | the loop-built state and new fields equal `GenerateState`; the state is 32 alphanumeric characters |
| Auth.AuthService.ClearRefreshTimer | src/services/auth.js:79 | in-place `clearTimeout` equals `ClearRefreshTimer`, keeping the invariant |
| Auth.AuthService.ScheduleTokenRefresh | src/services/auth.js:160-169 | the in-place update equals `ScheduleTokenRefresh` and leaves exactly the new timer |
| Auth.AuthService.RedirectToKeycloakLogin | src/services/auth.js:58-82 | the in-place steps equal `RedirectToKeycloakLogin` on the old state |
| Auth.AuthService.HandleKeycloakCallback | src/services/auth.js:84-125 | the in-place steps and the result equal `HandleKeycloakCallback` |
| Auth.AuthService.RefreshAccessToken | src/services/auth.js:127-158 | the in-place steps and the result equal `RefreshAccessToken` |
| Auth.AuthService.RefreshTimerFires | src/services/auth.js:166-168 | the timer callback's steps equal `RefreshTimerFires` |
| Auth.AuthService.GetUserProfile | src/services/auth.js:171-189 | the in-place steps and the result equal `GetUserProfile` |
| Auth.AuthService.GetAccessToken | src/services/auth.js:191-194 | the token is truthy iff the store's or the stored one is |
| Auth.AuthService.Logout | src/services/auth.js:196-212 | the in-place steps equal `Logout` on the old state |
| StoreInit.SkippedInitAuthenticates | src/stores/user.js:44-63 | in skip mode `initAuth` authenticates with a truthy token and changes nothing beyond the store |
| StoreInit.NoStoredSessionNoChange | src/stores/user.js:66-70 | with any of the three stored entries missing or empty, `initAuth` changes nothing and sends nothing |
| StoreInit.StoredSessionRefreshes | src/stores/user.js:70-78 | with all three entries, the first request is a refresh with the stored refresh token |
| StoreInit.RefreshFailureClears | src/stores/user.js:84-87 | a failed refresh ends unauthenticated, with storage erased, no timer, and the end-session navigation |
| StoreInit.ProfileFailureClears | src/stores/user.js:82-87 | a failed profile fetch after a good refresh ends unauthenticated with storage erased, and no timer when the new access token is not empty |
| StoreInit.EmptyAccessTokenKeepsTimer | src/stores/user.js:80-87 | an empty new access token makes the fetch throw without a request or logout; the store is cleared but the timer stays armed |
| StoreInit.InitAuthRestores | src/stores/user.js:70-83 | when both calls succeed, the fetched profile, its roles and the re-read tokens are in the store, and one timer is armed |
| StoreInit.InitAuthValid | src/stores/user.js:42-89 | every path of `initAuth` keeps the store and session invariants |
| StoreInit.RunInitAuth | src/stores/user.js:42-89 | the in-place steps equal `InitAuth` on the old state |
| StoreInit.RunRestoreSession | src/stores/user.js:70-88 | the in-place restoration steps, run when all three entries are stored, equal `initAuth` outside skip mode on the old state |
| Api.BearerInjection | src/services/api.js:17-23 | the header is set to `Bearer <token>` iff `getAccessToken()` is truthy; no other header changes |
| Api.SuccessPassesThrough | src/services/api.js:29 | a successful response resolves unchanged after one send, with no session change |
| Api.OtherErrorsRejected | src/services/api.js:49-50 | a non-401 error is rejected as it is: one send, no refresh, no logout |
| Api.RetriedRequestRejected | src/services/api.js:33-50 | a request already marked retried is rejected on any error, without refresh |
| Api.AtMostOneResend | src/services/api.js:33-40 | a request is sent once or twice; twice exactly when the first answer was a 401 on an unretried request and the refresh succeeded |
| Api.ResendCarriesNewToken | src/services/api.js:34-40 | the resend is marked retried, carries `Bearer ` and the refreshed token, and settles with the second answer |
| Api.RefreshFailureLogsOut | src/services/api.js:41-46 | when the refresh fails the request is rejected with the refresh error, after logout: store cleared, no timer, last navigation /login |
| Api.DispatchValid | src/services/api.js:28-52 | every request keeps the session invariant |
| Api.Client.InterceptRequest | src/services/api.js:17-23 | the in-place header update equals `WithBearer` |
| Api.Client.Request | src/services/api.js:16-52 | the in-place pass through both interceptors equals `Dispatch` in session, sent log, config and outcome |
| Router.RouteTableProtection | src/router/index.js:10-81 | exactly "/", "/dashboard", "/devices", "/users", "/bindings" and "/rules" require authentication; "/" lands on the dashboard |
| Router.UnknownPathsNotFound | src/router/index.js:75-80 | every other path reaches the not-found route |
| Router.PublicRouteProceeds | src/router/index.js:127-128 | a route not requiring authentication proceeds with no change |
| Router.AuthenticatedProceeds | src/router/index.js:124-125 | an authenticated user proceeds with no request and no change |
| Router.ProfileDecidesEntry | src/router/index.js:108-119 | with a store token, a good profile fetch installs the user and proceeds; a failed one ends in the login redirect and `next` is not called |
| Router.NoTokenRedirects | src/router/index.js:120-123 | without any token the guard is the login redirect and `next` is not called |
| Router.StorageOnlyTokenRedirects | src/router/index.js:108-119 | a token held only by storage passes the guard's check, but the fetch throws before a request, so the guard redirects to login |
| Router.SkipModeProceeds | src/router/index.js:89-102 | in skip mode a protected route proceeds, after installing the stand-in user and dummy tokens when nobody is signed in |
| Router.GuardSound | src/router/index.js:85-130 | the guard proceeds to a protected route only with an authenticated store, and otherwise leaves through the authorization endpoint with the store cleared |
| Router.CallbackRouting | src/router/index.js:60-73 | the guard goes to "/" iff there was a code, the exchange gave a non-empty access token and the profile was fetched, else to "/login"; "/" means signed in with that profile |
| Router.RunBeforeEach | src/router/index.js:85-130 | the in-place guard equals `BeforeEach` in state and decision |
| Router.RunCallbackBeforeEnter | src/router/index.js:60-73 | the in-place guard equals `CallbackBeforeEnter` in state and decision |

## Left out

- SHA-256 (`crypto.subtle.digest`), `TextEncoder` and `btoa`: foreign cryptography and encoding. Their combined result is the function `Env.sha256Base64`, and only the replace chain is modelled.
- `Math.random()`: the function `Env.random`, constrained only to [0, 1). Entropy and uniqueness are not modelled.
- The network, `window.location`, `router.push`/`replace` and `next(...)`: outcomes are parameters and effects are recorded, not performed.
- `URLSearchParams` percent-encoding and the `url?query` string building: queries are kept as name/value lists.
- `JSON.stringify`/`JSON.parse` of the profile: storage holds the profile itself.
- `console.*` and `alert`: output only.
- Timer firing is modelled as a separate step (`RefreshTimerFires`), not as time passing. Async interleaving is not modelled: concurrent refreshes, and a request in flight while a timer fires.
- `setTimeout`'s clamping of a negative or huge delay: the model records the delay as computed.
- A token response without `expires_in`: the field is always a number here. In the program a missing `expires_in` makes the delay NaN, and the timer fires at once.
- Auth.RefreshWithoutToken: `redirectToKeycloakLogin()` is not awaited here, and its navigation runs after the digest resolves. The model runs it to completion before the error is thrown.
- Api.RefreshFailureLogsOut: when no refresh token exists, the program navigates in the opposite order. The interceptor's `logout()` pushes /login first, and the un-awaited login redirect sets `window.location.href` to the authorization endpoint afterwards. The model records the authorization navigation first and /login last.
- Page loads: the model has no step that reloads the application. Auth.CallbackSuccess sends the verifier held by the same service that redirected; in the browser the redirect reloads the page and the service's fields start as `null` again. Auth.CallbackAfterPageLoad states what the exchange sends in that case.
- Api.Client.Request: the resend goes through both interceptors again, as `api(originalRequest)` does. axios's own config merging, the base URL, the 10-second timeout and the `Content-Type` default header are not modelled.
- The `apiService` endpoint wrappers, which only name URLs.
- Router.RouteTableProtection: paths are matched exactly. vue-router's case-insensitive and trailing-slash-tolerant matching, parameters and query strings are not modelled.
- Vue components, route titles beyond the metadata, lazy view imports and the navigation that follows `next(path)`: framework behaviour.
- src/main.js and vite.config.js are not part of this model: bootstrap and build configuration.
- The build flag `VITE_SKIP_AUTH` is the parameter `skipAuth`. `window.location.origin` is `Env.origin`.
