# Client-side session logic of the URL-shortener front end, in Dafny

This project models the parts of the front end that hold state or make decisions
about the signed-in session, and proves properties of them:

- **Route gate** (`middleware.ts`, module `RouteGate`): the request-level
  allow/redirect decision. It classifies the path against a protected list and a
  public list by plain string prefix, checks public paths first, and redirects to
  `/login` only a protected, non-public path that has no truthy `access_token`
  cookie. The decision is a function parameterised on the two lists. Lemmas cover
  the shipped lists, and one of them shows that with `"/"` in the public list the
  gate never redirects.
- **Token store** (`src/lib/auth.ts`, module `AuthLib`): `localStorage` is a
  `map<string, string>` field of a class. Login stores the token from the reply
  under the key `"token"` once the request succeeds. Logout removes the key. The
  authentication check tests that the key is present with a non-empty value.
  Register returns the reply and touches nothing.
- **Auth context** (`src/context/AuthContext.tsx`, module `AuthContext`): the
  provider's `user`, `isLoading` and `isAuthenticated` fields, plus a ghost
  "last route pushed" field for navigation. Each handler (`checkAuth`, `login`,
  `register`, `logout`) has a pure step function. The step gives the state while
  the service call is outstanding, the state after it, the service calls made and
  how the handler settles. The class methods follow the source statement by
  statement and are proved equal to their step. `updateUser`'s object-spread merge
  and the `useAuth` guard are pure functions.
- **Session list** (`src/components/SessionsManagement.tsx`, module
  `SessionsManagement`): the component's `sessions`, `loading`, `error` and
  `isRevoking` fields and its two handlers, loading the list and revoking one
  session. The revoke filter is a recursive function. Its membership and
  order-preservation properties are proved.

Every network call is an input: a value of `Settled<T>`, either fulfilled with a
value or rejected with a reason. The handlers' own outcome has the same type, and
a rethrown error is `Rejected`.

Facts about the code that shape the model:

- Path matching is `Array.some` with `startsWith` (middleware.ts:29-30), not
  longest-prefix matching.
- src/lib/auth.ts keeps one `"token"` key in `localStorage`.
- No refresh interceptor exists in the modelled files.

## Model

| member | source | states |
|---|---|---|
| `RouteGate.AnyStartsWith` | middleware.ts:29-30 | the `some(startsWith)` scan is true exactly when some list entry is a prefix of the path |
| `RouteGate.AccessToken` | middleware.ts:38 | the cookie read yields a value exactly when an `access_token` cookie is sent, and then its value |
| `RouteGate.HasAccessToken` | middleware.ts:41 | the token counts as present exactly when the cookie is sent and is not the empty string |
| `RouteGate.Decide` | middleware.ts:25-49 | a redirect happens iff no public entry prefixes the path, some protected entry does, and the token is absent or empty; a redirect goes to `/login` with the request URL as callback |
| `RouteGate.Middleware` | middleware.ts:6-49 | `middleware` with the shipped lists answers `next()` for every request |
| `RouteGate.PublicPathPasses` | middleware.ts:30-35 | a path under any public prefix passes, with or without cookies |
| `RouteGate.TokenHolderPasses` | middleware.ts:38-41 | a non-empty `access_token` cookie is never redirected |
| `RouteGate.UnmatchedPathPasses` | middleware.ts:47-48 | a path under no protected prefix passes (default-open) |
| `RouteGate.RawPrefixMatching` | middleware.ts:29 | `/dashboardX` counts as protected by `/dashboard`, and without `"/"` in the public list it is redirected |
| `RouteGate.PublicOverridesProtected` | middleware.ts:32-45 | with protected `/dashboard` and public `/dashboard/public`, the public path passes without a token, `/dashboard/secret` is redirected with its URL as callback, and it passes with a token |
| `RouteGate.ShippedGateNeverRedirects` | middleware.ts:6-35 | with the shipped lists the decision passes every request: `"/"` prefixes every rooted path, and every protected entry is rooted |
| `RouteGate.DecideIntended` | middleware.ts:15-23 | with `"/"` matching only the home page, a redirect happens iff the path is not `"/"`, is under no other public prefix and is under a protected prefix, and the request has no token |
| `RouteGate.DashboardExposed` | middleware.ts:21 | an anonymous `/dashboard` request passes the shipped gate but is redirected by the intended one; `"/"` still passes |
| `AuthLib.WithToken` | src/lib/auth.ts:12 | `setItem("token", v)`: the key holds `v`, authenticated iff `v` is non-empty, every other key unchanged |
| `AuthLib.WithoutToken` | src/lib/auth.ts:16 | `removeItem("token")`: the key is gone, not authenticated, every other key unchanged |
| `AuthLib.StoredText` | src/lib/auth.ts:12 | `setItem` stores the token converted to text ("undefined" or "null" for a nullish token), which is empty only for an empty token string |
| `AuthLib.GetItem` | src/lib/auth.ts:20 | `getItem` yields the stored value for a present key and null for a missing one |
| `AuthLib.Authenticated` | src/lib/auth.ts:20 | `!!getItem("token")` holds exactly when the key is stored with a non-empty value |
| `AuthLib.LogoutIdempotent` | src/lib/auth.ts:15-17 | a second logout leaves the storage a first one left |
| `AuthLib.LoginThenLogout` | src/lib/auth.ts:10-17 | login then logout leaves the storage that logout alone would |
| `AuthLib.NullishTokenAuthenticates` | src/lib/auth.ts:12 | after a login, the store is authenticated unless the token was the empty string; a missing or null token stores "undefined" or "null", which are truthy |
| `AuthLib.TokenStore.constructor` | src/lib/auth.ts:12-20 | the store starts from whatever the browser's `localStorage` holds |
| `AuthLib.TokenStore.Register` | src/lib/auth.ts:4-7 | register returns the reply (a rejection propagates) and changes no storage |
| `AuthLib.TokenStore.Login` | src/lib/auth.ts:9-13 | a fulfilled login stores the reply's token text under `"token"`; a nullish reply body throws on reading `.token` with storage unchanged; a rejected request rethrows with storage unchanged; the remember flag plays no part |
| `AuthLib.TokenStore.Logout` | src/lib/auth.ts:15-17 | logout removes exactly the `"token"` key and cannot fail |
| `AuthLib.TokenStore.IsAuthenticated` | src/lib/auth.ts:19-21 | true iff `"token"` is stored with a non-empty value; nothing changes |
| `AuthLib.RememberFlagIgnored` | src/lib/auth.ts:9-13 | for any credentials and reply, logins that differ only in the remember flag end with equal storage and equal outcome |
| `AuthLib.LogoutTwice` | src/lib/auth.ts:15-21 | after one logout and after a second one, the check reports false, and storage equals one logout's |
| `AuthContext.CheckAuthStep` | src/context/AuthContext.tsx:24-42 | fetches the profile only when the store has a token; success adopts the user and authenticates; failure calls service logout and keeps the state; `isLoading` ends false |
| `AuthContext.LoginStep` | src/context/AuthContext.tsx:45-58 | `isLoading` is true while awaiting; success sets the user, authenticates and pushes `/dashboard`; failure rethrows with user, flag and route unchanged; `isLoading` ends false |
| `AuthContext.LoginRememberDefault` | src/context/AuthContext.tsx:45-48 | a login without the remember flag passes false to the service and behaves as a login with false |
| `AuthContext.RegisterStep` | src/context/AuthContext.tsx:61-72 | the service gets `(email, password)`; user and flag never change; success pushes `/login`; failure rethrows; `isLoading` ends false |
| `AuthContext.LogoutStep` | src/context/AuthContext.tsx:75-88 | success clears the user and the flag and pushes `/login`; failure rethrows with the state unchanged; `isLoading` ends false |
| `AuthContext.MergeUser` | src/context/AuthContext.tsx:92 | `{...prev, ...update}`: id, username and role come from the update; email and status come from the update when it has them, else from `prev`; an update with every key is returned whole |
| `AuthContext.UpdatedUser` | src/context/AuthContext.tsx:91-93 | with no user the update is taken whole; otherwise keys in the update win and absent optional keys keep the earlier values |
| `AuthContext.UpdateUserIdempotent` | src/context/AuthContext.tsx:91-93 | applying the same update twice equals applying it once |
| `AuthContext.UpdateUserCompose` | src/context/AuthContext.tsx:91-93 | two successive updates equal one update by their merge |
| `AuthContext.FullUpdateReplaces` | src/context/AuthContext.tsx:92 | an update carrying every key replaces the user outright |
| `AuthContext.UseAuth` | src/context/AuthContext.tsx:114-120 | throws the "within an AuthProvider" error iff there is no context value, else returns it |
| `AuthContext.HandlersClearLoading` | src/context/AuthContext.tsx:45-88 | login, register and logout raise `isLoading` while awaiting and have lowered it when they settle, on either outcome |
| `AuthContext.MountCheck` | src/context/AuthContext.tsx:18-42 | from the initial state the mount check ends authenticated, with a user, iff the store has a token and the profile fetch succeeds |
| `AuthContext.LoginThenLogout` | src/context/AuthContext.tsx:45-88 | a successful login then a successful logout ends with no user, not authenticated, on `/login` |
| `AuthContext.AuthProvider.constructor` | src/context/AuthContext.tsx:18-20 | the initial state is no user, loading, not authenticated |
| `AuthContext.AuthProvider.CheckAuth` | src/context/AuthContext.tsx:25-39 | the new state and the service calls are those of `CheckAuthStep` |
| `AuthContext.AuthProvider.Login` | src/context/AuthContext.tsx:45-58 | outcome, awaiting state, calls and new state are those of `LoginStep` |
| `AuthContext.AuthProvider.Register` | src/context/AuthContext.tsx:61-72 | outcome, awaiting state, calls and new state are those of `RegisterStep` |
| `AuthContext.AuthProvider.Logout` | src/context/AuthContext.tsx:75-88 | outcome, awaiting state, calls and new state are those of `LogoutStep` |
| `AuthContext.AuthProvider.UpdateUser` | src/context/AuthContext.tsx:91-93 | the user becomes `UpdatedUser` of the old one; loading, flag and route are unchanged |
| `SessionsManagement.RemoveSession` | src/components/SessionsManagement.tsx:36 | a session survives the filter iff it was listed and its id differs; the list never grows |
| `SessionsManagement.RemoveSessionAppend` | src/components/SessionsManagement.tsx:36 | filtering distributes over concatenation, so survivors keep their relative order |
| `SessionsManagement.RemoveAbsentId` | src/components/SessionsManagement.tsx:36 | revoking an id no session carries leaves the list unchanged |
| `SessionsManagement.RemoveSessionIdempotent` | src/components/SessionsManagement.tsx:36 | filtering the same id twice equals filtering it once |
| `SessionsManagement.LoadStep` | src/components/SessionsManagement.tsx:18-30 | `loading` is true while awaiting; success replaces the list and clears the error; failure keeps the list and sets "Failed to load active sessions"; `loading` ends false |
| `SessionsManagement.RevokeStep` | src/components/SessionsManagement.tsx:32-43 | `isRevoking` holds the id while awaiting and is null after; success filters the id out and keeps any earlier error; failure keeps the list and sets "Failed to revoke session" |
| `SessionsManagement.RevokeKeepsOthers` | src/components/SessionsManagement.tsx:35-38 | a session with another id is listed after a revoke iff it was before, and no session is added |
| `SessionsManagement.RevokeSevenExample` | src/components/SessionsManagement.tsx:32-43 | revoking 7 from [5, 7, 9] gives [5, 9]; a failure keeps [5, 7, 9] and sets the error |
| `SessionsManagement.SessionsPanel.constructor` | src/components/SessionsManagement.tsx:9-12 | the initial state is no sessions, loading, no error, nothing being revoked |
| `SessionsManagement.SessionsPanel.LoadSessions` | src/components/SessionsManagement.tsx:18-30 | the awaiting state and the new state are those of `LoadStep` |
| `SessionsManagement.SessionsPanel.HandleRevokeSession` | src/components/SessionsManagement.tsx:32-43 | the awaiting state and the new state are those of `RevokeStep` |

## Left out

- HTTP through axios and the service base URL: each call's result is an input `Settled<T>`.
- The redirect URL's construction (`new URL`, `searchParams.set`, `encodeURI`): the
  redirect carries the path `/login` and the unencoded request URL as the callback.
- `config.matcher`: the framework's choice of which requests reach the gate.
- The `access_token` cookie and `localStorage` are unrelated inputs. No modelled
  code writes that cookie.
- The auth service as the context sees it: `getProfile`, a promise-returning
  `logout` and a `login` that returns `{ user }` do not exist in that shape in
  `src/lib/auth.ts`. The context is modelled against the shapes it expects. Its
  calls are recorded as `ServiceCall`s rather than run against `AuthLib`.
- The context's `register(password, email)` parameter order differs from the
  declared `AuthContextType.register(username, password, email?)`. The model
  follows the implementation.
- `AuthContext.UpdatedUser`: a key present in the update with the value
  `undefined` is treated like an absent key.
- Asynchronous interleaving: handlers run one at a time. The stale `sessions`
  closure read by the revoke filter is not modelled.
- The effect scheduling that runs `checkAuth` and `loadSessions` on mount: callers
  invoke the methods.
- Exceptions from React setters or the router inside the `try` blocks, and console logging.
- The `revokeSession(sessionId.toString())` argument: the session panel does not record its service calls.
- Rendering: JSX, the loading and error views, `formatDate`'s locale formatting,
  `Navbar`, `Footer`, `UrlList`, `ShortenForm` (its URL validation depends on the
  WHATWG URL parser), `src/lib/api.ts` and the page layouts.
- Token refresh, an access/refresh credential pair, and persistent versus
  session-only storage: no modelled file has them.

## Findings

| source | as written | input that shows it | evidently intended | confidence | as-written member | corrected member |
|---|---|---|---|---|---|---|
| middleware.ts:21 | `"/"` in the public list, matched with `startsWith`, makes every rooted path public, so the gate never redirects | a request for `/dashboard` with no `access_token` cookie passes | `"/"` admits the home page only, so protected paths without a token go to `/login` | medium (the intent is inferred from the protected list); not executed | `RouteGate.ShippedGateNeverRedirects` | `RouteGate.DecideIntended` |
