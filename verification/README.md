# Session store and backend gateway of the authentication front end

This project models the two pieces that hold the logic of a single-page
authentication front end:

- **The backend gateway** (`ApiService`, module `Api`, file `Api.dfy`). It is
  stateless. Each operation (`login`, `signup`, `forgotPassword`,
  `resendVerification`, `getCurrentUser`, `logout`, `checkDomain`) becomes the
  arguments of one `makeRequest` call. `makeRequest` turns those into the
  request handed to `fetch`: the URL is `API_BASE_URL` followed by the
  endpoint, and the headers come out of the merge quirk described below. It
  then turns whatever `fetch` and `response.json()` produced into a response
  envelope, and it never rejects. The network's outcome is a parameter
  (`Transport`: a parsed body or a failure), so everything here is pure
  functions and lemmas.
- **The session store** (`AuthProvider`). It has three state cells (`user`,
  `token`, `isLoading`) and the storage slot `localStorage['authToken']`.
  - Module `Session` (`Session.dfy`) gives, as functions on a `State` value,
    the state each operation leaves behind. It proves the store's properties
    about single operations and about any sequence of them.
  - Module `Auth` (`AuthProvider.dfy`) has the class `AuthProvider`. Its
    fields are the cells and the slot. Its methods perform the source's setter
    and storage calls in order, and each is proved to leave exactly the state
    the matching `Session` function gives.
  - The start-up restore is split into `BeginRestore` (read storage and adopt
    the token) and `CompleteRestore` (the callback once `getCurrentUser`
    resolves), so the state between the two can be stated.
  - Every gateway reply is an input. It is a `Reply`: the envelope the awaited
    call resolved to, or `Threw`.

Behaviour worth knowing, all proved:

- **Truthiness.** The store tests `if (storedToken)` and `if (token)`, and
  derives `isAuthenticated` as `!!user && !!token`. The empty string therefore
  counts as no token: an empty stored token triggers no validation, and a
  session whose token is `""` is not authenticated. This follows the code,
  which is narrower than "both non-null".
- **The header merge.** `makeRequest` builds
  `{ headers: { 'Content-Type': ..., ...options.headers }, ...options }`.
  The trailing spread replaces the merged headers whenever the caller passes
  its own. So `getCurrentUser` and `logout` send only `Authorization: Bearer
  <token>` and no Content-Type, and every other request sends only
  `Content-Type: application/json` (`HeaderMergeQuirk`,
  `AuthorizationOnlyOnBearerOperations`).
- **Storage write failure.** `login` sets the token and the user before it
  writes to storage. If that write throws (a full storage quota, say), the
  `catch` reports "An unexpected error occurred", but the session stays
  authenticated in memory and is not persisted (`RejectedWriteDesyncs`).
  Without such a failure, memory and storage never diverge once start-up has
  run, in either direction. A token held in memory is the stored one, and a
  truthy stored token is the one held in memory (`BootedRunsStayInSync`).
- **Rejected calls.** If an awaited call rejects, the statements after it do
  not run:
  - in `logout` the session would stay as it was;
  - in the start-up effect, `isLoading` would stay true.
  
  The gateway's `makeRequest` catches every transport and parse failure itself
  (`Settle`). So for every well-formed envelope it resolves to, `logout` clears
  the session and start-up ends loading (`GatewayRepliesComplete`). A body that
  parses but is not an envelope is different: JSON `null` makes
  `response.success` throw inside the start-up callback, so loading never
  ends. The model covers that case only as a `Threw` reply.
- **`rememberMe`.** It is sent in the login body (`Auth.AuthProvider.Login`'s
  request), and the state the store keeps does not depend on it. It does not
  choose between durable and session storage: the token always goes to
  localStorage.
- **The failure message.** A transport or parse failure is reported with
  exactly "Network error. Please check your connection and try again."
  (`Api.NetworkFailure`).
- **Pending start-up.** While start-up validation is pending, a token is held
  without a user (`BeginRestoreCases`).

## Model

| member | source | states |
|---|---|---|
| Api.Target | src/services/api.ts:47-54 | The URL is the base URL followed by the endpoint; the method and body are the caller's. Caller-supplied headers are sent exactly as given; without them the headers are exactly `Content-Type: application/json`. |
| Api.HeaderMergeQuirk | src/services/api.ts:48-54 | The headers sent equal a real merge (default Content-Type overridden by the caller's) exactly when the caller supplied no headers or supplied a Content-Type. A Content-Type is sent under the same condition. |
| Api.TargetUrlInjective | src/services/api.ts:48 | Two requests with the same URL came from the same endpoint. |
| Api.Settle | src/services/api.ts:55-64 | A parsed body is returned unchanged, whatever the HTTP status. A fetch or parse failure yields a failure envelope with a non-empty message, no data and no errors. |
| Api.SettleNeverInvents | src/services/api.ts:47-64 | The envelope is the backend's body or the fixed network-failure envelope. Success and payload only ever come from the backend. |
| Api.StripDropsOnlyClientFields | src/services/api.ts:76 | Two signup forms yield the same registration exactly when they agree on first name, last name, e-mail, company and password. `confirmPassword` and `acceptTerms` never affect it. |
| Api.LoginRequestCarriesCredentials | src/services/api.ts:68-73 | Login is a POST to base + `/auth/login` with the JSON content type. Its body decodes to exactly the credentials given, `rememberMe` included exactly when defined. |
| Api.SignupStripsClientFields | src/services/api.ts:75-81 | Signup is a POST to base + `/auth/register`. The body's keys are exactly the five registration fields, never `confirmPassword` or `acceptTerms`, and it decodes to the stripped form. Forms differing only in those two fields yield the same request. |
| Api.EmailOnlyRequests | src/services/api.ts:83-95 | `forgotPassword` and `resendVerification` POST to their endpoints a body whose only key is `email`, holding the address given. |
| Api.BearerRoundTrip | src/services/api.ts:97-113 | A reader following section 2.1 of RFC 6750 gets back exactly the token from `"Bearer " + token` iff the token is a b64token. An empty token yields a header such a reader rejects. |
| Api.AuthorizationOnlyOnBearerOperations | src/services/api.ts:97-113 | `getCurrentUser` GETs base + `/auth/me` and `logout` POSTs to base + `/auth/logout`, both without a body. Across all seven operations, a request carries `Authorization` iff it is one of these two. The headers are then exactly `Authorization: "Bearer " + token`, and a request carries Content-Type iff it carries no Authorization. |
| Api.CheckDomainUnescaped | src/services/api.ts:116-120 | `checkDomain` GETs base + `/company/check-domain/` + the domain verbatim, unescaped, with no body. Distinct domains give distinct URL strings. |
| Session.Start | src/hooks/useAuth.ts:26-28 | A page load starts with no user, no token and loading on, with storage carried over. The state is unauthenticated, consistent and in sync. |
| Session.BeginRestoreCases | src/hooks/useAuth.ts:32-50 | Without a truthy stored token: no call is made, loading ends, and user, token and storage stay as they were. With one: the token is adopted before any reply and user stays absent. Loading goes on and a `getCurrentUser` request with that bearer token is issued. |
| Session.CompleteRestoreCases | src/hooks/useAuth.ts:38-47 | A resolved validation ends loading. An accepted reply (success with data) adopts its user under the stored token and leaves storage alone. Anything else purges the token from memory and storage, with the user absent. A rejected call leaves loading on. |
| Session.FailedRestoreIsIdempotent | src/hooks/useAuth.ts:39-46 | After a failed validation, the next page load makes no call and ends in the same unauthenticated state. |
| Session.LoginCases | src/hooks/useAuth.ts:53-69 | An accepted reply sets token and user to the returned ones and, unless the storage write throws, writes the token to storage. Otherwise state and storage are untouched. Success is reported iff reply and write both succeeded, with the backend's message. A thrown call reports the fixed message. A success leaves memory and storage in sync, authenticated iff the token is non-empty. |
| Session.RejectedWriteDesyncs | src/hooks/useAuth.ts:59-67 | When the storage write throws after an accepted reply, login reports failure. If storage held anything but the returned token (nothing, or an older token), the session is authenticated in memory but is not the stored one. |
| Session.LogoutClears | src/hooks/useAuth.ts:80-87 | When no call was due or the call resolved, user, token and storage end empty whatever the backend said. A remote logout with that bearer token is issued iff the token is truthy. |
| Session.BearerTokensAreNonEmpty | src/hooks/useAuth.ts:34-38 | Every `getCurrentUser` or `logout` request the store issues carries a non-empty token. |
| Session.PassThroughCases | src/hooks/useAuth.ts:71-78 | `signup` and `forgotPassword` resolve to the envelope's own success flag and message, or to the fixed message when the call throws. They never report a success the backend did not. |
| Session.ApplyKeepsConsistent | src/hooks/useAuth.ts:36-40 | Each operation keeps a user from being held without a token. |
| Session.RunKeepsConsistent | src/hooks/useAuth.ts:32-96 | Across any sequence of page loads, logins, logouts, signups and password resets, a user is never held without a token. |
| Session.ApplyKeepsSynced | src/hooks/useAuth.ts:59-61 | Each operation other than a login whose storage write throws keeps any token held in memory equal to the stored one. |
| Session.RunKeepsSynced | src/hooks/useAuth.ts:32-96 | Across any sequence of operations whose storage writes succeed, any token held in memory is the stored one. |
| Session.PageLoadSyncs | src/hooks/useAuth.ts:32-51 | Once a page load's start-up effect has run, memory and storage agree both ways: a held token is the stored one, and a truthy stored token is held. This holds whatever state the load replaced and whatever the validation returned. |
| Session.ApplyKeepsStoredHeld | src/hooks/useAuth.ts:43-44 | Each operation other than a login whose storage write throws keeps a truthy stored token equal to the one held in memory; logout and a failed validation clear slot and token together. |
| Session.RunKeepsStoredHeld | src/hooks/useAuth.ts:32-96 | Across any sequence of operations whose storage writes succeed, a truthy stored token is always the one held in memory. |
| Session.BootedRunsStayInSync | src/hooks/useAuth.ts:32-96 | In any run that begins with a page load and whose storage writes succeed, memory and storage never diverge, in either direction. |
| Session.GatewayRepliesComplete | src/services/api.ts:47-64 | For every envelope `makeRequest` resolves to over well-formed bodies, `logout` runs to the end and clears user, token and storage. A start-up validation ends loading, and one the gateway reports as failed purges the stored token. |
| Session.LoginSurvivesReload | src/hooks/useAuth.ts:32-69 | After a successful login, a fresh page load validated with the same user restores exactly the session the login left, and sends the login's token. An empty token is not restored. |
| Auth.AuthProvider.IsAuthenticated | src/hooks/useAuth.ts:30 | True exactly when a user is held and the token is a non-empty string. |
| Auth.AuthProvider.constructor | src/hooks/useAuth.ts:26-28 | The provider starts with no user, no token and loading on, over the given storage. |
| Auth.AuthProvider.BeginRestore | src/hooks/useAuth.ts:32-50 | Leaves the state `Session.BeginRestore` gives and issues the request `Session.RestoreProbe` gives. |
| Auth.AuthProvider.CompleteRestore | src/hooks/useAuth.ts:38-47 | Leaves the state `Session.CompleteRestore` gives for the reply. |
| Auth.AuthProvider.Login | src/hooks/useAuth.ts:53-69 | Sends the credentials with `rememberMe` to `/auth/login`. It leaves the state `Session.Login` gives, which does not depend on `rememberMe`, and returns the outcome `Session.LoginOutcome` gives. |
| Auth.AuthProvider.Signup | src/hooks/useAuth.ts:71-78 | Changes nothing and sends the stripped signup request. Its result reports success only when the backend did, and is the envelope's flag and message, or the fixed message. |
| Auth.AuthProvider.Logout | src/hooks/useAuth.ts:80-87 | Issues the request `Session.LogoutProbe` gives and leaves the state `Session.Logout` gives. |
| Auth.AuthProvider.ForgotPassword | src/hooks/useAuth.ts:89-96 | Changes nothing and sends an e-mail-only request to `/auth/forgot-password`. Its result reports success only when the backend did, and is the envelope's flag and message, or the fixed message. |
| Auth.PageLoad | src/hooks/useAuth.ts:32-51 | A mounted provider whose start-up effect runs to completion calls the backend iff the stored token is truthy, with that bearer token. It ends loading whenever the call resolves, and purges a token the backend rejects. |

## Left out

- `JSON.stringify` and `response.json()` as text. A request body is the JSON value being serialised, and a response is the envelope after parsing; numbers are integers only.
- Shape checking of parsed bodies. The source casts whatever JSON comes back to the envelope type without checking it, while the model's `Transport` carries well-formed envelopes only. A body such as JSON `null` makes the store's property accesses throw; a store operation then sees it only as a `Threw` reply, and `Api.Settle` does not produce it.
- `fetch`'s URL parsing. The model's URL is the string passed to `fetch`. An unescaped `checkDomain` domain can change what is actually requested: `#` starts a fragment that is not sent, `?` starts a query, and `../` segments are resolved, so `../../auth/me` reaches base + `/auth/me`.
- `fetch` itself, `console.error`, and the `VITE_API_URL` override. `ApiBaseUrl` is the source's fallback constant.
- The default `options = {}` of `makeRequest`: every caller passes an init with a method, so `RequestInit.verb` is always present.
- `signup(userData: any)`: the store passes an untyped object, so properties beyond the seven form fields would reach the wire through the rest spread. The model types the form as `SignupRequest`.
- Exceptions from `localStorage.getItem` and `removeItem` (storage disabled). The `setItem` failure in `login` is modelled.
- React mechanics: context creation, `useAuth` throwing outside a provider, and render batching.
- Interleaving of operations whose calls overlap. Each operation is atomic, and the sequence lemmas run the start-up effect as a whole (`Session.Reload`). The login page renders while start-up validation is pending (src/App.tsx:20), so overlap is reachable, and it breaks both invariants. Say a login lands between `BeginRestore` and a rejecting `CompleteRestore`: the stored token it just wrote is purged, the token becomes null, and its user stays held without a token.
- `Api.ParseBearer` recognises the scheme in the exact spelling the gateway writes. The case-insensitive matching of auth-scheme names is not modelled.
- Dashboard rendering, the route table, the layout component and the styling configuration: presentation only.
- The reply payload of `checkDomain` (`isAllowed`, `company`): nothing in the store reads it, so only its request is modelled.
