# Authentication and access core of the market-management front end

This project is a Dafny model of the authentication and access layer of a
Next.js front end for a market-management system. It covers:

- the browser-side session context: login, logout, token refresh, the
  start-up check and the permission predicate. There are two variants, the
  context the application mounts and an older, minimal one;
- the API client, which attaches the stored access token, refreshes on a 401
  and issues the request again;
- the access gate around protected pages, and the post-login redirect table
  of the login page;
- the server routes for login, logout, token validation and vendor
  registration;
- the client-side vendor registration rules.

The browser's `localStorage` is a map from keys to entries. An entry is
either plain text or a stored user profile. React state, router navigation
and cookie writes are class fields. Every backend or network reply is a
parameter of type `Reply<T>`, which is one of:

- `Ok`: a 2xx response with a readable body;
- `Rejected`: a non-2xx response whose JSON body has an optional `message`;
- `Unreadable`: a response whose body does not parse;
- `NetworkError`: the fetch itself failed.

The API client's request receives a finite sequence of such exchanges, one
per attempt. Like the source, it calls itself again after a successful
refresh. When the sequence runs out, the request is reported `Unfinished`.

Modules, one per source file:

| module | file |
|---|---|
| `Common` | shared vocabulary |
| `TokenRefresh` | the refresh exchange, which appears in both the session context and the API client |
| `SessionContext` | `contexts/AuthContexts.tsx` |
| `LegacyContext` | `contexts/AuthContext.tsx` |
| `ApiClient` | `api-client.ts` |
| `ProtectedRoute` | `protected-route.tsx` |
| `LoginForm` | `login-form.tsx` |
| `AuthRoutes` | the concatenated login, logout and validate routes |
| `VendorRoute` | the vendor registration route |
| `VendorForm` | the registration page |

Three behaviours of the code are worth knowing, and the model keeps them as
written:

- the API client re-issues a request after every 401 that is followed by a
  successful refresh, with no bound on the number of rounds
  (`api-client.ts:40-43`);
- nothing makes a refresh single-flight, and no response is checked for
  staleness;
- after a refused validation and a successful refresh, `checkAuth` does not
  set `user` (`AuthContexts.tsx:64-68`).

String lengths in the form schemas are JavaScript's: UTF-16 code units, so a
character outside the Basic Multilingual Plane counts twice.

## Model

| member | source | states |
|---|---|---|
| Common.OrElse | contexts/app/components/lib/api-client.ts:53 | `o \|\| fallback` on an optional string: the value when present and non-empty, else the fallback; never empty when the fallback is not |
| Common.ProfileJson | contexts/AuthContexts.tsx:98 | the stored JSON text of a profile is non-empty and opens with `{`, as an object's serialisation does |
| Common.Interpolated | contexts/AuthContexts.tsx:124 | a missing key renders as "null" inside the logout bearer header, a present one as its stored text |
| Common.Utf16Length | contexts/app/register/vendor/page.tsx:11 | JavaScript's `length`: at least the number of characters and at most twice it, and zero only for "" |
| Common.Utf16LengthOfBmp | contexts/app/register/vendor/page.tsx:11 | for text without characters outside the Basic Multilingual Plane, JavaScript's length is the character count |
| Common.Utf16LengthConcat | contexts/app/register/vendor/page.tsx:11 | the length of a concatenation is the sum of the lengths |
| Common.ThrownMessage | contexts/app/login/login-form.tsx:73-104 | the pattern `throw new Error(m \|\| thrown)` caught as `err.message \|\| caught`: a refusal reports its message or the thrown fallback; an unparsable body or failed fetch reports its own error or the caught fallback; never empty when both fallbacks are not |
| Common.Fields | contexts/app/api/auth/login/route.ts:6-7 | the fields of a request body that did not throw: the object's own, none for any other JSON value |
| Common.StoreSession | contexts/AuthContexts.tsx:96-102 | a successful login stores the access token and the profile, stores the refresh token only when one is given (otherwise the old one stays), and no other key changes |
| Common.NatToString | contexts/app/components/lib/api-client.ts:53 | the status in `API error: <status>` is rendered as a non-empty string of decimal digits |
| Common.NatToStringValue | contexts/app/components/lib/api-client.ts:53 | the rendered status reads back as the status itself |
| TokenRefresh.Refresh | contexts/AuthContexts.tsx:141-167 | no stored refresh token: false, no request, storage unchanged; otherwise the refresh request is sent, and only an ok reply overwrites `access_token` and answers true; every other reply answers false with storage unchanged |
| TokenRefresh.RefreshKeepsOtherKeys | contexts/AuthContexts.tsx:158 | a refresh writes no key but `access_token` |
| SessionContext.HasPermission | contexts/AuthContexts.tsx:169-178 | the permission predicate: a signed-in SUPER_ADMIN, whatever is asked; its properties are proved by PermissionIgnoresRequest |
| SessionContext.PermissionIgnoresRequest | contexts/AuthContexts.tsx:169-178 | hasPermission depends only on the user: false with no user; for a signed-in user, true exactly when the level is SUPER_ADMIN, for every resource, action and market |
| SessionContext.LandingFor | contexts/AuthContexts.tsx:107-111 | ADMIN lands on /dashboard/admin, every other role on /dashboard |
| SessionContext.LoginError | contexts/AuthContexts.tsx:90-114 | a refused login throws the server's message, or 'Login failed'; an unparsable body or a failed fetch is rethrown with its own message, or 'Login failed' when that is empty; the message is never empty |
| SessionContext.AfterLogout | contexts/AuthContexts.tsx:119-139 | logout removes the four session keys and keeps every other key, expires the remember-me cookie, clears the user and navigates to /login |
| SessionContext.LogoutIdempotent | contexts/AuthContexts.tsx:119-139 | logging out twice leaves the same state as logging out once |
| SessionContext.AuthProvider.constructor | contexts/AuthContexts.tsx:29-30 | the provider starts with no user and isLoading true |
| SessionContext.AuthProvider.Logout | contexts/AuthContexts.tsx:119-139 | the new state is AfterLogout of the old one; the logout request carries the old token, or "Bearer null" |
| SessionContext.AuthProvider.RefreshToken | contexts/AuthContexts.tsx:141-167 | the storage, result and request are those of TokenRefresh.Refresh |
| SessionContext.AuthProvider.RefreshTick | contexts/AuthContexts.tsx:38-42 | an interval tick refreshes only while a user is signed in |
| SessionContext.AuthProvider.Login | contexts/AuthContexts.tsx:78-117 | ok: StoreSession, user set, navigation by LandingFor; failure: LoginError and nothing written; isLoading ends false |
| SessionContext.AuthProvider.CheckAuth | contexts/AuthContexts.tsx:47-76 | validates only when token and profile are stored; ok restores the stored profile; a refused token refreshes and logs out when that fails; a successful refresh leaves the user as it was; network errors are swallowed; isLoading ends false |
| SessionContext.LoginThenCheckAuth | contexts/AuthContexts.tsx:47-117 | after a login and a reload, a validated start-up check restores the logged-in profile |
| LegacyContext.ClaimsUser | contexts/AuthContext.tsx:40-47 | the user is built from the token's claims, with names 'User'/'Name' and no KYC status |
| LegacyContext.LegacyLoginError | contexts/AuthContext.tsx:64-66 | a non-ok login fails with the fixed 'Login failed'; a thrown fetch or parse error passes through unchanged |
| LegacyContext.AuthProvider.constructor | contexts/AuthContext.tsx:27-28 | the provider starts with no user and isLoading true |
| LegacyContext.AuthProvider.CheckAuth | contexts/AuthContext.tsx:35-54 | no token: nothing changes; a decodable token sets the user from its claims; an undecodable one is removed; isLoading ends false |
| LegacyContext.AuthProvider.Login | contexts/AuthContext.tsx:56-75 | ok: only `access_token` stored, user set, every role sent to /dashboard; failure: nothing written |
| LegacyContext.AuthProvider.Logout | contexts/AuthContext.tsx:77-81 | only `access_token` is removed; user cleared; navigation to /login |
| LegacyContext.LegacyLogoutLeavesSessionRefreshable | contexts/AuthContext.tsx:77-81 | the old logout keeps the refresh token and profile, so a later refresh still succeeds |
| ApiClient.AuthHeader | contexts/app/components/lib/api-client.ts:13-19 | a bearer header exactly when an access token is stored, an empty map otherwise |
| ApiClient.MergeHeaders | contexts/app/components/lib/api-client.ts:27-31 | caller headers beat the auth header, which beats the defaults; no key is lost |
| ApiClient.Settle | contexts/app/components/lib/api-client.ts:33-56 | a non-401 response: ok yields its body; non-ok fails with the body's message or `API error: <status>` (also when its body does not parse); an ok response whose body does not parse, and a failed fetch, fail with the error raised |
| ApiClient.Issue | contexts/app/components/lib/api-client.ts:25-36 | each attempt fetches base URL + endpoint with the caller's method and body, and every caller header kept as given |
| ApiClient.AttemptOf | contexts/app/components/lib/api-client.ts:25-56 | one attempt makes the endpoint fetch first and at most one refresh fetch; it goes round again exactly on a 401 with a stored refresh token and an ok refresh; it goes to /login exactly on a 401 it cannot recover, with 'Session expired' and storage unchanged; otherwise it settles after one fetch with storage unchanged |
| ApiClient.Run | contexts/app/components/lib/api-client.ts:21-57 | over n exchanges a request makes at most 2n fetches, the first being the endpoint fetch; it reaches /login only with 'Session expired' |
| ApiClient.VerbInit | contexts/app/components/lib/api-client.ts:88-108 | the wrappers pass only a method and, for post and put, the JSON body |
| ApiClient.Client.constructor | contexts/app/components/lib/api-client.ts:6-11 | base URL from the environment or http://localhost:3001; default header Content-Type application/json |
| ApiClient.Client.RefreshToken | contexts/app/components/lib/api-client.ts:59-85 | the storage, result and request are those of TokenRefresh.Refresh against the base URL |
| ApiClient.Client.TryOnce | contexts/app/components/lib/api-client.ts:25-49 | one attempt: fresh headers; on a 401, refresh, and either go round again or set /login and fail with 'Session expired' |
| ApiClient.Client.Request | contexts/app/components/lib/api-client.ts:21-57 | result, storage, fetches and location are those of Run over the supplied exchanges |
| ApiClient.Client.Get | contexts/app/components/lib/api-client.ts:88-90 | request with method GET and no body |
| ApiClient.Client.Post | contexts/app/components/lib/api-client.ts:92-97 | request with method POST and the data as JSON body |
| ApiClient.Client.Put | contexts/app/components/lib/api-client.ts:99-104 | request with method PUT and the data as JSON body |
| ApiClient.Client.Delete | contexts/app/components/lib/api-client.ts:106-108 | request with method DELETE and no body |
| ApiClient.IssuedHeaders | contexts/app/components/lib/api-client.ts:27-31 | in every fetch, the caller's Authorization wins, else the stored bearer token, else none; Content-Type defaults to JSON |
| ApiClient.SettledWithoutRetry | contexts/app/components/lib/api-client.ts:39-56 | a first response other than 401 settles the request after one fetch, and an ok one returns its body |
| ApiClient.ExpiredSessionStops | contexts/app/components/lib/api-client.ts:44-48 | a 401 whose refresh fails: 'Session expired', location /login, storage unchanged, no further fetch |
| ApiClient.RetryReissuesRequest | contexts/app/components/lib/api-client.ts:40-43 | after a 401 and a successful refresh, the same endpoint, method and body are fetched again with the new token |
| ApiClient.RefusedAttempt | contexts/app/components/lib/api-client.ts:39-43 | a refused attempt with a successful refresh sends the endpoint and refresh fetches, stores the new token and continues |
| ApiClient.UnboundedReissue | contexts/app/components/lib/api-client.ts:43 | for every n, n refusals with successful refreshes lead to an (n+1)-th fetch of the endpoint; there is no retry bound |
| ProtectedRoute.Redirect | contexts/app/components/protected-route.tsx:25-41 | no decision while loading; no user goes to /login whatever is required |
| ProtectedRoute.NoRedirectIffAdmitted | contexts/app/components/protected-route.tsx:25-41 | no redirect exactly while loading or when the user meets every declared requirement, a permission being met only by SUPER_ADMIN |
| ProtectedRoute.RedirectTargets | contexts/app/components/protected-route.tsx:25-41 | the only targets are /login, /dashboard/admin, /dashboard and /dashboard/unauthorized |
| ProtectedRoute.RoleCheckedFirst | contexts/app/components/protected-route.tsx:30-32 | a role mismatch sends ADMIN to /dashboard/admin and others to /dashboard, whatever the other requirements |
| ProtectedRoute.AdminLevelCheckedSecond | contexts/app/components/protected-route.tsx:33-35 | once the role passes, a level mismatch goes to /dashboard whatever permission is required |
| ProtectedRoute.PermissionCheckedLast | contexts/app/components/protected-route.tsx:36-38 | once role and level pass, a required permission (asked with action READ) redirects to /dashboard/unauthorized exactly for non-SUPER_ADMIN users |
| ProtectedRoute.NoRequirementsNoRedirect | contexts/app/components/protected-route.tsx:25-41 | a page without requirements never redirects a signed-in user |
| ProtectedRoute.Render | contexts/app/components/protected-route.tsx:43-56 | the spinner exactly while loading; the children exactly when loaded with a user |
| ProtectedRoute.ChildrenRenderDespiteRedirect | contexts/app/components/protected-route.tsx:43-56 | a signed-in user failing a requirement is redirected, yet the children render |
| ProtectedRoute.NoUserNoChildren | contexts/app/components/protected-route.tsx:52-54 | without a user the children never render, and once loaded the redirect is /login |
| LoginForm.RedirectBasedOnRole | contexts/app/login/login-form.tsx:109-138 | every target of the role table lies under /dashboard; the table itself is proved case by case by the three lemmas below |
| LoginForm.AdminRedirects | contexts/app/login/login-form.tsx:110-124 | ADMIN: SUPER_ADMIN, MARKET_MASTER and CITY_ADMIN get their own dashboards, any other or absent level /dashboard/admin (each an iff) |
| LoginForm.StakeholderRedirects | contexts/app/login/login-form.tsx:125-133 | STAKEHOLDER: VERIFIED to /dashboard/vendor, PENDING to /dashboard/kyc-pending, else /dashboard/profile; the admin level plays no part |
| LoginForm.OtherRoleRedirect | contexts/app/login/login-form.tsx:134-137 | any other role goes to /dashboard |
| LoginForm.RedirectRefinesLanding | contexts/app/login/login-form.tsx:109-137 | the form's target always lies under the target the session context picks for the same user |
| LoginForm.LoginSchema | contexts/app/login/login-form.tsx:26-30 | the login schema: a valid email and a password of at least six UTF-16 units; related to the registration schema by VendorForm.RegisteredCredentialsPassLoginSchema |
| LoginForm.RememberCookie | contexts/app/login/login-form.tsx:88-96 | remember-me sets a 30-day cookie (2592000 s), otherwise expires it (max-age 0), path / |
| LoginForm.RememberStorage | contexts/app/login/login-form.tsx:88-96 | remember-me stores "true", otherwise removes the key; no other key changes |
| LoginForm.RestoredRememberMe | contexts/app/login/login-form.tsx:185-190 | the mount effect ticks the box exactly when the stored value is "true", else leaves it |
| LoginForm.RememberRoundTrip | contexts/app/login/login-form.tsx:88-96 | a reload restores exactly the remember-me choice that was submitted |
| LoginForm.LogoutForgetsRememberMe | contexts/app/login/login-form.tsx:185-190 | after the session context's logout the box comes back unticked |
| LoginForm.SubmitError | contexts/app/login/login-form.tsx:73-104 | a refused login shows its message or 'Login failed'; an unparsable body or network failure shows its error or 'An error occurred during login' |
| LoginForm.ForgotPasswordError | contexts/app/login/login-form.tsx:166-174 | a refused reset shows its message or 'Failed to send reset email'; other failures their error or 'Failed to process forgot password request' |
| LoginForm.LoginPage.constructor | contexts/app/login/login-form.tsx:35-36 | the page starts idle with no error |
| LoginForm.LoginPage.RestoreRememberMe | contexts/app/login/login-form.tsx:185-190 | the checkbox after the mount effect is RestoredRememberMe |
| LoginForm.LoginPage.StoreTokens | contexts/app/login/login-form.tsx:79-86 | the storage after the token writes is StoreSession |
| LoginForm.LoginPage.StoreRememberMe | contexts/app/login/login-form.tsx:88-96 | storage and cookie after the remember-me writes |
| LoginForm.LoginPage.OnSubmit | contexts/app/login/login-form.tsx:56-107 | ok: session and remember-me written, redirect by the role table; failure: SubmitError and no write or redirect; isLoading ends false |
| LoginForm.LoginPage.HandleForgotPassword | contexts/app/login/login-form.tsx:140-178 | an empty email only prompts and sends nothing; otherwise the email is posted, success alerts, failure shows ForgotPasswordError |
| LoginForm.SubmitThenReload | contexts/app/login/login-form.tsx:88-96 | signing in with remember-me and reloading brings the box back ticked |
| AuthRoutes.ServerResponse.constructor | contexts/app/api/auth/login/route.ts:39 | a JSON response with the given body and status and no cookies |
| AuthRoutes.ServerResponse.Set | contexts/app/api/auth/login/route.ts:42-50 | setting a cookie adds it and keeps the others |
| AuthRoutes.ServerResponse.Delete | contexts/app/api/auth/login/route.ts:83-84 | deleting a cookie emits its expiry |
| AuthRoutes.RefreshCookie | contexts/app/api/auth/login/route.ts:42-50 | the refresh cookie is httpOnly, sameSite strict, max-age 604800, path /, and secure exactly in production |
| AuthRoutes.PassThrough | contexts/app/api/auth/login/route.ts:31-36 | a refused backend login is passed through with its status and its message or 'Login failed' |
| AuthRoutes.LoginPost | contexts/app/api/auth/login/route.ts:4-61 | a body that does not parse or is null: 500; 400 without email or password (also for a non-object body) and no backend call; ok: the backend body unchanged and a refresh cookie exactly when one is given; refusal passed through; anything thrown: 500 'Internal server error' |
| AuthRoutes.LogoutToken | contexts/app/api/auth/login/route.ts:68-70 | the backend is told only when a non-empty refresh cookie came in |
| AuthRoutes.LogoutPost | contexts/app/api/auth/login/route.ts:66-94 | the backend logout only with a refresh cookie; both auth cookies expired and 'Logged out successfully'; a failed fetch gives 500 'Logout failed' |
| AuthRoutes.FindFrom | contexts/app/api/auth/login/route.ts:101 | the position found is an occurrence with none before it; none found means no occurrence |
| AuthRoutes.CredentialsGiven | contexts/app/api/auth/login/route.ts:10 | the login route's guard: both email and password truthy |
| AuthRoutes.RemoveFirst | contexts/app/api/auth/login/route.ts:101 | replace leaves a string without the pattern unchanged; otherwise it cuts out exactly the first occurrence and keeps the text on both sides |
| AuthRoutes.ExtractToken | contexts/app/api/auth/login/route.ts:101 | no header, no token; a header without "Bearer " is the token itself; otherwise the token is seven characters shorter than the header |
| AuthRoutes.BearerHeaderYieldsToken | contexts/app/api/auth/login/route.ts:101 | "Bearer " followed by a token yields exactly that token |
| AuthRoutes.RawHeaderForwarded | contexts/app/api/auth/login/route.ts:101 | a header without "Bearer " is used as the token as it is |
| AuthRoutes.CutAtFirstBearer | contexts/app/api/auth/login/route.ts:101 | when "Bearer " does not occur before a given position, the occurrence there is cut and the text before it stays in the token |
| AuthRoutes.CutAfterPlainPrefix | contexts/app/api/auth/login/route.ts:101 | a prefix that contains no 'B' stays in front of the token |
| AuthRoutes.BarePrefixRefused | contexts/app/api/auth/login/route.ts:101-108 | a header of exactly "Bearer " leaves no token and is refused |
| AuthRoutes.ValidBody | contexts/app/api/auth/login/route.ts:122 | an accepted token answers valid true with the backend's user, when it sent one |
| AuthRoutes.ValidateGet | contexts/app/api/auth/login/route.ts:99-136 | no token: 401 'No token provided' and no call; backend ok: 200 valid; refused: 401 'Invalid token'; thrown: 500 'Validation error' |
| VendorRoute.FirstMissing | contexts/app/api/auth/register/vendor/route.ts:12-20 | none exactly when every listed field is truthy; otherwise a listed field that is falsy and every field before it is truthy |
| VendorRoute.CheckRequired | contexts/app/api/auth/register/vendor/route.ts:12-20 | the loop returns FirstMissing over the fixed field order |
| VendorRoute.NonObjectMissesEmail | contexts/app/api/auth/register/vendor/route.ts:9-20 | a JSON body that is not an object is refused with 'email is required' |
| VendorRoute.OtherFieldsIgnored | contexts/app/api/auth/register/vendor/route.ts:12 | a field outside the list never changes the required-field verdict |
| VendorRoute.RegisterPost | contexts/app/api/auth/register/vendor/route.ts:7-58 | a body that does not parse or is null: 500 with its error; 400 `<field> is required` for the first missing field, with no lookup; the lookup only afterwards; an existing email gives 400 and no backend call; backend failure 500 with its message or 'Registration failed'; success 201 with the backend body |
| VendorForm.Issues | contexts/app/register/vendor/page.tsx:9-24 | the schema's complaints in field order, with the confirmation last; characterised by NoIssuesIffAccepted |
| VendorForm.Accepts | contexts/app/register/vendor/page.tsx:9-24 | the conjunction of the schema's rules, with lengths in UTF-16 units |
| VendorForm.NoIssuesIffAccepted | contexts/app/register/vendor/page.tsx:9-24 | the schema raises no issue exactly when all its length, terms and confirmation rules hold |
| VendorForm.MismatchReportedOnConfirmation | contexts/app/register/vendor/page.tsx:21-24 | different passwords give "Passwords don't match" on confirmPassword |
| VendorForm.PlaceholderRefused | contexts/app/register/vendor/page.tsx:17-18 | the empty placeholder market or type is refused |
| VendorForm.FormJson | contexts/app/register/vendor/page.tsx:71 | the submitted body has every server-required field as a string, and the licence number only when given |
| VendorForm.AcceptedFormPassesServerCheck | contexts/app/register/vendor/page.tsx:10-18 | given an email check that refuses "", every accepted form passes the server's required-field check |
| VendorForm.AstralLength | contexts/app/register/vendor/page.tsx:11 | four characters outside the Basic Multilingual Plane are four characters but eight UTF-16 units |
| VendorForm.AstralPasswordLongEnough | contexts/app/register/vendor/page.tsx:11 | such a four-character password raises no length complaint |
| VendorForm.RegisteredCredentialsPassLoginSchema | contexts/app/register/vendor/page.tsx:10-11 | registration credentials also satisfy the login schema |
| VendorForm.SubmitError | contexts/app/register/vendor/page.tsx:74-84 | an ok response is a success whatever its body; a refusal shows its message or 'Registration failed'; other failures their error |

## Left out

- Real `fetch`, `localStorage`, `document.cookie`, `NextResponse` and router navigation are not run. Backend replies are parameters, storage is a map, and navigation and cookies are recorded fields.
- `setInterval` timing and React effect scheduling are left out. One interval tick is `RefreshTick`, and one run of `checkAuth` is a method the caller invokes.
- SessionContext.AuthProvider.CheckAuth: the effect that runs checkAuth lists `user` as its dependency (`AuthContexts.tsx:33-45`). So it runs again after every change of `user`, including the freshly parsed profile an ok validation installs, and each such run sends one more validate request. Object identity and effect re-runs are not modelled, so the model does not capture this repetition. Asynchronous interleaving is left out as well, because the code has no single-flight refresh and no stale-response guard to model.
- `jwtDecode` is a foreign library. It enters `LegacyContext.AuthProvider.CheckAuth` as a partial function from strings to claims.
- Zod's email check and the form resolver are library behaviour. Email validity is a predicate parameter.
- `VendorForm.Issues` always evaluates the password-confirmation refinement. Zod may skip an object-level refinement when field checks fail; that ordering of messages is not modelled.
- The database lookup of the vendor route is a boolean parameter. A failing database query is not modelled.
- `SessionContext.AuthProvider.CheckAuth`: a stored `user` entry that is plain text is treated as failing `JSON.parse`. Profiles written by login parse back exactly.
- `Common.ProfileJson`: no JSON string escaping is modelled, and the key order of the rendering is fixed. The rest of the model only uses that the stored text is non-empty.
- `ApiClient.Client.Request`: the network is a finite sequence of exchanges. A run that uses them all up is reported `Unfinished` instead of going on. No bound on retries is assumed.
- TokenRefresh.Refresh: an ok refresh reply is assumed to carry `access_token`, which becomes the stored token. In the source, an ok body without the field stores "undefined" and answers true, so the API client retries with "Bearer undefined"; an ok `null` body throws and answers false. Neither case is modelled.
- `LoginForm.LoginPage.OnSubmit`, `SessionContext.AuthProvider.Login` and `LegacyContext.AuthProvider.Login` assume an ok login body carries `access_token` and `user`. A missing field, which JavaScript would store as "undefined" or make throw, is not modelled.
- Environment variables are constructor or method parameters: `NEXT_PUBLIC_API_URL`, `BACKEND_API_URL`, `BACKEND_URL` and `NODE_ENV`. An unset variable, which JavaScript renders as "undefined", is not modelled separately.
- The market list fetch and the delayed redirect after a successful registration are UI timing with no logic to model. So are the "contact admin" link and the `success` view of the registration page.
- The KYC submission page and the two admin dashboards are not part of this model. They are upload and display pages with no authentication logic.
- JSX markup, styling and floating-point formatting are left out.
