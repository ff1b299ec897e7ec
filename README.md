# Login session state machine of the FastAPI restaurant-review sample

This project models the authentication core of a FastAPI sample application. It
lets a browser sign in with Microsoft Entra ID (Azure AD) by the OAuth 2.0
authorization-code grant (section 4.1 of RFC 6749). The core is built around the
browser's session dictionary, which the session middleware keeps in a signed
cookie. Three keys matter:

- `oauth_state`: the single-use anti-forgery state written by the login route.
- `next_url`: the page to return to. Only `require_auth` writes it.
- `user`: the signed-in user record, written by a successful callback.

The model covers the following. It does not cover the restaurant and review
handlers.

- The login, callback, logout and profile routes of app.py, and the
  `require_auth` helpers of app.py (app.py:74-84) and of the client
  (auth.py:80-88).
- The `AzureAuth` client's session queries and updates (auth.py).
- The process-wide client slot filled by `init_azure_auth` and read by
  `get_azure_auth` (auth.py).

Modules:

- `Values` (values.dfy): optional strings, JSON values, and Python truthiness
  (`if x:`, `a or b`, `d.get(k)`).
- `Web` (web.dfy): the session type, the session keys, the `Request` class
  (a fixed URL and a mutable `session` field), and the responses, covering
  302 redirects, raised HTTP errors with their status codes, and the profile
  page.
- `Auth` (auth.dfy):
  - The `AzureAuth` class, whose settings are fixed at construction. Its
    authority and scope are derived from them.
  - `Registry`, the module-level `azure_auth` slot, as a nullable field with
    `InitAzureAuth` and `GetAzureAuth`.
  - Pure functions on the session map for `is_authenticated`,
    `get_current_user` and the session effects of `require_auth` and
    `logout`.
- `App` (app.dfy): one step function per handler, mapping the session to a
  response and a new session. It carries the handler's promises. Each handler
  that changes the session is also a method of module `App` that takes the
  `Request` and updates its `session` field in place. The method's body
  follows the source's early-exit checks. It is proved equal to the step
  function.
- `Flows` (flows.dfy): sequences of requests from one browser, run in order,
  each carrying the session the previous one left. Along such a sequence the
  stored state is good for at most one accepted callback. This does not hold
  for concurrent requests or for a resent older cookie (see "Left out"). A callback is accepted only
  with a state that a previous login issued. This is the CSRF binding of
  section 10.12 of RFC 6749.

These calls into MSAL and Microsoft Graph are function-typed parameters:

- the authorization-URL builder: state → URL;
- the token exchange: code → result dictionary;
- the profile fetch: access token → profile or None.

Modelling them as functions lets the contracts say what flows where. The login
passes its own state to the URL builder. The user record holds the access token
that the profile was fetched with. The login's random state
(`secrets.token_urlsafe`) is a parameter. So is the environment of
`init_azure_auth`, as a map.

Three details of the code shape the model:

- The login route writes only `oauth_state` (app.py:189-190). It does not write
  `next_url`: only `require_auth` does (app.py:79, auth.py:84).
- The callback checks `error` and `code` before the stored state
  (app.py:210-220). A callback without a prior login is therefore refused with
  whichever of those checks fails first, not always with the state error. In
  every case the session is left unchanged (`App.NoCallbackWithoutLogin`).
- The code has no separate "provider unavailable" outcome. A Graph answer
  with a status other than 200 gives None (auth.py:66-68). The callback then
  answers 400, modelled as `UserInfoUnavailable` (app.py:236-237).

## Model

| member | source | states |
|---|---|---|
| `Auth.Authority` | msdocs-fastapi-postgresql-sample-app/src/fastapi_app/auth.py:19 | The authority is the Microsoft login host prefix followed by exactly the tenant id. |
| `Auth.AuthorityDeterminesTenant` | msdocs-fastapi-postgresql-sample-app/src/fastapi_app/auth.py:19 | Two tenants share an authority only if they are the same tenant, so the tenant can be read back from the authority. |
| `Auth.AzureAuth.constructor` | msdocs-fastapi-postgresql-sample-app/src/fastapi_app/auth.py:12-20 | The client keeps the four settings it was given. Its authority is derived from the tenant and its scope is `["User.Read"]`. |
| `Auth.ResolveCredentials` | msdocs-fastapi-postgresql-sample-app/src/fastapi_app/auth.py:111-118 | A non-empty explicit argument wins over the environment. ValueError is raised exactly when client id, secret or tenant is empty after that fallback. The redirect URI falls back to `AZURE_REDIRECT_URI`, then to `http://localhost:8000/auth/callback`. |
| `Auth.Registry.constructor` | msdocs-fastapi-postgresql-sample-app/src/fastapi_app/auth.py:99 | Before any init, `get_azure_auth` raises RuntimeError. |
| `Auth.Registry.GetAzureAuth` | msdocs-fastapi-postgresql-sample-app/src/fastapi_app/auth.py:124-128 | Returns the stored instance exactly when one is stored. Otherwise it raises RuntimeError. |
| `Auth.Registry.InitAzureAuth` | msdocs-fastapi-postgresql-sample-app/src/fastapi_app/auth.py:102-121 | Succeeds only when the settings resolve and the client can be built; the model assumes the client can always be built, so here it succeeds exactly when the settings resolve. On success it stores a new client built from them, and `get_azure_auth` then returns that same instance. On ValueError the slot keeps what it held. |
| `Auth.IsAuthenticated` | msdocs-fastapi-postgresql-sample-app/src/fastapi_app/auth.py:70-72 | True exactly when `user` is a key of the session. |
| `Auth.GetCurrentUser` | msdocs-fastapi-postgresql-sample-app/src/fastapi_app/auth.py:70-78 | Returns a user exactly when `user` is in the session (`is_authenticated`), and then it is the stored record. |
| `Auth.RequireAuthSession` | msdocs-fastapi-postgresql-sample-app/src/fastapi_app/auth.py:80-88 | An anonymous session gains `next_url` = the request URL and nothing else changes. An authenticated session is unchanged. Authentication is unaffected. |
| `Auth.AzureAuth.RequireAuth` | msdocs-fastapi-postgresql-sample-app/src/fastapi_app/auth.py:80-88 | Raises 401 exactly when the session is anonymous. The new session is `RequireAuthSession` of the old one. |
| `Auth.RequireAuthKeepsAuthentication` | msdocs-fastapi-postgresql-sample-app/src/fastapi_app/auth.py:80-88 | `require_auth` never changes who is signed in: the current user, or its absence, is the same before and after. |
| `Auth.LogoutSession` | msdocs-fastapi-postgresql-sample-app/src/fastapi_app/auth.py:90-95 | `user` and `next_url` are gone. Every other key, `oauth_state` included, is as before. Afterwards nobody is authenticated. |
| `Auth.AzureAuth.Logout` | msdocs-fastapi-postgresql-sample-app/src/fastapi_app/auth.py:90-95 | Deleting the keys one by one yields `LogoutSession` of the old session. |
| `Auth.LogoutIdempotent` | msdocs-fastapi-postgresql-sample-app/src/fastapi_app/auth.py:90-95 | Logging out twice leaves the same session as logging out once. |
| `App.GetCurrentUser` | msdocs-fastapi-postgresql-sample-app/src/fastapi_app/app.py:64-71 | With no client configured, there is never a current user. With one, the session's user is returned exactly when authenticated. |
| `App.RequireAuthStep` | msdocs-fastapi-postgresql-sample-app/src/fastapi_app/app.py:74-84 | When configured and anonymous: `next_url` becomes the request URL, nothing else changes, and there is a 302 to `/auth/login`. Otherwise (unconfigured included) it returns None with the session untouched. |
| `App.RequireAuth` | msdocs-fastapi-postgresql-sample-app/src/fastapi_app/app.py:74-84 | The handler's answer and new session are those of `RequireAuthStep`. |
| `App.LoginStep` | msdocs-fastapi-postgresql-sample-app/src/fastapi_app/app.py:183-201 | When configured, `oauth_state` becomes the generated state and nothing else changes (`next_url` included). The redirect goes to the URL built from that same state. Unconfigured, the answer is 500 with the session untouched. |
| `App.Login` | msdocs-fastapi-postgresql-sample-app/src/fastapi_app/app.py:183-201 | The handler's answer and new session are those of `LoginStep`. |
| `App.UserRecord` | msdocs-fastapi-postgresql-sample-app/src/fastapi_app/app.py:240-245 | The record has exactly the keys id, name, email and access_token: id and displayName from the profile; mail if truthy, else userPrincipalName; the access token. It is always truthy. |
| `App.CallbackStep` | msdocs-fastapi-postgresql-sample-app/src/fastapi_app/app.py:205-259 | Checks run in order: 500 when unconfigured; then 400 for a provider error, a missing code, a stored state that is absent/empty/different, a token error, a falsy profile. Every failure leaves the session unchanged. It succeeds exactly when all checks pass, and then only with the stored state matching. On success `user` is the record, `oauth_state` and `next_url` are gone, the other keys are unchanged, and the redirect goes to the old `next_url` or `/`. |
| `App.AuthCallback` | msdocs-fastapi-postgresql-sample-app/src/fastapi_app/app.py:205-259 | The handler's answer and new session are those of `CallbackStep`. |
| `App.LogoutStep` | msdocs-fastapi-postgresql-sample-app/src/fastapi_app/app.py:263-280 | Configured: the client's logout, then a redirect to the provider's logout URL. Unconfigured: only `user` is deleted (the other keys are kept) and the redirect goes to `/`. In both cases nobody is authenticated afterwards. |
| `App.Logout` | msdocs-fastapi-postgresql-sample-app/src/fastapi_app/app.py:263-280 | The handler's answer and new session are those of `LogoutStep`. |
| `App.Profile` | msdocs-fastapi-postgresql-sample-app/src/fastapi_app/app.py:284-294 | Shows the profile page, with the stored record, exactly when a client is configured and the session holds a truthy user. Otherwise it redirects to `/auth/login`. |
| `App.LoginThenCallback` | msdocs-fastapi-postgresql-sample-app/src/fastapi_app/app.py:189-253 | A login followed by a callback carrying the same state, with a good code, token and profile, authenticates the browser and consumes the state. The profile page then shows, and the redirect goes to the previously stored `next_url` or `/`. |
| `App.ReturnToProtectedPage` | msdocs-fastapi-postgresql-sample-app/src/fastapi_app/app.py:74-253 | An anonymous visit to a page behind `require_auth` redirects to login. After the login and a good callback, the browser lands on that page's URL. |
| `App.ReplayedCallbackRejected` | msdocs-fastapi-postgresql-sample-app/src/fastapi_app/app.py:218-249 | Replaying an accepted callback is refused with the invalid-state error and changes nothing. |
| `App.NoCallbackWithoutLogin` | msdocs-fastapi-postgresql-sample-app/src/fastapi_app/app.py:218-220 | With no stored `oauth_state`, every callback is refused and the session is unchanged. |
| `App.LogoutEndsSession` | msdocs-fastapi-postgresql-sample-app/src/fastapi_app/app.py:262-289 | After logout, in either mode, there is no current user and the profile page redirects to `/auth/login`. |
| `App.UnconfiguredLoginAndCallbackFail` | msdocs-fastapi-postgresql-sample-app/src/fastapi_app/app.py:183-259 | With no client, login and callback answer 500 whatever their parameters, and the session is unchanged. |
| `App.SignInScenario` | msdocs-fastapi-postgresql-sample-app/src/fastapi_app/app.py:205-253 | State abc123 with `next_url=/details/5`, and a callback with code xyz, token tok1 and Alice's profile, redirects to `/details/5`. The session is then exactly `user = {id u1, name Alice, email a@x.com, access_token tok1}`. |
| `Flows.NonceSingleUse` | msdocs-fastapi-postgresql-sample-app/src/fastapi_app/app.py:189-249 | Over any sequence of requests, accepted callbacks never outnumber the logins (plus one for a state stored at the start). Each stored state serves at most one sign-in. |
| `Flows.StoredStateWasIssued` | msdocs-fastapi-postgresql-sample-app/src/fastapi_app/app.py:189-190 | Start from a session without `oauth_state`. Any `oauth_state` present after a sequence of requests is the nonce of one of its logins. |
| `Flows.AcceptedStateWasIssued` | msdocs-fastapi-postgresql-sample-app/src/fastapi_app/app.py:218-220 | Start from a session without `oauth_state`. A callback is accepted only if its state was issued by an earlier login in the sequence. |

## Left out

- The restaurant and review handlers (app.py:87-178) are out of scope. They are ORM queries and template rendering, and the rating averages and star percentages are floating point.
- The MSAL, Authlib and HTTP calls (`get_auth_url`, `get_token_from_code`, `get_user_info`, auth.py:23-68) are foreign libraries and network I/O. They are uninterpreted function parameters. A RuntimeError raised inside them is not modelled. The callback would turn it into a 500 (app.py:255-259). So would the login, for one raised by `get_auth_url` (app.py:193, app.py:196-201), and by then `oauth_state` has already been written (app.py:190).
- Other exceptions from those calls are not modelled either. A transport error in `requests.get` (auth.py:64, which also sets no timeout), a network error inside the MSAL token call (auth.py:52) and a 200 answer whose body is not JSON (auth.py:67) raise exceptions other than RuntimeError. They escape the `except RuntimeError` of the callback (app.py:255) as an unhandled 500, with the session left as it was. No timeout is modelled.
- The login's random state comes from `secrets.token_urlsafe`. It is a parameter, and its entropy is not modelled.
- Signing and encoding of the session cookie by the session middleware is cryptography inside the library. The session is a plain map.
- `Auth.Registry.InitAzureAuth`: building the MSAL client inside `AzureAuth.__init__` (auth.py:23-27, reached from auth.py:120) is not modelled. By default that library fetches the tenant's authority configuration over the network, so an unknown tenant id or an unreachable network makes `init_azure_auth` raise even though the settings resolve, and the `azure_auth` slot then keeps its old value. The model returns `Ok` and stores the new client in that case.
- Start-up plumbing (app.py:19-54) is out of scope: monitoring, logging, static files, template globals, the session secret, and the guarded start-up call of `init_azure_auth` with its broad `except`. The environment appears only as the map passed to `InitAzureAuth`.
- The Azure logout URL (app.py:270-272) is built from the environment and the index URL. That formatting is not modelled: `Logout` takes the finished URL as a parameter.
- Error-detail strings and logging are not modelled. Only the provider's own `error` text is kept (`AuthenticationFailed`). The token error's description is dropped, and so are the callback's `logger.error` calls (app.py:211, app.py:226).
- `App.ReplayedCallbackRejected`, `Flows.NonceSingleUse`: the session lives only in the browser's signed cookie, with no store on the server (app.py:30-33). Both results hold only when each request carries the session the previous request left. Two concurrent callbacks, or a replay that resends the cookie from before the callback, both see the same `oauth_state`. Both then pass the state check (app.py:218-219), so each such request can sign in. Concurrency and resent cookies are not modelled.
- JSON numbers are integers only. Floats never matter to the session keys.
- `App.CallbackStep`: the redirect location is the stored `next_url` value as is. The conversion of non-string values to text by `RedirectResponse` is not modelled. The handlers only ever store strings there.
