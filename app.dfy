/** The authentication handlers of app.py. Each handler that changes the session
    is a method of this module that takes the `Request` and updates its
    `session` field in place; it is proved equal to a step function on the
    session map; the step functions carry the handlers' promises and are what the
    lemmas below and the traces in module Flows compose.

    `auth` stands for what `get_azure_auth()` yields: the configured client, or
    null when the call would raise RuntimeError. The results of the identity
    provider's library and of Microsoft Graph are parameters:
    `getAuthUrl` maps a state to the authorization URL, `getTokenFromCode` maps
    an authorization code to the token endpoint's result dictionary, and
    `getUserInfo` maps an access token to the Graph profile, or None when
    Graph answers with a status other than 200. */
module App {
  import opened Values
  import opened Web
  import Auth

  /** A handler's answer together with the session it leaves behind. */
  datatype Outcome = Outcome(response: Response, session: SessionData)

  /** `require_auth`'s answer (a redirect, or None to go on) and the session. */
  datatype Guarded = Guarded(redirect: Option<Response>, session: SessionData)

  /** `get_current_user(request)`: nobody without a configured client, else the
      client's view of the session. */
  function GetCurrentUser(auth: Auth.AzureAuth?, s: SessionData): (u: Option<Json>)
    ensures auth == null ==> u == None
    ensures auth != null ==> (u.Some? <==> Auth.IsAuthenticated(s))
    ensures u.Some? ==> u.value == s[USER_KEY]
  {
    if auth == null then None else Auth.GetCurrentUser(s)
  }

  /** `require_auth(request)`: with a configured client and an anonymous
      session, remember the request URL and redirect to the login route;
      otherwise (unconfigured included) go on with the session untouched. */
  function RequireAuthStep(auth: Auth.AzureAuth?, s: SessionData, url: string): (r: Guarded)
    ensures auth != null && !Auth.IsAuthenticated(s) ==>
      && r.redirect == Some(RedirectTo(LOGIN_PATH))
      && NEXT_URL_KEY in r.session && r.session[NEXT_URL_KEY] == Str(url)
      && AgreeExcept(s, r.session, {NEXT_URL_KEY})
    ensures auth == null || Auth.IsAuthenticated(s) ==> r == Guarded(None, s)
  {
    if auth != null && !Auth.IsAuthenticated(s) then Guarded(Some(RedirectTo(LOGIN_PATH)), s[NEXT_URL_KEY := Str(url)])
    else Guarded(None, s)
  }

  /** `login(request)`: store the fresh state under oauth_state and redirect to
      the authorization URL built from that same state; next_url is not
      touched. Without a configured client: 500, session untouched. */
  function LoginStep(auth: Auth.AzureAuth?, s: SessionData, nonce: string, getAuthUrl: string -> string): (r: Outcome)
    ensures auth == null ==> r == Outcome(Raised(NotConfigured), s)
    ensures auth != null ==>
      && r.response == Redirect(Str(getAuthUrl(nonce)))
      && OAUTH_STATE_KEY in r.session && r.session[OAUTH_STATE_KEY] == Str(nonce)
      && AgreeExcept(s, r.session, {OAUTH_STATE_KEY})
  {
    if auth == null then Outcome(Raised(NotConfigured), s)
    else Outcome(Redirect(Str(getAuthUrl(nonce))), s[OAUTH_STATE_KEY := Str(nonce)])
  }

  /** The stored-state check: the stored value must be truthy and equal to the
      state the provider sent back. */
  predicate StateMatches(stored: Json, state: Option<string>) {
    Truthy(stored) && state.Some? && stored == Str(state.value)
  }

  /** `if not user_info`: a missing or empty profile counts as no profile. */
  predicate ProfileGiven(profile: Option<map<string, Json>>) {
    profile.Some? && profile.value != map[]
  }

  /** The record stored under user: id and display name from the profile, the
      mail address when it is truthy and the user principal name otherwise, and
      the access token. */
  function UserRecord(profile: map<string, Json>, accessToken: Json): (u: Json)
    ensures u.Dict? && u.entries.Keys == {"id", "name", "email", "access_token"}
    ensures u.entries["id"] == Get(profile, "id")
    ensures u.entries["name"] == Get(profile, "displayName")
    ensures Truthy(Get(profile, "mail")) ==> u.entries["email"] == profile["mail"]
    ensures !Truthy(Get(profile, "mail")) ==> u.entries["email"] == Get(profile, "userPrincipalName")
    ensures u.entries["access_token"] == accessToken
    ensures Truthy(u)
  {
    var entries := map["id" := Get(profile, "id"),
                       "name" := Get(profile, "displayName"),
                       "email" := Or(Get(profile, "mail"), Get(profile, "userPrincipalName")),
                       "access_token" := accessToken];
    assert "id" in entries;
    Dict(entries)
  }

  /** Every check of the callback passes. */
  predicate Accepts(auth: Auth.AzureAuth?, s: SessionData, code: Option<string>, state: Option<string>,
                    error: Option<string>, getTokenFromCode: string -> map<string, Json>,
                    getUserInfo: Json -> Option<map<string, Json>>)
  {
    && auth != null
    && !Given(error)
    && Given(code)
    && StateMatches(Get(s, OAUTH_STATE_KEY), state)
    && "error" !in getTokenFromCode(code.value)
    && ProfileGiven(getUserInfo(Get(getTokenFromCode(code.value), "access_token")))
  }

  /** `auth_callback(request, code, state, error)`: the checks run in order
      (configuration, provider error, code, stored state, token error, profile),
      and the first that fails answers with its HTTP error and leaves the
      session exactly as it was. When all pass, the user record is stored,
      oauth_state and next_url are consumed, and the redirect goes to the old
      next_url, or to the site root when there was none. */
  function CallbackStep(auth: Auth.AzureAuth?, s: SessionData, code: Option<string>, state: Option<string>,
                        error: Option<string>, getTokenFromCode: string -> map<string, Json>,
                        getUserInfo: Json -> Option<map<string, Json>>): (r: Outcome)
    ensures auth == null ==> r == Outcome(Raised(NotConfigured), s)
    ensures auth != null && Given(error) ==> r == Outcome(Raised(AuthenticationFailed(error.value)), s)
    ensures auth != null && !Given(error) && !Given(code) ==> r == Outcome(Raised(CodeMissing), s)
    ensures auth != null && !Given(error) && Given(code) && !StateMatches(Get(s, OAUTH_STATE_KEY), state) ==>
      r == Outcome(Raised(InvalidState), s)
    ensures auth != null && !Given(error) && Given(code) && StateMatches(Get(s, OAUTH_STATE_KEY), state) ==>
      ("error" in getTokenFromCode(code.value) ==> r == Outcome(Raised(TokenExchangeFailed), s))
    ensures Accepts(auth, s, code, state, error, getTokenFromCode, getUserInfo) <==> r.response.Redirect?
    ensures !r.response.Redirect? ==> r.response.Raised? && r.session == s
    ensures r.response.Redirect? ==> state.Some? && OAUTH_STATE_KEY in s && s[OAUTH_STATE_KEY] == Str(state.value)
    ensures r.response.Redirect? ==>
      var accessToken := Get(getTokenFromCode(code.value), "access_token");
      && r.response.location == (if NEXT_URL_KEY in s then s[NEXT_URL_KEY] else Str(SITE_ROOT))
      && USER_KEY in r.session && r.session[USER_KEY] == UserRecord(getUserInfo(accessToken).value, accessToken)
      && OAUTH_STATE_KEY !in r.session && NEXT_URL_KEY !in r.session
      && AgreeExcept(s, r.session, {USER_KEY, OAUTH_STATE_KEY, NEXT_URL_KEY})
    ensures r.response.Raised? && r.response.reason == UserInfoUnavailable <==>
      && auth != null && !Given(error) && Given(code) && StateMatches(Get(s, OAUTH_STATE_KEY), state)
      && "error" !in getTokenFromCode(code.value)
      && !ProfileGiven(getUserInfo(Get(getTokenFromCode(code.value), "access_token")))
  {
    if auth == null then Outcome(Raised(NotConfigured), s)
    else if Given(error) then Outcome(Raised(AuthenticationFailed(error.value)), s)
    else if !Given(code) then Outcome(Raised(CodeMissing), s)
    else if !StateMatches(Get(s, OAUTH_STATE_KEY), state) then Outcome(Raised(InvalidState), s)
    else
      var tokenResult := getTokenFromCode(code.value);
      if "error" in tokenResult then Outcome(Raised(TokenExchangeFailed), s)
      else
        var accessToken := Get(tokenResult, "access_token");
        var userInfo := getUserInfo(accessToken);
        if !ProfileGiven(userInfo) then Outcome(Raised(UserInfoUnavailable), s)
        else
          var withUser := s[USER_KEY := UserRecord(userInfo.value, accessToken)];
          var consumed := withUser - {OAUTH_STATE_KEY};
          var nextUrl := if NEXT_URL_KEY in consumed then consumed[NEXT_URL_KEY] else Str(SITE_ROOT);
          Outcome(Redirect(nextUrl), consumed - {NEXT_URL_KEY})
  }

  /** `logout(request)`: with a configured client, the client's logout (user and
      next_url deleted) and a redirect to the provider's logout page; without
      one, only user is deleted and the redirect goes to the site root. */
  function LogoutStep(auth: Auth.AzureAuth?, s: SessionData, logoutUrl: string): (r: Outcome)
    ensures auth != null ==> r == Outcome(Redirect(Str(logoutUrl)), Auth.LogoutSession(s))
    ensures auth == null ==>
      r.response == RedirectTo(SITE_ROOT) && USER_KEY !in r.session && AgreeExcept(s, r.session, {USER_KEY})
    ensures !Auth.IsAuthenticated(r.session)
  {
    if auth != null then Outcome(Redirect(Str(logoutUrl)), Auth.LogoutSession(s))
    else Outcome(RedirectTo(SITE_ROOT), if USER_KEY in s then s - {USER_KEY} else s)
  }

  /** `profile(request)`: the profile page for a truthy current user, a
      redirect to the login route otherwise. */
  function Profile(auth: Auth.AzureAuth?, s: SessionData): (r: Response)
    ensures r.ProfilePage? <==> auth != null && USER_KEY in s && Truthy(s[USER_KEY])
    ensures r.ProfilePage? ==> r.user == s[USER_KEY]
    ensures !r.ProfilePage? ==> r == RedirectTo(LOGIN_PATH)
  {
    var currentUser := GetCurrentUser(auth, s);
    if currentUser.None? || !Truthy(currentUser.value) then RedirectTo(LOGIN_PATH)
    else ProfilePage(currentUser.value)
  }

  // The handlers, which update the request's session in place.

  method RequireAuth(registry: Auth.Registry, request: Request) returns (redirect: Option<Response>)
    modifies request
    ensures Guarded(redirect, request.session) == RequireAuthStep(registry.azureAuth, old(request.session), request.url)
  {
    var found := registry.GetAzureAuth();
    if found.Ok? && !Auth.IsAuthenticated(request.session) {
      request.session := request.session[NEXT_URL_KEY := Str(request.url)];
      return Some(RedirectTo(LOGIN_PATH));
    }
    return None;
  }

  method Login(registry: Auth.Registry, request: Request, nonce: string, getAuthUrl: string -> string)
    returns (response: Response)
    modifies request
    ensures Outcome(response, request.session) == LoginStep(registry.azureAuth, old(request.session), nonce, getAuthUrl)
  {
    var found := registry.GetAzureAuth();
    if found.Err? {
      return Raised(NotConfigured);
    }
    request.session := request.session[OAUTH_STATE_KEY := Str(nonce)];
    var authUrl := getAuthUrl(nonce);
    return Redirect(Str(authUrl));
  }

  method AuthCallback(registry: Auth.Registry, request: Request, code: Option<string>, state: Option<string>,
                      error: Option<string>, getTokenFromCode: string -> map<string, Json>,
                      getUserInfo: Json -> Option<map<string, Json>>)
    returns (response: Response)
    modifies request
    ensures Outcome(response, request.session) ==
            CallbackStep(registry.azureAuth, old(request.session), code, state, error, getTokenFromCode, getUserInfo)
  {
    var found := registry.GetAzureAuth();
    if found.Err? {
      return Raised(NotConfigured);
    }
    if Given(error) {
      return Raised(AuthenticationFailed(error.value));
    }
    if !Given(code) {
      return Raised(CodeMissing);
    }
    var storedState := Get(request.session, OAUTH_STATE_KEY);
    if !StateMatches(storedState, state) {
      return Raised(InvalidState);
    }
    var tokenResult := getTokenFromCode(code.value);
    if "error" in tokenResult {
      return Raised(TokenExchangeFailed);
    }
    var accessToken := Get(tokenResult, "access_token");
    var userInfo := getUserInfo(accessToken);
    if !ProfileGiven(userInfo) {
      return Raised(UserInfoUnavailable);
    }
    request.session := request.session[USER_KEY := UserRecord(userInfo.value, accessToken)];
    if OAUTH_STATE_KEY in request.session {
      request.session := request.session - {OAUTH_STATE_KEY};
    }
    var nextUrl := if NEXT_URL_KEY in request.session then request.session[NEXT_URL_KEY] else Str(SITE_ROOT);
    request.session := request.session - {NEXT_URL_KEY};
    return Redirect(nextUrl);
  }

  method Logout(registry: Auth.Registry, request: Request, logoutUrl: string) returns (response: Response)
    modifies request
    ensures Outcome(response, request.session) == LogoutStep(registry.azureAuth, old(request.session), logoutUrl)
  {
    var found := registry.GetAzureAuth();
    if found.Ok? {
      found.value.Logout(request);
      return Redirect(Str(logoutUrl));
    }
    if USER_KEY in request.session {
      request.session := request.session - {USER_KEY};
    }
    return RedirectTo(SITE_ROOT);
  }

  // Properties of the handlers taken together.

  /** A login followed by a callback carrying the same state and a good code,
      token and profile authenticates the browser, consumes the state and
      returns to the page remembered before the login (or the site root). */
  lemma LoginThenCallback(auth: Auth.AzureAuth, s: SessionData, nonce: string, getAuthUrl: string -> string,
                          code: string, getTokenFromCode: string -> map<string, Json>,
                          getUserInfo: Json -> Option<map<string, Json>>)
    requires nonce != "" && code != ""
    requires "error" !in getTokenFromCode(code)
    requires ProfileGiven(getUserInfo(Get(getTokenFromCode(code), "access_token")))
    ensures var s1 := LoginStep(auth, s, nonce, getAuthUrl).session;
            var r := CallbackStep(auth, s1, Some(code), Some(nonce), None, getTokenFromCode, getUserInfo);
            && r.response == Redirect(if NEXT_URL_KEY in s then s[NEXT_URL_KEY] else Str(SITE_ROOT))
            && Auth.IsAuthenticated(r.session)
            && OAUTH_STATE_KEY !in r.session
            && Profile(auth, r.session).ProfilePage?
  {
    var s1 := LoginStep(auth, s, nonce, getAuthUrl).session;
    assert Get(s1, OAUTH_STATE_KEY) == Str(nonce);
    assert NEXT_URL_KEY in s1 <==> NEXT_URL_KEY in s;
  }

  /** A page behind require_auth, visited anonymously, is where the browser
      lands after the login and callback that follow. */
  lemma ReturnToProtectedPage(auth: Auth.AzureAuth, s: SessionData, url: string, nonce: string,
                              getAuthUrl: string -> string, code: string,
                              getTokenFromCode: string -> map<string, Json>,
                              getUserInfo: Json -> Option<map<string, Json>>)
    requires !Auth.IsAuthenticated(s)
    requires nonce != "" && code != ""
    requires "error" !in getTokenFromCode(code)
    requires ProfileGiven(getUserInfo(Get(getTokenFromCode(code), "access_token")))
    ensures var g := RequireAuthStep(auth, s, url);
            var s2 := LoginStep(auth, g.session, nonce, getAuthUrl).session;
            var r := CallbackStep(auth, s2, Some(code), Some(nonce), None, getTokenFromCode, getUserInfo);
            g.redirect == Some(RedirectTo(LOGIN_PATH)) && r.response == Redirect(Str(url))
  {
    var g := RequireAuthStep(auth, s, url);
    LoginThenCallback(auth, g.session, nonce, getAuthUrl, code, getTokenFromCode, getUserInfo);
  }

  /** The state is good for one callback: replaying an accepted callback is
      refused and changes nothing. */
  lemma ReplayedCallbackRejected(auth: Auth.AzureAuth?, s: SessionData, code: Option<string>, state: Option<string>,
                                 error: Option<string>, getTokenFromCode: string -> map<string, Json>,
                                 getUserInfo: Json -> Option<map<string, Json>>)
    requires CallbackStep(auth, s, code, state, error, getTokenFromCode, getUserInfo).response.Redirect?
    ensures var s1 := CallbackStep(auth, s, code, state, error, getTokenFromCode, getUserInfo).session;
            CallbackStep(auth, s1, code, state, error, getTokenFromCode, getUserInfo) == Outcome(Raised(InvalidState), s1)
  {
    var s1 := CallbackStep(auth, s, code, state, error, getTokenFromCode, getUserInfo).session;
    assert Get(s1, OAUTH_STATE_KEY) == Null;
  }

  /** Without a prior login (no stored state) no callback is accepted, and the
      session is left as it was. */
  lemma NoCallbackWithoutLogin(auth: Auth.AzureAuth?, s: SessionData, code: Option<string>, state: Option<string>,
                               error: Option<string>, getTokenFromCode: string -> map<string, Json>,
                               getUserInfo: Json -> Option<map<string, Json>>)
    requires OAUTH_STATE_KEY !in s
    ensures var r := CallbackStep(auth, s, code, state, error, getTokenFromCode, getUserInfo);
            r.response.Raised? && r.session == s
  {
  }

  /** After logout nobody is signed in, and the profile page sends the browser
      to the login route. */
  lemma LogoutEndsSession(auth: Auth.AzureAuth?, s: SessionData, logoutUrl: string)
    ensures var t := LogoutStep(auth, s, logoutUrl).session;
            GetCurrentUser(auth, t) == None && Profile(auth, t) == RedirectTo(LOGIN_PATH)
  {
  }

  /** Degraded mode: with no client configured, login and callback both answer
      500 whatever they receive, and leave the session as it was. */
  lemma UnconfiguredLoginAndCallbackFail(s: SessionData, nonce: string, getAuthUrl: string -> string,
                                         code: Option<string>, state: Option<string>, error: Option<string>,
                                         getTokenFromCode: string -> map<string, Json>,
                                         getUserInfo: Json -> Option<map<string, Json>>)
    ensures var login := LoginStep(null, s, nonce, getAuthUrl);
            login.response.Status() == 500 && login.session == s
    ensures var callback := CallbackStep(null, s, code, state, error, getTokenFromCode, getUserInfo);
            callback.response.Status() == 500 && callback.session == s
  {
  }

  /** The sign-in scenario: a login storing state abc123 with /details/5 already
      remembered, then a callback with code xyz and state abc123, where the
      token endpoint answers token tok1 and Graph answers Alice's profile for
      it, lands on /details/5 with Alice's record as the whole session. */
  lemma SignInScenario(auth: Auth.AzureAuth, getAuthUrl: string -> string,
                       getTokenFromCode: string -> map<string, Json>,
                       getUserInfo: Json -> Option<map<string, Json>>)
    requires getTokenFromCode("xyz") == map["access_token" := Str("tok1")]
    requires getUserInfo(Str("tok1")) == Some(map["id" := Str("u1"), "displayName" := Str("Alice"), "mail" := Str("a@x.com")])
    ensures var s1 := LoginStep(auth, map[NEXT_URL_KEY := Str("/details/5")], "abc123", getAuthUrl).session;
            var r := CallbackStep(auth, s1, Some("xyz"), Some("abc123"), None, getTokenFromCode, getUserInfo);
            && r.response == Redirect(Str("/details/5"))
            && r.session == map[USER_KEY := Dict(map["id" := Str("u1"), "name" := Str("Alice"),
                                                     "email" := Str("a@x.com"), "access_token" := Str("tok1")])]
  {
    var s1 := LoginStep(auth, map[NEXT_URL_KEY := Str("/details/5")], "abc123", getAuthUrl).session;
    assert s1 == map[NEXT_URL_KEY := Str("/details/5"), OAUTH_STATE_KEY := Str("abc123")];
    assert Get(getTokenFromCode("xyz"), "access_token") == Str("tok1");
    var profile := map["id" := Str("u1"), "displayName" := Str("Alice"), "mail" := Str("a@x.com")];
    var record := UserRecord(profile, Str("tok1"));
    assert record == Dict(map["id" := Str("u1"), "name" := Str("Alice"),
                              "email" := Str("a@x.com"), "access_token" := Str("tok1")]);
    assert Accepts(auth, s1, Some("xyz"), Some("abc123"), None, getTokenFromCode, getUserInfo);
    var r := CallbackStep(auth, s1, Some("xyz"), Some("abc123"), None, getTokenFromCode, getUserInfo);
    assert r.session.Keys == {USER_KEY};
    assert r.session[USER_KEY] == record;
  }
}
