/** The identity-provider client and its process-wide slot (auth.py): what an
    `AzureAuth` instance is built from, how `init_azure_auth` chooses its
    credentials, and the session queries and updates the client offers. The
    MSAL, Authlib and Graph calls are not modelled here; the handlers receive
    their results as parameters. */
module Auth {
  import opened Values
  import opened Web

  const AUTHORITY_PREFIX := "https://login.microsoftonline.com/"
  const GRAPH_SCOPE: seq<string> := ["User.Read"]
  const DEFAULT_REDIRECT_URI := "http://localhost:8000/auth/callback"

  const CLIENT_ID_VAR := "AZURE_CLIENT_ID"
  const CLIENT_SECRET_VAR := "AZURE_CLIENT_SECRET"
  const TENANT_ID_VAR := "AZURE_TENANT_ID"
  const REDIRECT_URI_VAR := "AZURE_REDIRECT_URI"

  /** The tenant's authority URL. */
  function Authority(tenantId: string): (a: string)
    ensures |a| == |AUTHORITY_PREFIX| + |tenantId|
    ensures a[..|AUTHORITY_PREFIX|] == AUTHORITY_PREFIX
    ensures a[|AUTHORITY_PREFIX|..] == tenantId
  {
    AUTHORITY_PREFIX + tenantId
  }

  /** Distinct tenants get distinct authorities: the tenant can be read back. */
  lemma AuthorityDeterminesTenant(t1: string, t2: string)
    ensures Authority(t1) == Authority(t2) <==> t1 == t2
  {
  }

  /** The four settings an `AzureAuth` is built from. */
  datatype Credentials = Credentials(appId: string, appSecret: string, tenantId: string, redirectUri: string)

  /** `os.getenv(name)`. */
  function Getenv(env: map<string, string>, name: string): (v: Option<string>)
    ensures v.Some? <==> name in env
    ensures v.Some? ==> v.value == env[name]
  {
    if name in env then Some(env[name]) else None
  }

  /** The part of `init_azure_auth` that decides on the settings: each explicit
      argument that is non-empty wins over the environment; client id, secret
      and tenant must be non-empty afterwards or ValueError is raised; the
      redirect URI falls back to the environment and then to the local
      callback address. */
  function ResolveCredentials(appId: Option<string>, appSecret: Option<string>, tenantId: Option<string>,
                              redirectUri: Option<string>, env: map<string, string>): (r: Result<Credentials>)
    ensures r.Err? ==> r.error == ValueError
    ensures r.Ok? <==>
      && (Given(appId) || Given(Getenv(env, CLIENT_ID_VAR)))
      && (Given(appSecret) || Given(Getenv(env, CLIENT_SECRET_VAR)))
      && (Given(tenantId) || Given(Getenv(env, TENANT_ID_VAR)))
    ensures r.Ok? ==>
      && r.value.appId == (if Given(appId) then appId.value else env[CLIENT_ID_VAR])
      && r.value.appSecret == (if Given(appSecret) then appSecret.value else env[CLIENT_SECRET_VAR])
      && r.value.tenantId == (if Given(tenantId) then tenantId.value else env[TENANT_ID_VAR])
      && r.value.appId != "" && r.value.appSecret != "" && r.value.tenantId != ""
    ensures r.Ok? ==> r.value.redirectUri ==
                        (if Given(redirectUri) then redirectUri.value
                         else if REDIRECT_URI_VAR in env then env[REDIRECT_URI_VAR]
                         else DEFAULT_REDIRECT_URI)
  {
    var id := OrElse(appId, Getenv(env, CLIENT_ID_VAR));
    var secret := OrElse(appSecret, Getenv(env, CLIENT_SECRET_VAR));
    var tenant := OrElse(tenantId, Getenv(env, TENANT_ID_VAR));
    var redirect := OrElse(redirectUri, Some(if REDIRECT_URI_VAR in env then env[REDIRECT_URI_VAR] else DEFAULT_REDIRECT_URI));
    if !(Given(id) && Given(secret) && Given(tenant)) then Err(ValueError)
    else Ok(Credentials(id.value, secret.value, tenant.value, redirect.value))
  }

  /** `is_authenticated(request)`, a lookup on `request.session`. */
  function IsAuthenticated(s: SessionData): (b: bool)
    ensures b <==> USER_KEY in s
  {
    USER_KEY in s
  }

  /** `get_current_user(request)`: the stored user record exactly when authenticated. */
  function GetCurrentUser(s: SessionData): (u: Option<Json>)
    ensures u.Some? <==> IsAuthenticated(s)
    ensures u.Some? ==> u.value == s[USER_KEY]
  {
    if IsAuthenticated(s) then Some(s[USER_KEY]) else None
  }

  /** The session after `require_auth`: an anonymous session remembers the
      requested URL under next_url; an authenticated one is left as it is. */
  function RequireAuthSession(s: SessionData, url: string): (t: SessionData)
    ensures IsAuthenticated(s) ==> t == s
    ensures !IsAuthenticated(s) ==>
      NEXT_URL_KEY in t && t[NEXT_URL_KEY] == Str(url) && AgreeExcept(s, t, {NEXT_URL_KEY})
    ensures IsAuthenticated(t) == IsAuthenticated(s)
  {
    if IsAuthenticated(s) then s else s[NEXT_URL_KEY := Str(url)]
  }

  /** The session after `logout`: user and next_url are gone, every other key,
      oauth_state included, is as it was. */
  function LogoutSession(s: SessionData): (t: SessionData)
    ensures USER_KEY !in t && NEXT_URL_KEY !in t
    ensures AgreeExcept(s, t, {USER_KEY, NEXT_URL_KEY})
    ensures !IsAuthenticated(t)
  {
    var withoutUser := if USER_KEY in s then s - {USER_KEY} else s;
    if NEXT_URL_KEY in withoutUser then withoutUser - {NEXT_URL_KEY} else withoutUser
  }

  /** Logging out twice is logging out once. */
  lemma LogoutIdempotent(s: SessionData)
    ensures LogoutSession(LogoutSession(s)) == LogoutSession(s)
  {
  }

  /** Asking for authentication never changes who is signed in: the current
      user, or its absence, is the same before and after; require_auth alone
      never logs anyone in. */
  lemma RequireAuthKeepsAuthentication(s: SessionData, url: string)
    ensures GetCurrentUser(RequireAuthSession(s, url)) == GetCurrentUser(s)
  {
  }

  /** The identity-provider client. Its settings are fixed at construction. */
  class AzureAuth {
    const appId: string
    const appSecret: string
    const tenantId: string
    const redirectUri: string
    const authority: string
    const scope: seq<string>

    constructor (appId: string, appSecret: string, tenantId: string, redirectUri: string)
      ensures this.appId == appId && this.appSecret == appSecret
      ensures this.tenantId == tenantId && this.redirectUri == redirectUri
      ensures authority == Authority(tenantId) && scope == GRAPH_SCOPE
    {
      this.appId := appId;
      this.appSecret := appSecret;
      this.tenantId := tenantId;
      this.redirectUri := redirectUri;
      this.authority := Authority(tenantId);
      this.scope := GRAPH_SCOPE;
    }

    /** The settings the instance was built from. */
    function Settings(): Credentials {
      Credentials(appId, appSecret, tenantId, redirectUri)
    }

    /** `require_auth(request)`: raises 401 for an anonymous session after
        remembering the requested URL; otherwise does nothing. */
    method RequireAuth(request: Request) returns (raised: Option<Reason>)
      modifies request
      ensures raised == if IsAuthenticated(old(request.session)) then None else Some(AuthenticationRequired)
      ensures request.session == RequireAuthSession(old(request.session), request.url)
    {
      if !IsAuthenticated(request.session) {
        request.session := request.session[NEXT_URL_KEY := Str(request.url)];
        return Some(AuthenticationRequired);
      }
      return None;
    }

    /** `logout(request)`: deletes user and next_url where present. */
    method Logout(request: Request)
      modifies request
      ensures request.session == LogoutSession(old(request.session))
    {
      if USER_KEY in request.session {
        request.session := request.session - {USER_KEY};
      }
      if NEXT_URL_KEY in request.session {
        request.session := request.session - {NEXT_URL_KEY};
      }
    }
  }

  /** The module-level `azure_auth` slot of auth.py: empty until
      `init_azure_auth` succeeds. */
  class Registry {
    var azureAuth: AzureAuth?

    constructor ()
      ensures GetAzureAuth() == Err(RuntimeError)
    {
      azureAuth := null;
    }

    /** `get_azure_auth()`: the stored instance, or RuntimeError when none was
        stored. */
    function GetAzureAuth(): (r: Result<AzureAuth>)
      reads this
      ensures r.Ok? <==> azureAuth != null
      ensures r.Ok? ==> r.value == azureAuth
      ensures r.Err? ==> r.error == RuntimeError
    {
      if azureAuth == null then Err(RuntimeError) else Ok(azureAuth)
    }

    /** `init_azure_auth(...)`: on ValueError the slot keeps whatever it held;
        on success a new client built from the resolved settings is stored and
        returned, and `get_azure_auth()` returns that same instance. */
    method InitAzureAuth(appId: Option<string>, appSecret: Option<string>, tenantId: Option<string>,
                         redirectUri: Option<string>, env: map<string, string>) returns (r: Result<AzureAuth>)
      modifies this
      ensures r.Ok? <==> ResolveCredentials(appId, appSecret, tenantId, redirectUri, env).Ok?
      ensures r.Err? ==> r.error == ValueError && azureAuth == old(azureAuth)
      ensures r.Ok? ==> fresh(r.value)
      ensures r.Ok? ==> r.value.Settings() == ResolveCredentials(appId, appSecret, tenantId, redirectUri, env).value
      ensures r.Ok? ==> r.value.authority == Authority(r.value.tenantId) && r.value.scope == GRAPH_SCOPE
      ensures r.Ok? ==> GetAzureAuth() == Ok(r.value)
    {
      var settings := ResolveCredentials(appId, appSecret, tenantId, redirectUri, env);
      if settings.Err? {
        return Err(ValueError);
      }
      var c := settings.value;
      var auth := new AzureAuth(c.appId, c.appSecret, c.tenantId, c.redirectUri);
      azureAuth := auth;
      return Ok(auth);
    }
  }
}
