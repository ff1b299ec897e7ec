/** The slice of the web framework the session core touches: the request with its
    per-browser session dictionary, and the responses and HTTP errors the
    handlers produce. */
module Web {
  import opened Values

  /** The session bag that the session middleware keeps in a signed cookie. */
  type SessionData = map<string, Json>

  const OAUTH_STATE_KEY := "oauth_state"
  const NEXT_URL_KEY := "next_url"
  const USER_KEY := "user"

  const LOGIN_PATH := "/auth/login"
  const SITE_ROOT := "/"

  /** `s` and `t` agree on every key outside `keys`: both have it or neither
      does, and then with the same value. */
  ghost predicate AgreeExcept(s: SessionData, t: SessionData, keys: set<string>) {
    forall k :: k !in keys ==> (k in s <==> k in t) && (k in s ==> s[k] == t[k])
  }

  /** An incoming HTTP request: its URL is fixed, its session is updated in place
      by the handlers and written back to the cookie afterwards. */
  class Request {
    var session: SessionData
    const url: string

    constructor (session: SessionData, url: string)
      ensures this.session == session && this.url == url
    {
      this.session := session;
      this.url := url;
    }
  }

  /** Why a handler raised an HTTPException. */
  datatype Reason =
    | AuthenticationFailed(error: string)  // the provider sent `error`
    | CodeMissing
    | InvalidState
    | TokenExchangeFailed
    | UserInfoUnavailable
    | AuthenticationRequired
    | NotConfigured
  {
    function Status(): (code: int)
      ensures 400 <= code < 600
    {
      match this
      case AuthenticationRequired => 401
      case NotConfigured => 500
      case _ => 400
    }
  }

  /** What a handler answers: a redirect (302 Found), a raised HTTPException, or
      the rendered profile page. */
  datatype Response =
    | Redirect(location: Json)
    | Raised(reason: Reason)
    | ProfilePage(user: Json)
  {
    function Status(): int {
      match this
      case Redirect(_) => 302
      case Raised(reason) => reason.Status()
      case ProfilePage(_) => 200
    }
  }

  function RedirectTo(path: string): Response {
    Redirect(Str(path))
  }
}
