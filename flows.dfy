/** Sequences of requests from one browser, run one after another, each
    carrying the session the previous one left. Two promises of the login flow
    only show over such sequences: a state stored by a login is good for at
    most one accepted callback, and a callback is accepted only with a state
    that one of the earlier logins issued. Requests that run concurrently, or
    that resend an older session cookie, are not such a sequence. */
module Flows {
  import opened Values
  import opened Web
  import Auth
  import App

  /** One request that changes the session. */
  datatype Event =
    | Guard(url: string)                                 // a page that calls require_auth
    | BeginLogin(nonce: string, getAuthUrl: string -> string)
    | Callback(code: Option<string>, state: Option<string>, error: Option<string>,
               getTokenFromCode: string -> map<string, Json>,
               getUserInfo: Json -> Option<map<string, Json>>)
    | EndSession(logoutUrl: string)

  function Apply(auth: Auth.AzureAuth?, s: SessionData, e: Event): SessionData {
    match e
    case Guard(url) => App.RequireAuthStep(auth, s, url).session
    case BeginLogin(nonce, getAuthUrl) => App.LoginStep(auth, s, nonce, getAuthUrl).session
    case Callback(code, state, error, getTokenFromCode, getUserInfo) =>
      App.CallbackStep(auth, s, code, state, error, getTokenFromCode, getUserInfo).session
    case EndSession(logoutUrl) => App.LogoutStep(auth, s, logoutUrl).session
  }

  /** The event is a callback that the session `s` accepts. */
  predicate Accepted(auth: Auth.AzureAuth?, s: SessionData, e: Event) {
    e.Callback? && App.Accepts(auth, s, e.code, e.state, e.error, e.getTokenFromCode, e.getUserInfo)
  }

  /** The session after the events, in order. */
  function Run(auth: Auth.AzureAuth?, s: SessionData, events: seq<Event>): SessionData
    decreases |events|
  {
    if events == [] then s
    else Apply(auth, Run(auth, s, events[..|events| - 1]), events[|events| - 1])
  }

  /** How many of the events were accepted callbacks. */
  function AcceptedCount(auth: Auth.AzureAuth?, s: SessionData, events: seq<Event>): nat
    decreases |events|
  {
    if events == [] then 0
    else
      var before := events[..|events| - 1];
      AcceptedCount(auth, s, before) + if Accepted(auth, Run(auth, s, before), events[|events| - 1]) then 1 else 0
  }

  /** How many of the events were logins. */
  function LoginCount(events: seq<Event>): nat
    decreases |events|
  {
    if events == [] then 0
    else LoginCount(events[..|events| - 1]) + if events[|events| - 1].BeginLogin? then 1 else 0
  }

  /** One event's effect on oauth_state: only a login stores it, only an
      accepted callback removes it (having found it), all else keeps it. */
  lemma ApplyStoredState(auth: Auth.AzureAuth?, s: SessionData, e: Event)
    ensures e.BeginLogin? && auth != null ==>
      OAUTH_STATE_KEY in Apply(auth, s, e) && Apply(auth, s, e)[OAUTH_STATE_KEY] == Str(e.nonce)
    ensures Accepted(auth, s, e) ==> OAUTH_STATE_KEY in s && OAUTH_STATE_KEY !in Apply(auth, s, e)
    ensures !(e.BeginLogin? && auth != null) && !Accepted(auth, s, e) ==>
      (OAUTH_STATE_KEY in Apply(auth, s, e) <==> OAUTH_STATE_KEY in s) &&
      (OAUTH_STATE_KEY in s ==> Apply(auth, s, e)[OAUTH_STATE_KEY] == s[OAUTH_STATE_KEY])
  {
  }

  /** The single-use nonce: accepted callbacks, plus one for a state still
      stored at the end, never outnumber the logins, plus one for a state
      stored at the start. In particular, from a session with no stored state,
      there are at most as many accepted callbacks as logins. */
  lemma {:induction false} NonceSingleUse(auth: Auth.AzureAuth?, s: SessionData, events: seq<Event>)
    ensures AcceptedCount(auth, s, events) + (if OAUTH_STATE_KEY in Run(auth, s, events) then 1 else 0)
            <= LoginCount(events) + (if OAUTH_STATE_KEY in s then 1 else 0)
  {
    if events != [] {
      var before := events[..|events| - 1];
      NonceSingleUse(auth, s, before);
      ApplyStoredState(auth, Run(auth, s, before), events[|events| - 1]);
    }
  }

  /** Where a stored state comes from: in a session that started without one,
      any state stored after the events was issued by one of their logins. */
  lemma {:induction false} StoredStateWasIssued(auth: Auth.AzureAuth?, s: SessionData, events: seq<Event>)
    requires OAUTH_STATE_KEY !in s
    ensures OAUTH_STATE_KEY in Run(auth, s, events) ==>
      exists j :: 0 <= j < |events| && events[j].BeginLogin? &&
                  Run(auth, s, events)[OAUTH_STATE_KEY] == Str(events[j].nonce)
  {
    if events != [] {
      var before := events[..|events| - 1];
      var last := events[|events| - 1];
      StoredStateWasIssued(auth, s, before);
      ApplyStoredState(auth, Run(auth, s, before), last);
      if OAUTH_STATE_KEY in Run(auth, s, events) {
        if last.BeginLogin? && auth != null {
          assert events[|events| - 1].BeginLogin?;
        } else {
          var j :| 0 <= j < |before| && before[j].BeginLogin? &&
                   Run(auth, s, before)[OAUTH_STATE_KEY] == Str(before[j].nonce);
          assert events[j] == before[j];
        }
      }
    }
  }

  /** The CSRF binding across requests: starting from a session without a
      stored state, a callback is accepted only if the state it carries was
      issued by one of the logins before it. */
  lemma AcceptedStateWasIssued(auth: Auth.AzureAuth?, s: SessionData, events: seq<Event>, callback: Event)
    requires OAUTH_STATE_KEY !in s
    requires Accepted(auth, Run(auth, s, events), callback)
    ensures exists j :: 0 <= j < |events| && events[j].BeginLogin? && callback.state == Some(events[j].nonce)
  {
    StoredStateWasIssued(auth, s, events);
    ApplyStoredState(auth, Run(auth, s, events), callback);
  }
}
