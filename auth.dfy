/**
 * Cookie-based authentication: an in-memory registry of valid session
 * tokens. The random token (`secrets.token_urlsafe(32)`) and the configured
 * user name (`AUTH_USERNAME`) are supplied by the caller.
 */
module Auth {
  import opened Common

  /** The cookie that carries the session token. */
  const SessionCookie := "session"

  /** `HTTPException(status_code, detail)` */
  datatype HttpException = HttpException(statusCode: int, detail: string)

  const NotAuthenticated := HttpException(401, "Not authenticated")

  /** The module-level `valid_sessions` set, with the user name it vouches for. */
  class SessionStore {
    var validSessions: set<string>
    const username: string

    /** An empty registry: sessions do not survive a restart. */
    constructor (username: string)
      ensures validSessions == {} && this.username == username
    {
      validSessions := {};
      this.username := username;
    }

    /** Registers a fresh token and hands it back; every earlier session stays valid. */
    method CreateSession(token: string) returns (t: string)
      modifies this
      ensures t == token && VerifySession(t)
      ensures validSessions == old(validSessions) + {token}
    {
      validSessions := validSessions + {token};
      t := token;
    }

    function VerifySession(token: string): (valid: bool)
      reads this
      ensures valid <==> token in validSessions
    {
      token in validSessions
    }

    /** Ends a session; ending one that is not open changes nothing and raises nothing. */
    method Logout(token: string)
      modifies this
      ensures !VerifySession(token)
      ensures validSessions == old(validSessions) - {token}
    {
      validSessions := validSessions - {token};
    }

    /** The user of a request whose session cookie is non-empty and valid. */
    function GetCurrentUser(cookies: map<string, string>): (user: Option<string>)
      reads this
      ensures user.Some? <==> SessionCookie in cookies && cookies[SessionCookie] != ""
                              && cookies[SessionCookie] in validSessions
      ensures user.Some? ==> user.value == username
    {
      if SessionCookie in cookies && cookies[SessionCookie] != "" && VerifySession(cookies[SessionCookie])
      then Some(username)
      else None
    }

    /**
     * Rejects a request with 401 unless it has a user. The test is Python
     * truthiness, so a configured empty user name is rejected as well.
     */
    function RequireAuth(cookies: map<string, string>): (r: Result<(), HttpException>)
      reads this
      ensures r.Err? <==> GetCurrentUser(cookies).None? || username == ""
      ensures r.Err? ==> r.error == NotAuthenticated
    {
      match GetCurrentUser(cookies)
      case None => Err(NotAuthenticated)
      case Some(user) => if user == "" then Err(NotAuthenticated) else Ok(())
    }
  }

  /** The session lifecycle as callers see it through the contracts alone. */
  method SessionLifecycle(store: SessionStore, token: string, other: string) returns (before: bool, after: bool)
    requires other != token
    modifies store
    ensures before && !after
    ensures store.VerifySession(other) == old(store.VerifySession(other))
    ensures store.validSessions == old(store.validSessions) - {token}
  {
    var t := store.CreateSession(token);
    before := store.VerifySession(t);
    store.Logout(t);
    store.Logout(t);
    after := store.VerifySession(t);
  }
}
