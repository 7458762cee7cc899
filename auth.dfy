/**
 * The authentication middleware: the session table with its 24 hour idle
 * expiry, the ledger of refresh tokens that may each be exchanged once, and
 * the request gates (authorisation by role, CSRF protection, login
 * protection) with the status codes they answer.
 *
 * Signing and verifying JWTs is the library's business: the model receives
 * it as the `Jwt` pair of functions. Signing is deterministic, as HMAC
 * signing is: the same claims signed in the same second give the same token.
 */
module Auth {
  import opened Common
  import opened SecurityUtils

  // -------------------------------------------------------------- sessions

  datatype User = User(id: string, username: string, role: string)

  datatype Session = Session(
    id: string, userId: string, username: string, role: string, ip: string, userAgent: string,
    createdAt: int, lastActivity: int, csrfToken: string)

  const SessionIdle: int := Day

  predicate SessionExpired(s: Session, now: int) {
    now - s.lastActivity > SessionIdle
  }

  // ---------------------------------------------------------- refresh tokens

  /** The claims a verified token carries: its user and its type ("access" or "refresh"). */
  datatype Claims = Claims(userId: string, kind: string)

  /**
   * The JWT library with the configured secret: `sign(userId, kind, second)`
   * and `verify(token, now)`, which fails on a bad signature or an expired
   * token.
   */
  datatype Jwt = Jwt(sign: (string, string, int) -> string, verify: (string, int) -> Option<Claims>)

  /** A stored refresh token: its user, when it was stored, whether it was exchanged. */
  datatype RefreshRecord = RefreshRecord(userId: string, createdAt: int, used: bool)

  datatype TokenPair = TokenPair(accessToken: string, refreshToken: string)

  /** The answer of one exchange and the ledger after it. */
  datatype Exchange = Exchange(result: Option<TokenPair>, ledger: map<string, RefreshRecord>)

  /** A token signed now: `iat` is the current second. */
  function Minted(jwt: Jwt, userId: string, kind: string, now: int): string {
    jwt.sign(userId, kind, now / 1000)
  }

  /** The presented token verifies as a refresh token, is stored and was never exchanged. */
  predicate Redeemable(ledger: map<string, RefreshRecord>, jwt: Jwt, token: string, now: int) {
    var claims := jwt.verify(token, now);
    claims.Some? && claims.value.kind == "refresh" && token in ledger && !ledger[token].used
  }

  /** generateRefreshToken as written: the minted token is stored as unspent, whatever was stored under it. */
  function IssueAsWritten(ledger: map<string, RefreshRecord>, jwt: Jwt, userId: string, now: int)
    : (r: (string, map<string, RefreshRecord>))
    ensures r.0 in r.1 && !r.1[r.0].used
  {
    var token := Minted(jwt, userId, "refresh", now);
    (token, ledger[token := RefreshRecord(userId, now, false)])
  }

  /** refreshAccessToken as written: spend the presented token, then mint a pair with IssueAsWritten. */
  function RefreshAsWritten(ledger: map<string, RefreshRecord>, jwt: Jwt, token: string, now: int): (r: Exchange)
    ensures r.result.Some? <==> Redeemable(ledger, jwt, token, now)
  {
    if !Redeemable(ledger, jwt, token, now) then Exchange(None, ledger)
    else
      var userId := jwt.verify(token, now).value.userId;
      var spent := ledger[token := ledger[token].(used := true)];
      var (refresh, after) := IssueAsWritten(spent, jwt, userId, now);
      Exchange(Some(TokenPair(Minted(jwt, userId, "access", now), refresh)), after)
  }

  /**
   * A user logs in and refreshes within the same second: the exchange mints
   * the very token it has just spent and stores it as unspent again, so the
   * same token is accepted a second time.
   */
  lemma SameSecondRefreshIsReplayable(ledger: map<string, RefreshRecord>, jwt: Jwt, userId: string, now: int)
    requires jwt.verify(Minted(jwt, userId, "refresh", now), now) == Some(Claims(userId, "refresh"))
    ensures
      var (token, issued) := IssueAsWritten(ledger, jwt, userId, now);
      var first := RefreshAsWritten(issued, jwt, token, now);
      first.result.Some? && RefreshAsWritten(first.ledger, jwt, token, now).result.Some?
  {
    var (token, issued) := IssueAsWritten(ledger, jwt, userId, now);
    assert Redeemable(issued, jwt, token, now);
    var first := RefreshAsWritten(issued, jwt, token, now);
    assert first.ledger[token] == RefreshRecord(userId, now, false);
    assert Redeemable(first.ledger, jwt, token, now);
  }

  /** generateRefreshToken keeping a stored record: a token already in the ledger is not reset. */
  function Issue(ledger: map<string, RefreshRecord>, jwt: Jwt, userId: string, now: int)
    : (r: (string, map<string, RefreshRecord>))
    ensures r.0 == Minted(jwt, userId, "refresh", now) && r.0 in r.1
    ensures r.0 !in ledger ==> r.1 == ledger[r.0 := RefreshRecord(userId, now, false)]
    ensures forall t :: t in ledger ==> t in r.1 && r.1[t] == ledger[t]
  {
    var token := Minted(jwt, userId, "refresh", now);
    if token in ledger then (token, ledger) else (token, ledger[token := RefreshRecord(userId, now, false)])
  }

  /**
   * refreshAccessToken: a redeemable token is spent and a new pair is minted;
   * anything else fails and changes nothing. A spent token stays spent, and
   * the presented token is spent after a success.
   */
  function Refresh(ledger: map<string, RefreshRecord>, jwt: Jwt, token: string, now: int): (r: Exchange)
    ensures r.result.Some? <==> Redeemable(ledger, jwt, token, now)
    ensures r.result.None? ==> r.ledger == ledger
    ensures r.result.Some? ==> token in r.ledger && r.ledger[token].used
    ensures forall t :: t in ledger && ledger[t].used ==> t in r.ledger && r.ledger[t].used
    ensures forall t :: t in ledger ==> t in r.ledger
  {
    if !Redeemable(ledger, jwt, token, now) then Exchange(None, ledger)
    else
      var userId := jwt.verify(token, now).value.userId;
      var spent := ledger[token := ledger[token].(used := true)];
      var (refresh, after) := Issue(spent, jwt, userId, now);
      Exchange(Some(TokenPair(Minted(jwt, userId, "access", now), refresh)), after)
  }

  /** A refresh token is exchanged at most once, at whatever time it is presented again. */
  lemma ExchangedAtMostOnce(ledger: map<string, RefreshRecord>, jwt: Jwt, token: string, now: int, later: int)
    requires Refresh(ledger, jwt, token, now).result.Some?
    ensures Refresh(Refresh(ledger, jwt, token, now).ledger, jwt, token, later).result.None?
  {
    var after := Refresh(ledger, jwt, token, now).ledger;
    assert !Redeemable(after, jwt, token, later);
  }

  /** The ledger after revokeRefreshToken: only that key is gone. */
  function Revoked(ledger: map<string, RefreshRecord>, token: string): (r: map<string, RefreshRecord>)
    ensures token !in r
    ensures forall t :: t != token ==> (t in r <==> t in ledger) && (t in r ==> r[t] == ledger[t])
  {
    ledger - {token}
  }

  // ------------------------------------------------------------ gates

  /** What a gate does with a request: pass it on, or answer with a status code and an error code. */
  datatype Gate = Next | Reject(status: nat, code: string)

  /** authorize(roles): the request's user (its role) if authenticated. */
  function Authorize(user: Option<User>, roles: seq<string>): (r: Gate)
    ensures r == Next <==> user.Some? && (roles == [] || user.value.role in roles)
    ensures user.None? ==> r == Reject(401, "NO_AUTH")
    ensures user.Some? && r != Next ==> r == Reject(403, "NO_PERMISSION")
  {
    if user.None? then Reject(401, "NO_AUTH")
    else if |roles| > 0 && user.value.role !in roles then Reject(403, "NO_PERMISSION")
    else Next
  }

  /** Widening the allowed roles never turns an admitted request away. */
  lemma MoreRolesAdmitMore(user: Option<User>, roles: seq<string>, more: seq<string>)
    requires Authorize(user, roles) == Next && roles != []
    ensures Authorize(user, roles + more) == Next
  {
    assert user.value.role in roles + more;
  }

  /** The submitted CSRF token: the header's if present, else the body's. */
  function SubmittedToken(header: string, body: string): string {
    if header != "" then header else body
  }

  /**
   * csrfProtection, given the stored token of the session: GET always
   * passes; a missing session or token is refused as absent; otherwise the
   * token must validate.
   */
  function CsrfGate(httpMethod: string, sessionId: string, token: string, stored: Option<CsrfToken>, now: int)
    : (r: Gate)
    ensures httpMethod == "GET" ==> r == Next
    ensures httpMethod != "GET" && (sessionId == "" || token == "") ==> r == Reject(403, "NO_CSRF_TOKEN")
    ensures r == Next <==>
      (httpMethod == "GET" ||
       (sessionId != "" && token != "" && CsrfVerdictOf(stored, token, now) == CsrfVerdict.Valid))
    ensures r != Next ==> r.status == 403
  {
    if httpMethod == "GET" then Next
    else if sessionId == "" || token == "" then Reject(403, "NO_CSRF_TOKEN")
    else if CsrfVerdictOf(stored, token, now) != CsrfVerdict.Valid then Reject(403, "INVALID_CSRF_TOKEN")
    else Next
  }

  /** Once a state-changing request has passed, the same token is refused for the next one. */
  lemma CsrfTokenIsNotReplayable(httpMethod: string, sessionId: string, token: string, stored: CsrfToken, now: int, later: int)
    requires httpMethod != "GET"
    requires CsrfGate(httpMethod, sessionId, token, Some(stored), now) == Next
    ensures CsrfGate(httpMethod, sessionId, token, Some(stored.(used := true)), later) == Reject(403, "INVALID_CSRF_TOKEN")
  {
  }

  /** What loginProtection does with a request. */
  datatype LoginGate = Proceed(clientIP: string) | Blocked(status: nat, code: string, remainingAttempts: nat)

  /** loginProtection, given whether the client's address is blocked. */
  function LoginProtection(ip: string, blocked: bool): (r: LoginGate)
    ensures r.Proceed? <==> !blocked
    ensures r.Proceed? ==> r.clientIP == ip
    ensures r.Blocked? ==> r == Blocked(429, "IP_BLOCKED", 0)
  {
    if blocked then Blocked(429, "IP_BLOCKED", 0) else Proceed(ip)
  }

  // ---------------------------------------------------------- event severity

  const KnownEvents: set<string> := {
    "login_success", "login_failure", "login_blocked", "token_invalid",
    "csrf_attack", "xss_attempt", "sql_injection", "unauthorized_access" }

  /** getEventSeverity: the fixed table, INFO for any other event. */
  function EventSeverity(event: string): (r: string)
    ensures r in {"INFO", "WARN", "ERROR", "CRITICAL"}
    ensures event !in KnownEvents ==> r == "INFO"
    ensures r == "CRITICAL" <==> event == "sql_injection"
    ensures r == "WARN" <==> event == "login_failure" || event == "token_invalid"
  {
    if event == "login_success" then "INFO"
    else if event == "login_failure" then "WARN"
    else if event == "login_blocked" then "ERROR"
    else if event == "token_invalid" then "WARN"
    else if event == "csrf_attack" then "ERROR"
    else if event == "xss_attempt" then "ERROR"
    else if event == "sql_injection" then "CRITICAL"
    else if event == "unauthorized_access" then "ERROR"
    else "INFO"
  }

  // ----------------------------------------------------------- middleware

  /** The middleware singleton: the session table and the refresh-token ledger. */
  class Middleware {
    var sessions: map<string, Session>
    var refreshTokens: map<string, RefreshRecord>
    const jwt: Jwt
    /** The validation utilities that hold the CSRF tokens and the blocked addresses. */
    const utils: Utils

    constructor (jwt: Jwt, utils: Utils)
      ensures this.jwt == jwt && this.utils == utils
      ensures sessions == map[] && refreshTokens == map[]
    {
      this.jwt := jwt;
      this.utils := utils;
      sessions := map[];
      refreshTokens := map[];
    }

    /**
     * createSession with the generated id and CSRF token passed in: issues
     * the session's CSRF token, stores the session, then sweeps the expired
     * sessions. The new session survives the sweep.
     */
    method CreateSession(user: User, ip: string, userAgent: string, sessionId: string, csrfToken: string, now: int)
      returns (id: string)
      modifies this`sessions, utils`csrfTokens
      ensures id == sessionId
      ensures sessionId in sessions &&
        sessions[sessionId] == Session(sessionId, user.id, user.username, user.role, ip, userAgent, now, now, csrfToken)
      ensures sessionId in utils.csrfTokens && utils.csrfTokens[sessionId] == CsrfToken(csrfToken, now, false)
      ensures forall s :: s != sessionId ==>
        (s in utils.csrfTokens <==> s in old(utils.csrfTokens) && !TokenExpired(old(utils.csrfTokens)[s], now))
      ensures forall s :: s in utils.csrfTokens && s != sessionId ==> utils.csrfTokens[s] == old(utils.csrfTokens)[s]
      ensures forall s :: s != sessionId ==>
        (s in sessions <==> s in old(sessions) && !SessionExpired(old(sessions)[s], now))
      ensures forall s :: s in sessions && s != sessionId ==> sessions[s] == old(sessions)[s]
    {
      var token := utils.GenerateCsrfToken(sessionId, csrfToken, now);
      sessions := sessions[sessionId := Session(sessionId, user.id, user.username, user.role, ip, userAgent, now, now, token)];
      CleanupExpiredSessions(now);
      id := sessionId;
    }

    /**
     * getSession: an idle session is deleted and not returned; a live one has
     * its activity time moved to now and is returned.
     */
    method GetSession(sessionId: string, now: int) returns (r: Option<Session>)
      modifies this`sessions
      ensures sessionId !in old(sessions) ==> r.None? && sessions == old(sessions)
      ensures sessionId in old(sessions) && SessionExpired(old(sessions)[sessionId], now) ==>
        r.None? && sessions == old(sessions) - {sessionId}
      ensures sessionId in old(sessions) && !SessionExpired(old(sessions)[sessionId], now) ==>
        r == Some(old(sessions)[sessionId].(lastActivity := now)) && sessions == old(sessions)[sessionId := r.value]
      ensures r.Some? ==> r.value.lastActivity == now && !SessionExpired(r.value, now + SessionIdle)
    {
      if sessionId !in sessions {
        return None;
      }
      var session := sessions[sessionId];
      if now - session.lastActivity > SessionIdle {
        sessions := sessions - {sessionId};
        return None;
      }
      session := session.(lastActivity := now);
      sessions := sessions[sessionId := session];
      r := Some(session);
    }

    /** destroySession. */
    method DestroySession(sessionId: string)
      modifies this`sessions
      ensures sessions == old(sessions) - {sessionId}
    {
      sessions := sessions - {sessionId};
    }

    /** cleanupExpiredSessions: deletes exactly the sessions idle for more than 24 hours. */
    method CleanupExpiredSessions(now: int)
      modifies this`sessions
      ensures sessions.Keys == set s | s in old(sessions) && !SessionExpired(old(sessions)[s], now)
      ensures forall s :: s in sessions ==> sessions[s] == old(sessions)[s]
    {
      sessions := Sweep(sessions, (s: Session) => SessionExpired(s, now));
    }

    /** generateRefreshToken, keeping any record already stored under the minted token. */
    method GenerateRefreshToken(userId: string, now: int) returns (token: string)
      modifies this`refreshTokens
      ensures (token, refreshTokens) == Issue(old(refreshTokens), jwt, userId, now)
    {
      token := jwt.sign(userId, "refresh", now / 1000);
      if token !in refreshTokens {
        refreshTokens := refreshTokens[token := RefreshRecord(userId, now, false)];
      }
    }

    /**
     * refreshAccessToken: verify, check the ledger, spend the token, mint the
     * new pair. A failure at any step answers nothing and changes nothing.
     */
    method RefreshAccessToken(token: string, now: int) returns (r: Option<TokenPair>)
      modifies this`refreshTokens
      ensures Exchange(r, refreshTokens) == Refresh(old(refreshTokens), jwt, token, now)
    {
      var decoded := jwt.verify(token, now);
      if decoded.None? || decoded.value.kind != "refresh" {
        return None;
      }
      if token !in refreshTokens || refreshTokens[token].used {
        return None;
      }
      refreshTokens := refreshTokens[token := refreshTokens[token].(used := true)];
      var access := jwt.sign(decoded.value.userId, "access", now / 1000);
      var refresh := GenerateRefreshToken(decoded.value.userId, now);
      r := Some(TokenPair(access, refresh));
    }

    /** revokeRefreshToken. */
    method RevokeRefreshToken(token: string)
      modifies this`refreshTokens
      ensures refreshTokens == Revoked(old(refreshTokens), token)
    {
      refreshTokens := refreshTokens - {token};
    }

    /**
     * csrfProtection against the stored tokens: the decision of CsrfGate,
     * with the token spent when a state-changing request passes.
     */
    method CsrfProtection(httpMethod: string, sessionId: string, headerToken: string, bodyToken: string, now: int)
      returns (r: Gate)
      modifies utils`csrfTokens
      ensures r == CsrfGate(httpMethod, sessionId, SubmittedToken(headerToken, bodyToken),
                            Find(old(utils.csrfTokens), sessionId), now)
      ensures httpMethod == "GET" || sessionId == "" || SubmittedToken(headerToken, bodyToken) == "" ==>
        utils.csrfTokens == old(utils.csrfTokens)
      ensures r == Next && httpMethod != "GET" ==>
        sessionId in old(utils.csrfTokens) &&
        utils.csrfTokens == old(utils.csrfTokens)[sessionId := old(utils.csrfTokens)[sessionId].(used := true)]
      ensures var token := SubmittedToken(headerToken, bodyToken);
        httpMethod != "GET" && sessionId != "" && token != "" &&
        CsrfVerdictOf(Find(old(utils.csrfTokens), sessionId), token, now) == Expired ==>
          r == Reject(403, "INVALID_CSRF_TOKEN") && utils.csrfTokens == old(utils.csrfTokens) - {sessionId}
      ensures var token := SubmittedToken(headerToken, bodyToken);
        CsrfVerdictOf(Find(old(utils.csrfTokens), sessionId), token, now) in {NoToken, AlreadyUsed, Mismatch} ==>
          utils.csrfTokens == old(utils.csrfTokens)
    {
      if httpMethod == "GET" {
        return Next;
      }
      var token := SubmittedToken(headerToken, bodyToken);
      if sessionId == "" || token == "" {
        return Reject(403, "NO_CSRF_TOKEN");
      }
      var ok := utils.ValidateCsrfToken(sessionId, token, now);
      if !ok {
        return Reject(403, "INVALID_CSRF_TOKEN");
      }
      r := Next;
    }

    /** loginProtection against the blocked addresses of the utilities. */
    function CheckLogin(ip: string): (r: LoginGate)
      reads utils
      ensures r.Proceed? <==> !utils.IsIPBlocked(ip)
    {
      LoginProtection(ip, utils.IsIPBlocked(ip))
    }
  }
}
