/**
 * The request-time guard (internal/appmw/auth.go). For each protected
 * request: no cookie or no session redirects to login; a valid ID token
 * injects its claims; an expired one (the `exp` check of section 3.1.3.7 of
 * OpenID Connect Core 1.0) triggers one refresh, bounded by the bundle's
 * immutable absolute expiry; anything else redirects.
 */
module AuthMiddleware {
  import opened Wrappers
  import opened Errors
  import opened Domain
  import opened Store
  import opened Kv
  import opened Http
  import opened Oidc
  import opened AuthService
  import SessionStore

  /** The request-scoped identity handed to downstream handlers (the context values of appmw/context.go). */
  datatype Identity = Identity(userId: string, givenName: string, familyName: string, roles: seq<string>)

  /** What the guard reads from a request: its path and its `session_id` cookie, if any. */
  datatype Request = Request(path: string, sessionCookie: Option<string>)

  datatype Outcome = Forward(identity: Identity) | Halt(response: Writer)

  /**
   * One pass of the guard: what happens to the request, the keyspace
   * afterwards, the calls made, and the token a background user sync was
   * started with, if one was.
   */
  datatype Run = Run(outcome: Outcome, db: Db, effects: seq<Effect>, sync: Option<IdToken>)

  const LoginPath := "/auth/login"

  /** Stashes the requested path for five minutes. */
  function RedirectCookie(path: string): Cookie {
    Cookie("redirect_after_login", path, "/", 300, true, false, SameSiteDefault)
  }

  /** Clears the browser's session cookie. */
  const ClearedSessionCookie := Cookie("session_id", "", "/", -1, false, false, SameSiteDefault)

  /** `redirectToLogin`: stash the path, clear the session cookie, 302 to the login endpoint. */
  function RedirectToLogin(path: string): (w: Writer)
    ensures Status(w) == Found
    ensures WireHeader(w).location == Some(LoginPath)
    ensures WireCookies(w) == [RedirectCookie(path), ClearedSessionCookie]
  {
    Redirect(SetCookie(SetCookie(Fresh, RedirectCookie(path)), ClearedSessionCookie), LoginPath, Found)
  }

  /** The bundle after a refresh: the three tokens replaced, the absolute expiry carried over. */
  function Renewed(data: SessionData, token: OAuthToken, rawIdToken: string): (d: SessionData)
    ensures d.absoluteExpiry == data.absoluteExpiry
    ensures d.accessToken == token.accessToken && d.refreshToken == token.refreshToken && d.idToken == rawIdToken
  {
    data.(accessToken := token.accessToken, refreshToken := token.refreshToken, idToken := rawIdToken)
  }

  /** The errors `handleTokenRefresh` returns. */
  const RefreshFailedMsg := "failed to refresh token via service"
  const NoIdTokenMsg := "id_token not found in refreshed token response"
  const CeilingMsg := "sso session has expired based on absolute expiry time"
  const SaveFailedMsg := "failed to save refreshed session"
  const VerifyFailedMsg := "failed to verify newly refreshed token"

  datatype Refreshed = Refreshed(result: Result<IdToken, Error>, db: Db, effects: seq<Effect>)

  /**
   * `handleTokenRefresh`: refresh through the orchestrator; require an
   * `id_token`; past the absolute expiry delete the session (ignoring a
   * failed delete); otherwise save under the same id with the remaining
   * time as TTL, and only then verify the new ID token.
   */
  function HandleTokenRefresh(deps: Deps, db: Db, sessionId: string, data: SessionData, now: int): (r: Refreshed)
    ensures |r.effects| >= 1 && r.effects[0] == RefreshCall(data.refreshToken)
    ensures r.result.Ok? ==> now < data.absoluteExpiry
    ensures r.db.failing == db.failing
  {
    var calls := [RefreshCall(data.refreshToken)];
    match RefreshToken(deps.provider, data.refreshToken)
    case Err(e) => Refreshed(Err(Wrap(RefreshFailedMsg, e)), db, calls)
    case Ok(token) =>
      match token.idToken
      case None => Refreshed(Err(Failure(NoIdTokenMsg)), db, calls)
      case Some(raw) =>
        var updated := Renewed(data, token, raw);
        var remaining := data.absoluteExpiry - now;
        if remaining <= 0 then
          var db' := match SessionStore.DeleteSession(db, sessionId) case Ok(d) => d case Err(_) => db;
          Refreshed(Err(Failure(CeilingMsg)), db',
                    calls + [DeleteSessionCall(sessionId)])
        else
          var saveCalls := calls + [SaveSessionCall(sessionId, updated, [remaining])];
          match SessionStore.SaveSession(deps.sessions, db, sessionId, updated, [remaining], now)
          case Err(e) => Refreshed(Err(Wrap(SaveFailedMsg, e)), db, saveCalls)
          case Ok(db') =>
            match deps.provider.verify(raw)
            case Verified(t) => Refreshed(Ok(t), db', saveCalls)
            case Expired => Refreshed(Err(Wrap(VerifyFailedMsg, Failure("oidc: token is expired"))), db', saveCalls)
            case Invalid => Refreshed(Err(Wrap(VerifyFailedMsg, Failure("oidc: invalid token"))), db', saveCalls)
  }

  /** The response bodies the guard writes itself. */
  const ClaimsMsg := "Failed to parse token claims"
  const InternalMsg := "Internal Server Error"

  /** Injects the verified token's subject, names and roles, or answers 500 when its claims do not decode. */
  function Inject(token: IdToken): (o: Outcome)
    ensures token.claims.Some? <==> o.Forward?
    ensures o.Forward? ==> o.identity == Identity(token.subject, token.claims.value.givenName,
                                                  token.claims.value.familyName, token.claims.value.roles)
  {
    match token.claims
    case None => Halt(Http.Error(Fresh, ClaimsMsg, InternalServerError))
    case Some(c) => Forward(Identity(token.subject, c.givenName, c.familyName, c.roles))
  }

  /** `AuthMiddleware` for one request. */
  function Authenticate(deps: Deps, db: Db, req: Request, now: int): (r: Run)
    ensures r.outcome.Forward? ==> req.sessionCookie.Some?
    ensures r.db.failing == db.failing
  {
    match req.sessionCookie
    case None => Run(Halt(RedirectToLogin(req.path)), db, [], None)
    case Some(id) =>
      match SessionStore.GetSession(db, id, now)
      case Err(e) =>
        if e == SessionNotFound then Run(Halt(RedirectToLogin(req.path)), db, [], None)
        else Run(Halt(Http.Error(Fresh, InternalMsg, InternalServerError)), db, [], None)
      case Ok(data) =>
        match deps.provider.verify(data.idToken)
        case Verified(t) => Run(Inject(t), db, [], None)
        case Invalid => Run(Halt(RedirectToLogin(req.path)), db, [], None)
        case Expired =>
          var rf := HandleTokenRefresh(deps, db, id, data, now);
          match rf.result
          case Err(_) => Run(Halt(RedirectToLogin(req.path)), rf.db, rf.effects, None)
          case Ok(t) => Run(Inject(t), rf.db, rf.effects, Some(t))
  }

  /**
   * `syncUser`: the user a background sync writes, if any. It writes when
   * the user is unknown or any of id, e-mail, first or last name differs;
   * claims that fail `NewUser` validation, or a failing lookup, write nothing.
   */
  function SyncUser(token: IdToken, users: UserStore): (w: Option<User>)
    ensures w.Some? <==>
      && token.claims.Some?
      && NewUser(token.subject, token.claims.value.email, token.claims.value.givenName, token.claims.value.familyName).Ok?
      && match users.findById(token.subject)
         case Err(e) => Is(e, UserNotFound)
         case Ok(existing) => existing != NewUser(token.subject, token.claims.value.email,
                                                  token.claims.value.givenName, token.claims.value.familyName).value
    ensures w.Some? ==> token.claims.Some? && ValidUser(w.value) && w.value.id == token.subject
    ensures w.Some? ==> w.value == NewUser(token.subject, token.claims.value.email,
                                           token.claims.value.givenName, token.claims.value.familyName).value
  {
    match token.claims
    case None => None
    case Some(c) =>
      match NewUser(token.subject, c.email, c.givenName, c.familyName)
      case Err(_) => None
      case Ok(candidate) =>
        match users.findById(token.subject)
        case Err(e) => if Is(e, UserNotFound) then Some(candidate) else None
        case Ok(existing) =>
          if candidate.id != existing.id || candidate.email != existing.email
             || candidate.firstName != existing.firstName || candidate.lastName != existing.lastName
          then Some(candidate)
          else None
  }

  /** Once the store holds what a sync wrote, syncing the same token again writes nothing. */
  lemma SyncUserSettles(token: IdToken, users: UserStore, users': UserStore)
    requires SyncUser(token, users).Some?
    requires users'.findById(token.subject) == Ok(SyncUser(token, users).value)
    ensures SyncUser(token, users') == None
  {
  }

  /** Every key but `key` reads as before, and the same commands fail. */
  ghost predicate OnlyTouches(db: Db, db': Db, key: string) {
    && db'.failing == db.failing
    && (forall k | k != key :: k in db'.entries <==> k in db.entries)
    && (forall k | k != key && k in db.entries :: db'.entries[k] == db.entries[k])
  }

  /** The bundle a request's cookie names, when the store returns one. */
  predicate Readable(db: Db, req: Request, now: int) {
    req.sessionCookie.Some? && SessionStore.GetSession(db, req.sessionCookie.value, now).Ok?
  }

  function Bundle(db: Db, req: Request, now: int): SessionData
    requires Readable(db, req, now)
  {
    SessionStore.GetSession(db, req.sessionCookie.value, now).value
  }

  /** No cookie, or a cookie naming no live session: redirect, write nothing, call nothing. */
  lemma NoSessionRedirects(deps: Deps, db: Db, req: Request, now: int)
    requires req.sessionCookie.None?
          || SessionStore.GetSession(db, req.sessionCookie.value, now) == Err(SessionNotFound)
    ensures Authenticate(deps, db, req, now) == Run(Halt(RedirectToLogin(req.path)), db, [], None)
  {
  }

  /** Any other store failure is a bare 500: no redirect, no cookie changes, nothing written. */
  lemma StoreFailureIs500(deps: Deps, db: Db, req: Request, now: int)
    requires req.sessionCookie.Some?
    requires SessionStore.GetSession(db, req.sessionCookie.value, now).Err?
    requires SessionStore.GetSession(db, req.sessionCookie.value, now) != Err(SessionNotFound)
    ensures var r := Authenticate(deps, db, req, now);
      && r.outcome.Halt? && Status(r.outcome.response) == InternalServerError
      && WireHeader(r.outcome.response).location.None? && WireCookies(r.outcome.response) == []
      && r.db == db && r.effects == [] && r.sync.None?
  {
  }

  /** A stored ID token that verifies is used as is: no refresh, no write, no sync. */
  lemma ValidTokenForwards(deps: Deps, db: Db, req: Request, now: int)
    requires Readable(db, req, now)
    requires deps.provider.verify(Bundle(db, req, now).idToken).Verified?
    ensures Authenticate(deps, db, req, now)
         == Run(Inject(deps.provider.verify(Bundle(db, req, now).idToken).token), db, [], None)
  {
  }

  /** A stored ID token that fails verification, other than by expiry, redirects: no refresh, no write, no sync. */
  lemma InvalidTokenRedirects(deps: Deps, db: Db, req: Request, now: int)
    requires Readable(db, req, now)
    requires deps.provider.verify(Bundle(db, req, now).idToken).Invalid?
    ensures Authenticate(deps, db, req, now) == Run(Halt(RedirectToLogin(req.path)), db, [], None)
  {
  }

  /** The provider's refresh grant is used exactly when the stored ID token has expired, and then first. */
  lemma OnlyExpiredTokensRefresh(deps: Deps, db: Db, req: Request, now: int)
    ensures var r := Authenticate(deps, db, req, now);
      && (r.effects != [] <==> Readable(db, req, now) && deps.provider.verify(Bundle(db, req, now).idToken).Expired?)
      && (r.effects != [] ==> r.effects[0] == RefreshCall(Bundle(db, req, now).refreshToken))
  {
  }

  /** A failed refresh grant, or one without an ID token, redirects and writes nothing. */
  lemma FailedRefreshRedirects(deps: Deps, db: Db, req: Request, now: int)
    requires Readable(db, req, now)
    requires deps.provider.verify(Bundle(db, req, now).idToken).Expired?
    requires var t := RefreshToken(deps.provider, Bundle(db, req, now).refreshToken); t.Err? || t.value.idToken.None?
    ensures Authenticate(deps, db, req, now)
         == Run(Halt(RedirectToLogin(req.path)), db, [RefreshCall(Bundle(db, req, now).refreshToken)], None)
  {
  }

  /**
   * At or past the absolute expiry a successful refresh is thrown away: the
   * session is deleted (when the delete goes through) and never saved.
   */
  lemma CeilingDeletesSession(deps: Deps, db: Db, req: Request, now: int, later: int)
    requires Readable(db, req, now)
    requires deps.provider.verify(Bundle(db, req, now).idToken).Expired?
    requires var t := RefreshToken(deps.provider, Bundle(db, req, now).refreshToken); t.Ok? && t.value.idToken.Some?
    requires Bundle(db, req, now).absoluteExpiry <= now
    ensures var r := Authenticate(deps, db, req, now);
      && r.outcome == Halt(RedirectToLogin(req.path))
      && r.effects == [RefreshCall(Bundle(db, req, now).refreshToken), DeleteSessionCall(req.sessionCookie.value)]
      && r.sync.None?
      && (DEL in db.failing ==> r.db == db)
      && (DEL !in db.failing && GET !in db.failing ==>
            SessionStore.GetSession(r.db, req.sessionCookie.value, later) == Err(SessionNotFound))
  {
    var id := req.sessionCookie.value;
    if DEL !in db.failing && GET !in db.failing {
      GetAfterDel(db, SessionStore.Key(id), later);
    }
  }

  /**
   * The save branch of `handleTokenRefresh`: the renewed bundle is saved
   * with the remaining time as TTL, and the new ID token is verified only
   * after a save that went through.
   */
  lemma RefreshSaves(deps: Deps, db: Db, id: string, data: SessionData, now: int)
    requires var t := RefreshToken(deps.provider, data.refreshToken); t.Ok? && t.value.idToken.Some?
    requires now < data.absoluteExpiry
    ensures var token := RefreshToken(deps.provider, data.refreshToken).value;
      var renewed := Renewed(data, token, token.idToken.value);
      var rf := HandleTokenRefresh(deps, db, id, data, now);
      && rf.effects == [RefreshCall(data.refreshToken), SaveSessionCall(id, renewed, [data.absoluteExpiry - now])]
      && (SET in db.failing ==> rf.db == db && rf.result.Err?)
      && (SET !in db.failing ==>
            && rf.db == Set(db, SessionStore.Key(id), Encoded(renewed), data.absoluteExpiry - now, now).value
            && (rf.result.Ok? <==> deps.provider.verify(token.idToken.value).Verified?)
            && (rf.result.Ok? ==> rf.result.value == deps.provider.verify(token.idToken.value).token))
  {
    var token := RefreshToken(deps.provider, data.refreshToken).value;
    var renewed := Renewed(data, token, token.idToken.value);
    var w := SessionStore.Stamp(deps.sessions, renewed, [data.absoluteExpiry - now], now);
    assert w == SessionStore.Write(renewed, data.absoluteExpiry - now);
  }

  /**
   * Before the absolute expiry a successful refresh saves the renewed bundle
   * exactly once, under the same session id, with the remaining time as
   * TTL, so the key expires at the absolute expiry; it does so before the
   * new ID token is verified, and a token that then fails verification
   * still redirects.
   */
  lemma RefreshSavesOnce(deps: Deps, db: Db, req: Request, now: int)
    requires Readable(db, req, now)
    requires deps.provider.verify(Bundle(db, req, now).idToken).Expired?
    requires var t := RefreshToken(deps.provider, Bundle(db, req, now).refreshToken); t.Ok? && t.value.idToken.Some?
    requires now < Bundle(db, req, now).absoluteExpiry
    ensures var data := Bundle(db, req, now);
      var token := RefreshToken(deps.provider, data.refreshToken).value;
      var renewed := Renewed(data, token, token.idToken.value);
      var r := Authenticate(deps, db, req, now);
      && r.effects == [RefreshCall(data.refreshToken),
                       SaveSessionCall(req.sessionCookie.value, renewed, [data.absoluteExpiry - now])]
      && (SET in db.failing ==> r == Run(Halt(RedirectToLogin(req.path)), db, r.effects, None))
      && (SET !in db.failing ==>
            && OnlyTouches(db, r.db, SessionStore.Key(req.sessionCookie.value))
            && SessionStore.Key(req.sessionCookie.value) in r.db.entries
            && r.db.entries[SessionStore.Key(req.sessionCookie.value)] == Entry(Encoded(renewed), At(data.absoluteExpiry))
            && match deps.provider.verify(token.idToken.value)
               case Verified(t) => r.outcome == Inject(t) && r.sync == Some(t)
               case _ => r.outcome == Halt(RedirectToLogin(req.path)) && r.sync.None?)
  {
    var data := Bundle(db, req, now);
    RefreshSaves(deps, db, req.sessionCookie.value, data, now);
  }

  /**
   * Whatever happens, a request changes at most its own session's key, and
   * the bundle left there keeps the absolute expiry it was read with.
   */
  lemma GuardKeepsCeiling(deps: Deps, db: Db, req: Request, now: int)
    ensures var r := Authenticate(deps, db, req, now);
      && (req.sessionCookie.None? ==> r.db == db)
      && (req.sessionCookie.Some? ==> OnlyTouches(db, r.db, SessionStore.Key(req.sessionCookie.value)))
      && (Readable(db, req, now) && SessionStore.Key(req.sessionCookie.value) in r.db.entries ==>
            r.db.entries[SessionStore.Key(req.sessionCookie.value)].payload.Encoded? &&
            r.db.entries[SessionStore.Key(req.sessionCookie.value)].payload.session.absoluteExpiry
              == Bundle(db, req, now).absoluteExpiry)
  {
    if req.sessionCookie.Some? {
      var id := req.sessionCookie.value;
      match SessionStore.GetSession(db, id, now)
      case Err(_) =>
      case Ok(data) =>
        if deps.provider.verify(data.idToken).Expired? {
          RefreshKeepsCeiling(deps, db, id, data, now);
        }
    }
  }

  /** The refresh path changes only its own key, and leaves there a bundle with the same absolute expiry, or nothing. */
  lemma RefreshKeepsCeiling(deps: Deps, db: Db, id: string, data: SessionData, now: int)
    requires SessionStore.GetSession(db, id, now) == Ok(data)
    ensures var rf := HandleTokenRefresh(deps, db, id, data, now);
      && OnlyTouches(db, rf.db, SessionStore.Key(id))
      && (SessionStore.Key(id) in rf.db.entries ==>
            rf.db.entries[SessionStore.Key(id)].payload.Encoded? &&
            rf.db.entries[SessionStore.Key(id)].payload.session.absoluteExpiry == data.absoluteExpiry)
  {
    match RefreshToken(deps.provider, data.refreshToken)
    case Err(_) =>
    case Ok(token) =>
      match token.idToken
      case None =>
      case Some(raw) =>
        if data.absoluteExpiry - now > 0 {
          var updated := Renewed(data, token, raw);
          var w := SessionStore.Stamp(deps.sessions, updated, [data.absoluteExpiry - now], now);
          assert w.data == updated;
        }
  }
}
