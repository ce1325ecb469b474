/**
 * The three auth endpoints (internal/handler/auth.go) as the browser sees
 * them: status, Set-Cookie lines, Location and body, plus the keyspace the
 * request leaves behind.
 */
module AuthHandler {
  import opened Wrappers
  import opened Errors
  import opened Store
  import opened Kv
  import opened Http
  import AuthService
  import AuthMiddleware
  import SessionStore
  import StateStore

  /** A response on the wire, the keyspace afterwards and the calls made. */
  datatype Served = Served(response: Writer, db: Db, effects: seq<AuthService.Effect>)

  const CallbackSuccessPath := "/auth-callback-success"

  /** The session cookie set at login: it lives as long as the store's default TTL. */
  function SessionCookie(deps: AuthService.Deps, sessionId: string): Cookie {
    Cookie("session_id", sessionId, "/", deps.sessions.defaultTtl, true, true, SameSiteLax)
  }

  /** The cookie that clears the session at logout. */
  const LogoutCookie := Cookie("session_id", "", "/", -1, true, true, SameSiteLax)

  /** `HandleLogin`: the provider's authorization URL as JSON, or a 500 when the state cannot be stored. */
  function HandleLogin(deps: AuthService.Deps, db: Db, freshState: string, now: int): (s: Served)
    ensures Status(s.response) == OK <==> SET !in db.failing
    ensures Status(s.response) != OK ==>
      && Status(s.response) == InternalServerError && s.response.body == [Text("Failed to prepare login" + "\n")]
      && s.db == db
    ensures Status(s.response) == OK ==>
      && WireHeader(s.response).contentType == Some(ApplicationJson)
      && s.response.body == [JsonObject("login_url", JsonString(deps.provider.authCodeUrl(freshState)))]
      && s.db == StateStore.SetState(db, freshState, now).value
    ensures s.effects == [AuthService.SetStateCall(freshState)]
  {
    var step := AuthService.PrepareLogin(deps, db, freshState, now);
    match step.result
    case Err(_) =>
      Served(Http.Error(Fresh, "Failed to prepare login", InternalServerError), step.db, step.effects)
    case Ok(url) => Served(WriteJson(Fresh, "login_url", JsonString(url)), step.db, step.effects)
  }

  /**
   * `HandleCallback` as written: after a failed callback it does not return,
   * so it goes on to add an (empty) session cookie and a redirect to a
   * response whose 401 status and header are already sent.
   */
  function HandleCallback(deps: AuthService.Deps, db: Db, code: string, state: string, freshSessionId: string, now: int): (s: Served)
    ensures var step := AuthService.HandleCallback(deps, db, code, state, freshSessionId, now);
      && s.db == step.db && s.effects == step.effects
      && (step.result.Ok? <==> Status(s.response) == Found)
      && (step.result.Err? <==> Status(s.response) == Unauthorized)
    ensures Status(s.response) == Found ==>
      && WireCookies(s.response) == [SessionCookie(deps, freshSessionId)]
      && WireHeader(s.response).location == Some(CallbackSuccessPath)
    ensures Status(s.response) == Unauthorized ==>
      && WireCookies(s.response) == [] && WireHeader(s.response).location.None?
      && s.response.body == [Text("Authentication failed" + "\n")]
      && s.db == db
  {
    var step := AuthService.HandleCallback(deps, db, code, state, freshSessionId, now);
    var w0 := if step.result.Err? then Http.Error(Fresh, "Authentication failed", Unauthorized) else Fresh;
    var sessionId := if step.result.Ok? then step.result.value else "";
    var w1 := SetCookie(w0, SessionCookie(deps, sessionId));
    Served(Redirect(w1, CallbackSuccessPath, Found), step.db, step.effects)
  }

  /**
   * The missing `return` after the 401 changes nothing on the wire: the
   * client sees exactly what `http.Error` alone would have sent, although
   * the handler's unsent header map does gain a cookie with an empty value.
   */
  lemma FailedCallbackIsJust401(deps: AuthService.Deps, db: Db, code: string, state: string, freshSessionId: string, now: int)
    requires AuthService.HandleCallback(deps, db, code, state, freshSessionId, now).result.Err?
    ensures var w := HandleCallback(deps, db, code, state, freshSessionId, now).response;
      var plain := Http.Error(Fresh, "Authentication failed", Unauthorized);
      && Status(w) == Status(plain) && WireHeader(w) == WireHeader(plain) && w.body == plain.body
      && w.header.cookies == [SessionCookie(deps, "")]
  {
    var plain := Http.Error(Fresh, "Authentication failed", Unauthorized);
    SentIsFinal(plain, SessionCookie(deps, ""), CallbackSuccessPath, "", 0, Found);
  }

  /**
   * A successful callback leaves the browser cookie and the stored bundle
   * with the same lifetime: the key expires when the cookie does, at the
   * bundle's absolute expiry.
   */
  lemma CallbackCookieMatchesSession(deps: AuthService.Deps, db: Db, code: string, state: string, freshSessionId: string, now: int)
    requires AuthService.HandleCallback(deps, db, code, state, freshSessionId, now).result.Ok?
    requires deps.sessions.defaultTtl > 0
    ensures var s := HandleCallback(deps, db, code, state, freshSessionId, now);
      var key := SessionStore.Key(freshSessionId);
      && key in s.db.entries
      && s.db.entries[key].expiry == At(now + WireCookies(s.response)[0].maxAge)
      && s.db.entries[key].payload.Encoded?
      && s.db.entries[key].payload.session.absoluteExpiry == now + WireCookies(s.response)[0].maxAge
  {
  }

  /**
   * What `r.Cookie("session_id")` reports. net/http only ever fails with
   * `ErrNoCookie`, so `CookieError` mirrors the handler's defensive branch
   * that no real request reaches.
   */
  datatype CookieLookup = NoCookie | CookieError | CookieValue(value: string)

  /**
   * `HandleLogout`: no cookie is a bare 200; a lookup error is 400; a logout
   * that fails is a 500 carrying the error text and leaves the cookie; a
   * logout that succeeds clears the cookie and returns the provider's
   * logout URL.
   */
  function HandleLogout(deps: AuthService.Deps, db: Db, cookie: CookieLookup, now: int): (s: Served)
    ensures cookie.NoCookie? ==> s == Served(WriteHeader(Fresh, OK), db, [])
    ensures cookie.CookieError? ==> Status(s.response) == BadRequest && s.db == db && s.effects == []
    ensures cookie.CookieValue? ==>
      var step := AuthService.PrepareLogout(deps, db, cookie.value, now);
      && s.db == step.db && s.effects == step.effects
      && (step.result.Err? ==>
            && Status(s.response) == InternalServerError && WireCookies(s.response) == []
            && s.response.body == [Text(Message(step.result.error) + "\n")])
      && (step.result.Ok? ==>
            && Status(s.response) == OK && WireCookies(s.response) == [LogoutCookie]
            && s.response.body == [JsonObject("logout_url", JsonUrl(step.result.value))])
  {
    match cookie
    case NoCookie => Served(WriteHeader(Fresh, OK), db, [])
    case CookieError => Served(Http.Error(Fresh, "Invalid cookie", BadRequest), db, [])
    case CookieValue(id) =>
      var step := AuthService.PrepareLogout(deps, db, id, now);
      match step.result
      case Err(e) => Served(Http.Error(Fresh, Message(e), InternalServerError), step.db, step.effects)
      case Ok(url) => Served(WriteJson(SetCookie(Fresh, LogoutCookie), "logout_url", JsonUrl(url)), step.db, step.effects)
  }

  /** After a successful logout the old cookie no longer opens anything: the guard redirects it to login. */
  lemma LogoutEndsSession(deps: AuthService.Deps, db: Db, sessionId: string, now: int, later: int, path: string)
    requires Status(HandleLogout(deps, db, CookieValue(sessionId), now).response) == OK
    requires GET !in db.failing
    ensures var after := HandleLogout(deps, db, CookieValue(sessionId), now).db;
      var req := AuthMiddleware.Request(path, Some(sessionId));
      AuthMiddleware.Authenticate(deps, after, req, later)
        == AuthMiddleware.Run(AuthMiddleware.Halt(AuthMiddleware.RedirectToLogin(path)), after, [], None)
  {
    var step := AuthService.PrepareLogout(deps, db, sessionId, now);
    assert step.result.Ok?;
    var after := step.db;
    GetAfterDel(db, SessionStore.Key(sessionId), later);
    AuthMiddleware.NoSessionRedirects(deps, after, AuthMiddleware.Request(path, Some(sessionId)), later);
  }
}
