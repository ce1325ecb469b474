/**
 * The session lifecycle across requests: login, callback, guarded requests
 * and logout, replayed over one keyspace. The invariant is that every stored
 * bundle expires from the store exactly at its absolute expiry, so no
 * session is ever readable past its SSO maximum lifespan, however often it
 * is refreshed.
 */
module Lifecycle {
  import opened Wrappers
  import opened Errors
  import opened Store
  import opened Kv
  import opened Oidc
  import opened Http
  import AuthService
  import AuthMiddleware
  import AuthHandler
  import SessionStore
  import StateStore
  import Keyspace

  /** Every stored bundle's key expires at the bundle's absolute expiry. */
  ghost predicate SessionsBounded(db: Db) {
    forall k | k in db.entries && db.entries[k].payload.Encoded? ::
      db.entries[k].expiry == At(db.entries[k].payload.session.absoluteExpiry)
  }

  /** Under the invariant, a bundle can only be read strictly before its absolute expiry. */
  lemma ReadableBeforeCeiling(db: Db, sessionId: string, now: int)
    requires SessionsBounded(db)
    requires SessionStore.GetSession(db, sessionId, now).Ok?
    ensures now < SessionStore.GetSession(db, sessionId, now).value.absoluteExpiry
  {
    var k := SessionStore.Key(sessionId);
    assert db.entries[k].payload.Encoded?;
  }

  /** A write keeps the invariant when it stores a raw string, or a bundle expiring at its absolute expiry. */
  lemma SetKeepsBounded(db: Db, key: string, payload: Payload, ttl: int, now: int)
    requires SessionsBounded(db)
    requires Set(db, key, payload, ttl, now).Ok?
    requires payload.Encoded? ==> ExpiryFor(ttl, now) == At(payload.session.absoluteExpiry)
    ensures SessionsBounded(Set(db, key, payload, ttl, now).value)
  {
    var db' := Set(db, key, payload, ttl, now).value;
    forall k | k in db'.entries && db'.entries[k].payload.Encoded?
      ensures db'.entries[k].expiry == At(db'.entries[k].payload.session.absoluteExpiry)
    {
      if k != key {
        assert db'.entries[k] == db.entries[k];
      }
    }
  }

  lemma DelKeepsBounded(db: Db, key: string)
    requires SessionsBounded(db)
    requires Del(db, key).Ok?
    ensures SessionsBounded(Del(db, key).value)
  {
    var db' := Del(db, key).value;
    forall k | k in db'.entries && db'.entries[k].payload.Encoded?
      ensures db'.entries[k].expiry == At(db'.entries[k].payload.session.absoluteExpiry)
    {
      assert db'.entries[k] == db.entries[k];
    }
  }

  /** A login writes only its CSRF state. */
  lemma LoginKeepsBounded(deps: AuthService.Deps, db: Db, freshState: string, now: int)
    requires SessionsBounded(db)
    ensures SessionsBounded(AuthHandler.HandleLogin(deps, db, freshState, now).db)
  {
    if SET !in db.failing {
      SetKeepsBounded(db, StateStore.Key(freshState), Raw(freshState), StateStore.StateTtl, now);
    }
  }

  /** A callback stamps the new bundle's absolute expiry and expires its key at that instant. */
  lemma CallbackKeepsBounded(deps: AuthService.Deps, db: Db, code: string, state: string, freshSessionId: string, now: int)
    requires SessionsBounded(db)
    requires deps.sessions.defaultTtl > 0
    ensures SessionsBounded(AuthHandler.HandleCallback(deps, db, code, state, freshSessionId, now).db)
  {
    var step := AuthService.HandleCallback(deps, db, code, state, freshSessionId, now);
    if step.result.Ok? {
      var login := AuthService.Authorize(deps.provider, code).value;
      var w := SessionStore.Stamp(deps.sessions, AuthService.NewBundle(login), [], now);
      SetKeepsBounded(db, SessionStore.Key(freshSessionId), Encoded(w.data), w.ttl, now);
    }
  }

  /** A refresh saves with the remaining time as TTL, so the key still expires at the absolute expiry. */
  lemma RefreshKeepsBounded(deps: AuthService.Deps, db: Db, id: string, data: SessionData, now: int)
    requires SessionsBounded(db)
    ensures SessionsBounded(AuthMiddleware.HandleTokenRefresh(deps, db, id, data, now).db)
  {
    match AuthService.RefreshToken(deps.provider, data.refreshToken)
    case Err(_) =>
    case Ok(token) =>
      match token.idToken
      case None =>
      case Some(raw) =>
        var remaining := data.absoluteExpiry - now;
        if remaining <= 0 {
          if DEL !in db.failing {
            DelKeepsBounded(db, SessionStore.Key(id));
          }
        } else if SET !in db.failing {
          AuthMiddleware.RefreshSaves(deps, db, id, data, now);
          SetKeepsBounded(db, SessionStore.Key(id), Encoded(AuthMiddleware.Renewed(data, token, raw)), remaining, now);
        }
  }

  /** Only the refresh path of the guard writes. */
  lemma GuardKeepsBounded(deps: AuthService.Deps, db: Db, req: AuthMiddleware.Request, now: int)
    requires SessionsBounded(db)
    ensures SessionsBounded(AuthMiddleware.Authenticate(deps, db, req, now).db)
  {
    if req.sessionCookie.Some? {
      var id := req.sessionCookie.value;
      match SessionStore.GetSession(db, id, now)
      case Err(_) =>
      case Ok(data) =>
        if deps.provider.verify(data.idToken).Expired? {
          RefreshKeepsBounded(deps, db, id, data, now);
        }
    }
  }

  /** A logout only deletes. */
  lemma LogoutKeepsBounded(deps: AuthService.Deps, db: Db, cookie: AuthHandler.CookieLookup, now: int)
    requires SessionsBounded(db)
    ensures SessionsBounded(AuthHandler.HandleLogout(deps, db, cookie, now).db)
  {
    if cookie.CookieValue? && DEL !in db.failing {
      DelKeepsBounded(db, SessionStore.Key(cookie.value));
    }
  }

  /** One request against the backend, at a given Unix time. */
  datatype Action =
    | BeginLogin(freshState: string)
    | Callback(code: string, state: string, freshSessionId: string)
    | Guarded(req: AuthMiddleware.Request)
    | Logout(cookie: AuthHandler.CookieLookup)

  datatype Event = Event(action: Action, at: int)

  /** The keyspace after one request. */
  function Apply(deps: AuthService.Deps, db: Db, e: Event): Db {
    match e.action
    case BeginLogin(s) => AuthHandler.HandleLogin(deps, db, s, e.at).db
    case Callback(code, state, id) => AuthHandler.HandleCallback(deps, db, code, state, id, e.at).db
    case Guarded(req) => AuthMiddleware.Authenticate(deps, db, req, e.at).db
    case Logout(cookie) => AuthHandler.HandleLogout(deps, db, cookie, e.at).db
  }

  /** The keyspace after a sequence of requests, served one at a time. */
  function Replay(deps: AuthService.Deps, db: Db, events: seq<Event>): Db
    decreases |events|
  {
    if events == [] then db else Replay(deps, Apply(deps, db, events[0]), events[1..])
  }

  lemma ApplyKeepsBounded(deps: AuthService.Deps, db: Db, e: Event)
    requires SessionsBounded(db)
    requires deps.sessions.defaultTtl > 0
    ensures SessionsBounded(Apply(deps, db, e))
  {
    match e.action
    case BeginLogin(s) => LoginKeepsBounded(deps, db, s, e.at);
    case Callback(code, state, id) => CallbackKeepsBounded(deps, db, code, state, id, e.at);
    case Guarded(req) => GuardKeepsBounded(deps, db, req, e.at);
    case Logout(cookie) => LogoutKeepsBounded(deps, db, cookie, e.at);
  }

  /** Every request keeps the invariant, in any order and at any times. */
  lemma {:induction false} ReplayKeepsBounded(deps: AuthService.Deps, db: Db, events: seq<Event>)
    requires SessionsBounded(db)
    requires deps.sessions.defaultTtl > 0
    ensures SessionsBounded(Replay(deps, db, events))
    decreases |events|
  {
    if events != [] {
      ApplyKeepsBounded(deps, db, events[0]);
      ReplayKeepsBounded(deps, Apply(deps, db, events[0]), events[1..]);
    }
  }

  /**
   * The SSO maximum lifespan is a hard ceiling: starting from an empty
   * keyspace, whatever requests are served, no session is readable at or
   * after its absolute expiry.
   */
  lemma NoSessionOutlivesCeiling(deps: AuthService.Deps, failing: set<Command>, events: seq<Event>, sessionId: string, t: int)
    requires deps.sessions.defaultTtl > 0
    requires SessionStore.GetSession(Replay(deps, Db(map[], failing), events), sessionId, t).Ok?
    ensures t < SessionStore.GetSession(Replay(deps, Db(map[], failing), events), sessionId, t).value.absoluteExpiry
  {
    ReplayKeepsBounded(deps, Db(map[], failing), events);
    ReadableBeforeCeiling(Replay(deps, Db(map[], failing), events), sessionId, t);
  }

  /**
   * The callback reads the CSRF state and never deletes it: after a
   * successful callback the same state still passes the check, so it can
   * be replayed until its TTL lapses.
   */
  lemma StateStaysUsable(deps: AuthService.Deps, db: Db, code: string, state: string, freshSessionId: string, now: int)
    requires AuthService.HandleCallback(deps, db, code, state, freshSessionId, now).result.Ok?
    ensures AuthService.CheckState(AuthService.HandleCallback(deps, db, code, state, freshSessionId, now).db, state, now).Pass?
  {
    var login := AuthService.Authorize(deps.provider, code).value;
    Keyspace.SessionWritesInvisibleToStates(deps.sessions, db, freshSessionId, AuthService.NewBundle(login), [], now, state, now);
  }

  /** A state used after its five minutes fails as not-found, before any exchange or write. */
  lemma ExpiredStateRejected(deps: AuthService.Deps, db: Db, state: string, issuedAt: int, code: string, freshSessionId: string, now: int)
    requires StateStore.SetState(db, state, issuedAt).Ok?
    requires GET !in db.failing
    requires now >= issuedAt + StateStore.StateTtl
    ensures var issued := StateStore.SetState(db, state, issuedAt).value;
      var r := AuthService.HandleCallback(deps, issued, code, state, freshSessionId, now);
      && r.result.Err? && Is(r.result.error, StateNotFound)
      && r.db == issued && r.effects == []
  {
    StateStore.SetThenExpire(db, state, issuedAt, now);
  }

  /** A state that was never issued fails as not-found and creates no session. */
  lemma UnissuedStateRejected(deps: AuthService.Deps, db: Db, code: string, state: string, freshSessionId: string, now: int)
    requires GET !in db.failing
    requires StateStore.Key(state) !in db.entries
    ensures var r := AuthService.HandleCallback(deps, db, code, state, freshSessionId, now);
      && r.result.Err? && Is(r.result.error, StateNotFound)
      && r.db == db && r.effects == []
  {
  }

  // A concrete provider for the end-to-end scenarios: code "code1" yields
  // tokens a1/r1/idtok1; refresh token "r0" yields a2/r2/idtok2; "idtok0"
  // has expired.

  const AdminClaims := IdTokenClaims("ann@example.com", "Ann", "Lee", ["admin"])
  const UserClaims := IdTokenClaims("ann@example.com", "Ann", "Lee", ["user"])

  function StubVerify(raw: string): Verification {
    if raw == "idtok1" then Verified(IdToken("u1", Some(AdminClaims)))
    else if raw == "idtok2" then Verified(IdToken("u1", Some(UserClaims)))
    else if raw == "idtok0" then Expired
    else Invalid
  }

  function StubExchange(code: string): Option<OAuthToken> {
    if code == "code1" then Some(OAuthToken("a1", "r1", Some("idtok1"))) else None
  }

  function StubRefresh(refreshToken: string): Option<OAuthToken> {
    if refreshToken == "r0" then Some(OAuthToken("a2", "r2", Some("idtok2"))) else None
  }

  const MaxLifespan := 3600

  const StubDeps := AuthService.Deps(
    Provider(StubVerify, StubExchange, StubRefresh, (s: string) => "https://idp.example/auth?state=" + s,
             Some(Url("https://idp.example/logout", map[]))),
    UserStore((id: string) => Err(UserNotFound), (u: Domain.User) => Outcome.Pass),
    SessionStore.Config(MaxLifespan),
    "https://app.example")

  /**
   * Issue state "s1", then complete the callback with "code1": a new session
   * id comes back and the store holds the exchanged tokens with the absolute
   * expiry stamped at callback time plus the maximum lifespan.
   */
  lemma LoginScenario()
    ensures var issued := AuthService.PrepareLogin(StubDeps, Db(map[], {}), "s1", 1000).db;
      var cb := AuthService.HandleCallback(StubDeps, issued, "code1", "s1", "sid1", 1010);
      && cb.result == Ok("sid1")
      && SessionStore.GetSession(cb.db, "sid1", 1010) == Ok(SessionData("a1", "r1", "idtok1", 1010 + MaxLifespan))
  {
    var issued := AuthService.PrepareLogin(StubDeps, Db(map[], {}), "s1", 1000).db;
    StateStore.SetThenGet(Db(map[], {}), "s1", 1000, 1010);
    var login := AuthService.Authorize(StubDeps.provider, "code1").value;
    assert AuthService.NewBundle(login) == SessionData("a1", "r1", "idtok1", 0);
    SessionStore.SaveThenGet(StubDeps.sessions, issued, "sid1", AuthService.NewBundle(login), [], 1010, 1010);
  }

  /**
   * A session whose ID token has expired, with 10 seconds left before its
   * absolute expiry: the guard refreshes once, saves once under the same id
   * with a 10-second TTL, and forwards the identity of the new token.
   */
  lemma RefreshScenario()
    ensures var db := Db(map[SessionStore.Key("sid0") := Entry(Encoded(SessionData("a0", "r0", "idtok0", 2000)), At(2000))], {});
      var r := AuthMiddleware.Authenticate(StubDeps, db, AuthMiddleware.Request("/tasks", Some("sid0")), 1990);
      && r.effects == [AuthService.RefreshCall("r0"),
                       AuthService.SaveSessionCall("sid0", SessionData("a2", "r2", "idtok2", 2000), [10])]
      && r.outcome == AuthMiddleware.Forward(AuthMiddleware.Identity("u1", "Ann", "Lee", ["user"]))
      && r.sync == Some(IdToken("u1", Some(UserClaims)))
      && SessionStore.GetSession(r.db, "sid0", 1999) == Ok(SessionData("a2", "r2", "idtok2", 2000))
      && SessionStore.GetSession(r.db, "sid0", 2000) == Err(SessionNotFound)
  {
    var db := Db(map[SessionStore.Key("sid0") := Entry(Encoded(SessionData("a0", "r0", "idtok0", 2000)), At(2000))], {});
    var req := AuthMiddleware.Request("/tasks", Some("sid0"));
    assert SessionStore.GetSession(db, "sid0", 1990) == Ok(SessionData("a0", "r0", "idtok0", 2000));
    AuthMiddleware.RefreshSavesOnce(StubDeps, db, req, 1990);
  }
}
