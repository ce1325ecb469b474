/**
 * The session orchestrator (internal/service/auth.go): prepare-login,
 * the authorization-code callback, the refresh grant and prepare-logout.
 *
 * Every operation returns its result, the keyspace afterwards, and the
 * outside calls it made in order (provider calls and store writes), so that
 * "fails before any exchange" or "exactly one save" can be stated.
 * `freshState` and `freshSessionId` stand for `uuid.NewString()`.
 */
module AuthService {
  import opened Wrappers
  import opened Errors
  import opened Domain
  import opened Store
  import opened Kv
  import opened Http
  import opened Oidc
  import SessionStore
  import StateStore

  datatype Effect =
    | SetStateCall(state: string)
    | ExchangeCall(code: string)
    | RefreshCall(refreshToken: string)
    | SaveUserCall(user: User)
    | SaveSessionCall(sessionId: string, data: SessionData, ttl: seq<int>)
    | DeleteSessionCall(sessionId: string)

  datatype Deps = Deps(provider: Provider, users: UserStore, sessions: SessionStore.Config, appPublicUrl: string)

  datatype Step<T> = Step(result: Result<T, Error>, db: Db, effects: seq<Effect>)

  // ---- prepare-login --------------------------------------------------------

  /** `PrepareLogin`: persist a fresh state, then hand out the provider's authorization URL for it. */
  function PrepareLogin(deps: Deps, db: Db, freshState: string, now: int): (r: Step<string>)
    ensures r.effects == [SetStateCall(freshState)]
    ensures r.result.Ok? <==> StateStore.SetState(db, freshState, now).Ok?
    ensures r.result.Ok? ==> r.result.value == deps.provider.authCodeUrl(freshState)
    ensures r.result.Ok? ==> r.db == StateStore.SetState(db, freshState, now).value
    ensures r.result.Err? ==> r.db == db
  {
    match StateStore.SetState(db, freshState, now)
    case Err(e) => Step(Err(Wrap("failed to set state", e)), db, [SetStateCall(freshState)])
    case Ok(db') => Step(Ok(deps.provider.authCodeUrl(freshState)), db', [SetStateCall(freshState)])
  }

  /** A URL handed out by `PrepareLogin` refers to a state that reads back for five minutes. */
  lemma PrepareLoginPersistsState(deps: Deps, db: Db, freshState: string, now: int, later: int)
    requires PrepareLogin(deps, db, freshState, now).result.Ok?
    requires GET !in db.failing
    requires later < now + StateStore.StateTtl
    ensures StateStore.GetState(PrepareLogin(deps, db, freshState, now).db, freshState, later) == Ok(freshState)
  {
    StateStore.SetThenGet(db, freshState, now, later);
  }

  // ---- callback -------------------------------------------------------------

  /** The state check of `HandleCallback`: it passes only when the state reads back as itself. */
  function CheckState(db: Db, state: string, now: int): (r: Outcome<Error>)
    ensures r.Pass? <==> StateStore.GetState(db, state, now) == Ok(state)
    ensures StateStore.GetState(db, state, now) == Err(StateNotFound) ==> r.Fail? && Is(r.error, StateNotFound)
  {
    match StateStore.GetState(db, state, now)
    case Err(e) =>
      if e == StateNotFound then Fail(Wrap("state not found", e)) else Fail(Wrap("failed to get state", e))
    case Ok(stored) =>
      if stored != state then Fail(Failure("failed to get state: %!w(<nil>)")) else Pass
  }

  /** What a successful code exchange yields: the provider's tokens, the raw ID token, and the user it names. */
  datatype Login = Login(token: OAuthToken, rawIdToken: string, user: User)

  /** The errors the provider half of `HandleCallback` returns. */
  const ExchangeFailedMsg := "failed to exchange code for token"
  const NoIdTokenMsg := "id_token not found in token response"
  const VerifyFailedMsg := "failed to verify id_token immediately after exchange"
  const ClaimsFailedMsg := "failed to parse token claims"

  /** The provider half of `HandleCallback`: exchange, require an `id_token`, verify it, build the user. */
  function Authorize(provider: Provider, code: string): (r: Result<Login, Error>)
    ensures provider.exchange(code).None? ==> r.Err?
    ensures provider.exchange(code).Some? && provider.exchange(code).value.idToken.None? ==> r.Err?
    ensures r.Ok? ==> var tok := provider.exchange(code).value;
      && provider.exchange(code).Some?
      && tok == r.value.token
      && tok.idToken == Some(r.value.rawIdToken)
      && provider.verify(r.value.rawIdToken).Verified?
      && provider.verify(r.value.rawIdToken).token.subject == r.value.user.id
      && ValidUser(r.value.user)
    ensures (&& provider.exchange(code).Some?
             && provider.exchange(code).value.idToken.Some?
             && !provider.verify(provider.exchange(code).value.idToken.value).Verified?) ==> r.Err?
    ensures r.Ok? ==>
      var idt := provider.verify(r.value.rawIdToken).token;
      && idt.claims.Some?
      && r.value.user == User(idt.subject, idt.claims.value.email, idt.claims.value.givenName, idt.claims.value.familyName)
    ensures (&& provider.exchange(code).Some?
             && provider.exchange(code).value.idToken.Some?
             && provider.verify(provider.exchange(code).value.idToken.value).Verified?) ==>
      var idt := provider.verify(provider.exchange(code).value.idToken.value).token;
      && (idt.claims.None? ==> r.Err?)
      && (idt.claims.Some? ==>
            var made := NewUser(idt.subject, idt.claims.value.email, idt.claims.value.givenName, idt.claims.value.familyName);
            && (made.Err? ==> r == Err(made.error))
            && (made.Ok? ==> r == Ok(Login(provider.exchange(code).value, provider.exchange(code).value.idToken.value, made.value))))
  {
    match provider.exchange(code)
    case None => Err(Wrap(ExchangeFailedMsg, Failure("oauth2: cannot fetch token")))
    case Some(tok) =>
      match tok.idToken
      case None => Err(Failure(NoIdTokenMsg))
      case Some(raw) =>
        match provider.verify(raw)
        case Expired => Err(Wrap(VerifyFailedMsg, Failure("oidc: token is expired")))
        case Invalid => Err(Wrap(VerifyFailedMsg, Failure("oidc: invalid token")))
        case Verified(idt) =>
          match idt.claims
          case None => Err(Wrap(ClaimsFailedMsg, Failure("oidc: cannot decode claims")))
          case Some(c) =>
            match NewUser(idt.subject, c.email, c.givenName, c.familyName)
            case Err(e) => Err(e)
            case Ok(user) => Ok(Login(tok, raw, user))
  }

  /** The bundle a callback saves: the exchanged tokens; the absolute expiry is stamped by the store. */
  function NewBundle(login: Login): SessionData {
    SessionData(login.token.accessToken, login.token.refreshToken, login.rawIdToken, 0)
  }

  /**
   * `HandleCallback`: check the state, exchange the code, verify the ID
   * token, save the user, then mint a session id and save the bundle with no
   * explicit TTL. The state is read, never deleted.
   */
  function HandleCallback(deps: Deps, db: Db, code: string, state: string, freshSessionId: string, now: int): (r: Step<string>)
    ensures CheckState(db, state, now).Fail? ==> r.result.Err? && r.db == db && r.effects == []
    ensures StateStore.GetState(db, state, now) == Err(StateNotFound) ==> Is(r.result.error, StateNotFound)
    ensures CheckState(db, state, now).Pass? && Authorize(deps.provider, code).Err? ==>
      r.result.Err? && r.db == db && r.effects == [ExchangeCall(code)]
    ensures r.result.Err? ==> r.db == db
    ensures r.result.Ok? ==>
      var login := Authorize(deps.provider, code).value;
      && CheckState(db, state, now).Pass?
      && Authorize(deps.provider, code).Ok?
      && r.result.value == freshSessionId
      && r.effects == [ExchangeCall(code), SaveUserCall(login.user), SaveSessionCall(freshSessionId, NewBundle(login), [])]
      && SessionStore.SaveSession(deps.sessions, db, freshSessionId, NewBundle(login), [], now).Ok?
      && r.db == SessionStore.SaveSession(deps.sessions, db, freshSessionId, NewBundle(login), [], now).value
    ensures r.result.Ok? ==> deps.users.save(Authorize(deps.provider, code).value.user).Pass?
    ensures (&& CheckState(db, state, now).Pass? && Authorize(deps.provider, code).Ok?
             && deps.users.save(Authorize(deps.provider, code).value.user).Fail?) ==>
      && r.result.Err? && r.db == db
      && r.effects == [ExchangeCall(code), SaveUserCall(Authorize(deps.provider, code).value.user)]
    ensures (&& CheckState(db, state, now).Pass? && Authorize(deps.provider, code).Ok?
             && deps.users.save(Authorize(deps.provider, code).value.user).Pass?) ==>
      (r.result.Ok? <==>
         SessionStore.SaveSession(deps.sessions, db, freshSessionId, NewBundle(Authorize(deps.provider, code).value), [], now).Ok?)
  {
    match CheckState(db, state, now)
    case Fail(e) => Step(Err(e), db, [])
    case Pass =>
      match Authorize(deps.provider, code)
      case Err(e) => Step(Err(e), db, [ExchangeCall(code)])
      case Ok(login) =>
        var saveUser := [ExchangeCall(code), SaveUserCall(login.user)];
        match deps.users.save(login.user)
        case Fail(e) => Step(Err(Wrap("failed to save new user", e)), db, saveUser)
        case Pass =>
          var calls := saveUser + [SaveSessionCall(freshSessionId, NewBundle(login), [])];
          match SessionStore.SaveSession(deps.sessions, db, freshSessionId, NewBundle(login), [], now)
          case Err(e) => Step(Err(Wrap("failed to save session", e)), db, calls)
          case Ok(db') => Step(Ok(freshSessionId), db', calls)
  }

  // ---- refresh --------------------------------------------------------------

  /**
   * `RefreshToken`: the refresh grant of section 6 of RFC 6749. A provider
   * that issues no new refresh token leaves the old one in force.
   */
  function RefreshToken(provider: Provider, refreshToken: string): (r: Result<OAuthToken, Error>)
    ensures r.Err? <==> provider.refresh(refreshToken).None?
    ensures r.Ok? ==> var issued := provider.refresh(refreshToken).value;
      && r.value.accessToken == issued.accessToken
      && r.value.idToken == issued.idToken
      && (issued.refreshToken != "" ==> r.value.refreshToken == issued.refreshToken)
      && (issued.refreshToken == "" ==> r.value.refreshToken == refreshToken)
  {
    match provider.refresh(refreshToken)
    case None => Err(Wrap("failed to get refresh token", Failure("oauth2: cannot fetch token")))
    case Some(issued) =>
      if issued.refreshToken == "" then Ok(issued.(refreshToken := refreshToken)) else Ok(issued)
  }

  /** A refresh never leaves the session without a refresh token it had. */
  lemma RefreshKeepsARefreshToken(provider: Provider, refreshToken: string)
    requires refreshToken != ""
    requires RefreshToken(provider, refreshToken).Ok?
    ensures RefreshToken(provider, refreshToken).value.refreshToken != ""
  {
  }

  // ---- logout ---------------------------------------------------------------

  /**
   * The end-session URL of section 2 of OpenID Connect RP-Initiated Logout
   * 1.0: the provider's URL with `post_logout_redirect_uri` and, when a
   * bundle with an ID token was loaded, `id_token_hint`.
   */
  function LogoutUrl(base: Url, appPublicUrl: string, session: Option<SessionData>): (u: Url)
    ensures u.base == base.base
    ensures "post_logout_redirect_uri" in u.query && u.query["post_logout_redirect_uri"] == appPublicUrl + "/"
    ensures session.Some? && session.value.idToken != "" ==>
      "id_token_hint" in u.query && u.query["id_token_hint"] == session.value.idToken
    ensures !(session.Some? && session.value.idToken != "") ==>
      ("id_token_hint" in u.query <==> "id_token_hint" in base.query)
    ensures forall k | k in base.query && k != "post_logout_redirect_uri" && k != "id_token_hint" ::
      k in u.query && u.query[k] == base.query[k]
    ensures u.query.Keys <= base.query.Keys + {"post_logout_redirect_uri", "id_token_hint"}
  {
    var q := base.query["post_logout_redirect_uri" := appPublicUrl + "/"];
    if session.Some? && session.value.idToken != "" then
      Url(base.base, q["id_token_hint" := session.value.idToken])
    else
      Url(base.base, q)
  }

  /**
   * `PrepareLogout`: a missing session is tolerated, any other load error
   * aborts; otherwise the session is deleted and the end-session URL built.
   */
  function PrepareLogout(deps: Deps, db: Db, sessionId: string, now: int): (r: Step<Url>)
    ensures var loaded := SessionStore.GetSession(db, sessionId, now);
      loaded.Err? && !Is(loaded.error, SessionNotFound) ==> r.result.Err? && r.db == db && r.effects == []
    ensures var loaded := SessionStore.GetSession(db, sessionId, now);
      loaded.Ok? || loaded.error == SessionNotFound ==> r.effects == [DeleteSessionCall(sessionId)]
    ensures r.result.Ok? ==>
      var loaded := SessionStore.GetSession(db, sessionId, now);
      && deps.provider.logoutUrl.Some?
      && SessionStore.DeleteSession(db, sessionId).Ok?
      && r.db == SessionStore.DeleteSession(db, sessionId).value
      && r.result.value == LogoutUrl(deps.provider.logoutUrl.value, deps.appPublicUrl,
                                     if loaded.Ok? then Some(loaded.value) else None)
    ensures var loaded := SessionStore.GetSession(db, sessionId, now);
      (&& (loaded.Ok? || loaded.error == SessionNotFound)
       && SessionStore.DeleteSession(db, sessionId).Ok?) ==>
        (r.result.Ok? <==> deps.provider.logoutUrl.Some?)
    ensures SessionStore.DeleteSession(db, sessionId).Err? ==> r.result.Err? && r.db == db
    ensures deps.provider.logoutUrl.None? ==> r.result.Err?
  {
    var loaded := SessionStore.GetSession(db, sessionId, now);
    if loaded.Err? && !Is(loaded.error, SessionNotFound) then
      Step(Err(Wrap("failed to get session from store", loaded.error)), db, [])
    else
      var session := if loaded.Ok? then Some(loaded.value) else None;
      match SessionStore.DeleteSession(db, sessionId)
      case Err(e) => Step(Err(Wrap("failed to delete session from store", e)), db, [DeleteSessionCall(sessionId)])
      case Ok(db') =>
        match deps.provider.logoutUrl
        case None => Step(Err(Wrap("could not parse base logout url", Failure("parse error"))), db', [DeleteSessionCall(sessionId)])
        case Some(base) => Step(Ok(LogoutUrl(base, deps.appPublicUrl, session)), db', [DeleteSessionCall(sessionId)])
  }

  /** Logging out of an unknown session still yields a valid end-session URL, with no hint, and no error. */
  lemma LogoutOfUnknownSession(deps: Deps, db: Db, sessionId: string, now: int)
    requires GET !in db.failing && DEL !in db.failing
    requires !Present(db, SessionStore.Key(sessionId), now)
    requires deps.provider.logoutUrl.Some?
    requires "id_token_hint" !in deps.provider.logoutUrl.value.query
    ensures PrepareLogout(deps, db, sessionId, now).result.Ok?
    ensures "id_token_hint" !in PrepareLogout(deps, db, sessionId, now).result.value.query
  {
  }
}
