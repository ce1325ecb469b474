/**
 * The Redis-backed session store (internal/store/redisstore/session.go).
 * A session bundle lives under `session:<id>`. Saving without a TTL starts
 * a session: it stamps `absoluteExpiry = now + defaultTtl` and uses the
 * default TTL; saving with a TTL (the refresh path) keeps the bundle's
 * absolute expiry and uses only the first TTL given.
 */
module SessionStore {
  import opened Wrappers
  import opened Errors
  import opened Store
  import opened Kv
  import opened GoStrings

  const Prefix := "session"

  /** `buildKey`: `fmt.Sprintf("%s:%s", prefix, id)`. */
  function Key(sessionId: string): (k: string)
    ensures HasPrefix(k, "session:") && k[|"session:"|..] == sessionId
  {
    Prefix + ":" + sessionId
  }

  /** Distinct session ids never share a key. */
  lemma KeyInjective(a: string, b: string)
    requires Key(a) == Key(b)
    ensures a == b
  {
    assert a == Key(a)[8..] && b == Key(b)[8..];
  }

  /** The store's configuration: the default TTL, in seconds (the SSO maximum lifespan). */
  datatype Config = Config(defaultTtl: int)

  /** The bundle as written and the TTL it is written with: the variadic `ttl` argument decides. */
  datatype Write = Write(data: SessionData, ttl: int)

  function Stamp(cfg: Config, data: SessionData, ttl: seq<int>, now: int): (w: Write)
    ensures |ttl| > 0 ==> w == Write(data, ttl[0])
    ensures |ttl| == 0 ==> w.ttl == cfg.defaultTtl && w.data.absoluteExpiry == now + cfg.defaultTtl
    ensures w.data.accessToken == data.accessToken && w.data.refreshToken == data.refreshToken && w.data.idToken == data.idToken
  {
    if |ttl| > 0 then Write(data, ttl[0])
    else Write(data.(absoluteExpiry := now + cfg.defaultTtl), cfg.defaultTtl)
  }

  /** `SaveSession`. JSON encoding of a bundle cannot fail and is not modelled. */
  function SaveSession(cfg: Config, db: Db, sessionId: string, data: SessionData, ttl: seq<int>, now: int): (r: Result<Db, Error>)
    ensures r.Err? <==> SET in db.failing
    ensures r.Err? ==> !Is(r.error, SessionNotFound)
    ensures r.Ok? ==> var w := Stamp(cfg, data, ttl, now);
      r.value == Set(db, Key(sessionId), Encoded(w.data), w.ttl, now).value
  {
    var w := Stamp(cfg, data, ttl, now);
    match Set(db, Key(sessionId), Encoded(w.data), w.ttl, now)
    case Err(m) => Err(Wrap("failed to save session to redis", Failure(m)))
    case Ok(db') => Ok(db')
  }

  /** `GetSession`: absence and expiry are `ErrSessionNotFound`; every other failure is wrapped. */
  function GetSession(db: Db, sessionId: string, now: int): (r: Result<SessionData, Error>)
    ensures r == Err(SessionNotFound) <==> (GET !in db.failing && !Present(db, Key(sessionId), now))
    ensures r.Err? && r.error != SessionNotFound ==> !Is(r.error, SessionNotFound)
    ensures r.Ok? ==> Present(db, Key(sessionId), now) && db.entries[Key(sessionId)].payload == Encoded(r.value)
  {
    match Get(db, Key(sessionId), now)
    case IoError(m) => Err(Wrap("failed to get session from redis", Failure(m)))
    case Nil => Err(SessionNotFound)
    case Value(Encoded(data)) => Ok(data)
    case Value(Raw(_)) => Err(Wrap("failed to unmarshal session data", Failure("not a session bundle")))
  }

  /** `DeleteSession`: deleting an absent session succeeds. */
  function DeleteSession(db: Db, sessionId: string): (r: Result<Db, Error>)
    ensures r.Err? <==> DEL in db.failing
    ensures r.Ok? ==> r.value == Del(db, Key(sessionId)).value
  {
    match Del(db, Key(sessionId))
    case Err(m) => Err(Wrap("failed to delete session from redis", Failure(m)))
    case Ok(db') => Ok(db')
  }

  /** `CheckSession`: true exactly when the key exists. */
  function CheckSession(db: Db, sessionId: string, now: int): (r: Result<bool, Error>)
    ensures r.Err? <==> EXISTS in db.failing
    ensures r.Ok? ==> (r.value <==> Present(db, Key(sessionId), now))
  {
    match Exists(db, Key(sessionId), now)
    case Err(m) => Err(Wrap("failed to check session in redis", Failure(m)))
    case Ok(n) => Ok(n == 1)
  }

  /** Save then get, before the TTL runs out, returns the bundle as written, stamped when no TTL was given. */
  lemma SaveThenGet(cfg: Config, db: Db, sessionId: string, data: SessionData, ttl: seq<int>, now: int, later: int)
    requires SaveSession(cfg, db, sessionId, data, ttl, now).Ok?
    requires GET !in db.failing
    requires now <= later
    requires Stamp(cfg, data, ttl, now).ttl > 0 ==> later < now + Stamp(cfg, data, ttl, now).ttl
    ensures GetSession(SaveSession(cfg, db, sessionId, data, ttl, now).value, sessionId, later)
         == Ok(if |ttl| > 0 then data else data.(absoluteExpiry := now + cfg.defaultTtl))
  {
    var w := Stamp(cfg, data, ttl, now);
    GetAfterSet(db, Key(sessionId), Encoded(w.data), w.ttl, now, later);
  }

  /** After a delete the session is gone: get reports not-found and check reports false. */
  lemma DeleteThenGet(db: Db, sessionId: string, now: int)
    requires DeleteSession(db, sessionId).Ok?
    requires GET !in db.failing && EXISTS !in db.failing
    ensures GetSession(DeleteSession(db, sessionId).value, sessionId, now) == Err(SessionNotFound)
    ensures CheckSession(DeleteSession(db, sessionId).value, sessionId, now) == Ok(false)
  {
  }

  /** Check and get agree: the key exists exactly when get does not report not-found. */
  lemma CheckAgreesWithGet(db: Db, sessionId: string, now: int)
    requires GET !in db.failing && EXISTS !in db.failing
    ensures CheckSession(db, sessionId, now) == Ok(GetSession(db, sessionId, now) != Err(SessionNotFound))
  {
  }
}
