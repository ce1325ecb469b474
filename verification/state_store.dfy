/**
 * The Redis-backed CSRF state store (internal/store/redisstore/state.go).
 * A state token is stored as itself under `auth_state:<state>` for five
 * minutes: the `state` parameter of section 10.12 of RFC 6749.
 */
module StateStore {
  import opened Wrappers
  import opened Errors
  import opened Kv
  import opened GoStrings

  const Prefix := "auth_state"

  /** `defaultTTL: 5 * time.Minute`, in seconds. */
  const StateTtl := 300

  /** `buildKey`: `fmt.Sprintf("%s:%s", prefix, state)`. */
  function Key(state: string): (k: string)
    ensures HasPrefix(k, "auth_state:") && k[|"auth_state:"|..] == state
  {
    Prefix + ":" + state
  }

  /** `SetState`: one write, of the state itself, with the five-minute TTL. */
  function SetState(db: Db, state: string, now: int): (r: Result<Db, Error>)
    ensures r.Err? <==> SET in db.failing
    ensures r.Ok? ==> r.value == Set(db, Key(state), Raw(state), StateTtl, now).value
  {
    match Set(db, Key(state), Raw(state), StateTtl, now)
    case Err(m) => Err(Wrap("failed to set state in redis", Failure(m)))
    case Ok(db') => Ok(db')
  }

  /**
   * `GetState`: the stored string, or `ErrStateNotFound` for an absent or
   * expired key; transport failures are wrapped. A key of this namespace never
   * holds a session bundle (see Keyspace); that case is reported as a failure.
   */
  function GetState(db: Db, state: string, now: int): (r: Result<string, Error>)
    ensures r == Err(StateNotFound) <==> (GET !in db.failing && !Present(db, Key(state), now))
    ensures r.Err? && r.error != StateNotFound ==> !Is(r.error, StateNotFound)
    ensures r.Ok? ==> Present(db, Key(state), now) && db.entries[Key(state)].payload == Raw(r.value)
  {
    match Get(db, Key(state), now)
    case IoError(m) => Err(Wrap("failed to get state from redis", Failure(m)))
    case Nil => Err(StateNotFound)
    case Value(Raw(text)) => Ok(text)
    case Value(Encoded(_)) => Err(Wrap("failed to get state from redis", Failure("not a string value")))
  }

  /** `DeleteState`. */
  function DeleteState(db: Db, state: string): (r: Result<Db, Error>)
    ensures r.Err? <==> DEL in db.failing
    ensures r.Ok? ==> r.value == Del(db, Key(state)).value
  {
    match Del(db, Key(state))
    case Err(m) => Err(Wrap("failed to delete state from redis", Failure(m)))
    case Ok(db') => Ok(db')
  }

  /** Within five minutes of `SetState(s)`, `GetState(s)` returns `s` itself. */
  lemma SetThenGet(db: Db, state: string, now: int, later: int)
    requires SetState(db, state, now).Ok?
    requires GET !in db.failing
    requires later < now + StateTtl
    ensures GetState(SetState(db, state, now).value, state, later) == Ok(state)
  {
    GetAfterSet(db, Key(state), Raw(state), StateTtl, now, later);
  }

  /** Five minutes after `SetState(s)` the state is gone. */
  lemma SetThenExpire(db: Db, state: string, now: int, later: int)
    requires SetState(db, state, now).Ok?
    requires GET !in db.failing
    requires later >= now + StateTtl
    ensures GetState(SetState(db, state, now).value, state, later) == Err(StateNotFound)
  {
    GetAfterExpiry(db, Key(state), Raw(state), StateTtl, now, later);
  }

  /** After `DeleteState(s)`, `GetState(s)` reports not-found. */
  lemma DeleteThenGet(db: Db, state: string, now: int)
    requires DeleteState(db, state).Ok?
    requires GET !in db.failing
    ensures GetState(DeleteState(db, state).value, state, now) == Err(StateNotFound)
  {
    GetAfterDel(db, Key(state), now);
  }
}
