/**
 * The Redis keyspace that the CSRF state store and the session store share
 * (one client serves both). Each key holds a payload and an expiry instant;
 * `now` is an explicit Unix time in seconds. Commands listed in `failing`
 * answer with a connection error and change nothing.
 */
module Kv {
  import opened Wrappers
  import opened Store

  /** A stored string: a raw CSRF state, or the JSON encoding of a session bundle. */
  datatype Payload = Raw(text: string) | Encoded(session: SessionData)

  datatype Expiry = Never | At(instant: int)

  datatype Entry = Entry(payload: Payload, expiry: Expiry)

  datatype Command = GET | SET | DEL | EXISTS

  datatype Db = Db(entries: map<string, Entry>, failing: set<Command>)

  /** The reply of a single-key read: the value, `redis.Nil`, or a transport error. */
  datatype Reply = Value(payload: Payload) | Nil | IoError(message: string)

  const ConnectionError := "redis: connection failure"

  predicate Alive(e: Entry, now: int) {
    e.expiry.Never? || now < e.expiry.instant
  }

  /** The key exists at `now`: written and not yet expired. */
  predicate Present(db: Db, key: string, now: int) {
    key in db.entries && Alive(db.entries[key], now)
  }

  /** `SET key value EX ttl`: a positive TTL expires the key `ttl` seconds from now; any other TTL keeps it forever. */
  function ExpiryFor(ttl: int, now: int): (e: Expiry)
    ensures ttl > 0 ==> e.At? && e.instant - now == ttl
    ensures ttl <= 0 ==> e.Never?
  {
    if ttl > 0 then At(now + ttl) else Never
  }

  /** `GET key`. */
  function Get(db: Db, key: string, now: int): (r: Reply)
    ensures r.IoError? <==> GET in db.failing
    ensures r.Nil? <==> GET !in db.failing && !Present(db, key, now)
    ensures r.Value? ==> Present(db, key, now) && r.payload == db.entries[key].payload
  {
    if GET in db.failing then IoError(ConnectionError)
    else if Present(db, key, now) then Value(db.entries[key].payload)
    else Nil
  }

  /** `SET key payload` with the given TTL. */
  function Set(db: Db, key: string, payload: Payload, ttl: int, now: int): (r: Result<Db, string>)
    ensures r.Err? <==> SET in db.failing
    ensures r.Ok? ==> r.value.failing == db.failing
    ensures r.Ok? ==> key in r.value.entries && r.value.entries[key] == Entry(payload, ExpiryFor(ttl, now))
    ensures r.Ok? ==> forall k | k != key :: (k in r.value.entries <==> k in db.entries)
    ensures r.Ok? ==> forall k | k != key && k in db.entries :: r.value.entries[k] == db.entries[k]
  {
    if SET in db.failing then Err(ConnectionError)
    else Ok(db.(entries := db.entries[key := Entry(payload, ExpiryFor(ttl, now))]))
  }

  /** `DEL key`: succeeds whether or not the key exists. */
  function Del(db: Db, key: string): (r: Result<Db, string>)
    ensures r.Err? <==> DEL in db.failing
    ensures r.Ok? ==> r.value.failing == db.failing && key !in r.value.entries
    ensures r.Ok? ==> forall k | k != key :: (k in r.value.entries <==> k in db.entries)
    ensures r.Ok? ==> forall k | k != key && k in db.entries :: r.value.entries[k] == db.entries[k]
  {
    if DEL in db.failing then Err(ConnectionError)
    else Ok(db.(entries := db.entries - {key}))
  }

  /** `EXISTS key`: the number of the given keys that exist. */
  function Exists(db: Db, key: string, now: int): (r: Result<int, string>)
    ensures r.Err? <==> EXISTS in db.failing
    ensures r.Ok? ==> (r.value == 1 <==> Present(db, key, now)) && 0 <= r.value <= 1
  {
    if EXISTS in db.failing then Err(ConnectionError)
    else if Present(db, key, now) then Ok(1)
    else Ok(0)
  }

  /** A key written with a TTL reads back its payload until the TTL runs out. */
  lemma GetAfterSet(db: Db, key: string, payload: Payload, ttl: int, now: int, later: int)
    requires Set(db, key, payload, ttl, now).Ok?
    requires GET !in db.failing
    requires ttl > 0 ==> later < now + ttl
    ensures Get(Set(db, key, payload, ttl, now).value, key, later) == Value(payload)
  {
  }

  /** Once the TTL has run out the key reads as absent. */
  lemma GetAfterExpiry(db: Db, key: string, payload: Payload, ttl: int, now: int, later: int)
    requires Set(db, key, payload, ttl, now).Ok?
    requires GET !in db.failing
    requires ttl > 0 && later >= now + ttl
    ensures Get(Set(db, key, payload, ttl, now).value, key, later) == Nil
  {
  }

  /** A deleted key reads as absent. */
  lemma GetAfterDel(db: Db, key: string, now: int)
    requires Del(db, key).Ok?
    requires GET !in db.failing
    ensures Get(Del(db, key).value, key, now) == Nil
  {
  }

  /** Writing or deleting one key leaves every other key's reply unchanged. */
  lemma OtherKeysUntouched(db: Db, key: string, other: string, payload: Payload, ttl: int, now: int, t: int)
    requires key != other
    ensures Set(db, key, payload, ttl, now).Ok? ==> Get(Set(db, key, payload, ttl, now).value, other, t) == Get(db, other, t)
    ensures Del(db, key).Ok? ==> Get(Del(db, key).value, other, t) == Get(db, other, t)
  {
  }
}
