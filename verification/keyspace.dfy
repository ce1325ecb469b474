/**
 * The two stores share one Redis keyspace. Their prefixes, `auth_state:`
 * and `session:`, keep them apart: no write of one store is visible to a
 * read of the other, and bundles only ever sit under session keys.
 */
module Keyspace {
  import opened Wrappers
  import opened Errors
  import opened Store
  import opened Kv
  import opened GoStrings
  import SessionStore
  import StateStore

  predicate IsSessionKey(k: string) {
    HasPrefix(k, "session:")
  }

  /** Bundles are stored only under session keys. */
  predicate Namespaced(db: Db) {
    forall k | k in db.entries && db.entries[k].payload.Encoded? :: IsSessionKey(k)
  }

  /** No state key is a session key. */
  lemma KeysDisjoint(state: string, sessionId: string)
    ensures StateStore.Key(state) != SessionStore.Key(sessionId)
    ensures !IsSessionKey(StateStore.Key(state))
  {
    assert StateStore.Key(state)[0] == 'a';
    assert SessionStore.Key(sessionId)[0] == 's';
  }

  lemma SetStateKeepsNamespaces(db: Db, state: string, now: int)
    requires Namespaced(db)
    requires StateStore.SetState(db, state, now).Ok?
    ensures Namespaced(StateStore.SetState(db, state, now).value)
  {
  }

  lemma SaveSessionKeepsNamespaces(cfg: SessionStore.Config, db: Db, id: string, data: SessionData, ttl: seq<int>, now: int)
    requires Namespaced(db)
    requires SessionStore.SaveSession(cfg, db, id, data, ttl, now).Ok?
    ensures Namespaced(SessionStore.SaveSession(cfg, db, id, data, ttl, now).value)
  {
  }

  lemma DeletesKeepNamespaces(db: Db, key: string)
    requires Namespaced(db)
    requires Del(db, key).Ok?
    ensures Namespaced(Del(db, key).value)
  {
  }

  /** In a namespaced keyspace a state read never meets a bundle: it yields a string, not-found, or a transport error. */
  lemma StateReadsSeeStrings(db: Db, state: string, now: int)
    requires Namespaced(db)
    ensures var r := StateStore.GetState(db, state, now);
      r.Ok? || r == Err(StateNotFound) || GET in db.failing
  {
    KeysDisjoint(state, "");
  }

  /** Session writes and deletes are invisible to state reads. */
  lemma SessionWritesInvisibleToStates(cfg: SessionStore.Config, db: Db, id: string, data: SessionData, ttl: seq<int>, now: int, state: string, t: int)
    ensures SessionStore.SaveSession(cfg, db, id, data, ttl, now).Ok? ==>
      StateStore.GetState(SessionStore.SaveSession(cfg, db, id, data, ttl, now).value, state, t) == StateStore.GetState(db, state, t)
    ensures SessionStore.DeleteSession(db, id).Ok? ==>
      StateStore.GetState(SessionStore.DeleteSession(db, id).value, state, t) == StateStore.GetState(db, state, t)
  {
    KeysDisjoint(state, id);
    var w := SessionStore.Stamp(cfg, data, ttl, now);
    OtherKeysUntouched(db, SessionStore.Key(id), StateStore.Key(state), Encoded(w.data), w.ttl, now, t);
  }

  /** State writes and deletes are invisible to session reads. */
  lemma StateWritesInvisibleToSessions(db: Db, state: string, now: int, id: string, t: int)
    ensures StateStore.SetState(db, state, now).Ok? ==>
      SessionStore.GetSession(StateStore.SetState(db, state, now).value, id, t) == SessionStore.GetSession(db, id, t)
    ensures StateStore.DeleteState(db, state).Ok? ==>
      SessionStore.GetSession(StateStore.DeleteState(db, state).value, id, t) == SessionStore.GetSession(db, id, t)
  {
    KeysDisjoint(state, id);
    OtherKeysUntouched(db, StateStore.Key(state), SessionStore.Key(id), Raw(state), StateStore.StateTtl, now, t);
  }
}
