/**
 * The Redis-backed session store. Each user has two independent records,
 * `session:{uid}` (the conversation fields and the state) and
 * `prompt:{uid}` (the last prompt record), each written with `SETEX` and a
 * 24-hour lifetime. The Redis keyspace is a map from key to entry; an
 * entry holds the stored dict (the JSON encoding is taken as an exact
 * round trip) and the instant it expires. The clock is an explicit `now`
 * parameter, in seconds.
 */
module SessionStore {
  import opened Wrappers
  import opened Generation

  /** `self.session_ttl = 3600 * 24`: the lifetime of every record, in seconds. */
  const SessionTtl: int := 3600 * 24

  /** The session fields the state machine reads and writes. */
  const StateField := "state"
  const UserIdentityField := "user_identity"
  const TargetIdentityField := "target_identity"
  const ContextField := "context"
  const PastConversationField := "past_conversation"

  /** One stored Redis value and its expiry instant. */
  datatype Entry = Entry(value: Dict, expiresAt: int)

  /** The Redis keyspace. */
  type Store = map<string, Entry>

  /** `_get_session_key`: `f"session:{user_id}"`. */
  function SessionKey(uid: string): string {
    "session:" + uid
  }

  /** `_get_prompt_key`: `f"prompt:{user_id}"`. */
  function PromptKey(uid: string): string {
    "prompt:" + uid
  }

  /**
   * A session key is never a prompt key, and each kind of key names one
   * user only.
   */
  lemma KeysNeverCollide(u: string, v: string)
    ensures SessionKey(u) != PromptKey(v)
    ensures SessionKey(u) == SessionKey(v) ==> u == v
    ensures PromptKey(u) == PromptKey(v) ==> u == v
  {
    assert SessionKey(u)[0] == 's' && PromptKey(v)[0] == 'p';
    assert SessionKey(u)[8..] == u && SessionKey(v)[8..] == v;
    assert PromptKey(u)[7..] == u && PromptKey(v)[7..] == v;
  }

  /** `redis.get(key)`: the stored value while the key has not expired. */
  function Live(s: Store, key: string, now: int): (r: Option<Dict>)
    ensures r.Some? <==> key in s && now < s[key].expiresAt
    ensures r.Some? ==> r.value == s[key].value
  {
    if key in s && now < s[key].expiresAt then Some(s[key].value) else None
  }

  /** `redis.setex(key, session_ttl, json.dumps(d))`. */
  function Put(s: Store, key: string, d: Dict, now: int): Store {
    s[key := Entry(d, now + SessionTtl)]
  }

  /** `get_session_data`: the live session record, or `{}`. */
  function ReadSession(s: Store, uid: string, now: int): Dict {
    Live(s, SessionKey(uid), now).GetOr(map[])
  }

  /** `set_session_data`. */
  function WriteSession(s: Store, uid: string, d: Dict, now: int): Store {
    Put(s, SessionKey(uid), d, now)
  }

  /** `get_state`: `data.get('state')` on the session record. */
  function StateIn(s: Store, uid: string, now: int): Option<string> {
    var d := ReadSession(s, uid, now);
    if StateField in d then Some(d[StateField]) else None
  }

  /** The read-modify-write that every field setter performs. */
  function SetFieldIn(s: Store, uid: string, field: string, v: string, now: int): Store {
    WriteSession(s, uid, ReadSession(s, uid, now)[field := v], now)
  }

  /** `clear_session`: both of the user's keys deleted. */
  function ClearIn(s: Store, uid: string): Store {
    s - {SessionKey(uid), PromptKey(uid)}
  }

  /** `save_last_prompt`. */
  function SavePromptIn(s: Store, uid: string, p: Dict, now: int): Store {
    Put(s, PromptKey(uid), p, now)
  }

  /** `get_last_prompt`: the live prompt record, or `None`. */
  function LastPromptIn(s: Store, uid: string, now: int): Option<Dict> {
    Live(s, PromptKey(uid), now)
  }

  /** `t` holds exactly what `s` holds under `key`. */
  predicate AgreesOn(s: Store, t: Store, key: string) {
    (key in s <==> key in t) && (key in s ==> s[key] == t[key])
  }

  /** Both of user `u`'s records are the same in `s` and `t`. */
  predicate UserUntouched(s: Store, t: Store, u: string) {
    AgreesOn(s, t, SessionKey(u)) && AgreesOn(s, t, PromptKey(u))
  }

  // ---------------------------------------------------------------------------
  // Properties of the store operations
  // ---------------------------------------------------------------------------

  /** A user with no live session record reads as `{}` and has no state. */
  lemma MissingSessionReadsEmpty(s: Store, uid: string, now: int)
    requires Live(s, SessionKey(uid), now).None?
    ensures ReadSession(s, uid, now) == map[]
    ensures StateIn(s, uid, now) == None
  {
  }

  /** `get_state` is `None` exactly when the live session has no `state` field. */
  lemma StateAbsentIff(s: Store, uid: string, now: int)
    ensures StateIn(s, uid, now).None? <==> StateField !in ReadSession(s, uid, now)
    ensures StateIn(s, uid, now).Some? ==> StateIn(s, uid, now).value == ReadSession(s, uid, now)[StateField]
  {
  }

  /**
   * A session write is readable, unchanged, for exactly `SessionTtl`
   * seconds after it, and reads as `{}` from then on; the prompt record is
   * not affected.
   */
  lemma SessionLifetime(s: Store, uid: string, d: Dict, now: int, later: int)
    ensures ReadSession(WriteSession(s, uid, d, now), uid, later)
         == if later < now + SessionTtl then d else map[]
    ensures LastPromptIn(WriteSession(s, uid, d, now), uid, later) == LastPromptIn(s, uid, later)
  {
    KeysNeverCollide(uid, uid);
  }

  /**
   * A field setter changes exactly that field of the user's session and
   * keeps every other field, and restarts the session's lifetime.
   */
  lemma SetFieldReadBack(s: Store, uid: string, field: string, v: string, now: int, later: int)
    requires now <= later < now + SessionTtl
    ensures ReadSession(SetFieldIn(s, uid, field, v, now), uid, later) == ReadSession(s, uid, now)[field := v]
    ensures ReadSession(SetFieldIn(s, uid, field, v, now), uid, later)[field] == v
    ensures forall k :: k != field ==>
      (k in ReadSession(SetFieldIn(s, uid, field, v, now), uid, later) <==> k in ReadSession(s, uid, now))
    ensures forall k :: k != field && k in ReadSession(s, uid, now) ==>
      ReadSession(SetFieldIn(s, uid, field, v, now), uid, later)[k] == ReadSession(s, uid, now)[k]
  {
    SessionLifetime(s, uid, ReadSession(s, uid, now)[field := v], now, later);
  }

  /** After `clear_session`, the session reads `{}` and there is no last prompt. */
  lemma ClearForgetsUser(s: Store, uid: string, later: int)
    ensures ReadSession(ClearIn(s, uid), uid, later) == map[]
    ensures StateIn(ClearIn(s, uid), uid, later) == None
    ensures LastPromptIn(ClearIn(s, uid), uid, later) == None
  {
  }

  /**
   * A saved prompt is read back unchanged for `SessionTtl` seconds and is
   * gone afterwards; saving it does not touch the session record.
   */
  lemma SavedPromptLifetime(s: Store, uid: string, p: Dict, now: int, later: int)
    ensures LastPromptIn(SavePromptIn(s, uid, p, now), uid, later)
         == if later < now + SessionTtl then Some(p) else None
    ensures ReadSession(SavePromptIn(s, uid, p, now), uid, later) == ReadSession(s, uid, later)
  {
    KeysNeverCollide(uid, uid);
  }

  /** Reads of a user depend only on that user's two records. */
  lemma UntouchedReadsSame(s: Store, t: Store, u: string, now: int)
    requires UserUntouched(s, t, u)
    ensures ReadSession(t, u, now) == ReadSession(s, u, now)
    ensures LastPromptIn(t, u, now) == LastPromptIn(s, u, now)
  {
  }

  /** Every write or delete for one user leaves every other user's records as they were. */
  lemma WritesIsolated(s: Store, uid: string, u: string, field: string, v: string, d: Dict, now: int)
    requires u != uid
    ensures UserUntouched(s, WriteSession(s, uid, d, now), u)
    ensures UserUntouched(s, SetFieldIn(s, uid, field, v, now), u)
    ensures UserUntouched(s, SavePromptIn(s, uid, d, now), u)
    ensures UserUntouched(s, ClearIn(s, uid), u)
  {
    KeysNeverCollide(uid, u);
    KeysNeverCollide(u, uid);
  }

  /** `UserUntouched` composes along a sequence of stores. */
  lemma UntouchedTransitive(s: Store, t: Store, w: Store, u: string)
    requires UserUntouched(s, t, u) && UserUntouched(t, w, u)
    ensures UserUntouched(s, w, u)
  {
  }

  /**
   * `SessionManager`: the Redis client and the lifetime, with one method
   * per source method. `records` is the Redis keyspace.
   */
  class SessionManager {
    var records: Store

    /** Connects to a keyspace that holds `initial`. */
    constructor(initial: Store)
      ensures records == initial
    {
      records := initial;
    }

    method GetSessionData(uid: string, now: int) returns (data: Dict)
      ensures data == ReadSession(records, uid, now)
      ensures SessionKey(uid) !in records ==> data == map[]
    {
      var key := SessionKey(uid);
      var stored := Live(records, key, now);
      if stored.Some? {
        data := stored.value;
      } else {
        data := map[];
      }
    }

    method SetSessionData(uid: string, data: Dict, now: int)
      modifies this
      ensures records == WriteSession(old(records), uid, data, now)
    {
      var key := SessionKey(uid);
      records := Put(records, key, data, now);
    }

    method GetState(uid: string, now: int) returns (state: Option<string>)
      ensures state == StateIn(records, uid, now)
      ensures state.Some? ==> Live(records, SessionKey(uid), now).Some?
    {
      var data := GetSessionData(uid, now);
      state := if StateField in data then Some(data[StateField]) else None;
    }

    method SetState(uid: string, state: string, now: int)
      modifies this
      ensures records == SetFieldIn(old(records), uid, StateField, state, now)
    {
      var data := GetSessionData(uid, now);
      data := data[StateField := state];
      SetSessionData(uid, data, now);
    }

    method SetUserIdentity(uid: string, identity: string, now: int)
      modifies this
      ensures records == SetFieldIn(old(records), uid, UserIdentityField, identity, now)
    {
      var data := GetSessionData(uid, now);
      data := data[UserIdentityField := identity];
      SetSessionData(uid, data, now);
    }

    method SetTargetIdentity(uid: string, target: string, now: int)
      modifies this
      ensures records == SetFieldIn(old(records), uid, TargetIdentityField, target, now)
    {
      var data := GetSessionData(uid, now);
      data := data[TargetIdentityField := target];
      SetSessionData(uid, data, now);
    }

    method SetContext(uid: string, context: string, now: int)
      modifies this
      ensures records == SetFieldIn(old(records), uid, ContextField, context, now)
    {
      var data := GetSessionData(uid, now);
      data := data[ContextField := context];
      SetSessionData(uid, data, now);
    }

    method SetPastConversation(uid: string, conversation: string, now: int)
      modifies this
      ensures records == SetFieldIn(old(records), uid, PastConversationField, conversation, now)
    {
      var data := GetSessionData(uid, now);
      data := data[PastConversationField := conversation];
      SetSessionData(uid, data, now);
    }

    method ClearSession(uid: string)
      modifies this
      ensures records == ClearIn(old(records), uid)
    {
      var sessionKey := SessionKey(uid);
      var promptKey := PromptKey(uid);
      records := records - {sessionKey};
      records := records - {promptKey};
    }

    method SaveLastPrompt(uid: string, prompt: Dict, now: int)
      modifies this
      ensures records == SavePromptIn(old(records), uid, prompt, now)
    {
      var key := PromptKey(uid);
      records := Put(records, key, prompt, now);
    }

    method GetLastPrompt(uid: string, now: int) returns (prompt: Option<Dict>)
      ensures prompt == LastPromptIn(records, uid, now)
      ensures PromptKey(uid) !in records ==> prompt == None
    {
      var key := PromptKey(uid);
      prompt := Live(records, key, now);
    }
  }
}
