/**
 * The Redis-backed cache (`RedisClient`): a key-value store whose entries
 * expire a fixed number of seconds after they are written, plus the token
 * record kept under the reserved key "hubspot_token".
 *
 * The Redis server is modelled in memory: every key maps to its value and the
 * absolute time at which Redis drops it. Time is an integer clock passed to
 * every operation; an entry written at `now` with timeout `t` is visible at
 * every time `now'` with `now' < now + t`.
 */
module Cache {
  import opened Wrappers
  import opened Types

  /** Default lifetime of a cache entry, in seconds. */
  const CacheTimeout: int := 3600

  /** The reserved key of the access-token record. */
  const TokenKey: string := "hubspot_token"

  /**
   * What a key can hold. `TokenDict` is the `{token, expiration_time}` record,
   * `PageJson` a JSON-encoded page of records, `Text` any other string (an
   * empty one is falsy for Python; neither `eval` nor `json.loads` reads one
   * back as a record).
   */
  datatype Value =
    | Text(s: string)
    | TokenDict(token: string, expirationTime: int)
    | PageJson(records: seq<Record>)

  /** Python's truth value of what `get` returns: only the empty string is false. */
  predicate Truthy(v: Value) {
    !(v.Text? && v.s == "")
  }

  datatype Entry = Entry(value: Value, expiresAt: int)

  type Store = map<string, Entry>

  /** `GET key` at time `now`: the value, unless the key is missing or has expired. */
  function Get(m: Store, key: string, now: int): Option<Value> {
    if key in m && now < m[key].expiresAt then Some(m[key].value) else None
  }

  /** `SETEX key timeout value` at time `now`. */
  function Put(m: Store, key: string, value: Value, timeout: int, now: int): Store {
    m[key := Entry(value, now + timeout)]
  }

  /** The store after `set_token(token, expires_in)` at time `now`. */
  function StoreToken(m: Store, token: string, expiresIn: int, now: int): Store {
    Put(m, TokenKey, TokenDict(token, now + expiresIn), CacheTimeout, now)
  }

  /** What `get_token` answers: no token, the token string, or an `eval` failure. */
  datatype TokenRead = NoToken | Token(token: string) | Undecodable

  /** `get_token` at time `now`: its answer and the store it leaves behind. */
  function ReadToken(m: Store, now: int): (r: (TokenRead, Store))
    ensures r.0.Token? ==> TokenKey in m && now < m[TokenKey].expiresAt && m[TokenKey].value.TokenDict?
                           && m[TokenKey].value.token == r.0.token && now < m[TokenKey].value.expirationTime
    ensures r.0.Undecodable? ==> TokenKey in m && now < m[TokenKey].expiresAt && !m[TokenKey].value.TokenDict?
    ensures r.0.Token? || r.0.Undecodable? ==> r.1 == m
    ensures r.1 != m ==> && r.0.NoToken? && r.1 == m - {TokenKey}
                         && TokenKey in m && m[TokenKey].value.TokenDict? && m[TokenKey].value.expirationTime <= now
  {
    match Get(m, TokenKey, now)
    case None => (NoToken, m)
    case Some(v) =>
      if !Truthy(v) then (NoToken, m)
      else if !v.TokenDict? then (Undecodable, m)
      else if now < v.expirationTime then (Token(v.token), m)
      else (NoToken, m - {TokenKey})
  }

  /** The `(token, expiration_time)` pair that `get_access_token` expects from its lookup. */
  datatype TokenLoad = NoRecord | Found(token: string, expirationTime: int) | Unreadable

  /**
   * The pair-returning lookup: the stored record as it is, leaving the expiry
   * decision to the caller.
   */
  function LoadRecord(m: Store, now: int): (r: TokenLoad)
    ensures r.Found? <==> TokenKey in m && now < m[TokenKey].expiresAt && m[TokenKey].value.TokenDict?
    ensures r.Found? ==> m[TokenKey].value == TokenDict(r.token, r.expirationTime)
    ensures r.Unreadable? <==> Get(m, TokenKey, now).Some? && Truthy(Get(m, TokenKey, now).value)
                               && !Get(m, TokenKey, now).value.TokenDict?
  {
    match Get(m, TokenKey, now)
    case None => NoRecord
    case Some(v) =>
      if !Truthy(v) then NoRecord
      else if !v.TokenDict? then Unreadable
      else Found(v.token, v.expirationTime)
  }

  class RedisClient {
    var entries: Store

    constructor ()
      ensures entries == map[]
    {
      entries := map[];
    }

    /** `set_cache`: stores `value` under `key` for `timeout` seconds, replacing any previous entry. */
    method SetCache(key: string, value: Value, now: int, timeout: int := CacheTimeout)
      requires 0 < timeout
      modifies this
      ensures entries == Put(old(entries), key, value, timeout, now)
      ensures Get(entries, key, now) == Some(value)
      ensures forall k :: k != key ==> Get(entries, k, now) == Get(old(entries), k, now)
    {
      entries := entries[key := Entry(value, now + timeout)];
    }

    /** `get_cache`: the value under `key`, if it is present and has not expired. */
    method GetCache(key: string, now: int) returns (r: Option<Value>)
      ensures r.Some? <==> key in entries && now < entries[key].expiresAt
      ensures r.Some? ==> r.value == entries[key].value
    {
      if key in entries && now < entries[key].expiresAt {
        r := Some(entries[key].value);
      } else {
        r := None;
      }
    }

    /** `delete_cache`: removes `key` and nothing else. */
    method DeleteCache(key: string)
      modifies this
      ensures entries == old(entries) - {key}
      ensures forall now :: Get(entries, key, now) == None
      ensures forall k, now :: k != key ==> Get(entries, k, now) == Get(old(entries), k, now)
    {
      entries := entries - {key};
    }

    /**
     * `set_token`: writes `{token, now + expires_in}` under the reserved key,
     * with the default store lifetime whatever `expires_in` is.
     */
    method SetToken(token: string, expiresIn: int, now: int)
      modifies this
      ensures entries == StoreToken(old(entries), token, expiresIn, now)
      ensures entries[TokenKey] == Entry(TokenDict(token, now + expiresIn), now + CacheTimeout)
    {
      SetCache(TokenKey, TokenDict(token, now + expiresIn), now);
    }

    /**
     * `get_token`: the cached token while it is valid; on an expired record it
     * deletes the key and answers no token.
     */
    method GetToken(now: int) returns (r: TokenRead)
      modifies this
      ensures (r, entries) == ReadToken(old(entries), now)
    {
      var cached := GetCache(TokenKey, now);
      if cached.Some? && Truthy(cached.value) {
        var data := cached.value;
        if !data.TokenDict? {
          return Undecodable;
        }
        if now < data.expirationTime {
          return Token(data.token);
        }
        DeleteCache(TokenKey);
      }
      r := NoToken;
    }

    /** The pair-returning lookup `get_access_token` is written against; it changes nothing. */
    method LoadToken(now: int) returns (r: TokenLoad)
      ensures r == LoadRecord(entries, now)
      ensures r.Found? <==> TokenKey in entries && now < entries[TokenKey].expiresAt
                            && entries[TokenKey].value.TokenDict?
    {
      var cached := GetCache(TokenKey, now);
      if cached.None? || !Truthy(cached.value) {
        r := NoRecord;
      } else if !cached.value.TokenDict? {
        r := Unreadable;
      } else {
        r := Found(cached.value.token, cached.value.expirationTime);
      }
    }
  }

  // ---- Properties of the store ----

  /** A value written with `set_cache` is read back unchanged until its timeout elapses, and not after. */
  lemma SetThenGet(m: Store, key: string, v: Value, timeout: int, now: int, later: int)
    requires now <= later
    ensures Get(Put(m, key, v, timeout, now), key, later) == (if later < now + timeout then Some(v) else None)
  {
  }

  /** `set_token` followed by `get_token` before both deadlines returns the token and changes nothing. */
  lemma SetTokenThenGetToken(m: Store, token: string, expiresIn: int, now: int, later: int)
    requires now <= later < now + CacheTimeout
    requires later < now + expiresIn
    ensures ReadToken(StoreToken(m, token, expiresIn, now), later)
            == (Token(token), StoreToken(m, token, expiresIn, now))
  {
  }

  /**
   * Once `expiration_time` has passed but the store entry is still alive,
   * `get_token` answers no token and removes the entry.
   */
  lemma ExpiredTokenIsDeleted(m: Store, token: string, expiresIn: int, now: int, later: int)
    requires now <= later < now + CacheTimeout
    requires now + expiresIn <= later
    ensures ReadToken(StoreToken(m, token, expiresIn, now), later)
            == (NoToken, StoreToken(m, token, expiresIn, now) - {TokenKey})
    ensures TokenKey !in ReadToken(StoreToken(m, token, expiresIn, now), later).1
  {
  }

  /**
   * The token entry lives exactly the default 3600 seconds: even when
   * `expires_in` is longer, the token is gone once that lifetime is over.
   */
  lemma TokenEntryOutlivedByExpiry(m: Store, token: string, expiresIn: int, now: int, later: int)
    requires now + CacheTimeout <= later
    ensures ReadToken(StoreToken(m, token, expiresIn, now), later).0 == NoToken
    ensures LoadRecord(StoreToken(m, token, expiresIn, now), later) == NoRecord
  {
  }

  /** When the reserved key holds nothing visible, or a falsy value, `get_token` changes nothing. */
  lemma NoTokenLeavesStoreAlone(m: Store, now: int)
    requires Get(m, TokenKey, now).None? || !Truthy(Get(m, TokenKey, now).value)
    ensures ReadToken(m, now) == (NoToken, m)
  {
  }

  /** `get_token` only ever touches the reserved key. */
  lemma ReadTokenTouchesOnlyTokenKey(m: Store, now: int, k: string)
    requires k != TokenKey
    ensures var m' := ReadToken(m, now).1;
            (k in m' <==> k in m) && (k in m ==> m'[k] == m[k])
  {
  }

  /** The pair-returning lookup and `get_token` agree on the token while it is valid. */
  lemma LoadAgreesWithReadToken(m: Store, now: int)
    ensures ReadToken(m, now).0.Token? <==> LoadRecord(m, now).Found? && now < LoadRecord(m, now).expirationTime
    ensures ReadToken(m, now).0.Token? ==> ReadToken(m, now).0.token == LoadRecord(m, now).token
    ensures ReadToken(m, now).0.Undecodable? <==> LoadRecord(m, now).Unreadable?
  {
  }
}
