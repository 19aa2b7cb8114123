/**
 * `HubSpotClient`: the access-token provider. It answers a valid cached token
 * when there is one and otherwise exchanges the configured refresh token for a
 * new access token at the OAuth endpoint, remembering it in `accessToken` and
 * in the store.
 *
 * The OAuth POST is a function parameter `post` from the request to the reply;
 * the request(s) an operation sends are returned, so that "no refresh" and
 * "exactly one refresh" can be stated.
 */
module Services {
  import opened Wrappers
  import opened Types
  import opened Cache

  const TokenUrl: string := "https://api.hubapi.com/oauth/v1/token"

  /** Process-wide OAuth configuration, read-only after start-up. */
  datatype Credentials = Credentials(clientId: string, clientSecret: string, refreshToken: string)

  /** The form-encoded POST sent to the token endpoint. */
  datatype TokenRequest = TokenRequest(
    url: string, grantType: string, clientId: string, clientSecret: string, refreshToken: string)

  /**
   * The endpoint's reply: its status code, the `access_token` and
   * `expires_in` fields of a success body, and the raw text.
   */
  datatype OAuthReply = OAuthReply(status: int, accessToken: string, expiresIn: int, text: string)

  /** The refresh request built from the configuration. */
  function RefreshRequest(c: Credentials): (q: TokenRequest)
    ensures q.url == TokenUrl && q.grantType == "refresh_token"
    ensures q.clientId == c.clientId && q.clientSecret == c.clientSecret && q.refreshToken == c.refreshToken
  {
    TokenRequest(TokenUrl, "refresh_token", c.clientId, c.clientSecret, c.refreshToken)
  }

  /** What `get_access_token` does with the outcome of its lookup. */
  datatype Decision = ServeCached(token: string) | Refresh | Raise(error: Error)

  /**
   * The decision `get_access_token` makes when its lookup yields the pair
   * `(token, expiration_time)` it unpacks: the cached token while `now` is
   * before the expiry, a refresh when the record is expired or missing.
   */
  function Decide(load: TokenLoad, now: int): (d: Decision)
    ensures d.ServeCached? <==> load.Found? && now < load.expirationTime
    ensures d.ServeCached? ==> d.token == load.token
    ensures d.Refresh? <==> load.NoRecord? || (load.Found? && load.expirationTime <= now)
    ensures d.Raise? <==> load.Unreadable?
  {
    match load
    case NoRecord => Refresh
    case Unreadable => Raise(EvalError)
    case Found(token, expiry) => if now < expiry then ServeCached(token) else Refresh
  }

  /**
   * The decision `get_access_token` makes as written, fed by `get_token`,
   * which yields a bare token string: an empty string is falsy and leads to a
   * refresh; unpacking any other string into two names raises ValueError
   * unless it has exactly two characters, and then comparing the clock with
   * the second character raises TypeError.
   */
  function DecideAsWritten(read: TokenRead): (d: Decision)
    ensures d.Refresh? <==> read.NoToken? || read == Token("")
    ensures d.ServeCached? == false
  {
    match read
    case NoToken => Refresh
    case Undecodable => Raise(EvalError)
    case Token(t) =>
      if t == "" then Refresh
      else if |t| != 2 then Raise(ValueError("cannot unpack the token string into two values"))
      else Raise(TypeError("'<' not supported between 'float' and 'str'"))
  }

  class HubSpotClient {
    const creds: Credentials
    var accessToken: Option<string>
    const redis: RedisClient

    constructor (creds: Credentials, accessToken: Option<string>, redis: RedisClient)
      ensures this.creds == creds && this.accessToken == accessToken && this.redis == redis
    {
      this.creds := creds;
      this.accessToken := accessToken;
      this.redis := redis;
    }

    /**
     * `refresh_access_token`: exactly one POST; on status 200 the new token is
     * stored with `set_token` and becomes `accessToken`; on any other status
     * the call raises and changes nothing.
     */
    method RefreshAccessToken(post: TokenRequest -> OAuthReply, now: int) returns (r: Outcome<Error>, sent: TokenRequest)
      modifies this, redis
      ensures sent == RefreshRequest(creds)
      ensures r.Pass? <==> post(sent).status == 200
      ensures r.Pass? ==> accessToken == Some(post(sent).accessToken)
      ensures r.Pass? ==> redis.entries == StoreToken(old(redis.entries), post(sent).accessToken, post(sent).expiresIn, now)
      ensures r.Fail? ==> r.error == RefreshError("Failed to refresh token: " + post(sent).text)
      ensures r.Fail? ==> accessToken == old(accessToken) && redis.entries == old(redis.entries)
    {
      sent := RefreshRequest(creds);
      var reply := post(sent);
      if reply.status == 200 {
        redis.SetToken(reply.accessToken, reply.expiresIn, now);
        accessToken := Some(reply.accessToken);
        r := Pass;
      } else {
        r := Fail(RefreshError("Failed to refresh token: " + reply.text));
      }
    }

    /**
     * `get_access_token` against the pair-returning lookup it is written for:
     * a valid cached token is returned with no request sent; an expired or
     * missing record causes exactly one refresh, whose token is returned.
     */
    method GetAccessToken(post: TokenRequest -> OAuthReply, now: int) returns (r: Result<string, Error>, sent: seq<TokenRequest>)
      modifies this, redis
      ensures var d := Decide(LoadRecord(old(redis.entries), now), now);
              d.ServeCached? ==> r == Success(d.token) && sent == []
      ensures var d := Decide(LoadRecord(old(redis.entries), now), now);
              d.Raise? ==> r == Failure(d.error) && sent == []
      ensures !Decide(LoadRecord(old(redis.entries), now), now).Refresh? ==>
                accessToken == old(accessToken) && redis.entries == old(redis.entries)
      ensures Decide(LoadRecord(old(redis.entries), now), now).Refresh? ==>
                && sent == [RefreshRequest(creds)]
                && RefreshedBy(post(sent[0]), r, old(accessToken), old(redis.entries), now)
    {
      var load := redis.LoadToken(now);
      match Decide(load, now)
      case ServeCached(token) =>
        r, sent := Success(token), [];
      case Raise(e) =>
        r, sent := Failure(e), [];
      case Refresh =>
        var outcome, request := RefreshAccessToken(post, now);
        sent := [request];
        if outcome.Pass? {
          r := Success(accessToken.value);
        } else {
          r := Failure(outcome.error);
        }
    }

    /**
     * `get_access_token` as written, fed by `get_token`: it never answers a
     * cached token (see `DecideAsWritten`).
     */
    method GetAccessTokenAsWritten(post: TokenRequest -> OAuthReply, now: int) returns (r: Result<string, Error>, sent: seq<TokenRequest>)
      modifies this, redis
      ensures var (read, m) := ReadToken(old(redis.entries), now);
              DecideAsWritten(read).Raise? ==>
                && r == Failure(DecideAsWritten(read).error) && sent == []
                && accessToken == old(accessToken) && redis.entries == m
      ensures var (read, m) := ReadToken(old(redis.entries), now);
              DecideAsWritten(read).Refresh? ==>
                && sent == [RefreshRequest(creds)]
                && RefreshedBy(post(sent[0]), r, old(accessToken), m, now)
    {
      var read := redis.GetToken(now);
      match DecideAsWritten(read)
      case Raise(e) =>
        r, sent := Failure(e), [];
      case Refresh =>
        var outcome, request := RefreshAccessToken(post, now);
        sent := [request];
        if outcome.Pass? {
          r := Success(accessToken.value);
        } else {
          r := Failure(outcome.error);
        }
    }

    /**
     * The answer `get_access_token` gives and the state it leaves after one
     * refresh that got `reply`, starting from `accessToken0` and store `m0`.
     */
    ghost predicate RefreshedBy(reply: OAuthReply, r: Result<string, Error>,
                                accessToken0: Option<string>, m0: Store, now: int)
      reads this, redis
    {
      && (reply.status == 200 ==>
            && r == Success(reply.accessToken)
            && accessToken == Some(reply.accessToken)
            && redis.entries == StoreToken(m0, reply.accessToken, reply.expiresIn, now))
      && (reply.status != 200 ==>
            && r == Failure(RefreshError("Failed to refresh token: " + reply.text))
            && accessToken == accessToken0
            && redis.entries == m0)
    }
  }

  // ---- The token scenarios ----

  /**
   * A token stored with `expires_in = e` at time `t0` is served from the cache
   * while `now` is before both `t0 + e` and the end of the store lifetime, and
   * refreshed once either has passed.
   */
  lemma DecisionAfterStore(m: Store, token: string, e: int, t0: int, now: int)
    requires t0 <= now
    ensures now < t0 + e && now < t0 + CacheTimeout ==>
              Decide(LoadRecord(StoreToken(m, token, e, t0), now), now) == ServeCached(token)
    ensures t0 + e <= now || t0 + CacheTimeout <= now ==>
              Decide(LoadRecord(StoreToken(m, token, e, t0), now), now) == Refresh
  {
  }

  /**
   * The as-written provider fails whenever a valid non-empty token is cached,
   * where the pair-returning version serves it: `"abc123"` stored for 3600
   * seconds at time 0 and asked for at time 1000.
   */
  lemma AsWrittenRaisesOnCachedToken(m: Store)
    ensures var stored := StoreToken(m, "abc123", 3600, 0);
            && DecideAsWritten(ReadToken(stored, 1000).0).Raise?
            && DecideAsWritten(ReadToken(stored, 1000).0).error.ValueError?
            && Decide(LoadRecord(stored, 1000), 1000) == ServeCached("abc123")
  {
    var stored := StoreToken(m, "abc123", 3600, 0);
    assert ReadToken(stored, 1000).0 == Token("abc123");
    assert |"abc123"| == 6;
  }

  /** In general: every valid non-empty cached token makes the as-written provider raise. */
  lemma AsWrittenNeverServesValidToken(m: Store, now: int)
    requires ReadToken(m, now).0.Token? && ReadToken(m, now).0.token != ""
    ensures DecideAsWritten(ReadToken(m, now).0).Raise?
    ensures Decide(LoadRecord(m, now), now) == ServeCached(ReadToken(m, now).0.token)
  {
    LoadAgreesWithReadToken(m, now);
  }
}
