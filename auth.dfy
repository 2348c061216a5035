/** The token manager (src/cli/utils/auth.ts; the same logic is `authenticate` in src/lib/index.ts):
    a bearer token cached with its expiry, served while it is more than a minute from expiring,
    otherwise refreshed by a client-credentials exchange. */
module Auth {
  import opened Js
  import opened Http
  import opened Types
  import Strings

  /** A cached token is used only while `now < expiresAt - SafetyMarginMs`. */
  const SafetyMarginMs: int := 60000
  /** The lifetime assumed when the reply gives no (or a zero) `expires_in`. */
  const DefaultTtlSeconds: int := 3600

  const NoAccessTokenMessage: string := "Authentication failed: no access_token in response"

  /** The cache: the token (null when there is none) and its expiry in ms since the epoch. */
  datatype TokenState = TokenState(token: Option<string>, expiresAt: int)

  /** The state at start-up and after `clearTokenCache`. */
  const Cleared: TokenState := TokenState(None, 0)

  /** `cachedToken && Date.now() < tokenExpiresAt - 60_000`. */
  predicate Servable(ts: TokenState, now: int) {
    ts.token.Some? && ts.token.value != "" && now < ts.expiresAt - SafetyMarginMs
  }

  /** The client-credentials grant: a form POST to the auth URL. */
  function AuthRequest(c: Credentials): Request {
    Request(POST, c.authUrl,
      [("Content-Type", "application/x-www-form-urlencoded")],
      Form([("grant_type", "client_credentials"), ("provider", "client_credentials"),
            ("client_id", c.clientId), ("client_secret", c.clientSecret)]))
  }

  function AuthFailureMessage(status: nat, body: string): string {
    "Authentication failed: HTTP " + Strings.NatToString(status) + Detail(body)
  }

  /** `data.access_token` when it is a non-empty string. */
  function AccessToken(data: Json): Option<string> {
    if data.JObj? && "access_token" in data.fields && data.fields["access_token"].JStr?
       && data.fields["access_token"].s != ""
    then Some(data.fields["access_token"].s)
    else None
  }

  /** `data.expires_in || 3600`, in seconds: a missing, null or zero lifetime becomes an hour. */
  function TtlSeconds(data: Json): (ttl: int)
    ensures ttl != 0
    ensures !(data.JObj? && "expires_in" in data.fields && data.fields["expires_in"].JNum?) ==> ttl == DefaultTtlSeconds
    ensures data.JObj? && "expires_in" in data.fields && data.fields["expires_in"].JNum? && data.fields["expires_in"].n != 0
            ==> ttl == data.fields["expires_in"].n
    ensures data.JObj? && "expires_in" in data.fields && data.fields["expires_in"] == JNum(0) ==> ttl == DefaultTtlSeconds
  {
    if data.JObj? && "expires_in" in data.fields && data.fields["expires_in"].JNum? && data.fields["expires_in"].n != 0
    then data.fields["expires_in"].n
    else DefaultTtlSeconds
  }

  /** A token and its lifetime in seconds, as granted by the auth service. */
  datatype Grant = Grant(token: string, ttlSeconds: int)

  /** What the auth reply yields (auth.ts:29-42): a grant, or the error to throw. */
  function AuthReply(resp: Response): (r: Result<Grant>)
    ensures !resp.ok ==> r == Err(Thrown(AuthFailureMessage(resp.status, TextOrEmpty(resp.body))))
    ensures resp.ok && ReadJson(resp.body).Err? ==> r == Err(ReadJson(resp.body).error)
    ensures (resp.ok && ReadJson(resp.body).Ok? && ReadJson(resp.body).value.JObj?
             && AccessToken(ReadJson(resp.body).value).None?) ==> r == Err(Thrown(NoAccessTokenMessage))
    ensures r.Ok? <==> resp.ok && ReadJson(resp.body).Ok? && AccessToken(ReadJson(resp.body).value).Some?
    ensures r.Ok? ==> r.value.token != "" && r.value.ttlSeconds != 0
  {
    if !resp.ok then Err(Thrown(AuthFailureMessage(resp.status, TextOrEmpty(resp.body))))
    else match ReadJson(resp.body)
      case Err(e) => Err(e)
      case Ok(data) =>
        match Property(Some(data), "access_token")
        case Err(e) => Err(e)
        case Ok(_) =>
          match AccessToken(data)
          case None => Err(Thrown(NoAccessTokenMessage))
          case Some(token) => Ok(Grant(token, TtlSeconds(data)))
  }

  /** The outcome of one `getAuthToken` call: its result, the cache after it, the world after it. */
  datatype TokenStep = TokenStep(result: Result<string>, state: TokenState, world: World)

  /** `getAuthToken(credentials)` at the time `w.now`. */
  function GetToken(ts: TokenState, c: Credentials, w: World): (t: TokenStep)
    // cache hit: the cached token, no request, nothing changes
    ensures Servable(ts, w.now) ==> t == TokenStep(Ok(ts.token.value), ts, w)
    // cache miss: exactly one request, the grant to the auth URL
    ensures !Servable(ts, w.now) ==> t.world == Exchange(w, AuthRequest(c)).world
    // a failed exchange leaves the cache as it was
    ensures t.result.Err? ==> !Servable(ts, w.now) && t.state == ts
    // a successful exchange caches the new token until arrival time + lifetime
    ensures !Servable(ts, w.now) && t.result.Ok? ==>
              var g := AuthReply(Exchange(w, AuthRequest(c)).response);
              g.Ok? && t.result.value == g.value.token
              && t.state == TokenState(Some(g.value.token), t.world.now + g.value.ttlSeconds * 1000)
    ensures t.result.Ok? ==> t.state.token == Some(t.result.value) && t.result.value != ""
  {
    if Servable(ts, w.now) then TokenStep(Ok(ts.token.value), ts, w)
    else
      var x := Exchange(w, AuthRequest(c));
      match AuthReply(x.response)
      case Err(e) => TokenStep(Err(e), ts, x.world)
      case Ok(g) => TokenStep(Ok(g.token), TokenState(Some(g.token), x.world.now + g.ttlSeconds * 1000), x.world)
  }

  /** A token obtained at time `t` with lifetime `ttl` seconds is served from the cache, with no
      request, by every later call before `t + ttl*1000 - 60000`. */
  lemma ReuseWithinLifetime(ts: TokenState, c: Credentials, w: World, later: World)
    requires GetToken(ts, c, w).result.Ok? && !Servable(ts, w.now)
    requires later.now < GetToken(ts, c, w).state.expiresAt - SafetyMarginMs
    ensures GetToken(GetToken(ts, c, w).state, c, later)
            == TokenStep(GetToken(ts, c, w).result, GetToken(ts, c, w).state, later)
  {
  }

  /** A lifetime of 60 s or less is never served from the cache: the next call always asks again. */
  lemma ShortLifetimeNeverServed(ts: TokenState, c: Credentials, w: World, later: World)
    requires !Servable(ts, w.now)
    requires AuthReply(Exchange(w, AuthRequest(c)).response).Ok?
    requires AuthReply(Exchange(w, AuthRequest(c)).response).value.ttlSeconds <= 60
    requires later.now >= GetToken(ts, c, w).world.now
    ensures GetToken(GetToken(ts, c, w).state, c, later).world == Exchange(later, AuthRequest(c)).world
  {
    var g := AuthReply(Exchange(w, AuthRequest(c)).response).value;
    var s := GetToken(ts, c, w);
    assert s.state.expiresAt - SafetyMarginMs <= s.world.now + g.ttlSeconds * 1000 - 60000;
    assert g.ttlSeconds * 1000 <= 60000;
  }

  /** After the cache is cleared the next call always performs the exchange. */
  lemma ClearedAlwaysExchanges(c: Credentials, w: World)
    ensures GetToken(Cleared, c, w).world.log == w.log + [AuthRequest(c)]
  {
  }

  /** The cache of src/cli/utils/auth.ts: module-level state shared by every `ApiClient` of the process. */
  class TokenCache {
    var cachedToken: Option<string>
    var tokenExpiresAt: int

    function State(): TokenState
      reads this
    {
      TokenState(cachedToken, tokenExpiresAt)
    }

    /** The module's initial state: `let cachedToken = null; let tokenExpiresAt = 0`. */
    constructor ()
      ensures State() == Cleared
    {
      cachedToken := None;
      tokenExpiresAt := 0;
    }

    /** `getAuthToken(credentials)`, reading the clock and the network from `net`. */
    method GetAuthToken(credentials: Credentials, net: Network) returns (r: Result<string>)
      modifies this, net
      ensures TokenStep(r, State(), net.State()) == GetToken(old(State()), credentials, old(net.State()))
    {
      if cachedToken.Some? && cachedToken.value != "" && net.now < tokenExpiresAt - SafetyMarginMs {
        return Ok(cachedToken.value);
      }
      var response := net.Fetch(AuthRequest(credentials));
      if !response.ok {
        var body := TextOrEmpty(response.body);
        return Err(Thrown(AuthFailureMessage(response.status, body)));
      }
      var data := ReadJson(response.body);
      if data.Err? {
        return Err(data.error);
      }
      // `data.access_token` throws a TypeError when the reply is `null`
      var field := Property(Some(data.value), "access_token");
      if field.Err? {
        return Err(field.error);
      }
      var accessToken := AccessToken(data.value);
      if accessToken.None? {
        return Err(Thrown(NoAccessTokenMessage));
      }
      cachedToken := accessToken;
      tokenExpiresAt := net.now + TtlSeconds(data.value) * 1000;
      return Ok(accessToken.value);
    }

    /** `clearTokenCache()`: idempotent, since it always lands in the same state. */
    method ClearTokenCache()
      modifies this
      ensures State() == Cleared
    {
      cachedToken := None;
      tokenExpiresAt := 0;
    }
  }
}
