/** The request dispatcher shared by `ApiClient.request` (src/cli/utils/api-client.ts) and
    `SmooTestingClient.request` (src/lib/index.ts): fetch a token, send the call with it, retry once
    after a 401, turn the response into a value or an error. */
module Dispatcher {
  import opened Js
  import opened Http
  import opened Types
  import opened Auth
  import Strings

  /** `${baseUrl}/organizations/${orgId}${path}`: where both clients send a resource call. */
  function OrgPath(baseUrl: string, orgId: string, path: string): string {
    baseUrl + "/organizations/" + orgId + path
  }

  /** `body != null ? JSON.stringify(body) : undefined`. */
  function BodyPayload(body: Value): Payload {
    if Nullish(body) then NoPayload else JsonBody(body.value)
  }

  /** A resource call: the bearer header on every call, the JSON content type, the body if any. */
  function ResourceRequest(verb: Verb, url: string, token: string, body: Value): Request {
    Request(verb, url, [("Authorization", "Bearer " + token), ("Content-Type", "application/json")], BodyPayload(body))
  }

  function ApiFailureMessage(status: nat, statusText: string, body: string): string {
    "API error: HTTP " + Strings.NatToString(status) + " " + statusText + Detail(body)
  }

  /** What a response that is not retried yields (api-client.ts:39-46): an error for a non-ok status,
      otherwise `undefined` for an empty body and the parsed document for any other. */
  function Outcome(resp: Response): (r: Result<Value>)
    ensures !resp.ok ==> r == Err(Thrown(ApiFailureMessage(resp.status, resp.statusText, TextOrEmpty(resp.body))))
    ensures resp.ok && resp.body.Readable? && resp.body.text == "" ==> r == Ok(None)
    ensures resp.ok && resp.body.Readable? && resp.body.text != "" && resp.body.json.Parsed? ==> r == Ok(Some(resp.body.json.value))
    ensures resp.ok && resp.body.Unreadable? ==> r == Err(Thrown(resp.body.reason))
    ensures resp.ok && resp.body.Readable? && resp.body.text != "" && resp.body.json.Malformed?
            ==> r == Err(Thrown(resp.body.json.reason))
    ensures r.Ok? ==> resp.ok && resp.body.Readable?
  {
    if !resp.ok then Err(Thrown(ApiFailureMessage(resp.status, resp.statusText, TextOrEmpty(resp.body))))
    else match resp.body
      case Unreadable(reason) => Err(Thrown(reason))
      case Readable(text, json) =>
        if text == "" then Ok(None)
        else match json
          case Parsed(j) => Ok(Some(j))
          case Malformed(reason) => Err(Thrown(reason))
  }

  /** A request sent to the auth service (the only form-encoded kind). */
  predicate IsAuth(r: Request) {
    r.payload.Form?
  }

  /** How many resource calls (requests that are not auth exchanges) a log holds. */
  function ResourceCount(log: seq<Request>): nat {
    if log == [] then 0 else ResourceCount(log[..|log| - 1]) + (if IsAuth(log[|log| - 1]) then 0 else 1)
  }

  predicate IsBearer(headers: seq<(string, string)>) {
    |headers| >= 1 && headers[0].0 == "Authorization" && Strings.StartsWith(headers[0].1, "Bearer ")
    && |headers[0].1| > |"Bearer "|
  }

  /** The requests one logical call may add: grants to the auth URL, and resource calls that all carry
      the same verb, URL and body under a bearer header. */
  predicate CallRequests(added: seq<Request>, c: Credentials, verb: Verb, url: string, body: Value) {
    forall i :: 0 <= i < |added| ==>
      if IsAuth(added[i]) then added[i] == AuthRequest(c)
      else added[i].verb == verb && added[i].url == url && added[i].payload == BodyPayload(body)
           && IsBearer(added[i].headers)
  }

  /** The outcome of one `request`: its result, the token cache after it and the world after it. */
  datatype DispatchStep = DispatchStep(result: Result<Value>, state: TokenState, world: World)

  /** `request(method, url, body, retry)`. */
  function Dispatch(ts: TokenState, c: Credentials, verb: Verb, url: string, body: Value, retry: bool, w: World): (d: DispatchStep)
    // the log only grows, by requests of this call: at most one resource call, or two with the retry
    ensures |w.log| <= |d.world.log| && d.world.log[..|w.log|] == w.log
    ensures CallRequests(d.world.log[|w.log|..], c, verb, url, body)
    ensures ResourceCount(d.world.log[|w.log|..]) <= (if retry then 2 else 1)
    ensures |d.world.log| - |w.log| <= (if retry then 4 else 2)
    // on success the last request is the resource call, made with the token now in the cache
    ensures d.result.Ok? ==>
              (d.state.token.Some? && |d.world.log| > |w.log|
               && d.world.log[|d.world.log| - 1] == ResourceRequest(verb, url, d.state.token.value, body))
    decreases retry
  {
    var t := GetToken(ts, c, w);
    match t.result
    case Err(e) => DispatchStep(Err(e), t.state, t.world)
    case Ok(token) =>
      var x := Exchange(t.world, ResourceRequest(verb, url, token, body));
      LogFacts(ts, c, verb, url, body, w, t, x);
      if x.response.status == 401 && retry then
        var d := Dispatch(Cleared, c, verb, url, body, false, x.world);
        AppendCallRequests(w.log, x.world.log, d.world.log, c, verb, url, body);
        d
      else DispatchStep(Outcome(x.response), t.state, x.world)
  }

  /** The steps after `fetch` when there is no retry: the status check, `response.text()`, then
      `JSON.parse` of any non-empty text. */
  method ResponseOutcome(response: Response) returns (r: Result<Value>)
    ensures r == Outcome(response)
  {
    if !response.ok {
      var errorBody := TextOrEmpty(response.body);
      return Err(Thrown(ApiFailureMessage(response.status, response.statusText, errorBody)));
    }
    match response.body {
      case Unreadable(reason) =>
        return Err(Thrown(reason));
      case Readable(text, json) =>
        if text == "" {
          return Ok(None);
        }
        match json {
          case Parsed(j) => return Ok(Some(j));
          case Malformed(reason) => return Err(Thrown(reason));
        }
    }
  }

  /** The first resource response of a call, made with the token `GetToken` yields. */
  function FirstResponse(ts: TokenState, c: Credentials, verb: Verb, url: string, body: Value, w: World): Exchanged
    requires GetToken(ts, c, w).result.Ok?
  {
    var t := GetToken(ts, c, w);
    Exchange(t.world, ResourceRequest(verb, url, t.result.value, body))
  }

  /** A 401 with the retry flag set clears the cache and repeats the call once, with the flag off. */
  lemma UnauthorizedRetriesFromCleared(ts: TokenState, c: Credentials, verb: Verb, url: string, body: Value, w: World)
    requires GetToken(ts, c, w).result.Ok?
    requires FirstResponse(ts, c, verb, url, body, w).response.status == 401
    ensures Dispatch(ts, c, verb, url, body, true, w)
            == Dispatch(Cleared, c, verb, url, body, false, FirstResponse(ts, c, verb, url, body, w).world)
  {
  }

  /** Any other status, or any status once the flag is off, is final: one resource call, and the
      response decides the result. */
  lemma FinalResponse(ts: TokenState, c: Credentials, verb: Verb, url: string, body: Value, retry: bool, w: World)
    requires GetToken(ts, c, w).result.Ok?
    requires FirstResponse(ts, c, verb, url, body, w).response.status != 401 || !retry
    ensures Dispatch(ts, c, verb, url, body, retry, w).result == Outcome(FirstResponse(ts, c, verb, url, body, w).response)
    ensures Dispatch(ts, c, verb, url, body, retry, w).world == FirstResponse(ts, c, verb, url, body, w).world
    ensures Dispatch(ts, c, verb, url, body, retry, w).state == GetToken(ts, c, w).state
  {
  }

  /** A failed token exchange fails the call: its error, and the grant is the only request sent. */
  lemma AuthFailureStopsCall(ts: TokenState, c: Credentials, verb: Verb, url: string, body: Value, retry: bool, w: World)
    requires GetToken(ts, c, w).result.Err?
    ensures Dispatch(ts, c, verb, url, body, retry, w).result == Err(GetToken(ts, c, w).result.error)
    ensures Dispatch(ts, c, verb, url, body, retry, w).world.log == w.log + [AuthRequest(c)]
    ensures Dispatch(ts, c, verb, url, body, retry, w).state == ts
  {
  }

  /** A grant reply carrying `token` and `expires_in`. */
  function GrantReply(token: string, ttl: int, latency: nat): Response {
    Response(true, 200, "OK",
      Readable("{\"access_token\":\"" + token + "\",\"expires_in\":" + Strings.IntToString(ttl) + "}",
               Parsed(JObj(map["access_token" := JStr(token), "expires_in" := JNum(ttl)]))),
      latency)
  }

  /** A successful response with a readable JSON body. */
  function Served(v: Json): Response {
    Response(true, 200, "OK", Readable("{}", Parsed(v)), 0)
  }

  /** A call served from the cache and answered by `Served(v)`: one resource request, no grant, and
      the cache unchanged. */
  lemma ServedFromCache(ts: TokenState, c: Credentials, verb: Verb, url: string, body: Value, w: World,
                        v: Json, rest: seq<Response>)
    requires Servable(ts, w.now) && w.script == [Served(v)] + rest
    ensures Dispatch(ts, c, verb, url, body, true, w)
            == DispatchStep(Ok(Some(v)), ts, World(w.now, rest, w.fallback, w.log + [ResourceRequest(verb, url, ts.token.value, body)]))
  {
    assert GetToken(ts, c, w) == TokenStep(Ok(ts.token.value), ts, w);
    assert ([Served(v)] + rest)[1..] == rest;
    FinalResponse(ts, c, verb, url, body, true, w);
  }

  /** From an empty cache, the first call is granted a token of an hour and answered by `Served(v)`. */
  lemma ServedAfterGrant(c: Credentials, verb: Verb, url: string, body: Value, w: World, token: string,
                         v: Json, rest: seq<Response>)
    requires token != "" && w.script == [GrantReply(token, 3600, 0), Served(v)] + rest
    ensures Dispatch(Cleared, c, verb, url, body, true, w)
            == DispatchStep(Ok(Some(v)), TokenState(Some(token), w.now + 3600 * 1000),
                            World(w.now, rest, w.fallback, w.log + [AuthRequest(c), ResourceRequest(verb, url, token, body)]))
  {
    GrantThenCall(c, verb, url, body, w, token, Served(v), rest);
    FinalResponse(Cleared, c, verb, url, body, true, w);
  }

  predicate Unauthorized(r: Response) {
    !r.ok && r.status == 401
  }

  /** From an empty cache, a grant reply followed by `resp`: the exchange, then the call with the new
      token, answered by `resp`. */
  lemma GrantThenCall(c: Credentials, verb: Verb, url: string, body: Value, w: World,
                      token: string, resp: Response, rest: seq<Response>)
    requires token != "" && w.script == [GrantReply(token, 3600, 0), resp] + rest
    ensures GetToken(Cleared, c, w).result == Ok(token)
    ensures GetToken(Cleared, c, w).state == TokenState(Some(token), w.now + 3600 * 1000)
    ensures FirstResponse(Cleared, c, verb, url, body, w)
            == Exchanged(resp, World(w.now + resp.latency, rest, w.fallback,
                                     w.log + [AuthRequest(c), ResourceRequest(verb, url, token, body)]))
  {
    assert w.script == [GrantReply(token, 3600, 0)] + ([resp] + rest);
    GrantFromCleared(c, w, token, [resp] + rest);
    var w1 := World(w.now, [resp] + rest, w.fallback, w.log + [AuthRequest(c)]);
    var call := ResourceRequest(verb, url, token, body);
    assert FirstResponse(Cleared, c, verb, url, body, w) == Exchange(w1, call);
    assert ([resp] + rest)[0] == resp && ([resp] + rest)[1..] == rest;
    assert w1.log + [call] == w.log + [AuthRequest(c), call];
  }

  /** From an empty cache, a grant reply of an hour is one request to the auth URL and is cached. */
  lemma GrantFromCleared(c: Credentials, w: World, token: string, rest: seq<Response>)
    requires token != "" && w.script == [GrantReply(token, 3600, 0)] + rest
    ensures GetToken(Cleared, c, w)
            == TokenStep(Ok(token), TokenState(Some(token), w.now + 3600 * 1000),
                         World(w.now, rest, w.fallback, w.log + [AuthRequest(c)]))
  {
    GrantReplyGrants(token, 3600, 0);
    assert !Servable(Cleared, w.now);
    assert w.script[0] == GrantReply(token, 3600, 0) && w.script[1..] == rest;
  }

  /** From an empty cache, a grant followed by a 401 turns into the retried call, made after the
      denied request with the retry flag off. */
  lemma DeniedThenRetried(c: Credentials, verb: Verb, url: string, body: Value, w: World,
                          token: string, denied: Response, rest: seq<Response>)
    requires token != "" && Unauthorized(denied) && w.script == [GrantReply(token, 3600, 0), denied] + rest
    ensures Dispatch(Cleared, c, verb, url, body, true, w)
            == Dispatch(Cleared, c, verb, url, body, false,
                        World(w.now + denied.latency, rest, w.fallback,
                              w.log + [AuthRequest(c), ResourceRequest(verb, url, token, body)]))
  {
    GrantThenCall(c, verb, url, body, w, token, denied, rest);
    UnauthorizedRetriesFromCleared(Cleared, c, verb, url, body, w);
  }

  /** The retried call from an empty cache: one grant, one resource request, and its response is final. */
  lemma RetriedAfterGrant(c: Credentials, verb: Verb, url: string, body: Value, w: World,
                          token: string, resp: Response)
    requires token != "" && w.script == [GrantReply(token, 3600, 0), resp]
    ensures Dispatch(Cleared, c, verb, url, body, false, w)
            == DispatchStep(Outcome(resp), TokenState(Some(token), w.now + 3600 * 1000),
                            World(w.now + resp.latency, [], w.fallback,
                                  w.log + [AuthRequest(c), ResourceRequest(verb, url, token, body)]))
  {
    assert w.script == [GrantReply(token, 3600, 0)] + ([resp] + []);
    GrantThenCall(c, verb, url, body, w, token, resp, []);
    FinalResponse(Cleared, c, verb, url, body, false, w);
  }

  /** The refresh scenario of tests/api-client.test.ts:80-114: grant, 401, grant, 200 — four fetches,
      the second call carries the new token, and its body is the result. */
  lemma RetryAfterUnauthorized(c: Credentials, verb: Verb, url: string, body: Value, w: World,
                               first: string, second: string, denied: Response, text: string, v: Json)
    requires first != "" && second != "" && text != "" && Unauthorized(denied)
    requires w.script == [GrantReply(first, 3600, 0), denied, GrantReply(second, 3600, 0),
                          Response(true, 200, "OK", Readable(text, Parsed(v)), 0)]
    ensures Dispatch(Cleared, c, verb, url, body, true, w).result == Ok(Some(v))
    ensures Dispatch(Cleared, c, verb, url, body, true, w).world.log
            == w.log + [AuthRequest(c), ResourceRequest(verb, url, first, body),
                        AuthRequest(c), ResourceRequest(verb, url, second, body)]
    ensures Dispatch(Cleared, c, verb, url, body, true, w).state
            == TokenState(Some(second), w.now + denied.latency + 3600 * 1000)
  {
    var served := Response(true, 200, "OK", Readable(text, Parsed(v)), 0);
    assert w.script == [GrantReply(first, 3600, 0), denied] + [GrantReply(second, 3600, 0), served];
    DeniedThenRetried(c, verb, url, body, w, first, denied, [GrantReply(second, 3600, 0), served]);
    var w1 := World(w.now + denied.latency, [GrantReply(second, 3600, 0), served], w.fallback,
                    w.log + [AuthRequest(c), ResourceRequest(verb, url, first, body)]);
    RetriedAfterGrant(c, verb, url, body, w1, second, served);
  }

  /** A second 401 is not retried again: the call fails with the API error for that response. */
  lemma UnauthorizedTwice(c: Credentials, verb: Verb, url: string, body: Value, w: World,
                          first: string, second: string, denied: Response, deniedAgain: Response)
    requires first != "" && second != "" && Unauthorized(denied) && Unauthorized(deniedAgain)
    requires w.script == [GrantReply(first, 3600, 0), denied, GrantReply(second, 3600, 0), deniedAgain]
    ensures Dispatch(Cleared, c, verb, url, body, true, w).result
            == Err(Thrown(ApiFailureMessage(401, deniedAgain.statusText, TextOrEmpty(deniedAgain.body))))
    ensures |Dispatch(Cleared, c, verb, url, body, true, w).world.log| == |w.log| + 4
  {
    assert w.script == [GrantReply(first, 3600, 0), denied] + [GrantReply(second, 3600, 0), deniedAgain];
    DeniedThenRetried(c, verb, url, body, w, first, denied, [GrantReply(second, 3600, 0), deniedAgain]);
    var w1 := World(w.now + denied.latency, [GrantReply(second, 3600, 0), deniedAgain], w.fallback,
                    w.log + [AuthRequest(c), ResourceRequest(verb, url, first, body)]);
    RetriedAfterGrant(c, verb, url, body, w1, second, deniedAgain);
  }

  lemma GrantReplyGrants(token: string, ttl: int, latency: nat)
    requires token != "" && ttl != 0
    ensures AuthReply(GrantReply(token, ttl, latency)) == Ok(Grant(token, ttl))
  {
    var data := JObj(map["access_token" := JStr(token), "expires_in" := JNum(ttl)]);
    assert ReadJson(GrantReply(token, ttl, latency).body) == Ok(data);
    assert AccessToken(data) == Some(token);
    assert TtlSeconds(data) == ttl;
  }

  /** What the first half of a call adds to the log: at most a grant, then one resource call. */
  lemma LogFacts(ts: TokenState, c: Credentials, verb: Verb, url: string, body: Value, w: World,
                 t: TokenStep, x: Exchanged)
    requires t == GetToken(ts, c, w) && t.result.Ok?
    requires x == Exchange(t.world, ResourceRequest(verb, url, t.result.value, body))
    ensures |w.log| + 1 <= |x.world.log| <= |w.log| + 2 && x.world.log[..|w.log|] == w.log
    ensures CallRequests(x.world.log[|w.log|..], c, verb, url, body)
    ensures ResourceCount(x.world.log[|w.log|..]) == 1
  {
    var added := x.world.log[|w.log|..];
    var call := ResourceRequest(verb, url, t.result.value, body);
    BearerCall(verb, url, t.result.value, body);
    if Servable(ts, w.now) {
      assert added == [call];
    } else {
      assert added == [AuthRequest(c), call];
      assert added[..1] == [AuthRequest(c)];
      assert ResourceCount(added[..1]) == ResourceCount([]) + 0;
    }
  }

  /** A resource call with a non-empty token carries a bearer header and is not a grant. */
  lemma BearerCall(verb: Verb, url: string, token: string, body: Value)
    requires token != ""
    ensures !IsAuth(ResourceRequest(verb, url, token, body)) && IsBearer(ResourceRequest(verb, url, token, body).headers)
  {
    assert |"Bearer " + token| > |"Bearer "|;
    assert ("Bearer " + token)[..|"Bearer "|] == "Bearer ";
  }

  /** Splicing the logs of the two halves of a retried call. */
  lemma AppendCallRequests(a: seq<Request>, b: seq<Request>, d: seq<Request>, c: Credentials,
                           verb: Verb, url: string, body: Value)
    requires |a| <= |b| <= |d| && b[..|a|] == a && d[..|b|] == b
    requires CallRequests(b[|a|..], c, verb, url, body) && CallRequests(d[|b|..], c, verb, url, body)
    ensures d[..|a|] == a && CallRequests(d[|a|..], c, verb, url, body)
    ensures ResourceCount(d[|a|..]) == ResourceCount(b[|a|..]) + ResourceCount(d[|b|..])
  {
    assert d[|a|..] == b[|a|..] + d[|b|..];
    ResourceCountAppend(b[|a|..], d[|b|..]);
  }

  lemma {:induction false} ResourceCountAppend(p: seq<Request>, q: seq<Request>)
    ensures ResourceCount(p + q) == ResourceCount(p) + ResourceCount(q)
    decreases |q|
  {
    if q == [] {
      assert p + q == p;
    } else {
      assert (p + q)[..|p + q| - 1] == p + q[..|q| - 1];
      ResourceCountAppend(p, q[..|q| - 1]);
    }
  }

  /** A log that extends one that extends `a.log` extends `a.log`. */
  lemma LogGrows(a: World, b: World, c: World)
    requires |a.log| <= |b.log| && b.log[..|a.log|] == a.log
    requires |b.log| <= |c.log| && c.log[..|b.log|] == b.log
    ensures |a.log| <= |c.log| && c.log[..|a.log|] == a.log
  {
    assert c.log[..|a.log|] == c.log[..|b.log|][..|a.log|];
  }

  /** Appending two pairs of requests to a log appends the four. */
  lemma AppendPairs(log: seq<Request>, a: Request, b: Request, c: Request, d: Request)
    ensures (log + [a, b]) + [c, d] == log + [a, b, c, d]
  {
  }
}
