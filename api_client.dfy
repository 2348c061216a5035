/** `ApiClient` (src/cli/utils/api-client.ts): resource calls under `/organizations/{orgId}` of the
    API, authorised by the token cache of auth.ts, which every client of the process shares. */
module CliApi {
  import opened Js
  import opened Http
  import opened Types
  import opened Auth
  import opened Dispatcher
  import opened Query
  import Strings

  /** The base URL never ends in '/', so the organisation path is joined with exactly one slash,
      and a configured URL with extra trailing slashes addresses the same resources. */
  lemma OrgPathJoinsOnce(apiUrl: string, orgId: string, path: string)
    ensures var base := Strings.StripTrailingSlashes(apiUrl);
            Strings.StartsWith(OrgPath(base, orgId, path), base)
            && (base == "" || base[|base| - 1] != '/')
            && OrgPath(base, orgId, path)[|base|..] == "/organizations/" + orgId + path
    ensures OrgPath(Strings.StripTrailingSlashes(apiUrl + "/"), orgId, path)
            == OrgPath(Strings.StripTrailingSlashes(apiUrl), orgId, path)
  {
    Strings.StripTrailingSlashesAbsorbs(apiUrl);
    var base := Strings.StripTrailingSlashes(apiUrl);
    var tail := "/organizations/" + orgId + path;
    var url := OrgPath(base, orgId, path);
    assert url == base + tail;
    assert url[..|base|] == base;
    assert url[|base|..] == tail;
  }

  /** The URL of tests/api-client.test.ts:64. */
  lemma TestEnvironmentsUrl()
    ensures OrgPath(Strings.StripTrailingSlashes("https://api.test.smoo.ai"), "org-123", "/testing/environments")
            == "https://api.test.smoo.ai/organizations/org-123/testing/environments"
  {
    var apiUrl := "https://api.test.smoo.ai";
    assert apiUrl[|apiUrl| - 1] == 'i';
    assert Strings.StripTrailingSlashes(apiUrl) == apiUrl;
  }

  /** The URL a client built from `c` uses for `path`. */
  function ClientUrl(c: Credentials, path: string): string {
    OrgPath(Strings.StripTrailingSlashes(c.apiUrl), c.orgId, path)
  }

  /** A `post`, `patch` or `delete` of a client built from `c`, or a `get` without parameters. */
  function ClientCall(ts: TokenState, c: Credentials, verb: Verb, path: string, body: Value, w: World): DispatchStep {
    Dispatch(ts, c, verb, ClientUrl(c, path), body, true, w)
  }

  class ApiClient {
    const credentials: Credentials
    const baseUrl: string
    /** The module state of auth.ts, shared by every client. */
    const cache: TokenCache

    constructor (credentials: Credentials, cache: TokenCache)
      ensures this.credentials == credentials && this.cache == cache
      ensures baseUrl == Strings.StripTrailingSlashes(credentials.apiUrl)
    {
      this.credentials := credentials;
      this.baseUrl := Strings.StripTrailingSlashes(credentials.apiUrl);
      this.cache := cache;
    }

    /** `request(method, url, body, retry)`. */
    method Request(verb: Verb, url: string, body: Value, retry: bool, net: Network) returns (r: Result<Value>)
      modifies cache, net
      ensures DispatchStep(r, cache.State(), net.State())
              == Dispatch(old(cache.State()), credentials, verb, url, body, retry, old(net.State()))
      decreases retry
    {
      ghost var ts0, w0 := cache.State(), net.State();
      var token := cache.GetAuthToken(credentials, net);
      if token.Err? {
        return Err(token.error);
      }
      ghost var x := Exchange(net.State(), ResourceRequest(verb, url, token.value, body));
      var response := net.Fetch(ResourceRequest(verb, url, token.value, body));
      assert response == x.response && net.State() == x.world;
      if response.status == 401 && retry {
        cache.ClearTokenCache();
        assert Dispatch(ts0, credentials, verb, url, body, retry, w0)
               == Dispatch(Cleared, credentials, verb, url, body, false, x.world);
        r := Request(verb, url, body, false, net);
        return;
      }
      assert Dispatch(ts0, credentials, verb, url, body, retry, w0) == DispatchStep(Outcome(response), cache.State(), net.State());
      r := ResponseOutcome(response);
    }

    /** `get(path, params)`: the organisation path, then "?" and the search text when any entry survives. */
    method Get(path: string, params: Option<Params>, net: Network) returns (r: Result<Value>)
      requires params.Some? ==> DistinctKeys(params.value)
      modifies cache, net
      ensures DispatchStep(r, cache.State(), net.State())
              == Dispatch(old(cache.State()), credentials, GET, OrgPath(baseUrl, credentials.orgId, path) + QueryString(params),
                          None, true, old(net.State()))
    {
      var url := OrgPath(baseUrl, credentials.orgId, path);
      if params.Some? {
        var searchParams := SearchParams(params.value);
        var qs := Encode(searchParams);
        if qs != "" {
          url := url + "?" + qs;
        }
        assert QueryString(params) == if qs != "" then "?" + qs else "";
      }
      assert url == OrgPath(baseUrl, credentials.orgId, path) + QueryString(params);
      r := Request(GET, url, None, true, net);
    }

    method Post(path: string, body: Value, net: Network) returns (r: Result<Value>)
      modifies cache, net
      ensures DispatchStep(r, cache.State(), net.State())
              == Dispatch(old(cache.State()), credentials, POST, OrgPath(baseUrl, credentials.orgId, path), body, true, old(net.State()))
    {
      r := Request(POST, OrgPath(baseUrl, credentials.orgId, path), body, true, net);
    }

    method Patch(path: string, body: Value, net: Network) returns (r: Result<Value>)
      modifies cache, net
      ensures DispatchStep(r, cache.State(), net.State())
              == Dispatch(old(cache.State()), credentials, PATCH, OrgPath(baseUrl, credentials.orgId, path), body, true, old(net.State()))
    {
      r := Request(PATCH, OrgPath(baseUrl, credentials.orgId, path), body, true, net);
    }

    /** `delete(path)`: never a body. */
    method Delete(path: string, net: Network) returns (r: Result<Value>)
      modifies cache, net
      ensures DispatchStep(r, cache.State(), net.State())
              == Dispatch(old(cache.State()), credentials, DELETE, OrgPath(baseUrl, credentials.orgId, path), None, true, old(net.State()))
    {
      r := Request(DELETE, OrgPath(baseUrl, credentials.orgId, path), None, true, net);
    }
  }

  /** A body is sent exactly when the argument is neither null nor undefined; `delete` and `get`
      therefore never send one. */
  lemma BodySentUnlessNullish(verb: Verb, url: string, token: string, body: Value)
    ensures ResourceRequest(verb, url, token, body).payload.NoPayload? <==> Nullish(body)
    ensures !Nullish(body) ==> ResourceRequest(verb, url, token, body).payload == JsonBody(body.value)
  {
  }
}
