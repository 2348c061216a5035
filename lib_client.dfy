/** `SmooTestingClient` (src/lib/index.ts): the programmatic client. It keeps its own token in
    instance fields, maps each CRUD method to a verb and a path, and `report` creates a run, submits a
    CTRF document to it and reads the run back. */
module Library {
  import opened Js
  import opened Http
  import opened Types
  import opened Auth
  import opened Dispatcher
  import opened Query
  import opened Fs
  import Strings

  const DefaultApiUrl: string := "https://api.production.smoo.ai"
  const DefaultAuthUrl: string := "https://auth.production.smoo.ai/token"

  datatype ClientOptions = ClientOptions(
    clientId: string,
    clientSecret: string,
    orgId: string,
    apiUrl: Option<string>,
    authUrl: Option<string>)

  /** The constructor's credentials: the URLs default to production, and only the API URL loses its
      trailing slashes. */
  function ClientCredentials(o: ClientOptions): (c: Credentials)
    ensures c.clientId == o.clientId && c.clientSecret == o.clientSecret && c.orgId == o.orgId
    ensures o.apiUrl.None? ==> c.apiUrl == DefaultApiUrl
    ensures o.apiUrl.Some? ==>
              (Strings.StartsWith(o.apiUrl.value, c.apiUrl)
               && forall k :: |c.apiUrl| <= k < |o.apiUrl.value| ==> o.apiUrl.value[k] == '/')
    ensures c.apiUrl == [] || c.apiUrl[|c.apiUrl| - 1] != '/'
    ensures c.authUrl == o.authUrl.GetOr(DefaultAuthUrl)
  {
    Credentials(o.clientId, o.clientSecret, o.orgId,
                Strings.StripTrailingSlashes(o.apiUrl.GetOr(DefaultApiUrl)), o.authUrl.GetOr(DefaultAuthUrl))
  }

  // ---------------------------------------------------------------------------
  // The CRUD methods (lib/index.ts:120-205) as verbs and paths
  // ---------------------------------------------------------------------------

  datatype Operation =
    | CreateRun(input: Json) | ListRuns(runFilters: Option<Params>) | GetRun(runId: string)
    | UpdateRun(runId: string, input: Json) | SubmitResults(runId: string, ctrf: Json)
    | CreateCase(input: Json) | ListCases(caseFilters: Option<Params>) | GetCase(caseId: string)
    | UpdateCase(caseId: string, input: Json) | DeleteCase(caseId: string)
    | CreateEnvironment(input: Json) | ListEnvironments | GetEnvironment(environmentId: string)
    | UpdateEnvironment(environmentId: string, input: Json)
    | CreateDeployment(input: Json) | ListDeployments(deploymentFilters: Option<Params>)
    | GetDeployment(deploymentId: string) | UpdateDeployment(deploymentId: string, input: Json)
    | DeleteDeployment(deploymentId: string)

  /** The filters of a list operation, if it is one. */
  function Filters(op: Operation): Option<Params> {
    match op
    case ListRuns(f) => f
    case ListCases(f) => f
    case ListDeployments(f) => f
    case _ => None
  }

  /** What a call sends: its verb, its path under the organisation, and its body. */
  datatype Route = Route(verb: Verb, path: string, body: Value)

  function RouteOf(op: Operation): Route {
    match op
    case CreateRun(input) => Route(POST, "/testing/runs", Some(input))
    case ListRuns(f) => Route(GET, "/testing/runs" + QueryString(f), None)
    case GetRun(id) => Route(GET, "/testing/runs/" + id, None)
    case UpdateRun(id, input) => Route(PATCH, "/testing/runs/" + id, Some(input))
    case SubmitResults(id, ctrf) => Route(POST, "/testing/runs/" + id + "/results", Some(ctrf))
    case CreateCase(input) => Route(POST, "/testing/cases", Some(input))
    case ListCases(f) => Route(GET, "/testing/cases" + QueryString(f), None)
    case GetCase(id) => Route(GET, "/testing/cases/" + id, None)
    case UpdateCase(id, input) => Route(PATCH, "/testing/cases/" + id, Some(input))
    case DeleteCase(id) => Route(DELETE, "/testing/cases/" + id, None)
    case CreateEnvironment(input) => Route(POST, "/testing/environments", Some(input))
    case ListEnvironments => Route(GET, "/testing/environments", None)
    case GetEnvironment(id) => Route(GET, "/testing/environments/" + id, None)
    case UpdateEnvironment(id, input) => Route(PATCH, "/testing/environments/" + id, Some(input))
    case CreateDeployment(input) => Route(POST, "/testing/deployments", Some(input))
    case ListDeployments(f) => Route(GET, "/testing/deployments" + QueryString(f), None)
    case GetDeployment(id) => Route(GET, "/testing/deployments/" + id, None)
    case UpdateDeployment(id, input) => Route(PATCH, "/testing/deployments/" + id, Some(input))
    case DeleteDeployment(id) => Route(DELETE, "/testing/deployments/" + id, None)
  }

  predicate Reads(op: Operation) {
    op.ListRuns? || op.GetRun? || op.ListCases? || op.GetCase? || op.ListEnvironments? || op.GetEnvironment?
    || op.ListDeployments? || op.GetDeployment?
  }

  predicate Deletes(op: Operation) {
    op.DeleteCase? || op.DeleteDeployment?
  }

  /** Reads are GETs and deletes are DELETEs, neither with a body; every other operation sends its
      input with POST (create, submit) or PATCH (update). */
  lemma RouteVerbs(op: Operation)
    ensures Reads(op) <==> RouteOf(op).verb == GET
    ensures Deletes(op) <==> RouteOf(op).verb == DELETE
    ensures RouteOf(op).body.None? <==> Reads(op) || Deletes(op)
    ensures RouteOf(op).verb == PATCH <==> op.UpdateRun? || op.UpdateCase? || op.UpdateEnvironment? || op.UpdateDeployment?
  {
  }

  /** A call of the client: the operation's route under `apiUrl/organizations/orgId`, with the retry. */
  function Perform(ts: TokenState, c: Credentials, op: Operation, w: World): DispatchStep {
    var route := RouteOf(op);
    Dispatch(ts, c, route.verb, OrgPath(c.apiUrl, c.orgId, route.path), route.body, true, w)
  }

  // ---------------------------------------------------------------------------
  // report (lib/index.ts:212-248)
  // ---------------------------------------------------------------------------

  datatype ReportOptions = ReportOptions(
    name: Option<string>,
    environment: Option<string>,
    deploymentId: Option<string>,
    tool: Option<string>,
    tags: Option<seq<string>>,
    buildName: Option<string>,
    buildUrl: Option<string>)

  /** `options` not given: every option undefined. */
  const NoOptions: ReportOptions := ReportOptions(None, None, None, None, None, None, None)

  /** `ctrf.results.tool?.name` on the unchecked document: `results` missing or null throws. */
  function ReportToolName(ctrf: Json): (r: Result<Value>)
    ensures r.Err? <==> ctrf == JNull || !(ctrf.JObj? && "results" in ctrf.fields && ctrf.fields["results"] != JNull)
    ensures ctrf.JObj? && "results" in ctrf.fields && ctrf.fields["results"].JObj? ==>
              var results := ctrf.fields["results"].fields;
              ("tool" !in results || results["tool"] == JNull ==> r == Ok(None))
              && ("tool" in results && results["tool"].JObj? && "name" in results["tool"].fields
                  ==> r == Ok(Some(results["tool"].fields["name"])))
    ensures r.Ok? && r.value.Some? ==>
              ctrf.JObj? && "results" in ctrf.fields && ctrf.fields["results"].JObj?
              && "tool" in ctrf.fields["results"].fields && ctrf.fields["results"].fields["tool"].JObj?
              && "name" in ctrf.fields["results"].fields["tool"].fields
              && r.value.value == ctrf.fields["results"].fields["tool"].fields["name"]
  {
    match Property(Some(ctrf), "results")
    case Err(e) => Err(e)
    case Ok(results) =>
      match Property(results, "tool")
      case Err(e) => Err(e)
      case Ok(tool) => if Nullish(tool) then Ok(None) else Property(tool, "name")
  }

  function StrArray(items: seq<string>): Json {
    JArr(seq(|items|, i requires 0 <= i < |items| => JStr(items[i])))
  }

  const RunInputKeys: set<string> := {"name", "environment", "deploymentId", "tool", "tags", "buildName", "buildUrl"}

  /** One key of the `createRun` input; `undefined` keys are dropped when the body is serialised. */
  function RunInputField(ctrfFilePath: string, o: ReportOptions, tool: Value, key: string): Value {
    match key
    case "name" => Some(JStr(o.name.GetOr(ctrfFilePath)))
    case "environment" => StrValue(o.environment)
    case "deploymentId" => StrValue(o.deploymentId)
    case "tool" => tool
    case "tags" => if o.tags.Some? then Some(StrArray(o.tags.value)) else None
    case "buildName" => StrValue(o.buildName)
    case "buildUrl" => StrValue(o.buildUrl)
    case _ => None
  }

  /** The `createRun` input: `name` is the option or else the file path; `tool` is the option or
      else the report's tool name; the others are the options, left out when undefined. */
  function RunInput(ctrfFilePath: string, o: ReportOptions, ctrf: Json): (r: Result<map<string, Json>>)
    ensures r.Ok? ==> "name" in r.value && r.value["name"] == JStr(o.name.GetOr(ctrfFilePath))
    ensures o.tool.Some? ==> r.Ok? && "tool" in r.value && r.value["tool"] == JStr(o.tool.value)
    ensures o.tool.None? ==> (r.Ok? <==> ReportToolName(ctrf).Ok?)
    ensures o.tool.None? && r.Ok? ==> ("tool" in r.value <==> ReportToolName(ctrf).value.Some?)
    ensures o.tool.None? && r.Ok? && ReportToolName(ctrf).value.Some? ==> r.value["tool"] == ReportToolName(ctrf).value.value
    // the other options are passed through as given, and dropped when undefined
    ensures r.Ok? ==> ("environment" in r.value <==> o.environment.Some?)
                      && (o.environment.Some? ==> r.value["environment"] == JStr(o.environment.value))
    ensures r.Ok? ==> ("deploymentId" in r.value <==> o.deploymentId.Some?)
                      && (o.deploymentId.Some? ==> r.value["deploymentId"] == JStr(o.deploymentId.value))
    ensures r.Ok? ==> ("tags" in r.value <==> o.tags.Some?)
                      && (o.tags.Some? ==> r.value["tags"] == StrArray(o.tags.value))
    ensures r.Ok? ==> ("buildName" in r.value <==> o.buildName.Some?)
                      && (o.buildName.Some? ==> r.value["buildName"] == JStr(o.buildName.value))
    ensures r.Ok? ==> ("buildUrl" in r.value <==> o.buildUrl.Some?)
                      && (o.buildUrl.Some? ==> r.value["buildUrl"] == JStr(o.buildUrl.value))
    ensures r.Ok? ==> forall k :: k in r.value ==> k in RunInputKeys
  {
    var tool := if o.tool.Some? then Ok(Some(JStr(o.tool.value))) else ReportToolName(ctrf);
    match tool
    case Err(e) => Err(e)
    case Ok(t) =>
      Ok(map k | k in RunInputKeys && RunInputField(ctrfFilePath, o, t, k).Some? :: RunInputField(ctrfFilePath, o, t, k).value)
  }

  /** `report(ctrfFilePath, options)`, with `new Date().toISOString()` given as `completedAt`. */
  function Report(ts: TokenState, c: Credentials, ctrfFilePath: string, o: ReportOptions, f: File,
                  completedAt: string, w: World): (d: DispatchStep)
    // nothing is sent unless the file reads and parses and the input can be built
    ensures ReadJsonFile(ctrfFilePath, f).Err? ==> d == DispatchStep(Err(ReadJsonFile(ctrfFilePath, f).error), ts, w)
    ensures ReadJsonFile(ctrfFilePath, f).Ok? && RunInput(ctrfFilePath, o, ReadJsonFile(ctrfFilePath, f).value).Err? ==>
              d == DispatchStep(Err(RunInput(ctrfFilePath, o, ReadJsonFile(ctrfFilePath, f).value).error), ts, w)
    // the log only grows
    ensures |w.log| <= |d.world.log| && d.world.log[..|w.log|] == w.log
  {
    match ReadJsonFile(ctrfFilePath, f)
    case Err(e) => DispatchStep(Err(e), ts, w)
    case Ok(ctrf) =>
      match RunInput(ctrfFilePath, o, ctrf)
      case Err(e) => DispatchStep(Err(e), ts, w)
      case Ok(input) =>
        var created := Perform(ts, c, CreateRun(JObj(input)), w);
        var d := AfterCreate(created, c, ctrf, completedAt);
        LogGrows(w, created.world, d.world);
        d
  }

  /** The rest of `report` once `createRun` has returned (or failed): `run.id` is read from its
      result, and the results are submitted under it. */
  function AfterCreate(created: DispatchStep, c: Credentials, ctrf: Json, completedAt: string): (d: DispatchStep)
    ensures created.result.Err? ==> d == created
    ensures created.result.Ok? && Property(created.result.value, "id").Err? ==>
              d == DispatchStep(Err(Property(created.result.value, "id").error), created.state, created.world)
    ensures |created.world.log| <= |d.world.log| && d.world.log[..|created.world.log|] == created.world.log
  {
    if created.result.Err? then created
    else
      match Property(created.result.value, "id")
      case Err(e) => DispatchStep(Err(e), created.state, created.world)
      case Ok(idValue) => SubmitAndFetch(created.state, c, Interpolate(idValue), ctrf, completedAt, created.world)
  }

  /** Submit the results under run `id`; on success read the run back, on failure mark it `errored`
      and rethrow the submit's error (or the marking's, which replaces it). */
  function SubmitAndFetch(ts: TokenState, c: Credentials, id: string, ctrf: Json, completedAt: string, w: World): (d: DispatchStep)
    ensures var submitted := Perform(ts, c, SubmitResults(id, ctrf), w);
            (submitted.result.Ok? ==> d == Perform(submitted.state, c, GetRun(id), submitted.world))
            && (submitted.result.Err? ==> d == MarkErrored(submitted.state, c, id, completedAt, submitted.result.error, submitted.world))
    ensures |w.log| <= |d.world.log| && d.world.log[..|w.log|] == w.log
  {
    var submitted := Perform(ts, c, SubmitResults(id, ctrf), w);
    if submitted.result.Err? then
      var d := MarkErrored(submitted.state, c, id, completedAt, submitted.result.error, submitted.world);
      LogGrows(w, submitted.world, d.world);
      d
    else
      var fetched := Perform(submitted.state, c, GetRun(id), submitted.world);
      LogGrows(w, submitted.world, fetched.world);
      fetched
  }

  /** The `catch` around `submitResults`: one `updateRun` to `errored`, then `error` is rethrown,
      unless the update fails and its own error replaces it. It always fails. */
  function MarkErrored(ts: TokenState, c: Credentials, id: string, completedAt: string, error: Error, w: World): (d: DispatchStep)
    ensures var marked := Perform(ts, c, UpdateRun(id, ErroredBody(completedAt)), w);
            && d.result.Err?
            && d.state == marked.state && d.world == marked.world
            && (marked.result.Ok? ==> d.result == Err(error))
            && (marked.result.Err? ==> d.result == marked.result)
  {
    var marked := Perform(ts, c, UpdateRun(id, ErroredBody(completedAt)), w);
    if marked.result.Err? then marked else DispatchStep(Err(error), marked.state, marked.world)
  }

  /** A call served from the cache and answered by `Served(v)`: one resource request, no grant, and
      the cache unchanged. */
  lemma CachedCall(ts: TokenState, c: Credentials, op: Operation, w: World, v: Json, rest: seq<Response>)
    requires Servable(ts, w.now) && w.script == [Served(v)] + rest
    ensures var route := RouteOf(op);
            var d := Perform(ts, c, op, w);
            d.result == Ok(Some(v)) && d.state == ts
            && d.world == World(w.now, rest, w.fallback,
                                w.log + [ResourceRequest(route.verb, OrgPath(c.apiUrl, c.orgId, route.path), ts.token.value, route.body)])
  {
    var route := RouteOf(op);
    ServedFromCache(ts, c, route.verb, OrgPath(c.apiUrl, c.orgId, route.path), route.body, w, v, rest);
  }

  /** From an empty cache, the first call is granted a token of an hour and answered by `Served(v)`. */
  lemma FirstCall(c: Credentials, op: Operation, w: World, token: string, v: Json, rest: seq<Response>)
    requires token != "" && w.script == [GrantReply(token, 3600, 0), Served(v)] + rest
    ensures var route := RouteOf(op);
            var d := Perform(Cleared, c, op, w);
            d.result == Ok(Some(v)) && d.state == TokenState(Some(token), w.now + 3600 * 1000)
            && d.world == World(w.now, rest, w.fallback,
                                w.log + [AuthRequest(c), ResourceRequest(route.verb, OrgPath(c.apiUrl, c.orgId, route.path), token, route.body)])
  {
    var route := RouteOf(op);
    ServedAfterGrant(c, route.verb, OrgPath(c.apiUrl, c.orgId, route.path), route.body, w, token, v, rest);
  }

  /** The flow of tests/integration/report-flow.test.ts:106-144: one grant, then create, submit and
      read back, four fetches in this order, and the run read back is the result. */
  lemma ReportFlowScenario(c: Credentials, ctrfFilePath: string, o: ReportOptions, ctrf: Json, w: World,
                           token: string, runId: string, count: Json, finalRun: Json)
    requires token != "" && RunInput(ctrfFilePath, o, ctrf).Ok?
    requires w.script == [GrantReply(token, 3600, 0), Served(JObj(map["id" := JStr(runId)])),
                          Served(count), Served(finalRun)]
    ensures var d := Report(Cleared, c, ctrfFilePath, o, Present(Parsed(ctrf)), "", w);
            var input := RunInput(ctrfFilePath, o, ctrf).value;
            d.result == Ok(Some(finalRun))
            && d.world.log == w.log + [
                 AuthRequest(c),
                 ResourceRequest(POST, OrgPath(c.apiUrl, c.orgId, "/testing/runs"), token, Some(JObj(input))),
                 ResourceRequest(POST, OrgPath(c.apiUrl, c.orgId, "/testing/runs/" + runId + "/results"), token, Some(ctrf)),
                 ResourceRequest(GET, OrgPath(c.apiUrl, c.orgId, "/testing/runs/" + runId), token, None)]
  {
    var input := RunInput(ctrfFilePath, o, ctrf).value;
    var run := JObj(map["id" := JStr(runId)]);
    assert w.script == [GrantReply(token, 3600, 0), Served(run)] + [Served(count), Served(finalRun)];
    FirstCall(c, CreateRun(JObj(input)), w, token, run, [Served(count), Served(finalRun)]);
    var created := Perform(Cleared, c, CreateRun(JObj(input)), w);
    ReportOfParsed(Cleared, c, ctrfFilePath, o, ctrf, "", w);
    CreatedWithId(created, c, ctrf, "", runId);
    CachedSubmitAndFetch(created.state, c, runId, ctrf, created.world, count, finalRun);
    var d := SubmitAndFetch(created.state, c, runId, ctrf, "", created.world);
    var auth := AuthRequest(c);
    var create := ResourceRequest(POST, OrgPath(c.apiUrl, c.orgId, "/testing/runs"), token, Some(JObj(input)));
    var submit := ResourceRequest(POST, OrgPath(c.apiUrl, c.orgId, "/testing/runs/" + runId + "/results"), token, Some(ctrf));
    var fetch := ResourceRequest(GET, OrgPath(c.apiUrl, c.orgId, "/testing/runs/" + runId), token, None);
    assert created.world.log == w.log + [auth, create];
    assert d.world.log == created.world.log + [submit, fetch];
    AppendPairs(w.log, auth, create, submit, fetch);
  }

  /** A readable document whose input builds is created first, then handed on. */
  lemma ReportOfParsed(ts: TokenState, c: Credentials, ctrfFilePath: string, o: ReportOptions, ctrf: Json,
                       completedAt: string, w: World)
    requires RunInput(ctrfFilePath, o, ctrf).Ok?
    ensures Report(ts, c, ctrfFilePath, o, Present(Parsed(ctrf)), completedAt, w)
            == AfterCreate(Perform(ts, c, CreateRun(JObj(RunInput(ctrfFilePath, o, ctrf).value)), w), c, ctrf, completedAt)
  {
  }

  /** A created run `{"id": runId}` has its results submitted under `runId`. */
  lemma CreatedWithId(created: DispatchStep, c: Credentials, ctrf: Json, completedAt: string, runId: string)
    requires created.result == Ok(Some(JObj(map["id" := JStr(runId)])))
    ensures AfterCreate(created, c, ctrf, completedAt) == SubmitAndFetch(created.state, c, runId, ctrf, completedAt, created.world)
  {
    assert Property(created.result.value, "id") == Ok(Some(JStr(runId)));
  }

  /** With a servable token, a successful submit followed by the read-back: two resource requests. */
  lemma CachedSubmitAndFetch(ts: TokenState, c: Credentials, id: string, ctrf: Json, w: World, count: Json, finalRun: Json)
    requires Servable(ts, w.now) && w.script == [Served(count), Served(finalRun)]
    ensures var d := SubmitAndFetch(ts, c, id, ctrf, "", w);
            d.result == Ok(Some(finalRun))
            && d.world.log == w.log + [
                 ResourceRequest(POST, OrgPath(c.apiUrl, c.orgId, "/testing/runs/" + id + "/results"), ts.token.value, Some(ctrf)),
                 ResourceRequest(GET, OrgPath(c.apiUrl, c.orgId, "/testing/runs/" + id), ts.token.value, None)]
  {
    assert w.script == [Served(count)] + [Served(finalRun)];
    CachedCall(ts, c, SubmitResults(id, ctrf), w, count, [Served(finalRun)]);
    var submitted := Perform(ts, c, SubmitResults(id, ctrf), w);
    assert submitted.world.script == [Served(finalRun)] + [];
    CachedCall(ts, c, GetRun(id), submitted.world, finalRun, []);
  }

  /** Two calls served from a live cache: each is one fetch, and the cache is left as it was. */
  lemma TwoCachedCalls(ts: TokenState, c: Credentials, w: World, second: Operation, third: Operation, r2: Json, r3: Json)
    requires Servable(ts, w.now) && w.script == [Served(r2), Served(r3)]
    ensures var d2 := Perform(ts, c, second, w);
            var d3 := Perform(d2.state, c, third, d2.world);
            d2.result == Ok(Some(r2)) && d3.result == Ok(Some(r3))
            && |d3.world.log| == |w.log| + 2 && d3.state == ts
  {
    assert w.script == [Served(r2)] + [Served(r3)];
    CachedCall(ts, c, second, w, r2, [Served(r3)]);
    var d2 := Perform(ts, c, second, w);
    assert d2.world.script == [Served(r3)] + [];
    CachedCall(ts, c, third, d2.world, r3, []);
  }

  /** One client's token serves its later calls: three calls after one grant make four fetches in
      all (tests/integration/report-flow.test.ts:159-182). */
  lemma TokenServesLaterCalls(c: Credentials, w: World, token: string, first: Operation, second: Operation,
                              third: Operation, r1: Json, r2: Json, r3: Json)
    requires token != ""
    requires w.script == [GrantReply(token, 3600, 0), Served(r1), Served(r2), Served(r3)]
    ensures var d1 := Perform(Cleared, c, first, w);
            var d2 := Perform(d1.state, c, second, d1.world);
            var d3 := Perform(d2.state, c, third, d2.world);
            d1.result == Ok(Some(r1)) && d2.result == Ok(Some(r2)) && d3.result == Ok(Some(r3))
            && |d3.world.log| == |w.log| + 4 && d3.state == d1.state
  {
    assert w.script == [GrantReply(token, 3600, 0), Served(r1)] + [Served(r2), Served(r3)];
    FirstCall(c, first, w, token, r1, [Served(r2), Served(r3)]);
    var d1 := Perform(Cleared, c, first, w);
    TwoCachedCalls(d1.state, c, d1.world, second, third, r2, r3);
  }

  /** tests/client.test.ts:64-83: after the grant, `listEnvironments` is one GET of the
      organisation's environments, and the parsed body is the result. */
  lemma ListEnvironmentsScenario(c: Credentials, w: World, token: string, envs: Json)
    requires token != "" && w.script == [GrantReply(token, 3600, 0), Served(envs)]
    ensures var d := Perform(Cleared, c, ListEnvironments, w);
            d.result == Ok(Some(envs))
            && d.world.log == w.log + [AuthRequest(c),
                                       ResourceRequest(GET, c.apiUrl + "/organizations/" + c.orgId + "/testing/environments", token, None)]
  {
    assert w.script == [GrantReply(token, 3600, 0), Served(envs)] + [];
    FirstCall(c, ListEnvironments, w, token, envs, []);
  }

  /** tests/client.test.ts:85-97: a rejected grant fails any call with an "Authentication failed"
      error, and no resource request is sent. */
  lemma AuthFailureRejects(c: Credentials, op: Operation, w: World, denied: Response)
    requires !denied.ok && w.script == [denied]
    ensures var d := Perform(Cleared, c, op, w);
            d.result.Err? && Strings.StartsWith(Message(d.result.error), "Authentication failed")
            && d.world.log == w.log + [AuthRequest(c)] && d.state == Cleared
  {
    var route := RouteOf(op);
    var t := GetToken(Cleared, c, w);
    assert t.result == Err(Thrown(AuthFailureMessage(denied.status, TextOrEmpty(denied.body))));
    AuthFailureStopsCall(Cleared, c, route.verb, OrgPath(c.apiUrl, c.orgId, route.path), route.body, true, w);
    var m := AuthFailureMessage(denied.status, TextOrEmpty(denied.body));
    assert m[..|"Authentication failed"|] == "Authentication failed";
  }

  // ---------------------------------------------------------------------------
  // The client object
  // ---------------------------------------------------------------------------

  class SmooTestingClient {
    const credentials: Credentials
    var token: Option<string>
    var tokenExpiresAt: int

    function State(): TokenState
      reads this
    {
      TokenState(token, tokenExpiresAt)
    }

    constructor (options: ClientOptions)
      ensures credentials == ClientCredentials(options) && State() == Cleared
    {
      credentials := ClientCredentials(options);
      token := None;
      tokenExpiresAt := 0;
    }

    /** `authenticate()`: the same cache rule, lifetime default and errors as auth.ts, on this
        client's own fields. */
    method Authenticate(net: Network) returns (r: Result<string>)
      modifies this, net
      ensures TokenStep(r, State(), net.State()) == GetToken(old(State()), credentials, old(net.State()))
    {
      if token.Some? && token.value != "" && net.now < tokenExpiresAt - SafetyMarginMs {
        return Ok(token.value);
      }
      var response := net.Fetch(AuthRequest(credentials));
      if !response.ok {
        var body := TextOrEmpty(response.body);
        return Err(Thrown(AuthFailureMessage(response.status, body)));
      }
      var data := ReadJson(response.body);
      if data.Err? {
        return Err(data.error);
      }
      var field := Property(Some(data.value), "access_token");
      if field.Err? {
        return Err(field.error);
      }
      var accessToken := AccessToken(data.value);
      if accessToken.None? {
        return Err(Thrown(NoAccessTokenMessage));
      }
      token := accessToken;
      tokenExpiresAt := net.now + TtlSeconds(data.value) * 1000;
      return Ok(accessToken.value);
    }

    /** `request(method, path, body, retry)`: a 401 resets this client's token and retries once. */
    method Request(verb: Verb, path: string, body: Value, retry: bool, net: Network) returns (r: Result<Value>)
      modifies this, net
      ensures DispatchStep(r, State(), net.State())
              == Dispatch(old(State()), credentials, verb, OrgPath(credentials.apiUrl, credentials.orgId, path), body, retry, old(net.State()))
      decreases retry
    {
      ghost var ts0, w0 := State(), net.State();
      var t := Authenticate(net);
      if t.Err? {
        return Err(t.error);
      }
      var url := OrgPath(credentials.apiUrl, credentials.orgId, path);
      ghost var request := ResourceRequest(verb, url, t.value, body);
      ghost var x := Exchange(net.State(), request);
      var response := net.Fetch(ResourceRequest(verb, url, t.value, body));
      assert response == x.response && net.State() == x.world;
      if response.status == 401 && retry {
        token := None;
        tokenExpiresAt := 0;
        assert Dispatch(ts0, credentials, verb, url, body, retry, w0)
               == Dispatch(Cleared, credentials, verb, url, body, false, x.world);
        r := Request(verb, path, body, false, net);
        return;
      }
      assert Dispatch(ts0, credentials, verb, url, body, retry, w0) == DispatchStep(Outcome(response), State(), net.State());
      r := ResponseOutcome(response);
    }

    /** Any of the CRUD methods; list operations build their query string first. */
    method Call(op: Operation, net: Network) returns (r: Result<Value>)
      requires Filters(op).Some? ==> DistinctKeys(Filters(op).value)
      modifies this, net
      ensures DispatchStep(r, State(), net.State()) == Perform(old(State()), credentials, op, old(net.State()))
    {
      var route := RouteOf(op);
      if op.ListRuns? || op.ListCases? || op.ListDeployments? {
        var qs := BuildQueryString(Filters(op));
        var base := match op
          case ListRuns(_) => "/testing/runs"
          case ListCases(_) => "/testing/cases"
          case _ => "/testing/deployments";
        assert route.path == base + qs;
        r := Request(GET, base + qs, None, true, net);
      } else {
        r := Request(route.verb, route.path, route.body, true, net);
      }
    }

    /** `report(ctrfFilePath, options)`: reads and parses the file, then create, submit and read back;
        a failed submit marks the run `errored` before its error is rethrown. */
    method ReportFile(ctrfFilePath: string, options: ReportOptions, f: File, completedAt: string, net: Network)
      returns (r: Result<Value>)
      modifies this, net
      ensures DispatchStep(r, State(), net.State())
              == Report(old(State()), credentials, ctrfFilePath, options, f, completedAt, old(net.State()))
    {
      var read := ReadJsonFile(ctrfFilePath, f);
      if read.Err? {
        return Err(read.error);
      }
      var ctrf := read.value;
      var input := RunInput(ctrfFilePath, options, ctrf);
      if input.Err? {
        return Err(input.error);
      }
      var run := Call(CreateRun(JObj(input.value)), net);
      if run.Err? {
        return run;
      }
      var runId := Property(run.value, "id");
      if runId.Err? {
        return Err(runId.error);
      }
      r := SubmitAndFetchRun(Interpolate(runId.value), ctrf, completedAt, net);
    }

    /** The `try`/`catch` around `submitResults`, then `getRun`. */
    method SubmitAndFetchRun(id: string, ctrf: Json, completedAt: string, net: Network) returns (r: Result<Value>)
      modifies this, net
      ensures DispatchStep(r, State(), net.State())
              == SubmitAndFetch(old(State()), credentials, id, ctrf, completedAt, old(net.State()))
    {
      var submitted := Call(SubmitResults(id, ctrf), net);
      if submitted.Err? {
        r := MarkRunErrored(id, completedAt, submitted.error, net);
        return;
      }
      r := Call(GetRun(id), net);
    }

    /** The `catch`: `updateRun(id, { status: 'errored', completedAt })`, then `throw err`. */
    method MarkRunErrored(id: string, completedAt: string, error: Error, net: Network) returns (r: Result<Value>)
      modifies this, net
      ensures DispatchStep(r, State(), net.State()) == MarkErrored(old(State()), credentials, id, completedAt, error, old(net.State()))
    {
      var marked := Call(UpdateRun(id, ErroredBody(completedAt)), net);
      if marked.Err? {
        return marked;
      }
      return Err(error);
    }
  }
}
