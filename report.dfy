/** `smooai-testing runs report <ctrf-file>` (src/cli/commands/runs/report.tsx): parse and summarise
    the CTRF file, load the credentials, create a run whose payload mixes options, the report and the
    CI environment, submit the results, and read the run back. `reportLogic` marks the run `errored`
    when the submit fails; the interactive `ReportUI` only marks its running task. */
module CliReport {
  import opened Js
  import opened Http
  import opened Types
  import opened Auth
  import opened Dispatcher
  import opened Fs
  import opened CliApi
  import Ctrf
  import CredentialStore
  import Strings

  datatype ReportOptions = ReportOptions(
    name: Option<string>,
    environment: Option<string>,
    deploymentId: Option<string>,
    tool: Option<string>,
    buildName: Option<string>,
    buildUrl: Option<string>)

  /** `process.env[k]`: undefined when unset, possibly the empty string. */
  function EnvRaw(env: CredentialStore.Env, k: string): Option<string> {
    if k in env then Some(env[k]) else None
  }

  /** `report.results.tool?.name` on the validated report. */
  function ReportTool(report: CtrfReport): Option<string> {
    if report.results.tool.Some? then report.results.tool.value.name else None
  }

  /** The run name: the option, else the file's base name without a trailing ".json". */
  function RunName(ctrfFile: string, o: ReportOptions): string {
    o.name.GetOr(Strings.Basename(ctrfFile, ".json"))
  }

  /** The three GitHub Actions variables, when all are set and non-empty. */
  predicate CiContext(env: CredentialStore.Env) {
    CredentialStore.EnvValue(env, "GITHUB_SERVER_URL").Some? && CredentialStore.EnvValue(env, "GITHUB_REPOSITORY").Some?
    && CredentialStore.EnvValue(env, "GITHUB_RUN_ID").Some?
  }

  function CiBuildUrl(env: CredentialStore.Env): string
    requires CiContext(env)
  {
    env["GITHUB_SERVER_URL"] + "/" + env["GITHUB_REPOSITORY"] + "/actions/runs/" + env["GITHUB_RUN_ID"]
  }

  const RunBodyKeys: set<string> := {"name", "tool", "buildName", "environment", "deploymentId", "buildUrl"}

  /** `runBody` as an object whose values may be undefined: `name`, `tool` and `buildName` are always
      keys; `environment` and `deploymentId` only when given; `buildUrl` from the option, else from
      the CI context, else absent. */
  function RunBody(ctrfFile: string, o: ReportOptions, report: CtrfReport, env: CredentialStore.Env): (body: map<string, Value>)
    ensures "name" in body && body["name"] == Some(JStr(RunName(ctrfFile, o)))
    ensures "tool" in body && body["tool"] == StrValue(if o.tool.Some? then o.tool else ReportTool(report))
    ensures "buildName" in body && body["buildName"] == StrValue(if o.buildName.Some? then o.buildName else EnvRaw(env, "GITHUB_SHA"))
    ensures ("environment" in body <==> Given(o.environment))
            && (Given(o.environment) ==> body["environment"] == Some(JStr(o.environment.value)))
    ensures ("deploymentId" in body <==> Given(o.deploymentId))
            && (Given(o.deploymentId) ==> body["deploymentId"] == Some(JStr(o.deploymentId.value)))
    ensures ("buildUrl" in body <==> Given(o.buildUrl) || CiContext(env))
    ensures Given(o.buildUrl) ==> body["buildUrl"] == Some(JStr(o.buildUrl.value))
    ensures !Given(o.buildUrl) && CiContext(env) ==> body["buildUrl"] == Some(JStr(CiBuildUrl(env)))
    ensures forall k :: k in body ==> k in RunBodyKeys
  {
    WithBuildUrl(WithGiven(WithGiven(BaseBody(ctrfFile, o, report, env), "environment", o.environment),
                           "deploymentId", o.deploymentId), o, env)
  }

  /** The three keys `runBody` starts with. */
  function BaseBody(ctrfFile: string, o: ReportOptions, report: CtrfReport, env: CredentialStore.Env): map<string, Value> {
    map["name" := Some(JStr(RunName(ctrfFile, o))),
        "tool" := StrValue(if o.tool.Some? then o.tool else ReportTool(report)),
        "buildName" := StrValue(if o.buildName.Some? then o.buildName else EnvRaw(env, "GITHUB_SHA"))]
  }

  /** `if (v) body[key] = v`. */
  function WithGiven(m: map<string, Value>, key: string, v: Option<string>): map<string, Value> {
    if Given(v) then m[key := Some(JStr(v.value))] else m
  }

  function WithBuildUrl(m: map<string, Value>, o: ReportOptions, env: CredentialStore.Env): map<string, Value> {
    if Given(o.buildUrl) then m["buildUrl" := Some(JStr(o.buildUrl.value))]
    else if CiContext(env) then m["buildUrl" := Some(JStr(CiBuildUrl(env)))]
    else m
  }

  /** The CI build URL names the run id of the workflow as its last path segment. */
  lemma CiBuildUrlEndsWithRunId(env: CredentialStore.Env)
    requires CiContext(env)
    ensures Strings.EndsWith(CiBuildUrl(env), "/actions/runs/" + env["GITHUB_RUN_ID"])
  {
    var tail := "/actions/runs/" + env["GITHUB_RUN_ID"];
    var url := CiBuildUrl(env);
    assert url == (env["GITHUB_SERVER_URL"] + "/" + env["GITHUB_REPOSITORY"]) + tail;
    assert url[|url| - |tail|..] == tail;
  }

  /** What the run payload looks like on the wire: the undefined `tool` or `buildName` disappear. */
  lemma UndefinedKeysDropped(ctrfFile: string, o: ReportOptions, report: CtrfReport, env: CredentialStore.Env)
    ensures var sent := Stringified(RunBody(ctrfFile, o, report, env)).fields;
            "name" in sent
            && ("tool" in sent <==> o.tool.Some? || ReportTool(report).Some?)
            && ("buildName" in sent <==> o.buildName.Some? || "GITHUB_SHA" in env)
  {
  }

  /** The results body: `{ results: report.results }`, the validated results re-serialised. */
  function ResultsBody(report: CtrfReport): Json {
    JObj(map["results" := Ctrf.EncodeResults(report.results)])
  }

  /** The value `reportLogic` resolves to. */
  datatype ReportOutcome = ReportOutcome(run: Value, resultCount: Value, summary: Ctrf.Totals)

  /** The outcome of `reportLogic`: its result, the token cache after it, the world after it. */
  datatype ReportStep = ReportStep(result: Result<ReportOutcome>, state: TokenState, world: World)

  /** `reportLogic(ctrfFile, options)`, with the environment, both files and the ISO time as inputs. */
  function ReportRun(ts: TokenState, env: CredentialStore.Env, credFile: File, ctrfFile: string, o: ReportOptions,
                     f: File, completedAt: string, w: World): (d: ReportStep)
    // the file is parsed and summarised, and the credentials loaded, before anything is sent
    ensures Ctrf.ParseCtrfFile(ctrfFile, f).Err? ==> d == ReportStep(Err(Ctrf.ParseCtrfFile(ctrfFile, f).error), ts, w)
    ensures Ctrf.ParseCtrfFile(ctrfFile, f).Ok? && CredentialStore.LoadCredentials(env, credFile).None? ==>
              d == ReportStep(Err(Exited(1)), ts, w)
    // the summary comes from the file alone
    ensures d.result.Ok? ==> Ctrf.ParseCtrfFile(ctrfFile, f).Ok?
                             && d.result.value.summary == Ctrf.Summarize(Ctrf.ParseCtrfFile(ctrfFile, f).value)
    ensures |w.log| <= |d.world.log| && d.world.log[..|w.log|] == w.log
  {
    match Ctrf.ParseCtrfFile(ctrfFile, f)
    case Err(e) => ReportStep(Err(e), ts, w)
    case Ok(report) =>
      var summary := Ctrf.Summarize(report);
      match CredentialStore.GetCredentialsOrExit(env, credFile)
      case Err(e) => ReportStep(Err(e), ts, w)
      case Ok(c) =>
        var created := ClientCall(ts, c, POST, "/testing/runs", Some(Stringified(RunBody(ctrfFile, o, report, env))), w);
        var d := AfterRunCreated(created, c, report, summary, completedAt);
        LogGrows(w, created.world, d.world);
        d
  }

  /** After `client.post('/testing/runs', runBody)`: the results are submitted under `run.id`. A
      reply without a run throws reading `run.id` inside the `try`; the `catch` reads `run.id` again
      and throws the same TypeError before any PATCH is sent, so nothing more is sent. */
  function AfterRunCreated(created: DispatchStep, c: Credentials, report: CtrfReport, summary: Ctrf.Totals,
                           completedAt: string): (d: ReportStep)
    ensures created.result.Err? ==> d == ReportStep(Err(created.result.error), created.state, created.world)
    ensures created.result.Ok? && Property(created.result.value, "id").Err? ==>
              d == ReportStep(Err(Property(created.result.value, "id").error), created.state, created.world)
    ensures d.result.Ok? ==> d.result.value.summary == summary
    ensures |created.world.log| <= |d.world.log| && d.world.log[..|created.world.log|] == created.world.log
  {
    if created.result.Err? then ReportStep(Err(created.result.error), created.state, created.world)
    else
      match Property(created.result.value, "id")
      case Err(e) => ReportStep(Err(e), created.state, created.world)
      case Ok(id) => SubmitThenFetch(created.state, c, Interpolate(id), report, summary, completedAt, created.world)
  }

  /** What the `try` yields: the submit's error, or the TypeError of reading `count` from an empty
      reply, or the count. */
  function SubmitCount(submitted: DispatchStep): Result<Value> {
    if submitted.result.Err? then Err(submitted.result.error) else Property(submitted.result.value, "count")
  }

  /** The `try`/`catch` around the submit, then `client.get('/testing/runs/{id}')`. */
  function SubmitThenFetch(ts: TokenState, c: Credentials, id: string, report: CtrfReport, summary: Ctrf.Totals,
                           completedAt: string, w: World): (d: ReportStep)
    ensures var submitted := ClientCall(ts, c, POST, "/testing/runs/" + id + "/results", Some(ResultsBody(report)), w);
            var count := SubmitCount(submitted);
            var marked := ClientCall(submitted.state, c, PATCH, "/testing/runs/" + id, Some(ErroredBody(completedAt)), submitted.world);
            var fetched := ClientCall(submitted.state, c, GET, "/testing/runs/" + id, None, submitted.world);
            // a failing submit marks the run errored and rethrows; an error while marking replaces it
            (count.Err? && marked.result.Ok? ==> d == ReportStep(Err(count.error), marked.state, marked.world))
            && (count.Err? && marked.result.Err? ==> d == ReportStep(Err(marked.result.error), marked.state, marked.world))
            // otherwise the run is read back, and the result carries it with the count and the summary
            && (count.Ok? && fetched.result.Ok? ==>
                  d == ReportStep(Ok(ReportOutcome(fetched.result.value, count.value, summary)), fetched.state, fetched.world))
            && (count.Ok? && fetched.result.Err? ==> d == ReportStep(Err(fetched.result.error), fetched.state, fetched.world))
    ensures |w.log| <= |d.world.log| && d.world.log[..|w.log|] == w.log
  {
    var submitted := ClientCall(ts, c, POST, "/testing/runs/" + id + "/results", Some(ResultsBody(report)), w);
    match SubmitCount(submitted)
    case Err(e) =>
      var marked := ClientCall(submitted.state, c, PATCH, "/testing/runs/" + id, Some(ErroredBody(completedAt)), submitted.world);
      LogGrows(w, submitted.world, marked.world);
      if marked.result.Err? then ReportStep(Err(marked.result.error), marked.state, marked.world)
      else ReportStep(Err(e), marked.state, marked.world)
    case Ok(count) =>
      var fetched := ClientCall(submitted.state, c, GET, "/testing/runs/" + id, None, submitted.world);
      LogGrows(w, submitted.world, fetched.world);
      if fetched.result.Err? then ReportStep(Err(fetched.result.error), fetched.state, fetched.world)
      else ReportStep(Ok(ReportOutcome(fetched.result.value, count, summary)), fetched.state, fetched.world)
  }

  /** The submit with its reply: a cached token, the run created as `{"id": runId}`, then the count
      and the run read back — two more requests, and the result assembles the read-back run, the
      count and the local summary. */
  lemma SubmitThenFetchServed(ts: TokenState, c: Credentials, runId: string, report: CtrfReport, summary: Ctrf.Totals,
                              w: World, count: int, finalRun: Json)
    requires Servable(ts, w.now) && w.script == [Served(JObj(map["count" := JNum(count)])), Served(finalRun)]
    ensures SubmitThenFetch(ts, c, runId, report, summary, "", w)
            == ReportStep(Ok(ReportOutcome(Some(finalRun), Some(JNum(count)), summary)), ts,
                          World(w.now, [], w.fallback,
                                w.log + [ResourceRequest(POST, ClientUrl(c, "/testing/runs/" + runId + "/results"), ts.token.value, Some(ResultsBody(report))),
                                         ResourceRequest(GET, ClientUrl(c, "/testing/runs/" + runId), ts.token.value, None)]))
  {
    var reply := JObj(map["count" := JNum(count)]);
    var submitReq := ResourceRequest(POST, ClientUrl(c, "/testing/runs/" + runId + "/results"), ts.token.value, Some(ResultsBody(report)));
    assert w.script == [Served(reply)] + [Served(finalRun)];
    ServedFromCache(ts, c, POST, ClientUrl(c, "/testing/runs/" + runId + "/results"), Some(ResultsBody(report)), w, reply, [Served(finalRun)]);
    var w1 := World(w.now, [Served(finalRun)], w.fallback, w.log + [submitReq]);
    var submitted := ClientCall(ts, c, POST, "/testing/runs/" + runId + "/results", Some(ResultsBody(report)), w);
    assert submitted == DispatchStep(Ok(Some(reply)), ts, w1);
    assert SubmitCount(submitted) == Ok(Some(JNum(count)));
    assert w1.script == [Served(finalRun)] + [];
    var getReq := ResourceRequest(GET, ClientUrl(c, "/testing/runs/" + runId), ts.token.value, None);
    ServedFromCache(ts, c, GET, ClientUrl(c, "/testing/runs/" + runId), None, w1, finalRun, []);
    assert w1.log + [getReq] == w.log + [submitReq, getReq];
  }

  /** `reportLogic` against a server that answers every call: one grant, the create, the submit and
      the read-back, four requests in this order; the outcome carries the run read back, the
      submitted count and the summary of the file. */
  lemma ReportLogicScenario(env: CredentialStore.Env, credFile: File, ctrfFile: string, o: ReportOptions, f: File,
                            w: World, token: string, runId: string, count: int, finalRun: Json)
    requires Ctrf.ParseCtrfFile(ctrfFile, f).Ok? && CredentialStore.LoadCredentials(env, credFile).Some?
    requires token != ""
    requires w.script == [GrantReply(token, 3600, 0), Served(JObj(map["id" := JStr(runId)])),
                          Served(JObj(map["count" := JNum(count)])), Served(finalRun)]
    ensures var report := Ctrf.ParseCtrfFile(ctrfFile, f).value;
            var c := CredentialStore.LoadCredentials(env, credFile).value;
            var d := ReportRun(Cleared, env, credFile, ctrfFile, o, f, "", w);
            d.result == Ok(ReportOutcome(Some(finalRun), Some(JNum(count)), Ctrf.Summarize(report)))
            && d.world.log == w.log + [
                 AuthRequest(c),
                 ResourceRequest(POST, ClientUrl(c, "/testing/runs"), token, Some(Stringified(RunBody(ctrfFile, o, report, env)))),
                 ResourceRequest(POST, ClientUrl(c, "/testing/runs/" + runId + "/results"), token, Some(ResultsBody(report))),
                 ResourceRequest(GET, ClientUrl(c, "/testing/runs/" + runId), token, None)]
  {
    var report := Ctrf.ParseCtrfFile(ctrfFile, f).value;
    var c := CredentialStore.LoadCredentials(env, credFile).value;
    var runBody := Some(Stringified(RunBody(ctrfFile, o, report, env)));
    var run := JObj(map["id" := JStr(runId)]);
    var rest := [Served(JObj(map["count" := JNum(count)])), Served(finalRun)];
    assert w.script == [GrantReply(token, 3600, 0), Served(run)] + rest;
    ServedAfterGrant(c, POST, ClientUrl(c, "/testing/runs"), runBody, w, token, run, rest);
    var created := ClientCall(Cleared, c, POST, "/testing/runs", runBody, w);
    ReportRunStages(Cleared, env, credFile, ctrfFile, o, f, "", w);
    CreatedRunId(created, c, report, Ctrf.Summarize(report), "", runId);
    SubmitThenFetchServed(created.state, c, runId, report, Ctrf.Summarize(report), created.world, count, finalRun);
    var auth := AuthRequest(c);
    var create := ResourceRequest(POST, ClientUrl(c, "/testing/runs"), token, runBody);
    var submit := ResourceRequest(POST, ClientUrl(c, "/testing/runs/" + runId + "/results"), token, Some(ResultsBody(report)));
    var fetch := ResourceRequest(GET, ClientUrl(c, "/testing/runs/" + runId), token, None);
    AppendPairs(w.log, auth, create, submit, fetch);
  }

  /** Once the file parses and the credentials load, `reportLogic` is the create call followed by the
      rest of the flow. */
  lemma ReportRunStages(ts: TokenState, env: CredentialStore.Env, credFile: File, ctrfFile: string, o: ReportOptions,
                        f: File, completedAt: string, w: World)
    requires Ctrf.ParseCtrfFile(ctrfFile, f).Ok? && CredentialStore.LoadCredentials(env, credFile).Some?
    ensures var report := Ctrf.ParseCtrfFile(ctrfFile, f).value;
            var c := CredentialStore.LoadCredentials(env, credFile).value;
            ReportRun(ts, env, credFile, ctrfFile, o, f, completedAt, w)
            == AfterRunCreated(ClientCall(ts, c, POST, "/testing/runs", Some(Stringified(RunBody(ctrfFile, o, report, env))), w),
                               c, report, Ctrf.Summarize(report), completedAt)
  {
  }

  /** A run created as `{"id": runId}` has its results submitted under `runId`. */
  lemma CreatedRunId(created: DispatchStep, c: Credentials, report: CtrfReport, summary: Ctrf.Totals, completedAt: string,
                     runId: string)
    requires created.result == Ok(Some(JObj(map["id" := JStr(runId)])))
    ensures AfterRunCreated(created, c, report, summary, completedAt)
            == SubmitThenFetch(created.state, c, runId, report, summary, completedAt, created.world)
  {
    assert Property(created.result.value, "id") == Ok(Some(JStr(runId)));
  }

  /** A submit rejected with a non-401 error is followed by exactly one more request, the PATCH that
      marks the run errored at `completedAt`; the submit's error is what the command fails with. */
  lemma SubmitFailureMarksErrored(ts: TokenState, c: Credentials, runId: string, report: CtrfReport, summary: Ctrf.Totals,
                                  completedAt: string, w: World, rejected: Response, patched: Json)
    requires Servable(ts, w.now) && !rejected.ok && rejected.status != 401 && rejected.latency == 0
    requires w.script == [rejected, Served(patched)]
    ensures var d := SubmitThenFetch(ts, c, runId, report, summary, completedAt, w);
            d.result == Err(Thrown(ApiFailureMessage(rejected.status, rejected.statusText, TextOrEmpty(rejected.body))))
            && d.world.log == w.log + [
                 ResourceRequest(POST, ClientUrl(c, "/testing/runs/" + runId + "/results"), ts.token.value, Some(ResultsBody(report))),
                 ResourceRequest(PATCH, ClientUrl(c, "/testing/runs/" + runId), ts.token.value, Some(ErroredBody(completedAt)))]
  {
    var submitUrl := ClientUrl(c, "/testing/runs/" + runId + "/results");
    assert GetToken(ts, c, w) == TokenStep(Ok(ts.token.value), ts, w);
    FinalResponse(ts, c, POST, submitUrl, Some(ResultsBody(report)), true, w);
    var submitted := ClientCall(ts, c, POST, "/testing/runs/" + runId + "/results", Some(ResultsBody(report)), w);
    assert submitted.state == ts && submitted.world.now == w.now;
    assert submitted.world.script == [Served(patched)] + [];
    ServedFromCache(ts, c, PATCH, ClientUrl(c, "/testing/runs/" + runId), Some(ErroredBody(completedAt)), submitted.world, patched, []);
  }

  /** Builds `runBody` the way the command does, key by key. */
  method BuildRunBody(ctrfFile: string, o: ReportOptions, report: CtrfReport, env: CredentialStore.Env)
    returns (body: map<string, Value>)
    ensures body == RunBody(ctrfFile, o, report, env)
  {
    var runName := if o.name.Some? then o.name.value else Strings.Basename(ctrfFile, ".json");
    var tool := if o.tool.Some? then o.tool else ReportTool(report);
    var buildName := if o.buildName.Some? then o.buildName else EnvRaw(env, "GITHUB_SHA");
    body := map["name" := Some(JStr(runName)), "tool" := StrValue(tool), "buildName" := StrValue(buildName)];
    assert body == BaseBody(ctrfFile, o, report, env);
    ghost var start := body;
    if o.environment.Some? && o.environment.value != "" {
      body := body["environment" := Some(JStr(o.environment.value))];
    }
    assert body == WithGiven(start, "environment", o.environment);
    ghost var withEnvironment := body;
    if o.deploymentId.Some? && o.deploymentId.value != "" {
      body := body["deploymentId" := Some(JStr(o.deploymentId.value))];
    }
    assert body == WithGiven(withEnvironment, "deploymentId", o.deploymentId);
    ghost var withDeployment := body;
    if o.buildUrl.Some? && o.buildUrl.value != "" {
      body := body["buildUrl" := Some(JStr(o.buildUrl.value))];
    } else if CredentialStore.EnvValue(env, "GITHUB_SERVER_URL").Some? && CredentialStore.EnvValue(env, "GITHUB_REPOSITORY").Some?
              && CredentialStore.EnvValue(env, "GITHUB_RUN_ID").Some? {
      body := body["buildUrl" := Some(JStr(env["GITHUB_SERVER_URL"] + "/" + env["GITHUB_REPOSITORY"] + "/actions/runs/"
                                           + env["GITHUB_RUN_ID"]))];
    }
    assert body == WithBuildUrl(withDeployment, o, env);
  }

  /** `reportLogic(ctrfFile, options)` against the process's token cache and the network. */
  method ReportLogic(ctrfFile: string, options: ReportOptions, f: File, env: CredentialStore.Env, credFile: File,
                     completedAt: string, cache: TokenCache, net: Network) returns (r: Result<ReportOutcome>)
    modifies cache, net
    ensures ReportStep(r, cache.State(), net.State())
            == ReportRun(old(cache.State()), env, credFile, ctrfFile, options, f, completedAt, old(net.State()))
  {
    var parsed := Ctrf.ParseCtrfFile(ctrfFile, f);
    if parsed.Err? {
      return Err(parsed.error);
    }
    var report := parsed.value;
    var summary := Ctrf.SummarizeCtrfResults(report);
    var creds := CredentialStore.GetCredentialsOrExit(env, credFile);
    if creds.Err? {
      return Err(creds.error);
    }
    var client := new ApiClient(creds.value, cache);
    var runBody := BuildRunBody(ctrfFile, options, report, env);
    var run := client.Post("/testing/runs", Some(Stringified(runBody)), net);
    if run.Err? {
      return Err(run.error);
    }
    var id := Property(run.value, "id");
    if id.Err? {
      return Err(id.error);
    }
    r := SubmitAndFetch(client, Interpolate(id.value), report, summary, completedAt, net);
  }

  /** The `try`/`catch` around the submit, then the read-back, through `client`. */
  method SubmitAndFetch(client: ApiClient, id: string, report: CtrfReport, summary: Ctrf.Totals, completedAt: string,
                        net: Network) returns (r: Result<ReportOutcome>)
    requires client.baseUrl == Strings.StripTrailingSlashes(client.credentials.apiUrl)
    modifies client.cache, net
    ensures ReportStep(r, client.cache.State(), net.State())
            == SubmitThenFetch(old(client.cache.State()), client.credentials, id, report, summary, completedAt, old(net.State()))
  {
    var submitted := client.Post("/testing/runs/" + id + "/results", Some(ResultsBody(report)), net);
    var resultCount: Result<Value>;
    if submitted.Err? {
      resultCount := Err(submitted.error);
    } else {
      resultCount := Property(submitted.value, "count");
    }
    if resultCount.Err? {
      var marked := client.Patch("/testing/runs/" + id, Some(ErroredBody(completedAt)), net);
      if marked.Err? {
        return Err(marked.error);
      }
      return Err(resultCount.error);
    }
    var updatedRun := client.Get("/testing/runs/" + id, None, net);
    assert OrgPath(client.baseUrl, client.credentials.orgId, "/testing/runs/" + id) + Query.QueryString(None)
        == OrgPath(client.baseUrl, client.credentials.orgId, "/testing/runs/" + id);
    if updatedRun.Err? {
      return Err(updatedRun.error);
    }
    return Ok(ReportOutcome(updatedRun.value, resultCount.value, summary));
  }

  // ---------------------------------------------------------------------------
  // ReportUI: the same steps behind four tasks, without the error marking
  // ---------------------------------------------------------------------------

  datatype TaskStatus = TaskPending | TaskRunning | TaskDone | TaskError

  datatype TaskItem = TaskItem(caption: string, status: TaskStatus, error: Option<string>)

  const InitialTasks: seq<TaskItem> := [
    TaskItem("Parsing CTRF report", TaskPending, None),
    TaskItem("Authenticating", TaskPending, None),
    TaskItem("Creating test run", TaskPending, None),
    TaskItem("Submitting results", TaskPending, None)]

  /** `t.map((task, j) => j === i ? { ...task, status } : task)`. */
  function SetStatus(tasks: seq<TaskItem>, i: int, status: TaskStatus): (r: seq<TaskItem>)
    ensures |r| == |tasks|
    ensures forall j :: 0 <= j < |tasks| ==> r[j] == if j == i then tasks[j].(status := status) else tasks[j]
  {
    seq(|tasks|, j requires 0 <= j < |tasks| => if j == i then tasks[j].(status := status) else tasks[j])
  }

  /** The catch handler: every running task becomes an error carrying the message; nothing else changes. */
  function FailRunning(tasks: seq<TaskItem>, message: string): (r: seq<TaskItem>)
    ensures |r| == |tasks|
    ensures forall j :: 0 <= j < |tasks| && tasks[j].status == TaskRunning ==>
              r[j] == tasks[j].(status := TaskError, error := Some(message))
    ensures forall j :: 0 <= j < |tasks| && tasks[j].status != TaskRunning ==> r[j] == tasks[j]
  {
    seq(|tasks|, j requires 0 <= j < |tasks| =>
      if tasks[j].status == TaskRunning then tasks[j].(status := TaskError, error := Some(message)) else tasks[j])
  }

  /** No task is left running once the handler has run, so it is idempotent. */
  lemma FailRunningSettles(tasks: seq<TaskItem>, message: string)
    ensures forall j :: 0 <= j < |tasks| ==> FailRunning(tasks, message)[j].status != TaskRunning
    ensures FailRunning(FailRunning(tasks, message), message) == FailRunning(tasks, message)
  {
  }

  /** The state of the interactive report: the task list, the result when it got that far, the
      cache and the world. */
  datatype UiStep = UiStep(tasks: seq<TaskItem>, outcome: Option<ReportOutcome>, state: TokenState, world: World)

  /** Task `i` done and task `i + 1` running. */
  function Advance(tasks: seq<TaskItem>, i: int): seq<TaskItem> {
    SetStatus(SetStatus(tasks, i, TaskDone), i + 1, TaskRunning)
  }

  /** The effect of `ReportUI`. A `process.exit` while loading credentials ends the program with the
      tasks as they were. */
  function UiFlow(ts: TokenState, env: CredentialStore.Env, credFile: File, ctrfFile: string, o: ReportOptions,
                  f: File, w: World): (u: UiStep)
    ensures Ctrf.ParseCtrfFile(ctrfFile, f).Err? ==>
              u == UiStep(FailRunning(Running(0), Message(Ctrf.ParseCtrfFile(ctrfFile, f).error)), None, ts, w)
    ensures Ctrf.ParseCtrfFile(ctrfFile, f).Ok? && CredentialStore.LoadCredentials(env, credFile).None? ==>
              u == UiStep(Running(1), None, ts, w)
    ensures u.outcome.Some? ==> Ctrf.ParseCtrfFile(ctrfFile, f).Ok?
                                && u.outcome.value.summary == Ctrf.Summarize(Ctrf.ParseCtrfFile(ctrfFile, f).value)
  {
    match Ctrf.ParseCtrfFile(ctrfFile, f)
    case Err(e) => UiStep(FailRunning(Running(0), Message(e)), None, ts, w)
    case Ok(report) =>
      var summary := Ctrf.Summarize(report);
      var authenticating := Progress(1);
      match CredentialStore.GetCredentialsOrExit(env, credFile)
      case Err(_) => UiStep(authenticating, None, ts, w)
      case Ok(c) =>
        var creating := Progress(2);
        var created := ClientCall(ts, c, POST, "/testing/runs", Some(Stringified(RunBody(ctrfFile, o, report, env))), w);
        UiAfterCreate(creating, created, c, report, summary)
  }

  /** The interactive flow after the create call: "Creating test run" is marked done and
      "Submitting results" running before `run.id` is read, then submit and read back; any error
      only marks the running task. */
  function UiAfterCreate(creating: seq<TaskItem>, created: DispatchStep, c: Credentials, report: CtrfReport,
                         summary: Ctrf.Totals): (u: UiStep)
    ensures created.result.Err? ==> u == UiStep(FailRunning(creating, Message(created.result.error)), None, created.state, created.world)
    // a create reply without a run throws while the submit task is running, and nothing more is sent
    ensures created.result.Ok? && Property(created.result.value, "id").Err? ==>
              u == UiStep(FailRunning(Advance(creating, 2), Message(Property(created.result.value, "id").error)),
                          None, created.state, created.world)
    ensures u.outcome.Some? ==> u.outcome.value.summary == summary
    // a failing submit sends nothing more: no request marks the run errored
    ensures created.result.Ok? && Property(created.result.value, "id").Ok? ==>
              var id := Interpolate(Property(created.result.value, "id").value);
              var submitted := ClientCall(created.state, c, POST, "/testing/runs/" + id + "/results", Some(ResultsBody(report)), created.world);
              submitted.result.Err? ==>
                u == UiStep(FailRunning(Advance(creating, 2), Message(submitted.result.error)), None, submitted.state, submitted.world)
  {
    if created.result.Err? then UiStep(FailRunning(creating, Message(created.result.error)), None, created.state, created.world)
    else
      match Property(created.result.value, "id")
      case Err(e) => UiStep(FailRunning(Advance(creating, 2), Message(e)), None, created.state, created.world)
      case Ok(idValue) =>
        var id := Interpolate(idValue);
        var submitting := Advance(creating, 2);
        var submitted := ClientCall(created.state, c, POST, "/testing/runs/" + id + "/results", Some(ResultsBody(report)), created.world);
        if submitted.result.Err? then
          UiStep(FailRunning(submitting, Message(submitted.result.error)), None, submitted.state, submitted.world)
        else
          var finished := SetStatus(submitting, 3, TaskDone);
          var fetched := ClientCall(submitted.state, c, GET, "/testing/runs/" + id, None, submitted.world);
          if fetched.result.Err? then UiStep(FailRunning(finished, Message(fetched.result.error)), None, fetched.state, fetched.world)
          else
            match Property(submitted.result.value, "count")
            case Err(e) => UiStep(FailRunning(finished, Message(e)), None, fetched.state, fetched.world)
            case Ok(count) => UiStep(finished, Some(ReportOutcome(fetched.result.value, count, summary)), fetched.state, fetched.world)
  }

  /** The task list after an error in step `i`: the earlier tasks done, task `i` an error with the
      message, the later ones still pending. */
  predicate FailedAt(tasks: seq<TaskItem>, i: nat, message: string)
    requires i < 4
  {
    && |tasks| == 4
    && (forall j :: 0 <= j < i ==> tasks[j].status == TaskDone && tasks[j].error == None)
    && tasks[i] == InitialTasks[i].(status := TaskError, error := Some(message))
    && (forall j :: i < j < 4 ==> tasks[j] == InitialTasks[j])
  }

  /** Every task done. */
  predicate AllDone(tasks: seq<TaskItem>) {
    |tasks| == 4 && forall j :: 0 <= j < 4 ==> tasks[j].status == TaskDone
  }

  /** How the tasks end once the credentials load: all done, or "Creating test run" or "Submitting
      results" an error with everything before it done and everything after it pending. */
  predicate Settled(tasks: seq<TaskItem>) {
    || AllDone(tasks)
    || (|tasks| == 4 && tasks[2].error.Some? && FailedAt(tasks, 2, tasks[2].error.value))
    || (|tasks| == 4 && tasks[3].error.Some? && FailedAt(tasks, 3, tasks[3].error.value))
  }

  /** The task list while step `i` runs. */
  function Running(i: nat): (r: seq<TaskItem>)
    requires i < 4
    ensures |r| == 4
  {
    if i == 0 then SetStatus(InitialTasks, 0, TaskRunning) else Progress(i)
  }

  /** An error in step `i` marks exactly that step's task; when the last step completes every task
      is done. */
  lemma UiTaskProgress(i: nat, message: string)
    requires i < 4
    ensures FailedAt(FailRunning(Running(i), message), i, message)
    ensures AllDone(SetStatus(Progress(3), 3, TaskDone))
  {
    if i > 0 {
      ProgressShape(i);
    }
    ProgressShape(3);
  }

  /** The catch handler leaves a list of finished tasks as it is. */
  lemma FailRunningKeepsDone(tasks: seq<TaskItem>, message: string)
    requires AllDone(tasks)
    ensures FailRunning(tasks, message) == tasks
  {
    assert forall j :: 0 <= j < 4 ==> FailRunning(tasks, message)[j] == tasks[j];
  }

  /** After the create call, from the tasks while "Creating test run" runs: a failed create marks
      task 2; a reply without a run or a failed submit marks task 3; a submit that succeeds leaves
      every task done, whatever the read-back does. */
  lemma UiAfterCreateTasks(created: DispatchStep, c: Credentials, report: CtrfReport, summary: Ctrf.Totals)
    ensures var u := UiAfterCreate(Progress(2), created, c, report, summary);
            && (created.result.Err? ==> FailedAt(u.tasks, 2, Message(created.result.error)))
            && (created.result.Ok? && Property(created.result.value, "id").Err? ==>
                  FailedAt(u.tasks, 3, Message(Property(created.result.value, "id").error)))
            && (u.outcome.Some? ==> AllDone(u.tasks))
            && Settled(u.tasks)
  {
    assert Running(3) == Advance(Progress(2), 2);
    if created.result.Err? {
      UiTaskProgress(2, Message(created.result.error));
    } else {
      match Property(created.result.value, "id")
      case Err(e) =>
        UiTaskProgress(3, Message(e));
      case Ok(idValue) =>
        var id := Interpolate(idValue);
        var submitted := ClientCall(created.state, c, POST, "/testing/runs/" + id + "/results", Some(ResultsBody(report)), created.world);
        if submitted.result.Err? {
          UiTaskProgress(3, Message(submitted.result.error));
        } else {
          var finished := SetStatus(Progress(3), 3, TaskDone);
          UiTaskProgress(3, "");
          var fetched := ClientCall(submitted.state, c, GET, "/testing/runs/" + id, None, submitted.world);
          if fetched.result.Err? {
            FailRunningKeepsDone(finished, Message(fetched.result.error));
          } else if Property(submitted.result.value, "count").Err? {
            FailRunningKeepsDone(finished, Message(Property(submitted.result.value, "count").error));
          }
        }
    }
  }

  /** A parse error marks "Parsing CTRF report" and leaves the other tasks pending. */
  lemma UiParseErrorTask(ts: TokenState, env: CredentialStore.Env, credFile: File, ctrfFile: string, o: ReportOptions,
                         f: File, w: World)
    requires Ctrf.ParseCtrfFile(ctrfFile, f).Err?
    ensures FailedAt(UiFlow(ts, env, credFile, ctrfFile, o, f, w).tasks, 0, Message(Ctrf.ParseCtrfFile(ctrfFile, f).error))
  {
    UiTaskProgress(0, Message(Ctrf.ParseCtrfFile(ctrfFile, f).error));
  }

  /** The interactive flow once the credentials load: every task is done or exactly one of tasks 2
      and 3 is an error; a result is shown only with every task done. */
  lemma UiFlowTasks(ts: TokenState, env: CredentialStore.Env, credFile: File, ctrfFile: string, o: ReportOptions,
                    f: File, w: World)
    ensures var u := UiFlow(ts, env, credFile, ctrfFile, o, f, w);
            && (Ctrf.ParseCtrfFile(ctrfFile, f).Ok? && CredentialStore.LoadCredentials(env, credFile).Some? ==>
                  Settled(u.tasks))
            && (u.outcome.Some? ==> AllDone(u.tasks))
  {
    match Ctrf.ParseCtrfFile(ctrfFile, f)
    case Err(e) =>
    case Ok(report) =>
      match CredentialStore.GetCredentialsOrExit(env, credFile)
      case Err(_) =>
      case Ok(c) =>
        var created := ClientCall(ts, c, POST, "/testing/runs", Some(Stringified(RunBody(ctrfFile, o, report, env))), w);
        UiAfterCreateTasks(created, c, report, Ctrf.Summarize(report));
  }

  /** The task list while step `i` runs (i >= 1). */
  function Progress(i: nat): (r: seq<TaskItem>)
    requires 1 <= i < 4
    ensures |r| == 4
    decreases i
  {
    if i == 1 then Advance(SetStatus(InitialTasks, 0, TaskRunning), 0) else Advance(Progress(i - 1), i - 1)
  }

  lemma {:induction false} ProgressShape(i: nat)
    requires 1 <= i < 4
    ensures |Progress(i)| == 4
    ensures forall j :: 0 <= j < i ==> Progress(i)[j].status == TaskDone && Progress(i)[j].error == None
    ensures Progress(i)[i] == InitialTasks[i].(status := TaskRunning)
    ensures forall j :: i < j < 4 ==> Progress(i)[j] == InitialTasks[j]
    decreases i
  {
    if i > 1 {
      ProgressShape(i - 1);
    }
  }
}
