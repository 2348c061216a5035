/** The request bodies of `runs create` (src/cli/commands/runs/create.ts), `cases create`
    (src/cli/commands/cases/create.ts) and `cases update` (src/cli/commands/cases/update.ts): each
    option is copied when it is given, and `--tags` becomes the trimmed pieces of a comma split. */
module Commands {
  import opened Js
  import opened Http
  import opened Types
  import opened Auth
  import opened Dispatcher
  import opened Fs
  import opened CliApi
  import CredentialStore
  import Strings

  // ---------------------------------------------------------------------------
  // Tags
  // ---------------------------------------------------------------------------

  /** `tags.split(',').map((t) => t.trim())`. */
  function TagList(tags: string): (r: seq<string>)
    // one entry per comma-separated piece, in order, empty pieces kept
    ensures |r| == |Strings.Split(tags, ',')| == Strings.Count(tags, ',') + 1
    ensures forall k :: 0 <= k < |r| ==> r[k] == Strings.Trim(Strings.Split(tags, ',')[k])
  {
    Strings.SplitPieces(tags, ',');
    var pieces := Strings.Split(tags, ',');
    seq(|pieces|, k requires 0 <= k < |pieces| => Strings.Trim(pieces[k]))
  }

  /** No tag begins or ends with whitespace. */
  lemma TagsAreTrimmed(tags: string)
    ensures forall k :: 0 <= k < |TagList(tags)| && TagList(tags)[k] != [] ==>
              !Strings.IsWhitespace(TagList(tags)[k][0]) && !Strings.IsWhitespace(TagList(tags)[k][|TagList(tags)[k]| - 1])
  {
    forall k | 0 <= k < |TagList(tags)| && TagList(tags)[k] != []
      ensures !Strings.IsWhitespace(TagList(tags)[k][0])
      ensures !Strings.IsWhitespace(TagList(tags)[k][|TagList(tags)[k]| - 1])
    {
      var start := Strings.TrimStart(Strings.Split(tags, ',')[k]);
      assert TagList(tags)[k] == Strings.TrimEnd(start);
      assert TagList(tags)[k][0] == start[0];
    }
  }

  /** Tags written without padding come back unchanged: joining them with commas gives the option. */
  lemma UnpaddedTagsJoinBack(tags: string)
    requires forall k :: 0 <= k < |Strings.Split(tags, ',')| ==> Strings.Trim(Strings.Split(tags, ',')[k]) == Strings.Split(tags, ',')[k]
    ensures TagList(tags) == Strings.Split(tags, ',')
    ensures Strings.Join(TagList(tags), ',') == tags
  {
    Strings.SplitJoin(tags, ',');
  }

  function TagsJson(tags: string): Json {
    var list := TagList(tags);
    JArr(seq(|list|, k requires 0 <= k < |list| => JStr(list[k])))
  }

  // ---------------------------------------------------------------------------
  // Copying options into a body
  // ---------------------------------------------------------------------------

  /** `if (v) body[key] = v`. */
  function CopyIfGiven(m: map<string, Json>, key: string, v: Option<string>): map<string, Json> {
    if Given(v) then m[key := JStr(v.value)] else m
  }

  /** `if (tags) body.tags = tags.split(',').map((t) => t.trim())`. */
  function TagsIfGiven(m: map<string, Json>, tags: Option<string>): map<string, Json> {
    if Given(tags) then m["tags" := TagsJson(tags.value)] else m
  }

  // ---------------------------------------------------------------------------
  // runs create
  // ---------------------------------------------------------------------------

  datatype RunCreateOptions = RunCreateOptions(
    name: string,
    environment: Option<string>,
    environmentId: Option<string>,
    deploymentId: Option<string>,
    tool: Option<string>,
    tags: Option<string>,
    runnerName: Option<string>,
    runnerUrl: Option<string>)

  /** The keys `runs create` can send. */
  const RunCreateKeys: set<string> :=
    {"name", "environment", "environmentId", "deploymentId", "tool", "tags", "runnerName", "runnerUrl"}

  /** The run's placement: `name` and the four options that say where and with what it ran. */
  function RunPlacement(o: RunCreateOptions): (m: map<string, Json>)
    ensures "name" in m && m["name"] == JStr(o.name)
    ensures ("environment" in m <==> Given(o.environment)) && (Given(o.environment) ==> m["environment"] == JStr(o.environment.value))
    ensures ("environmentId" in m <==> Given(o.environmentId)) && (Given(o.environmentId) ==> m["environmentId"] == JStr(o.environmentId.value))
    ensures ("deploymentId" in m <==> Given(o.deploymentId)) && (Given(o.deploymentId) ==> m["deploymentId"] == JStr(o.deploymentId.value))
    ensures ("tool" in m <==> Given(o.tool)) && (Given(o.tool) ==> m["tool"] == JStr(o.tool.value))
    ensures m.Keys <= {"name", "environment", "environmentId", "deploymentId", "tool"}
  {
    var m := map["name" := JStr(o.name)];
    var m := CopyIfGiven(m, "environment", o.environment);
    var m := CopyIfGiven(m, "environmentId", o.environmentId);
    var m := CopyIfGiven(m, "deploymentId", o.deploymentId);
    CopyIfGiven(m, "tool", o.tool)
  }

  /** The body of `runs create`: `name` always; every other option exactly when given, copied
      unchanged except `tags`, which is split; no other key. */
  function RunCreateBody(o: RunCreateOptions): (m: map<string, Json>)
    ensures "name" in m && m["name"] == JStr(o.name)
    ensures ("environment" in m <==> Given(o.environment)) && (Given(o.environment) ==> m["environment"] == JStr(o.environment.value))
    ensures ("environmentId" in m <==> Given(o.environmentId)) && (Given(o.environmentId) ==> m["environmentId"] == JStr(o.environmentId.value))
    ensures ("deploymentId" in m <==> Given(o.deploymentId)) && (Given(o.deploymentId) ==> m["deploymentId"] == JStr(o.deploymentId.value))
    ensures ("tool" in m <==> Given(o.tool)) && (Given(o.tool) ==> m["tool"] == JStr(o.tool.value))
    ensures ("tags" in m <==> Given(o.tags)) && (Given(o.tags) ==> m["tags"] == TagsJson(o.tags.value))
    ensures ("runnerName" in m <==> Given(o.runnerName)) && (Given(o.runnerName) ==> m["runnerName"] == JStr(o.runnerName.value))
    ensures ("runnerUrl" in m <==> Given(o.runnerUrl)) && (Given(o.runnerUrl) ==> m["runnerUrl"] == JStr(o.runnerUrl.value))
    ensures m.Keys <= RunCreateKeys
  {
    var m := TagsIfGiven(RunPlacement(o), o.tags);
    var m := CopyIfGiven(m, "runnerName", o.runnerName);
    CopyIfGiven(m, "runnerUrl", o.runnerUrl)
  }

  /** `runCreate`'s body, built by successive `if`s. */
  method BuildRunCreateBody(o: RunCreateOptions) returns (body: map<string, Json>)
    ensures body == RunCreateBody(o)
  {
    body := map["name" := JStr(o.name)];
    ghost var prev := body;
    if o.environment.Some? && o.environment.value != "" {
      body := body["environment" := JStr(o.environment.value)];
    }
    assert body == CopyIfGiven(prev, "environment", o.environment);
    prev := body;
    if o.environmentId.Some? && o.environmentId.value != "" {
      body := body["environmentId" := JStr(o.environmentId.value)];
    }
    assert body == CopyIfGiven(prev, "environmentId", o.environmentId);
    prev := body;
    if o.deploymentId.Some? && o.deploymentId.value != "" {
      body := body["deploymentId" := JStr(o.deploymentId.value)];
    }
    assert body == CopyIfGiven(prev, "deploymentId", o.deploymentId);
    prev := body;
    if o.tool.Some? && o.tool.value != "" {
      body := body["tool" := JStr(o.tool.value)];
    }
    assert body == CopyIfGiven(prev, "tool", o.tool);
    assert body == RunPlacement(o);
    prev := body;
    if o.tags.Some? && o.tags.value != "" {
      body := body["tags" := TagsJson(o.tags.value)];
    }
    assert body == TagsIfGiven(prev, o.tags);
    prev := body;
    if o.runnerName.Some? && o.runnerName.value != "" {
      body := body["runnerName" := JStr(o.runnerName.value)];
    }
    assert body == CopyIfGiven(prev, "runnerName", o.runnerName);
    prev := body;
    if o.runnerUrl.Some? && o.runnerUrl.value != "" {
      body := body["runnerUrl" := JStr(o.runnerUrl.value)];
    }
    assert body == CopyIfGiven(prev, "runnerUrl", o.runnerUrl);
  }

  // ---------------------------------------------------------------------------
  // cases create and cases update
  // ---------------------------------------------------------------------------

  datatype CaseCreateOptions = CaseCreateOptions(
    title: string,
    description: Option<string>,
    priority: Option<string>,
    automationStatus: Option<string>,
    tags: Option<string>)

  datatype CaseUpdateOptions = CaseUpdateOptions(
    title: Option<string>,
    description: Option<string>,
    priority: Option<string>,
    automationStatus: Option<string>,
    tags: Option<string>)

  /** The case fields copied unchanged, if `key` is one of them. */
  function CaseOption(description: Option<string>, priority: Option<string>, automationStatus: Option<string>,
                      key: string): Option<string> {
    match key
    case "description" => description
    case "priority" => priority
    case "automationStatus" => automationStatus
    case _ => None
  }

  /** The three optional case fields and the tags, over `m`. */
  function CaseFields(m: map<string, Json>, description: Option<string>, priority: Option<string>,
                      automationStatus: Option<string>, tags: Option<string>): map<string, Json> {
    var m := CopyIfGiven(m, "description", description);
    var m := CopyIfGiven(m, "priority", priority);
    var m := CopyIfGiven(m, "automationStatus", automationStatus);
    TagsIfGiven(m, tags)
  }

  /** The body of `cases create`: `title` always; the other fields exactly when given. */
  function CaseCreateBody(o: CaseCreateOptions): (m: map<string, Json>)
    ensures "title" in m && m["title"] == JStr(o.title)
    ensures ("tags" in m <==> Given(o.tags)) && (Given(o.tags) ==> m["tags"] == TagsJson(o.tags.value))
    ensures forall k :: k != "title" && k != "tags" ==>
              var v := CaseOption(o.description, o.priority, o.automationStatus, k);
              (k in m <==> Given(v)) && (k in m ==> m[k] == JStr(v.value))
  {
    CaseFields(map["title" := JStr(o.title)], o.description, o.priority, o.automationStatus, o.tags)
  }

  /** The body of `cases update`: starts empty, so no options send `{}`; each field exactly when given. */
  function CaseUpdateBody(o: CaseUpdateOptions): (m: map<string, Json>)
    ensures ("title" in m <==> Given(o.title)) && (Given(o.title) ==> m["title"] == JStr(o.title.value))
    ensures ("tags" in m <==> Given(o.tags)) && (Given(o.tags) ==> m["tags"] == TagsJson(o.tags.value))
    ensures forall k :: k != "title" && k != "tags" ==>
              var v := CaseOption(o.description, o.priority, o.automationStatus, k);
              (k in m <==> Given(v)) && (k in m ==> m[k] == JStr(v.value))
  {
    CaseFields(CopyIfGiven(map[], "title", o.title), o.description, o.priority, o.automationStatus, o.tags)
  }

  /** An update without options sends an empty object; with every option given it sends the same
      body as a create with that title. */
  lemma UpdateBodies(o: CaseUpdateOptions)
    ensures o == CaseUpdateOptions(None, None, None, None, None) ==> CaseUpdateBody(o) == map[]
    ensures Given(o.title) ==>
              CaseUpdateBody(o) == CaseCreateBody(CaseCreateOptions(o.title.value, o.description, o.priority, o.automationStatus, o.tags))
  {
  }

  /** `cases create`'s body, built by successive `if`s. */
  method BuildCaseCreateBody(o: CaseCreateOptions) returns (body: map<string, Json>)
    ensures body == CaseCreateBody(o)
  {
    body := map["title" := JStr(o.title)];
    ghost var prev := body;
    if o.description.Some? && o.description.value != "" {
      body := body["description" := JStr(o.description.value)];
    }
    assert body == CopyIfGiven(prev, "description", o.description);
    prev := body;
    if o.priority.Some? && o.priority.value != "" {
      body := body["priority" := JStr(o.priority.value)];
    }
    assert body == CopyIfGiven(prev, "priority", o.priority);
    prev := body;
    if o.automationStatus.Some? && o.automationStatus.value != "" {
      body := body["automationStatus" := JStr(o.automationStatus.value)];
    }
    assert body == CopyIfGiven(prev, "automationStatus", o.automationStatus);
    prev := body;
    if o.tags.Some? && o.tags.value != "" {
      body := body["tags" := TagsJson(o.tags.value)];
    }
    assert body == TagsIfGiven(prev, o.tags);
  }

  /** `cases update`'s body: an empty record filled by successive `if`s. */
  method BuildCaseUpdateBody(o: CaseUpdateOptions) returns (body: map<string, Json>)
    ensures body == CaseUpdateBody(o)
  {
    body := map[];
    ghost var prev := body;
    if o.title.Some? && o.title.value != "" {
      body := body["title" := JStr(o.title.value)];
    }
    assert body == CopyIfGiven(prev, "title", o.title);
    prev := body;
    if o.description.Some? && o.description.value != "" {
      body := body["description" := JStr(o.description.value)];
    }
    assert body == CopyIfGiven(prev, "description", o.description);
    prev := body;
    if o.priority.Some? && o.priority.value != "" {
      body := body["priority" := JStr(o.priority.value)];
    }
    assert body == CopyIfGiven(prev, "priority", o.priority);
    prev := body;
    if o.automationStatus.Some? && o.automationStatus.value != "" {
      body := body["automationStatus" := JStr(o.automationStatus.value)];
    }
    assert body == CopyIfGiven(prev, "automationStatus", o.automationStatus);
    prev := body;
    if o.tags.Some? && o.tags.value != "" {
      body := body["tags" := TagsJson(o.tags.value)];
    }
    assert body == TagsIfGiven(prev, o.tags);
  }

  // ---------------------------------------------------------------------------
  // Sending the bodies
  // ---------------------------------------------------------------------------

  /** A command's one call: the credentials (or exit status 1), then the call on a fresh client. */
  function CommandCall(ts: TokenState, env: CredentialStore.Env, credFile: File, verb: Verb, path: string, body: Json,
                       w: World): (d: DispatchStep)
    ensures CredentialStore.LoadCredentials(env, credFile).None? ==> d == DispatchStep(Err(Exited(1)), ts, w)
    // with credentials, every request sent is a grant or this verb on this path with this body
    ensures CredentialStore.LoadCredentials(env, credFile).Some? ==>
              var c := CredentialStore.LoadCredentials(env, credFile).value;
              |w.log| <= |d.world.log| && d.world.log[..|w.log|] == w.log
              && CallRequests(d.world.log[|w.log|..], c, verb, ClientUrl(c, path), Some(body))
              && ResourceCount(d.world.log[|w.log|..]) <= 2
  {
    match CredentialStore.GetCredentialsOrExit(env, credFile)
    case Err(e) => DispatchStep(Err(e), ts, w)
    case Ok(c) => ClientCall(ts, c, verb, path, Some(body), w)
  }

  /** Every resource request `runs create` sends is a POST of its body to `/testing/runs`. */
  lemma RunCreateSendsItsBody(ts: TokenState, env: CredentialStore.Env, credFile: File, o: RunCreateOptions, w: World)
    requires CredentialStore.LoadCredentials(env, credFile).Some?
    ensures var c := CredentialStore.LoadCredentials(env, credFile).value;
            var d := CommandCall(ts, env, credFile, POST, "/testing/runs", JObj(RunCreateBody(o)), w);
            var added := d.world.log[|w.log|..];
            forall i :: 0 <= i < |added| && !IsAuth(added[i]) ==>
              added[i].verb == POST && added[i].url == ClientUrl(c, "/testing/runs")
              && added[i].payload == JsonBody(JObj(RunCreateBody(o)))
  {
  }

  /** `runCreate`: load the credentials, build the body, POST it to `/testing/runs`. */
  method RunCreate(o: RunCreateOptions, env: CredentialStore.Env, credFile: File, cache: TokenCache, net: Network)
    returns (r: Result<Value>)
    modifies cache, net
    ensures DispatchStep(r, cache.State(), net.State())
            == CommandCall(old(cache.State()), env, credFile, POST, "/testing/runs", JObj(RunCreateBody(o)), old(net.State()))
  {
    var creds := CredentialStore.GetCredentialsOrExit(env, credFile);
    if creds.Err? {
      return Err(creds.error);
    }
    var client := new ApiClient(creds.value, cache);
    var body := BuildRunCreateBody(o);
    r := client.Post("/testing/runs", Some(JObj(body)), net);
  }

  /** `cases create`'s `runCreate`: POST the body to `/testing/cases`. */
  method CaseCreate(o: CaseCreateOptions, env: CredentialStore.Env, credFile: File, cache: TokenCache, net: Network)
    returns (r: Result<Value>)
    modifies cache, net
    ensures DispatchStep(r, cache.State(), net.State())
            == CommandCall(old(cache.State()), env, credFile, POST, "/testing/cases", JObj(CaseCreateBody(o)), old(net.State()))
  {
    var creds := CredentialStore.GetCredentialsOrExit(env, credFile);
    if creds.Err? {
      return Err(creds.error);
    }
    var client := new ApiClient(creds.value, cache);
    var body := BuildCaseCreateBody(o);
    r := client.Post("/testing/cases", Some(JObj(body)), net);
  }

  /** `cases update`'s `runUpdate`: PATCH the body to `/testing/cases/{id}`. */
  method CaseUpdate(id: string, o: CaseUpdateOptions, env: CredentialStore.Env, credFile: File, cache: TokenCache,
                    net: Network) returns (r: Result<Value>)
    modifies cache, net
    ensures DispatchStep(r, cache.State(), net.State())
            == CommandCall(old(cache.State()), env, credFile, PATCH, "/testing/cases/" + id, JObj(CaseUpdateBody(o)), old(net.State()))
  {
    var creds := CredentialStore.GetCredentialsOrExit(env, credFile);
    if creds.Err? {
      return Err(creds.error);
    }
    var client := new ApiClient(creds.value, cache);
    var body := BuildCaseUpdateBody(o);
    r := client.Patch("/testing/cases/" + id, Some(JObj(body)), net);
  }
}
