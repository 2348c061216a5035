# SmooAI testing client — a Dafny model

This project models the client side of the Smoo AI test-management API (the `@smooai/testing`
package). It covers:

- the bearer-token cache and client-credentials exchange, both for the CLI (`auth.ts`) and
  inside the library's `SmooTestingClient`;
- the request dispatcher, which composes the URL, sends the bearer header, retries once on HTTP 401,
  formats errors, parses response bodies and builds query strings;
- the two report flows, `SmooTestingClient.report` and the CLI's `reportLogic` together with the
  task list of `ReportUI`: create a run, submit the CTRF results (Common Test Report Format),
  mark the run `errored` and rethrow when the submit fails, and read the run back;
- the CTRF validator (the zod schema restated as a predicate over JSON) and the summariser;
- CLI credential selection, saving and clearing;
- the request bodies of `runs create`, `cases create` and `cases update`.

The network is a scripted server (`Http.Network`): a clock, the responses still to come, a fallback
response once the script runs out, and the log of every request sent. Every operation that talks to
it is described by a pure function from the token state and the world before, to the result, the
token state and the world after. The imperative classes (`Auth.TokenCache`, `CliApi.ApiClient`,
`Library.SmooTestingClient`, `CredentialStore.CredentialsFile`) are proved to make exactly that
transition. Lemmas then state what the source promises about those functions: how often it
fetches, which requests in which order, what reaches the cache, and which error comes out.

Modules, one per file:

| file | module | models |
|---|---|---|
| strings.dfy | `Strings` | the JavaScript string operations used: number formatting, `trim`, `split`, `join`, `replace(/\/+$/, '')`, `path.basename` |
| js.dfy | `Js` | JSON values, `undefined`, truthiness, thrown errors, property access, template-literal text |
| types.dfy | `Types` | credentials and the CTRF report types |
| http.dfy | `Http` | requests, responses, the scripted network, error-message tails |
| auth.dfy | `Auth` | `getAuthToken` / `clearTokenCache` |
| dispatch.dfy | `Dispatcher` | `request` with its 401 retry, shared by both clients |
| query.dfy | `Query` | the query string of `get` and `buildQueryString` |
| api_client.dfy | `CliApi` | `ApiClient` |
| fs.dfy | `Fs` | a file as the program sees it: absent, unreadable, or present with its JSON parse |
| ctrf.dfy | `Ctrf` | `parseCtrfFile`, the schema, `summarizeCtrfResults` |
| credentials.dfy | `CredentialStore` | `loadCredentials`, `saveCredentials`, `clearCredentials`, `getCredentialsOrExit` |
| lib_client.dfy | `Library` | `SmooTestingClient` |
| report.dfy | `CliReport` | `reportLogic` and `ReportUI` |
| commands.dfy | `Commands` | `runs create`, `cases create`, `cases update` |

## Model

| member | source | states |
|---|---|---|
| Strings.NatToStringRoundTrip | src/cli/utils/auth.ts:31 | the decimal text of a status code reads back as that number, so messages name the status exactly |
| Strings.NatToStringInjective | src/cli/utils/api-client.ts:41 | different status codes give different message text |
| Strings.TrimStart | src/cli/commands/runs/create.ts:28 | the result is a suffix; everything cut off is whitespace; its first character is not whitespace |
| Strings.TrimEnd | src/cli/commands/runs/create.ts:28 | the result is a prefix; everything cut off is whitespace; its last character is not whitespace |
| Strings.InfixAfterCuts | src/cli/commands/runs/create.ts:28 | cutting leading and then trailing whitespace leaves an infix with whitespace margins and non-whitespace end characters |
| Strings.TrimIsInfix | src/cli/commands/runs/create.ts:28 | `trim()` yields the infix whose margins are whitespace and whose end characters are not |
| Strings.SplitJoin | src/cli/commands/runs/create.ts:28 | joining the pieces of `split(sep)` with `sep` gives the original string back |
| Strings.SplitPieces | src/cli/commands/runs/create.ts:28 | `split` gives one more piece than there are separators, and no piece holds a separator |
| Strings.StripTrailingSlashes | src/cli/utils/api-client.ts:14 | the result is a prefix; only '/' characters are removed; it does not end in '/' |
| Strings.StripTrailingSlashesAbsorbs | src/cli/utils/api-client.ts:14 | an extra trailing slash on the API URL makes no difference |
| Strings.LastSegment | src/cli/commands/runs/report.tsx:39 | the last path segment contains no '/' |
| Strings.Basename | src/cli/commands/runs/report.tsx:39 | `basename(p, '.json')` contains no '/' |
| Strings.BasenameOfJsonFile | src/cli/commands/runs/report.tsx:39 | the base name of `dir/stem.json` is `stem`: directory removed, `.json` stripped |
| Js.Property | src/lib/index.ts:231 | reading a property throws exactly on null or undefined; a defined result is that field of an object |
| Js.Stringified | src/cli/commands/runs/report.tsx:56 | `JSON.stringify` of a record drops exactly the undefined values and keeps every other key with its value |
| Http.Exchange | src/cli/utils/api-client.ts:24-31 | a fetch logs the request, consumes the next scripted response (or the fallback) and advances the clock by its latency |
| Http.ReadJson | src/cli/utils/auth.ts:34 | `response.json()` succeeds only on readable non-empty text, with that text's parse |
| Http.Detail | src/lib/index.ts:68 | the tail is empty for an empty body; otherwise it is " — " followed by the body |
| Http.DetailDeterminesBody | src/lib/index.ts:102 | the error tail determines the response body text |
| Http.DetailAsWritten | src/cli/utils/auth.ts:31 | the CLI's tail as written is empty for an empty body, and otherwise five characters longer than the body |
| Http.DetailAsWrittenDiffers | src/cli/utils/api-client.ts:41 | for every non-empty body, the CLI's tail differs from the library's |
| Http.Network.constructor | src/cli/utils/api-client.ts:24 | the network starts at the given time, with the given script and an empty log |
| Http.Network.Fetch | src/cli/utils/api-client.ts:24-31 | a fetch is the `Exchange` transition on the network's state |
| Auth.TtlSeconds | src/cli/utils/auth.ts:42 | the lifetime is never zero; a missing, non-numeric or zero `expires_in` gives 3600 s; otherwise it is `expires_in` |
| Auth.AuthReply | src/cli/utils/auth.ts:29-38 | non-ok gives "Authentication failed: HTTP {status}" with the tail; an unparsable body gives its parse error; a missing `access_token` gives the no-token message; a grant holds a non-empty token and a non-zero lifetime |
| Auth.GetToken | src/cli/utils/auth.ts:12-45 | a servable token is returned with no request and no change; otherwise exactly one grant is sent; a failure leaves the cache as it was; success caches the token with expiry `now + ttl * 1000` |
| Auth.ReuseWithinLifetime | src/cli/utils/auth.ts:14 | after a grant, any call before `expiresAt - 60000` gets the same token with no request |
| Auth.ShortLifetimeNeverServed | src/cli/utils/auth.ts:14 | a token granted for 60 s or less is never served from the cache |
| Auth.ClearedAlwaysExchanges | src/cli/utils/auth.ts:47-50 | after a clear, the next call always sends the grant request |
| Auth.TokenCache.constructor | src/cli/utils/auth.ts:9-10 | the module's cache starts with no token and expiry 0 |
| Auth.TokenCache.GetAuthToken | src/cli/utils/auth.ts:12-45 | the method makes the `GetToken` transition on the cache and the network |
| Auth.TokenCache.ClearTokenCache | src/cli/utils/auth.ts:47-50 | the token becomes null and the expiry 0, whatever they were; the operation is idempotent |
| Dispatcher.Outcome | src/cli/utils/api-client.ts:39-46 | non-ok gives "API error: HTTP {status} {statusText}" with the tail; an unreadable body throws the error of `response.text()`; empty text gives undefined; non-empty text is the parse, or throws the `JSON.parse` error |
| Dispatcher.ResponseOutcome | src/cli/utils/api-client.ts:39-46 | the status check, `response.text()` and `JSON.parse` after a fetch that is not retried compute `Outcome` of the response |
| Dispatcher.Dispatch | src/cli/utils/api-client.ts:21-47 | the log only grows; every new request is the grant or this verb, URL and body with a bearer header; at most two resource requests with the retry and one without; on success the token used is the cached one |
| Dispatcher.UnauthorizedRetriesFromCleared | src/cli/utils/api-client.ts:34-37 | a 401 with `retry` set clears the cache and repeats the same call once, with `retry` off |
| Dispatcher.FinalResponse | src/cli/utils/api-client.ts:39-46 | without a 401 retry, the result is the outcome of the first response |
| Dispatcher.AuthFailureStopsCall | src/cli/utils/api-client.ts:22 | a failed grant sends no resource request and leaves the cache as it was |
| Dispatcher.ServedFromCache | src/cli/utils/api-client.ts:22-46 | with a servable token, one resource request carries the cached token and its reply is the result |
| Dispatcher.ServedAfterGrant | src/cli/utils/api-client.ts:22-46 | from an empty cache, one grant and one resource request; the new token is cached for an hour |
| Dispatcher.GrantThenCall | src/cli/utils/auth.ts:40-42 | a grant of an hour is cached and used for the resource request |
| Dispatcher.GrantFromCleared | src/cli/utils/auth.ts:14-42 | with nothing cached, exactly one request goes to the auth URL and a one-hour grant is cached with its expiry |
| Dispatcher.BearerCall | src/cli/utils/api-client.ts:24-29 | a resource call with a non-empty token carries `Authorization: Bearer <token>` and is never a grant request |
| Dispatcher.DeniedThenRetried | src/cli/utils/api-client.ts:34-37 | from an empty cache, a grant and a 401 become the same call from an empty cache with `retry` off, after the grant and the denied request |
| Dispatcher.RetriedAfterGrant | src/cli/utils/api-client.ts:21-46 | the retried call from an empty cache sends one grant and one resource request with the new token, caches it for an hour, and its response's outcome is the result |
| Dispatcher.RetryAfterUnauthorized | src/cli/utils/api-client.ts:34-37 | tests/api-client.test.ts:80-114 in general: a grant, a 401, a second grant, then the retried call succeeds with four fetches in that order |
| Dispatcher.UnauthorizedTwice | src/cli/utils/api-client.ts:34-41 | a second 401 is not retried again: it throws the API error after exactly four fetches |
| Dispatcher.GrantReplyGrants | src/cli/utils/auth.ts:34-42 | a reply carrying a token and a lifetime is accepted as that grant |
| Query.RemoveKey | src/cli/utils/api-client.ts:54 | no entry for the key remains; an entry survives exactly when its key is another; with no entry for the key nothing changes |
| Query.SetEntry | src/cli/utils/api-client.ts:54 | after `set`, the key is present and every entry for it carries the new value; removing the key afterwards gives what removing it before gives, so the other keys' entries survive in their order |
| Query.SetNewKeyAppends | src/cli/utils/api-client.ts:54 | setting a key the params do not hold appends the pair |
| Query.Kept | src/cli/utils/api-client.ts:53-55 | at most one entry per parameter |
| Query.KeptMembership | src/cli/utils/api-client.ts:53-55 | a pair reaches the search params exactly when its parameter is defined, with its text |
| Query.KeptEmpty | src/cli/utils/api-client.ts:56-57 | no entry survives exactly when every value is null or undefined |
| Query.KeysOfKept | src/cli/utils/api-client.ts:53-55 | every key in the query comes from the params |
| Query.Encode | src/cli/utils/api-client.ts:56 | the text is empty exactly when there are no entries |
| Query.QueryString | src/lib/index.ts:110-118 | '' for undefined params or when every value is nullish; otherwise '?' followed by the encoded entries |
| Query.SearchParams | src/lib/index.ts:112-115 | the loop of `sp.set` calls yields the kept entries |
| Query.BuildQueryString | src/lib/index.ts:110-118 | the method computes `QueryString` |
| CliApi.OrgPathJoinsOnce | src/cli/utils/api-client.ts:17-19 | `orgPath(p)` is the base URL, then "/organizations/", the org id and `p`; a slash on the API URL does not double |
| CliApi.TestEnvironmentsUrl | src/cli/utils/api-client.ts:17-19 | tests/api-client.test.ts:64: the exact URL `https://api.test.smoo.ai/organizations/org-123/testing/environments` |
| CliApi.ApiClient.constructor | src/cli/utils/api-client.ts:12-15 | `baseUrl` is the API URL without trailing slashes; the client shares the process's token cache |
| CliApi.ApiClient.Request | src/cli/utils/api-client.ts:21-47 | the method makes the `Dispatch` transition, recursing once on a 401 |
| CliApi.ApiClient.Get | src/cli/utils/api-client.ts:49-60 | a GET of `orgPath(path)` followed by the query string; the bare path without params |
| CliApi.ApiClient.Post | src/cli/utils/api-client.ts:62-64 | a POST of the body to `orgPath(path)` |
| CliApi.ApiClient.Patch | src/cli/utils/api-client.ts:66-68 | a PATCH of the body to `orgPath(path)` |
| CliApi.ApiClient.Delete | src/cli/utils/api-client.ts:70-72 | a DELETE of `orgPath(path)` that sends no body |
| CliApi.BodySentUnlessNullish | src/cli/utils/api-client.ts:30 | a body is sent exactly when the argument is not null or undefined, and then it is that value |
| Fs.ReadJsonFile | src/lib/index.ts:224-225 | reading and parsing succeeds exactly for a present file with valid JSON, giving its value |
| Ctrf.StatusOf | src/cli/utils/ctrf.ts:11 | a status name is accepted exactly when it is one of the five, and the name maps back to it |
| Ctrf.StatusOfName | src/cli/utils/ctrf.ts:11 | every status is recognised by its own name |
| Ctrf.ItemIssues | src/cli/utils/ctrf.ts:20 | no issue exactly when every tag is a string |
| Ctrf.ValueIssues | src/cli/utils/ctrf.ts:12-21 | no issue exactly when the value has the field's kind |
| Ctrf.OptionalIssues | src/cli/utils/ctrf.ts:12-21 | no issue exactly when every optional field is absent or of its kind |
| Ctrf.TestIssues | src/cli/utils/ctrf.ts:9-22 | no issue exactly when the test satisfies the test schema |
| Ctrf.TestsIssues | src/cli/utils/ctrf.ts:44 | no issue exactly when every test is valid |
| Ctrf.NestedIssues | src/cli/utils/ctrf.ts:26-43 | no issue exactly when `tool` / `summary` is absent or a valid object |
| Ctrf.ResultsIssues | src/cli/utils/ctrf.ts:25-46 | no issue exactly when `results` satisfies its schema |
| Ctrf.ReportIssues | src/cli/utils/ctrf.ts:24-47 | no issue exactly when the document satisfies the report schema |
| Ctrf.Decode | src/cli/utils/ctrf.ts:64-70 | the document is accepted exactly when it satisfies the schema; otherwise the error lists at least one issue |
| Ctrf.DecodeEncode | src/cli/utils/ctrf.ts:24-47 | every report, re-serialised, is accepted and decodes back to itself |
| Ctrf.EncodeTestRoundTrip | src/cli/utils/ctrf.ts:9-22 | a serialised test is valid and decodes to itself |
| Ctrf.EncodedTestValid | src/cli/utils/ctrf.ts:9-22 | a serialised test satisfies the test schema |
| Ctrf.EncodeToolRoundTrip | src/cli/utils/ctrf.ts:26-31 | a serialised tool is valid and decodes to itself |
| Ctrf.EncodeSummaryRoundTrip | src/cli/utils/ctrf.ts:32-43 | a serialised summary is valid and decodes to itself |
| Ctrf.EncodeTestsRoundTrip | src/cli/utils/ctrf.ts:44 | a serialised test list is valid and decodes to itself |
| Ctrf.EncodeResultsRoundTrip | src/cli/utils/ctrf.ts:25-46 | serialised results are valid and decode to themselves |
| Ctrf.MinimalReportAccepted | src/cli/utils/ctrf.ts:24-47 | tests/ctrf.test.ts:59-64: `{results: {}}` is accepted, with every part absent |
| Ctrf.MissingResultsRejected | src/cli/utils/ctrf.ts:24-25 | tests/ctrf.test.ts:54-57: an object without `results` is rejected with exactly the issue "results: required" |
| Ctrf.UnknownKeysIgnored | src/cli/utils/ctrf.ts:24-47 | an extra top-level key changes neither acceptance nor the decoded report |
| Ctrf.ParseCtrfFile | src/cli/utils/ctrf.ts:49-71 | a read failure first ("Failed to read CTRF file: {path}…"), then invalid JSON ("Invalid JSON in CTRF file: {path}"), then the schema; accepted exactly for a present, valid document |
| Ctrf.ReadFailure | src/cli/utils/ctrf.ts:54 | the message starts with "Failed to read CTRF file: " and the path |
| Ctrf.Summarize | src/cli/utils/ctrf.ts:73-102 | `hasFailed` is `failed > 0` in both branches |
| Ctrf.SummarizeCtrfResults | src/cli/utils/ctrf.ts:94-101 | the counting loop computes `Summarize` |
| Ctrf.CountsAreOccurrences | src/cli/utils/ctrf.ts:96-100 | each derived counter is the number of tests with that status |
| Ctrf.CountsPartition | src/cli/utils/ctrf.ts:95-100 | the five derived counters add up to the number of tests |
| Ctrf.DerivedTotalIsSum | src/cli/utils/ctrf.ts:94-101 | without a summary, the total is the sum of the five counters |
| Ctrf.DerivedHasFailed | src/cli/utils/ctrf.ts:101 | without a summary, the report has failed exactly when some test failed |
| Ctrf.DeclaredSummaryWins | src/cli/utils/ctrf.ts:82-91 | with a summary, the total and each of the five counters is that summary field `?? 0`, and the tests array plays no part |
| CredentialStore.LoadCredentials | src/cli/utils/credentials.ts:17-49 | complete environment variables win whatever the file holds; otherwise only a parsed object with the three fields yields credentials, and those are its fields; the URLs fall back to the defaults when missing or empty |
| CredentialStore.GetCredentialsOrExit | src/cli/utils/credentials.ts:83-89 | the loaded credentials, or exit status 1 exactly when there are none |
| CredentialStore.Merge | src/cli/utils/credentials.ts:64 | the five credential fields override; every other existing key is kept with its value |
| CredentialStore.ClearedFile | src/cli/utils/credentials.ts:68-81 | an object loses exactly `clientId` and `clientSecret`; any other file stays as it was |
| CredentialStore.SaveThenLoad | src/cli/utils/credentials.ts:38-45 | with the environment unset, saved non-empty credentials load back unchanged |
| CredentialStore.ClearThenLoad | src/cli/utils/credentials.ts:74-75 | with the environment unset, nothing loads after a clear |
| CredentialStore.ClearKeepsOthers | src/cli/utils/credentials.ts:73-76 | every other key survives a clear, and clearing twice is clearing once |
| CredentialStore.CredentialsFile.constructor | src/cli/utils/credentials.ts:12 | the store holds the given file |
| CredentialStore.CredentialsFile.Save | src/cli/utils/credentials.ts:51-66 | the file becomes the existing object (or `{}`) merged with the credentials |
| CredentialStore.CredentialsFile.Clear | src/cli/utils/credentials.ts:68-81 | the file becomes `ClearedFile` of what it was |
| Library.ClientCredentials | src/lib/index.ts:38-46 | the ids are copied; the API URL defaults to production and loses only its trailing slashes; the auth URL defaults but is kept verbatim |
| Library.RouteVerbs | src/lib/index.ts:120-205 | reads are GETs and deletes are DELETEs, neither with a body; the four updates are PATCHes; every other call sends a body |
| Library.ReportToolName | src/lib/index.ts:231 | `ctrf.results.tool?.name` throws exactly on a null document or a missing or null `results`; an absent or null `tool` gives undefined; a tool object holding `name` gives that name, and any defined result is that name |
| Library.RunInput | src/lib/index.ts:227-235 | `name` is the option or else the full file path; `tool` is the option or else the report's tool name, present exactly when one of them is defined; `environment`, `deploymentId`, `tags`, `buildName` and `buildUrl` are sent exactly when given, with the given value; no other keys; reading the tool name fails only on a null document or results |
| Library.Report | src/lib/index.ts:212-248 | a file that cannot be read or parsed, or an input that throws, sends nothing; the log only grows |
| Library.AfterCreate | src/lib/index.ts:227-238 | a failed create is the result; a null or undefined run throws the TypeError of reading `run.id`, before any further request |
| Library.SubmitAndFetch | src/lib/index.ts:237-247 | a successful submit is followed by the GET of the run; a failed submit by the PATCH to `errored`, which rethrows the submit's error or replaces it with its own |
| Library.MarkErrored | src/lib/index.ts:239-244 | the catch always fails: one PATCH of the run to `errored`, then the submit's error, or the update's own error when that fails |
| Library.ReportFlowScenario | src/lib/index.ts:227-247 | tests/integration/report-flow.test.ts:106-144: auth, POST runs, POST results, GET run, in that order; the result is the run read back |
| Library.CachedSubmitAndFetch | src/lib/index.ts:238-247 | with a cached token, the submit and the read-back are two requests with no grant |
| Library.TwoCachedCalls | src/lib/index.ts:50-53 | with a live token, two calls are one fetch each and leave the cache unchanged |
| Library.TokenServesLaterCalls | src/lib/index.ts:50-53 | tests/integration/report-flow.test.ts:159-195: one grant serves three calls, four fetches in all |
| Library.ListEnvironmentsScenario | src/lib/index.ts:172-174 | tests/client.test.ts:64-83: a grant, then one GET of the environments; the listing is the result |
| Library.AuthFailureRejects | src/lib/index.ts:66-69 | tests/client.test.ts:85-97: a rejected grant fails any call with an "Authentication failed" error after one request, with the token still cleared |
| Library.SmooTestingClient.constructor | src/lib/index.ts:33-46 | the credentials are `ClientCredentials(options)`; the client starts without a token |
| Library.SmooTestingClient.Authenticate | src/lib/index.ts:50-79 | the same `GetToken` transition, on this client's own fields |
| Library.SmooTestingClient.Request | src/lib/index.ts:81-108 | the `Dispatch` transition on `apiUrl/organizations/orgId + path`; a 401 resets this client's token |
| Library.SmooTestingClient.Call | src/lib/index.ts:120-205 | each CRUD method is its verb and path under the organisation, list methods with their query string |
| Library.SmooTestingClient.ReportFile | src/lib/index.ts:212-248 | the method makes the `Report` transition |
| Library.SmooTestingClient.SubmitAndFetchRun | src/lib/index.ts:237-247 | the method makes the `SubmitAndFetch` transition |
| Library.SmooTestingClient.MarkRunErrored | src/lib/index.ts:239-244 | the method makes the `MarkErrored` transition |
| CliReport.RunBody | src/cli/commands/runs/report.tsx:39-54 | `name` is the option or else the file's base name; `tool` and `buildName` are always present, possibly undefined; `environment` and `deploymentId` exactly when truthy; `buildUrl` is the option, else the GitHub Actions URL when all three variables are set, else absent; no other keys |
| CliReport.CiBuildUrlEndsWithRunId | src/cli/commands/runs/report.tsx:53 | the CI build URL ends with "/actions/runs/{GITHUB_RUN_ID}" |
| CliReport.UndefinedKeysDropped | src/cli/commands/runs/report.tsx:40-56 | on the wire, `tool` / `buildName` appear exactly when defined |
| CliReport.UiParseErrorTask | src/cli/commands/runs/report.tsx:94-135 | a parse error marks "Parsing CTRF report" an error with its message and leaves the other tasks pending |
| CliReport.ReportRun | src/cli/commands/runs/report.tsx:22-79 | a parse error or missing credentials sends nothing; a result exists only for a parsed file, and its summary is computed from that file; the log only grows |
| CliReport.AfterRunCreated | src/cli/commands/runs/report.tsx:56-78 | a failed create is the result; a success carries the locally computed summary |
| CliReport.SubmitThenFetch | src/cli/commands/runs/report.tsx:59-78 | a successful submit is followed by the GET and the result assembles the run read back, `count` and the summary; a failed submit is followed by the PATCH to `errored`, which rethrows or supersedes |
| CliReport.SubmitThenFetchServed | src/cli/commands/runs/report.tsx:61-76 | with a cached token, the submit and the GET are two requests and `resultCount` is the submit's `count` |
| CliReport.ReportLogicScenario | src/cli/commands/runs/report.tsx:22-79 | against a server that answers every call: auth, POST runs, POST results, GET run, and the outcome is (run read back, `count`, summary) |
| CliReport.ReportRunStages | src/cli/commands/runs/report.tsx:31-56 | once the file parses and credentials load, the flow is the create call followed by the rest |
| CliReport.CreatedRunId | src/cli/commands/runs/report.tsx:61 | results go to `/testing/runs/{run.id}/results` |
| CliReport.SubmitFailureMarksErrored | src/cli/commands/runs/report.tsx:65-72 | a rejected submit is followed by exactly one PATCH of `/testing/runs/{id}` with the errored body, then the submit's error |
| CliReport.BuildRunBody | src/cli/commands/runs/report.tsx:39-54 | the successive `if`s build `RunBody` |
| CliReport.ReportLogic | src/cli/commands/runs/report.tsx:22-79 | the method makes the `ReportRun` transition on the shared cache and the network |
| CliReport.SubmitAndFetch | src/cli/commands/runs/report.tsx:59-78 | the method makes the `SubmitThenFetch` transition |
| CliReport.SetStatus | src/cli/commands/runs/report.tsx:94 | only task `i` changes, and only its status |
| CliReport.FailRunning | src/cli/commands/runs/report.tsx:133-135 | every running task becomes an error carrying the message; nothing else changes |
| CliReport.FailRunningSettles | src/cli/commands/runs/report.tsx:133-135 | no task is left running, so the handler is idempotent |
| CliReport.UiFlow | src/cli/commands/runs/report.tsx:90-138 | a parse error fails the parsing task; a credentials exit leaves "Authenticating" running; an outcome exists only for a parsed file and carries its summary |
| CliReport.UiAfterCreate | src/cli/commands/runs/report.tsx:120-136 | a failed create fails the running task; a reply without a run throws once "Submitting results" is running, with nothing more sent; a failing submit sends nothing more, in particular no PATCH; an outcome carries the locally computed summary |
| CliReport.UiTaskProgress | src/cli/commands/runs/report.tsx:94-135 | the catch after an error in step `i` marks exactly task `i`, keeping earlier tasks done and later ones pending; on success all four are done |
| CliReport.UiAfterCreateTasks | src/cli/commands/runs/report.tsx:106-135 | after the create call: a failed create marks task 2; a reply without a run marks task 3; the tasks end all done or with exactly task 2 or 3 failed; a result is shown only with every task done |
| CliReport.UiFlowTasks | src/cli/commands/runs/report.tsx:90-138 | once the credentials load, the tasks end all done or with exactly task 2 or 3 failed; a result is shown only with every task done |
| CliReport.Progress | src/cli/commands/runs/report.tsx:82-87 | four tasks throughout |
| CliReport.ProgressShape | src/cli/commands/runs/report.tsx:94-128 | while step `i` runs, the earlier tasks are done, task `i` is running and the later ones are untouched |
| Commands.TagList | src/cli/commands/runs/create.ts:28 | one entry per comma-separated piece, in order, empty pieces kept: k commas give k+1 tags, each the trimmed piece |
| Commands.TagsAreTrimmed | src/cli/commands/cases/create.ts:24 | no tag begins or ends with whitespace |
| Commands.UnpaddedTagsJoinBack | src/cli/commands/cases/update.ts:25 | tags written without padding come back unchanged, and joining them with commas restores the option |
| Commands.RunPlacement | src/cli/commands/runs/create.ts:23-27 | `name` always; `environment`, `environmentId`, `deploymentId` and `tool` exactly when truthy, copied unchanged |
| Commands.RunCreateBody | src/cli/commands/runs/create.ts:23-30 | `name` always; each other option exactly when truthy, copied unchanged except `tags`, which is split; no other key |
| Commands.BuildRunCreateBody | src/cli/commands/runs/create.ts:23-30 | the successive `if`s build `RunCreateBody` |
| Commands.CaseCreateBody | src/cli/commands/cases/create.ts:20-24 | `title` always; `description`, `priority`, `automationStatus` and `tags` exactly when truthy; no other key |
| Commands.CaseUpdateBody | src/cli/commands/cases/update.ts:20-25 | each of the five fields exactly when truthy; no other key |
| Commands.UpdateBodies | src/cli/commands/cases/update.ts:20 | no options send `{}`; with a title, the update body equals the create body |
| Commands.BuildCaseCreateBody | src/cli/commands/cases/create.ts:20-24 | the successive `if`s build `CaseCreateBody` |
| Commands.BuildCaseUpdateBody | src/cli/commands/cases/update.ts:20-25 | the successive `if`s build `CaseUpdateBody` starting from `{}` |
| Commands.CommandCall | src/cli/commands/runs/create.ts:20-32 | no credentials means exit 1 and nothing sent; otherwise every request is a grant or this verb on this path with this body, and there are at most two resource requests (the grants aside) |
| Commands.RunCreateSendsItsBody | src/cli/commands/runs/create.ts:32 | every resource request of `runs create` is a POST of its body to `/testing/runs` |
| Commands.RunCreate | src/cli/commands/runs/create.ts:18-32 | the command makes the `CommandCall` transition with POST `/testing/runs` |
| Commands.CaseCreate | src/cli/commands/cases/create.ts:15-26 | the command makes the `CommandCall` transition with POST `/testing/cases` |
| Commands.CaseUpdate | src/cli/commands/cases/update.ts:15-27 | the command makes the `CommandCall` transition with PATCH `/testing/cases/{id}` |

## Left out

- The real network: only scripted responses with a latency each. Connection failures and timeouts are not modelled, and a fetch always yields a response.
- `Date.now()` is the network's clock. `new Date().toISOString()` is the `completedAt` parameter.
- Concurrency: calls are strictly sequential, so the shared CLI cache has no races across `await`.
- JSON syntax and `JSON.stringify` formatting: a response body is its text together with the parse supplied by the script, and a file is its parse. Numbers are integers; floating point is not modelled.
- URL percent-encoding of query strings and form bodies: encoding is the identity.
- The filesystem: files are inputs and outputs. Directory creation, file mode 0o600 and write errors are not modelled.
- Printing: `console.log`, `jsonOutput` and `errorOutput` are not modelled, nor the Ink rendering of `ReportUI` and `TaskList`. Neither is the JSON summary that `runReport` prints in non-interactive mode; it calls `reportLogic`, which is modelled.
- `process.exit(1)` in `getCredentialsOrExit` is the error `Exited(1)`, which ends the flow at that point.
- The commands' `catch`, which prints the error message, is the `Err` result.
- Auth.AccessToken: accepts only a non-empty JSON string, although JavaScript also treats a number, `true`, an array or an object as a truthy `access_token`.
- Auth.TtlSeconds: uses `expires_in` only when it is a non-zero JSON number. A numeric string, which JavaScript would coerce, counts as missing.
- CredentialStore.LoadCredentials: a non-string truthy field in the file (a number, say) counts as missing, whereas the source would pass it through as is.
- CredentialStore.ExistingFields: a JSON array or string in the file counts as `{}`, whereas the spread would copy its indices as keys.
- Ctrf.Decode: zod's issue messages are reduced to a kind per issue (required, wrong type, invalid status), and the issues follow the schema's key order. Unknown keys are dropped, as zod does.
- CliReport.UiFlow: the React state updates of `ReportUI` are modelled as one sequential list of task lists; re-renders are not modelled.

## Findings

| source | as written | input that shows it | evidently intended | confidence | as-written member | corrected member |
|---|---|---|---|---|---|---|
| src/cli/utils/auth.ts:31, src/cli/utils/api-client.ts:41 | the error tail is " â€” {body}": the UTF-8 bytes of an em dash read back as Windows-1252, three characters | any non-empty response body, e.g. a 401 with body "invalid_client" | " — {body}" with U+2014, as src/lib/index.ts:68,102 and src/cli/utils/ctrf.ts:54 write it | high, not executed | Http.DetailAsWritten (Http.DetailAsWrittenDiffers: it differs from the intended tail for every non-empty body) | Http.Detail (Http.DetailDeterminesBody; used by both clients' messages) |
