/** The records the client passes around (src/lib/types.ts): credentials and the CTRF report. */
module Types {
  import opened Js

  /** A machine-to-machine credential set and the two endpoints it is used against. */
  datatype Credentials = Credentials(
    clientId: string,
    clientSecret: string,
    orgId: string,
    apiUrl: string,
    authUrl: string)

  /** The update that marks a run as failed to report: `{ status: 'errored', completedAt }`. */
  function ErroredBody(completedAt: string): Json {
    JObj(map["status" := JStr("errored"), "completedAt" := JStr(completedAt)])
  }

  // ---------------------------------------------------------------------------
  // CTRF (Common Test Report Format)
  // ---------------------------------------------------------------------------

  datatype Status = Passed | Failed | Skipped | Pending | Other

  datatype CtrfTest = CtrfTest(
    name: string,
    status: Status,
    duration: Option<int>,
    suite: Option<string>,
    filePath: Option<string>,
    message: Option<string>,
    trace: Option<string>,
    retries: Option<int>,
    flaky: Option<bool>,
    browser: Option<string>,
    tags: Option<seq<string>>,
    extra: Option<map<string, Json>>)

  datatype Tool = Tool(name: Option<string>, version: Option<string>)

  datatype Summary = Summary(
    tests: Option<int>,
    passed: Option<int>,
    failed: Option<int>,
    skipped: Option<int>,
    pending: Option<int>,
    other: Option<int>,
    start: Option<int>,
    stop: Option<int>)

  datatype Results = Results(
    tool: Option<Tool>,
    summary: Option<Summary>,
    tests: Option<seq<CtrfTest>>,
    environment: Option<map<string, Json>>)

  datatype CtrfReport = CtrfReport(results: Results)
}
