/** CTRF files (src/cli/utils/ctrf.ts): the report schema as a predicate over JSON documents, the
    issues the schema check reports, decoding and encoding, reading a report file, and the summary. */
module Ctrf {
  import opened Js
  import opened Types
  import opened Fs
  import Strings

  // ---------------------------------------------------------------------------
  // The schema (ctrf.ts:9-47)
  // ---------------------------------------------------------------------------

  /** The shapes an optional field may be required to have. */
  datatype FieldKind = KString | KNumber | KBoolean | KStringArray | KRecord

  predicate HasKind(j: Json, k: FieldKind) {
    match k
    case KString => j.JStr?
    case KNumber => j.JNum?
    case KBoolean => j.JBool?
    case KStringArray => j.JArr? && forall i :: 0 <= i < |j.items| ==> j.items[i].JStr?
    case KRecord => j.JObj?
  }

  function KindName(k: FieldKind): string {
    match k
    case KString => "string"
    case KNumber => "number"
    case KBoolean => "boolean"
    case KStringArray => "array"
    case KRecord => "object"
  }

  const StatusNames: seq<string> := ["passed", "failed", "skipped", "pending", "other"]

  function StatusName(s: Status): string {
    match s
    case Passed => "passed"
    case Failed => "failed"
    case Skipped => "skipped"
    case Pending => "pending"
    case Other => "other"
  }

  /** The enum member a string names, if any. */
  function StatusOf(name: string): (r: Option<Status>)
    ensures r.Some? <==> name in StatusNames
    ensures r.Some? ==> StatusName(r.value) == name
  {
    if name == "passed" then Some(Passed)
    else if name == "failed" then Some(Failed)
    else if name == "skipped" then Some(Skipped)
    else if name == "pending" then Some(Pending)
    else if name == "other" then Some(Other)
    else None
  }

  lemma StatusOfName(s: Status)
    ensures StatusOf(StatusName(s)) == Some(s)
  {
  }

  const TestFields: seq<(string, FieldKind)> := [
    ("duration", KNumber), ("suite", KString), ("filePath", KString), ("message", KString),
    ("trace", KString), ("retries", KNumber), ("flaky", KBoolean), ("browser", KString),
    ("tags", KStringArray), ("extra", KRecord)]

  const ToolFields: seq<(string, FieldKind)> := [("name", KString), ("version", KString)]

  const SummaryFields: seq<(string, FieldKind)> := [
    ("tests", KNumber), ("passed", KNumber), ("failed", KNumber), ("skipped", KNumber),
    ("pending", KNumber), ("other", KNumber), ("start", KNumber), ("stop", KNumber)]

  /** An optional field is absent (undefined) or has its shape; `null` is not accepted. */
  predicate OptionalOk(m: map<string, Json>, f: (string, FieldKind)) {
    f.0 !in m || HasKind(m[f.0], f.1)
  }

  predicate AllOptionalOk(m: map<string, Json>, fields: seq<(string, FieldKind)>) {
    forall i :: 0 <= i < |fields| ==> OptionalOk(m, fields[i])
  }

  /** A test: a string `name`, a `status` from the five names, and well-shaped optional fields. */
  predicate ValidTest(j: Json) {
    j.JObj? && "name" in j.fields && j.fields["name"].JStr?
    && "status" in j.fields && j.fields["status"].JStr? && j.fields["status"].s in StatusNames
    && AllOptionalOk(j.fields, TestFields)
  }

  /** An optional object field whose own fields are all optional. */
  predicate NestedOk(m: map<string, Json>, key: string, fields: seq<(string, FieldKind)>) {
    key !in m || (m[key].JObj? && AllOptionalOk(m[key].fields, fields))
  }

  /** `results`: every part optional, each of the right shape when present. */
  predicate ValidResults(j: Json) {
    j.JObj? && NestedOk(j.fields, "tool", ToolFields) && NestedOk(j.fields, "summary", SummaryFields)
    && ("tests" !in j.fields
        || (j.fields["tests"].JArr? && forall i :: 0 <= i < |j.fields["tests"].items| ==> ValidTest(j.fields["tests"].items[i])))
    && OptionalOk(j.fields, ("environment", KRecord))
  }

  /** A report: an object with a `results` object; other keys are allowed and dropped. */
  predicate ValidReport(j: Json) {
    j.JObj? && "results" in j.fields && ValidResults(j.fields["results"])
  }

  // ---------------------------------------------------------------------------
  // The issues the check reports, in schema order
  // ---------------------------------------------------------------------------

  function ItemIssues(path: seq<string>, items: seq<Json>, from: nat): (r: seq<Issue>)
    ensures r == [] <==> forall i :: 0 <= i < |items| ==> items[i].JStr?
    decreases |items|
  {
    if items == [] then []
    else
      var rest := ItemIssues(path, items[1..], from + 1);
      assert forall i :: 1 <= i < |items| ==> items[i] == items[1..][i - 1];
      (if items[0].JStr? then [] else [Issue(path + [Strings.NatToString(from)], WrongType("string"))]) + rest
  }

  function ValueIssues(path: seq<string>, j: Json, k: FieldKind): (r: seq<Issue>)
    ensures r == [] <==> HasKind(j, k)
  {
    if k == KStringArray && j.JArr? then ItemIssues(path, j.items, 0)
    else if HasKind(j, k) then []
    else [Issue(path, WrongType(KindName(k)))]
  }

  function OptionalIssues(path: seq<string>, m: map<string, Json>, fields: seq<(string, FieldKind)>): (r: seq<Issue>)
    ensures r == [] <==> AllOptionalOk(m, fields)
    decreases |fields|
  {
    if fields == [] then []
    else
      var f := fields[0];
      var rest := OptionalIssues(path, m, fields[1..]);
      assert forall i :: 1 <= i < |fields| ==> fields[i] == fields[1..][i - 1];
      (if f.0 in m then ValueIssues(path + [f.0], m[f.0], f.1) else []) + rest
  }

  function TestIssues(path: seq<string>, j: Json): (r: seq<Issue>)
    ensures r == [] <==> ValidTest(j)
  {
    if !j.JObj? then [Issue(path, WrongType("object"))]
    else
      var m := j.fields;
      var name := if "name" !in m then [Issue(path + ["name"], Required)] else ValueIssues(path + ["name"], m["name"], KString);
      var status :=
        if "status" !in m then [Issue(path + ["status"], Required)]
        else if m["status"].JStr? && m["status"].s in StatusNames then []
        else [Issue(path + ["status"], NotInEnum)];
      name + status + OptionalIssues(path, m, TestFields)
  }

  function TestsIssues(path: seq<string>, items: seq<Json>, from: nat): (r: seq<Issue>)
    ensures r == [] <==> forall i :: 0 <= i < |items| ==> ValidTest(items[i])
    decreases |items|
  {
    if items == [] then []
    else
      var rest := TestsIssues(path, items[1..], from + 1);
      AllValidTestsCons(items);
      TestIssues(path + [Strings.NatToString(from)], items[0]) + rest
  }

  lemma AllValidTestsCons(items: seq<Json>)
    requires items != []
    ensures (forall i :: 0 <= i < |items| ==> ValidTest(items[i]))
            <==> ValidTest(items[0]) && forall i :: 0 <= i < |items[1..]| ==> ValidTest(items[1..][i])
  {
    assert forall i :: 1 <= i < |items| ==> items[i] == items[1..][i - 1];
  }

  function NestedIssues(path: seq<string>, m: map<string, Json>, key: string, fields: seq<(string, FieldKind)>): (r: seq<Issue>)
    ensures r == [] <==> NestedOk(m, key, fields)
  {
    if key !in m then []
    else if !m[key].JObj? then [Issue(path + [key], WrongType("object"))]
    else OptionalIssues(path + [key], m[key].fields, fields)
  }

  function ResultsIssues(path: seq<string>, j: Json): (r: seq<Issue>)
    ensures r == [] <==> ValidResults(j)
  {
    if !j.JObj? then [Issue(path, WrongType("object"))]
    else
      var m := j.fields;
      var tests :=
        if "tests" !in m then []
        else if !m["tests"].JArr? then [Issue(path + ["tests"], WrongType("array"))]
        else TestsIssues(path + ["tests"], m["tests"].items, 0);
      var environment := if "environment" in m then ValueIssues(path + ["environment"], m["environment"], KRecord) else [];
      var tool := NestedIssues(path, m, "tool", ToolFields);
      var summary := NestedIssues(path, m, "summary", SummaryFields);
      assert tests == [] <==> ("tests" !in m || (m["tests"].JArr? && forall i :: 0 <= i < |m["tests"].items| ==> ValidTest(m["tests"].items[i])));
      assert environment == [] <==> OptionalOk(m, ("environment", KRecord));
      assert |tool + summary + tests + environment| == |tool| + |summary| + |tests| + |environment|;
      tool + summary + tests + environment
  }

  /** Every issue of a document, in the order the schema check reports them. */
  function ReportIssues(j: Json): (r: seq<Issue>)
    ensures r == [] <==> ValidReport(j)
  {
    if !j.JObj? then [Issue([], WrongType("object"))]
    else if "results" !in j.fields then [Issue(["results"], Required)]
    else ResultsIssues(["results"], j.fields["results"])
  }

  // ---------------------------------------------------------------------------
  // Decoding (`result.data`) and encoding
  // ---------------------------------------------------------------------------

  function StrAt(m: map<string, Json>, key: string): Option<string> {
    if key in m && m[key].JStr? then Some(m[key].s) else None
  }

  function NumAt(m: map<string, Json>, key: string): Option<int> {
    if key in m && m[key].JNum? then Some(m[key].n) else None
  }

  function BoolAt(m: map<string, Json>, key: string): Option<bool> {
    if key in m && m[key].JBool? then Some(m[key].b) else None
  }

  function RecordAt(m: map<string, Json>, key: string): Option<map<string, Json>> {
    if key in m && m[key].JObj? then Some(m[key].fields) else None
  }

  function Strs(items: seq<Json>): seq<string> {
    seq(|items|, i requires 0 <= i < |items| => if items[i].JStr? then items[i].s else "")
  }

  function StrArrayAt(m: map<string, Json>, key: string): Option<seq<string>> {
    if key in m && m[key].JArr? then Some(Strs(m[key].items)) else None
  }

  function DecodeTest(j: Json): CtrfTest {
    var m := if j.JObj? then j.fields else map[];
    CtrfTest(
      StrAt(m, "name").GetOr(""),
      StatusOf(StrAt(m, "status").GetOr("")).GetOr(Other),
      NumAt(m, "duration"), StrAt(m, "suite"), StrAt(m, "filePath"), StrAt(m, "message"),
      StrAt(m, "trace"), NumAt(m, "retries"), BoolAt(m, "flaky"), StrAt(m, "browser"),
      StrArrayAt(m, "tags"), RecordAt(m, "extra"))
  }

  function DecodeTool(m: map<string, Json>): Tool {
    Tool(StrAt(m, "name"), StrAt(m, "version"))
  }

  function DecodeSummary(m: map<string, Json>): Summary {
    Summary(NumAt(m, "tests"), NumAt(m, "passed"), NumAt(m, "failed"), NumAt(m, "skipped"),
            NumAt(m, "pending"), NumAt(m, "other"), NumAt(m, "start"), NumAt(m, "stop"))
  }

  function DecodeResults(j: Json): Results {
    var m := if j.JObj? then j.fields else map[];
    Results(
      if "tool" in m && m["tool"].JObj? then Some(DecodeTool(m["tool"].fields)) else None,
      if "summary" in m && m["summary"].JObj? then Some(DecodeSummary(m["summary"].fields)) else None,
      if "tests" in m && m["tests"].JArr? then
        Some(seq(|m["tests"].items|, i requires 0 <= i < |m["tests"].items| => DecodeTest(m["tests"].items[i])))
      else None,
      RecordAt(m, "environment"))
  }

  /** `CtrfReportSchema.safeParse(parsed)`: the typed report, or every issue found. */
  function Decode(j: Json): (r: Result<CtrfReport>)
    ensures r.Ok? <==> ValidReport(j)
    ensures r.Err? ==> r.error == InvalidCtrfFormat(ReportIssues(j)) && ReportIssues(j) != []
  {
    var issues := ReportIssues(j);
    if issues == [] then Ok(CtrfReport(DecodeResults(j.fields["results"])))
    else Err(InvalidCtrfFormat(issues))
  }

  function NumValue(o: Option<int>): Value {
    if o.Some? then Some(JNum(o.value)) else None
  }

  function BoolValue(o: Option<bool>): Value {
    if o.Some? then Some(JBool(o.value)) else None
  }

  function StrArrayValue(o: Option<seq<string>>): Value {
    if o.Some? then Some(JArr(seq(|o.value|, i requires 0 <= i < |o.value| => JStr(o.value[i])))) else None
  }

  function RecordValue(o: Option<map<string, Json>>): Value {
    if o.Some? then Some(JObj(o.value)) else None
  }

  /** The document of a test, key by key: `undefined` fields are left out, as JSON.stringify does. */
  function TestField(t: CtrfTest, key: string): Value {
    match key
    case "name" => Some(JStr(t.name))
    case "status" => Some(JStr(StatusName(t.status)))
    case "duration" => NumValue(t.duration)
    case "suite" => StrValue(t.suite)
    case "filePath" => StrValue(t.filePath)
    case "message" => StrValue(t.message)
    case "trace" => StrValue(t.trace)
    case "retries" => NumValue(t.retries)
    case "flaky" => BoolValue(t.flaky)
    case "browser" => StrValue(t.browser)
    case "tags" => StrArrayValue(t.tags)
    case "extra" => RecordValue(t.extra)
    case _ => None
  }

  const TestKeys: set<string> := {"name", "status", "duration", "suite", "filePath", "message", "trace",
                                  "retries", "flaky", "browser", "tags", "extra"}

  function EncodeTest(t: CtrfTest): Json {
    JObj(map k | k in TestKeys && TestField(t, k).Some? :: TestField(t, k).value)
  }

  function ToolField(t: Tool, key: string): Option<string> {
    if key == "name" then t.name else if key == "version" then t.version else None
  }

  function EncodeTool(t: Tool): Json {
    JObj(map k | k in {"name", "version"} && ToolField(t, k).Some? :: JStr(ToolField(t, k).value))
  }

  function SummaryField(s: Summary, key: string): Option<int> {
    match key
    case "tests" => s.tests
    case "passed" => s.passed
    case "failed" => s.failed
    case "skipped" => s.skipped
    case "pending" => s.pending
    case "other" => s.other
    case "start" => s.start
    case "stop" => s.stop
    case _ => None
  }

  const SummaryKeys: set<string> := {"tests", "passed", "failed", "skipped", "pending", "other", "start", "stop"}

  function EncodeSummary(s: Summary): Json {
    JObj(map k | k in SummaryKeys && SummaryField(s, k).Some? :: JNum(SummaryField(s, k).value))
  }

  function ResultsField(r: Results, key: string): Value {
    match key
    case "tool" => if r.tool.Some? then Some(EncodeTool(r.tool.value)) else None
    case "summary" => if r.summary.Some? then Some(EncodeSummary(r.summary.value)) else None
    case "tests" =>
      if r.tests.Some? then Some(JArr(seq(|r.tests.value|, i requires 0 <= i < |r.tests.value| => EncodeTest(r.tests.value[i]))))
      else None
    case "environment" => RecordValue(r.environment)
    case _ => None
  }

  /** `report.results` as a document. */
  function EncodeResults(r: Results): Json {
    JObj(map k | k in {"tool", "summary", "tests", "environment"} && ResultsField(r, k).Some? :: ResultsField(r, k).value)
  }

  function EncodeReport(r: CtrfReport): Json {
    JObj(map["results" := EncodeResults(r.results)])
  }

  /** A serialised test satisfies the test schema. */
  lemma EncodedTestValid(t: CtrfTest)
    ensures ValidTest(EncodeTest(t))
  {
    var m := EncodeTest(t).fields;
    StatusOfName(t.status);
    assert "name" in m && m["name"] == JStr(t.name);
    assert "status" in m && m["status"] == JStr(StatusName(t.status));
    assert AllOptionalOk(m, TestFields) by {
      forall i | 0 <= i < |TestFields| ensures OptionalOk(m, TestFields[i]) {
      }
    }
  }

  lemma {:induction false} EncodeTestRoundTrip(t: CtrfTest)
    ensures ValidTest(EncodeTest(t)) && DecodeTest(EncodeTest(t)) == t
  {
    EncodedTestValid(t);
    var m := EncodeTest(t).fields;
    StatusOfName(t.status);
    assert StrAt(m, "name") == Some(t.name);
    assert StatusOf(StrAt(m, "status").GetOr("")) == Some(t.status);
    assert NumAt(m, "duration") == t.duration && NumAt(m, "retries") == t.retries;
    assert StrAt(m, "suite") == t.suite && StrAt(m, "filePath") == t.filePath && StrAt(m, "message") == t.message;
    assert StrAt(m, "trace") == t.trace && StrAt(m, "browser") == t.browser;
    assert BoolAt(m, "flaky") == t.flaky && RecordAt(m, "extra") == t.extra;
    if t.tags.Some? {
      assert m["tags"].JArr? && Strs(m["tags"].items) == t.tags.value;
    }
    assert StrArrayAt(m, "tags") == t.tags;
  }

  lemma EncodeToolRoundTrip(t: Tool)
    ensures AllOptionalOk(EncodeTool(t).fields, ToolFields) && DecodeTool(EncodeTool(t).fields) == t
  {
    assert forall i :: 0 <= i < |ToolFields| ==> OptionalOk(EncodeTool(t).fields, ToolFields[i]);
  }

  lemma EncodeSummaryRoundTrip(s: Summary)
    ensures AllOptionalOk(EncodeSummary(s).fields, SummaryFields) && DecodeSummary(EncodeSummary(s).fields) == s
  {
    assert forall i :: 0 <= i < |SummaryFields| ==> OptionalOk(EncodeSummary(s).fields, SummaryFields[i]);
  }

  lemma EncodeTestsRoundTrip(tests: seq<CtrfTest>, items: seq<Json>)
    requires items == seq(|tests|, i requires 0 <= i < |tests| => EncodeTest(tests[i]))
    ensures forall i :: 0 <= i < |items| ==> ValidTest(items[i])
    ensures seq(|items|, i requires 0 <= i < |items| => DecodeTest(items[i])) == tests
  {
    forall i | 0 <= i < |items| ensures ValidTest(items[i]) && DecodeTest(items[i]) == tests[i] {
      EncodeTestRoundTrip(tests[i]);
    }
  }

  lemma {:induction false} EncodeResultsRoundTrip(r: Results)
    ensures ValidResults(EncodeResults(r)) && DecodeResults(EncodeResults(r)) == r
  {
    var m := EncodeResults(r).fields;
    if r.tool.Some? {
      assert m["tool"] == EncodeTool(r.tool.value);
      EncodeToolRoundTrip(r.tool.value);
    }
    if r.summary.Some? {
      assert m["summary"] == EncodeSummary(r.summary.value);
      EncodeSummaryRoundTrip(r.summary.value);
    }
    if r.tests.Some? {
      EncodeTestsRoundTrip(r.tests.value, m["tests"].items);
    }
  }

  /** Decoding undoes encoding: every typed report is accepted back exactly as it was. */
  lemma DecodeEncode(r: CtrfReport)
    ensures Decode(EncodeReport(r)) == Ok(r)
  {
    EncodeResultsRoundTrip(r.results);
  }

  /** `{results: {}}` is a complete report: everything inside `results` is optional. */
  lemma MinimalReportAccepted()
    ensures Decode(JObj(map["results" := JObj(map[])])) == Ok(CtrfReport(Results(None, None, None, None)))
  {
    var j := JObj(map["results" := JObj(map[])]);
    assert ValidResults(j.fields["results"]);
  }

  /** A document without `results`, such as `{foo: "bar"}`, is rejected with a single issue at `results`. */
  lemma MissingResultsRejected(m: map<string, Json>)
    requires "results" !in m
    ensures Decode(JObj(m)) == Err(InvalidCtrfFormat([Issue(["results"], Required)]))
  {
  }

  /** Keys outside the schema play no part: the check and the decoded report ignore them. */
  lemma UnknownKeysIgnored(m: map<string, Json>, key: string, v: Json)
    requires key != "results"
    ensures Decode(JObj(m[key := v])) == Decode(JObj(m))
  {
    assert "results" in m[key := v] <==> "results" in m;
    if "results" in m {
      assert m[key := v]["results"] == m["results"];
    }
  }

  // ---------------------------------------------------------------------------
  // parseCtrfFile (ctrf.ts:49-71)
  // ---------------------------------------------------------------------------

  /** `parseCtrfFile(filePath)`: a read failure first, then a JSON failure, then the schema. */
  function ParseCtrfFile(filePath: string, f: File): (r: Result<CtrfReport>)
    ensures (f.Absent? || f.Unreadable?) ==>
              r.Err? && r.error.Thrown? && Strings.StartsWith(r.error.message, "Failed to read CTRF file: " + filePath)
    ensures f.Present? && f.content.Malformed? ==> r == Err(Thrown("Invalid JSON in CTRF file: " + filePath))
    ensures f.Present? && f.content.Parsed? ==> r == Decode(f.content.value)
    ensures r.Ok? <==> f.Present? && f.content.Parsed? && ValidReport(f.content.value)
  {
    match f
    case Absent => Err(Thrown(ReadFailure(filePath, NotFoundMessage(filePath))))
    case Unreadable(reason) => Err(Thrown(ReadFailure(filePath, reason)))
    case Present(Malformed(_)) => Err(Thrown("Invalid JSON in CTRF file: " + filePath))
    case Present(Parsed(j)) => Decode(j)
  }

  function ReadFailure(filePath: string, reason: string): (m: string)
    ensures Strings.StartsWith(m, "Failed to read CTRF file: " + filePath)
  {
    var m := "Failed to read CTRF file: " + filePath + " \U{2014} " + reason;
    assert m[..|"Failed to read CTRF file: " + filePath|] == "Failed to read CTRF file: " + filePath;
    m
  }

  // ---------------------------------------------------------------------------
  // summarizeCtrfResults (ctrf.ts:73-102)
  // ---------------------------------------------------------------------------

  datatype Totals = Totals(total: int, passed: int, failed: int, skipped: int, pending: int, other: int, hasFailed: bool)

  datatype Counts = Counts(passed: nat, failed: nat, skipped: nat, pending: nat, other: nat) {
    function Sum(): nat {
      passed + failed + skipped + pending + other
    }
  }

  /** `counts[status]++`. */
  function Bump(c: Counts, s: Status): Counts {
    match s
    case Passed => c.(passed := c.passed + 1)
    case Failed => c.(failed := c.failed + 1)
    case Skipped => c.(skipped := c.skipped + 1)
    case Pending => c.(pending := c.pending + 1)
    case Other => c.(other := c.other + 1)
  }

  /** The counters after the loop over `tests`. */
  function StatusCounts(tests: seq<CtrfTest>): Counts {
    if tests == [] then Counts(0, 0, 0, 0, 0)
    else Bump(StatusCounts(tests[..|tests| - 1]), tests[|tests| - 1].status)
  }

  function Statuses(tests: seq<CtrfTest>): seq<Status> {
    seq(|tests|, i requires 0 <= i < |tests| => tests[i].status)
  }

  /** The summary of a report: the declared summary when there is one (each field `?? 0`, the tests
      ignored), otherwise counts derived from the tests. */
  function Summarize(report: CtrfReport): (s: Totals)
    ensures s.hasFailed <==> s.failed > 0
  {
    match report.results.summary
    case Some(sm) =>
      var failed := sm.failed.GetOr(0);
      Totals(sm.tests.GetOr(0), sm.passed.GetOr(0), failed, sm.skipped.GetOr(0), sm.pending.GetOr(0),
             sm.other.GetOr(0), failed > 0)
    case None =>
      var tests := report.results.tests.GetOr([]);
      var c := StatusCounts(tests);
      Totals(|tests|, c.passed, c.failed, c.skipped, c.pending, c.other, c.failed > 0)
  }

  /** `summarizeCtrfResults(report)`, with the counting loop of the derived branch. */
  method SummarizeCtrfResults(report: CtrfReport) returns (s: Totals)
    ensures s == Summarize(report)
  {
    var summary := report.results.summary;
    if summary.Some? {
      var sm := summary.value;
      var failed := sm.failed.GetOr(0);
      return Totals(sm.tests.GetOr(0), sm.passed.GetOr(0), failed, sm.skipped.GetOr(0),
                    sm.pending.GetOr(0), sm.other.GetOr(0), failed > 0);
    }
    var tests := report.results.tests.GetOr([]);
    var counts := Counts(0, 0, 0, 0, 0);
    for i := 0 to |tests|
      invariant counts == StatusCounts(tests[..i])
    {
      assert tests[..i + 1][..i] == tests[..i];
      match tests[i].status {
        case Passed => counts := counts.(passed := counts.passed + 1);
        case Failed => counts := counts.(failed := counts.failed + 1);
        case Skipped => counts := counts.(skipped := counts.skipped + 1);
        case Pending => counts := counts.(pending := counts.pending + 1);
        case Other => counts := counts.(other := counts.other + 1);
      }
    }
    assert tests[..|tests|] == tests;
    return Totals(|tests|, counts.passed, counts.failed, counts.skipped, counts.pending, counts.other, counts.failed > 0);
  }

  /** Each derived counter is the number of tests with that status. */
  lemma {:induction false} CountsAreOccurrences(tests: seq<CtrfTest>)
    ensures var c := StatusCounts(tests); var ms := multiset(Statuses(tests));
            c.passed == ms[Passed] && c.failed == ms[Failed] && c.skipped == ms[Skipped]
            && c.pending == ms[Pending] && c.other == ms[Other]
  {
    if tests != [] {
      var init := tests[..|tests| - 1];
      CountsAreOccurrences(init);
      assert Statuses(tests) == Statuses(init) + [tests[|tests| - 1].status];
    }
  }

  /** The five derived counters partition the tests: they add up to the total. */
  lemma {:induction false} CountsPartition(tests: seq<CtrfTest>)
    ensures StatusCounts(tests).Sum() == |tests|
  {
    if tests != [] {
      CountsPartition(tests[..|tests| - 1]);
    }
  }

  lemma DerivedTotalIsSum(report: CtrfReport)
    requires report.results.summary.None?
    ensures var s := Summarize(report);
            s.total == s.passed + s.failed + s.skipped + s.pending + s.other
  {
    CountsPartition(report.results.tests.GetOr([]));
  }

  /** Without a summary, the report has failed exactly when some test failed. */
  lemma DerivedHasFailed(report: CtrfReport)
    requires report.results.summary.None?
    ensures var tests := report.results.tests.GetOr([]);
            Summarize(report).hasFailed <==> exists i :: 0 <= i < |tests| && tests[i].status == Failed
  {
    var tests := report.results.tests.GetOr([]);
    CountsAreOccurrences(tests);
    var ss := Statuses(tests);
    if exists i :: 0 <= i < |tests| && tests[i].status == Failed {
      var i :| 0 <= i < |tests| && tests[i].status == Failed;
      assert ss[i] == Failed;
      assert Failed in multiset(ss);
    } else {
      assert Failed !in ss;
    }
  }

  /** With a summary, every counter is that summary field or 0 when it is absent, and the tests
      array plays no part. */
  lemma DeclaredSummaryWins(report: CtrfReport, tests: Option<seq<CtrfTest>>)
    requires report.results.summary.Some?
    ensures Summarize(report) == Summarize(report.(results := report.results.(tests := tests)))
    ensures var sm := report.results.summary.value;
            var s := Summarize(report);
            && s.total == sm.tests.GetOr(0)
            && s.passed == sm.passed.GetOr(0)
            && s.failed == sm.failed.GetOr(0)
            && s.skipped == sm.skipped.GetOr(0)
            && s.pending == sm.pending.GetOr(0)
            && s.other == sm.other.GetOr(0)
  {
  }
}
