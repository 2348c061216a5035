/** The JavaScript values the core handles: JSON documents, `undefined`, truthiness, property reads
    and thrown errors. */
module Js {
  import Strings

  datatype Option<+T> = None | Some(value: T) {
    function GetOr(default: T): T {
      match this
      case Some(v) => v
      case None => default
    }
  }

  /** A JSON document. Numbers are integers; an object's keys carry no order. */
  datatype Json =
    | JNull
    | JBool(b: bool)
    | JNum(n: int)
    | JStr(s: string)
    | JArr(items: seq<Json>)
    | JObj(fields: map<string, Json>)

  /** What JSON.parse makes of a text: a document, or a SyntaxError with its message. */
  datatype JsonParse = Parsed(value: Json) | Malformed(reason: string)

  /** A JavaScript value that is either `undefined` (None) or a JSON value. */
  type Value = Option<Json>

  /** JavaScript truthiness (`if (v)`, `v || d`, `!v`). */
  predicate Truthy(v: Value) {
    match v
    case None => false
    case Some(JNull) => false
    case Some(JBool(b)) => b
    case Some(JNum(n)) => n != 0
    case Some(JStr(s)) => s != ""
    case Some(_) => true
  }

  /** `??` keeps a value unless it is `null` or `undefined`. */
  predicate Nullish(v: Value) {
    v == None || v == Some(JNull)
  }

  /** A truthy optional string, as the commands test their options. */
  predicate Given(o: Option<string>) {
    o.Some? && o.value != ""
  }

  /** One problem found by the schema check: where it is and what kind it is. */
  datatype Issue = Issue(path: seq<string>, kind: IssueKind)
  datatype IssueKind = Required | WrongType(expected: string) | NotInEnum

  /** What ends a call early. `Thrown` is an `Error` with its message; `InvalidCtrfFormat` is the
      error whose message is "Invalid CTRF format:" followed by one line per schema issue;
      `Exited` is `process.exit(status)`, which ends the program. */
  datatype Error = Thrown(message: string) | InvalidCtrfFormat(issues: seq<Issue>) | Exited(status: int)

  /** `err.message`: the text a handler shows for a thrown error. */
  function Message(e: Error): string {
    match e
    case Thrown(m) => m
    case InvalidCtrfFormat(issues) => "Invalid CTRF format:\n" + IssueLines(issues)
    case Exited(status) => "process.exit(" + Strings.IntToString(status) + ")"
  }

  /** One line "  path.to.field: message" per issue, joined by newlines. */
  function IssueLines(issues: seq<Issue>): string {
    if issues == [] then ""
    else
      var line := "  " + Strings.Join(issues[0].path, '.') + ": " + KindText(issues[0].kind);
      if |issues| == 1 then line else line + "\n" + IssueLines(issues[1..])
  }

  function KindText(k: IssueKind): string {
    match k
    case Required => "Required"
    case WrongType(expected) => "Expected " + expected
    case NotInEnum => "Invalid enum value"
  }

  /** A completed call: its value, or the error it threw. */
  datatype Result<+T> = Ok(value: T) | Err(error: Error)

  /** `v[key]` for the keys this core reads ("id", "count", "results", "tool", "name",
      "access_token", "expires_in"): reading any property of `undefined` or `null` throws a TypeError. */
  function Property(v: Value, key: string): (r: Result<Value>)
    ensures r.Err? <==> Nullish(v)
    ensures r.Ok? && r.value.Some? ==> v.Some? && v.value.JObj? && key in v.value.fields && r.value.value == v.value.fields[key]
  {
    match v
    case None => Err(Thrown("Cannot read properties of undefined (reading '" + key + "')"))
    case Some(JNull) => Err(Thrown("Cannot read properties of null (reading '" + key + "')"))
    case Some(JObj(m)) => Ok(if key in m then Some(m[key]) else None)
    case Some(_) => Ok(None)
  }

  /** `${v}`: the text a template literal gives for a value. */
  function Interpolate(v: Value): string {
    match v
    case None => "undefined"
    case Some(j) => JsonText(j)
  }

  function JsonText(j: Json): string {
    match j
    case JNull => "null"
    case JBool(b) => if b then "true" else "false"
    case JNum(n) => Strings.IntToString(n)
    case JStr(s) => s
    case JArr(items) => ArrayText(items)
    case JObj(_) => "[object Object]"
  }

  /** `Array.prototype.join(",")`, where `null` elements give "". */
  function ArrayText(items: seq<Json>): string
    decreases items
  {
    if items == [] then ""
    else
      var first := if items[0] == JNull then "" else JsonText(items[0]);
      if |items| == 1 then first else first + "," + ArrayText(items[1..])
  }

  /** What `JSON.stringify` sends for an object whose values may be `undefined`: those keys vanish,
      every other key keeps its value. */
  function Stringified(m: map<string, Value>): (j: Json)
    ensures j.JObj?
    ensures forall k :: k in j.fields <==> k in m && m[k].Some?
    ensures forall k :: k in j.fields ==> j.fields[k] == m[k].value
  {
    JObj(map k | k in m && m[k].Some? :: m[k].value)
  }

  /** A string value, `undefined` when absent. */
  function StrValue(o: Option<string>): Value {
    if o.Some? then Some(JStr(o.value)) else None
  }
}
