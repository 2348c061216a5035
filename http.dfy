/** The outside world of the request pipeline: requests as they go on the wire, scripted responses,
    the clock, and the network object that hands responses out one per `fetch`. */
module Http {
  import opened Js
  import Strings

  datatype Verb = GET | POST | PATCH | DELETE

  /** What a request carries: nothing, a form-encoded field list, or a JSON document. */
  datatype Payload = NoPayload | Form(fields: seq<(string, string)>) | JsonBody(value: Json)

  datatype Request = Request(verb: Verb, url: string, headers: seq<(string, string)>, payload: Payload)

  /** A response body: reading it fails with a message, or yields its text together with what
      JSON.parse gives on that text. */
  datatype Body = Unreadable(reason: string) | Readable(text: string, json: JsonParse)

  /** A response as `fetch` resolves it; `latency` is the time it took to arrive, in milliseconds. */
  datatype Response = Response(ok: bool, status: nat, statusText: string, body: Body, latency: nat)

  /** The network and the clock as values: the time now (ms since the epoch), the responses still
      to come, the answer given once they run out, and every request sent so far. */
  datatype World = World(now: int, script: seq<Response>, fallback: Response, log: seq<Request>)

  datatype Exchanged = Exchanged(response: Response, world: World)

  /** One `fetch`: the request joins the log, the next scripted response answers it, and the clock
      moves on by that response's latency. */
  function Exchange(w: World, req: Request): (x: Exchanged)
    ensures x.world.log == w.log + [req]
    ensures x.response == (if w.script == [] then w.fallback else w.script[0])
    ensures x.world.now == w.now + x.response.latency
    ensures x.world.script == (if w.script == [] then [] else w.script[1..]) && x.world.fallback == w.fallback
  {
    var resp := if w.script == [] then w.fallback else w.script[0];
    Exchanged(resp, World(w.now + resp.latency, if w.script == [] then [] else w.script[1..], w.fallback, w.log + [req]))
  }

  /** `await response.text().catch(() => '')`: a body that cannot be read counts as empty. */
  function TextOrEmpty(b: Body): string {
    match b
    case Unreadable(_) => ""
    case Readable(text, _) => text
  }

  /** `await response.json()`: the read error, or JSON.parse's verdict on the text
      (the empty text is never valid JSON). */
  function ReadJson(b: Body): (r: Result<Json>)
    ensures r.Ok? ==> b.Readable? && b.text != "" && b.json == Parsed(r.value)
  {
    match b
    case Unreadable(reason) => Err(Thrown(reason))
    case Readable(text, json) =>
      if text == "" then Err(Thrown("Unexpected end of JSON input"))
      else match json
        case Parsed(j) => Ok(j)
        case Malformed(reason) => Err(Thrown(reason))
  }

  /** The " — {body}" tail of an error message, present only for a non-empty body text. */
  function Detail(body: string): (r: string)
    ensures body == "" ==> r == ""
    ensures body != "" ==> |r| == |body| + 3 && r[1] == '\U{2014}' && r[3..] == body
  {
    if body == "" then "" else " \U{2014} " + body
  }

  /** The counterpart of `Detail`: the body text is recoverable from the tail. */
  lemma DetailDeterminesBody(a: string, b: string)
    requires Detail(a) == Detail(b)
    ensures a == b
  {
    if a != "" && b != "" {
      assert a == Detail(a)[3..];
      assert b == Detail(b)[3..];
    }
  }

  /** The tail as src/cli/utils/auth.ts:31 and src/cli/utils/api-client.ts:41 spell it: the em dash's
      UTF-8 bytes read back as Windows-1252, three characters where the library has one. */
  function DetailAsWritten(body: string): (r: string)
    ensures body == "" ==> r == ""
    ensures body != "" ==> |r| == |body| + 5
  {
    if body == "" then "" else " \U{00E2}\U{20AC}\U{201D} " + body
  }

  /** For every non-empty body the CLI's tail differs from the library's, so the same failure reads
      differently through the two clients; the empty body is the only agreement. */
  lemma DetailAsWrittenDiffers(body: string)
    ensures DetailAsWritten(body) == Detail(body) <==> body == ""
  {
    if body != "" {
      assert DetailAsWritten(body)[1] == '\U{00E2}' != Detail(body)[1];
    }
  }

  /** The network as the program sees it: a clock and a server that answers from a script. */
  class Network {
    var now: int
    var script: seq<Response>
    const fallback: Response
    var log: seq<Request>

    function State(): World
      reads this
    {
      World(now, script, fallback, log)
    }

    constructor (start: int, script: seq<Response>, fallback: Response)
      ensures State() == World(start, script, fallback, [])
    {
      this.now := start;
      this.script := script;
      this.fallback := fallback;
      this.log := [];
    }

    /** `await fetch(req)`. */
    method Fetch(req: Request) returns (response: Response)
      modifies this
      ensures Exchanged(response, State()) == Exchange(old(State()), req)
    {
      if script == [] {
        response := fallback;
      } else {
        response := script[0];
        script := script[1..];
      }
      log := log + [req];
      now := now + response.latency;
    }
  }
}
