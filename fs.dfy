/** Files as the core reads them: absent, unreadable, or present with what JSON.parse makes of
    their text. Writing a document stores it as the parse of its own `JSON.stringify` text. */
module Fs {
  import opened Js

  datatype File = Absent | Unreadable(reason: string) | Present(content: JsonParse)

  /** The message `readFileSync` throws for a file that does not exist. */
  function NotFoundMessage(path: string): string {
    "ENOENT: no such file or directory, open '" + path + "'"
  }

  /** `JSON.parse(readFileSync(path, 'utf-8'))`: the document, or the error either step throws. */
  function ReadJsonFile(path: string, f: File): (r: Result<Json>)
    ensures r.Ok? <==> f.Present? && f.content.Parsed?
    ensures r.Ok? ==> r.value == f.content.value
  {
    match f
    case Absent => Err(Thrown(NotFoundMessage(path)))
    case Unreadable(reason) => Err(Thrown(reason))
    case Present(Malformed(reason)) => Err(Thrown(reason))
    case Present(Parsed(j)) => Ok(j)
  }
}
