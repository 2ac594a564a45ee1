/**
  `fetch` as the core sees it. A call either rejects (a network error,
  whose message the caller reads) or yields a response with a status and a
  body; reading the body with `response.json()` either gives a value or
  throws a SyntaxError. Requests the core issues are recorded, in order,
  as `Request` values.
*/
module Http {
  import opened Json
  import opened Compose

  /** What `await response.json()` produces. */
  datatype Body = Parsed(json: Json) | Malformed(message: string)

  /** What `await fetch(...)` produces. */
  datatype HttpReply = Rejected(message: string) | Reply(status: int, body: Body)

  /** `response.ok`: a status in the range 200-299. */
  predicate Ok(status: int)
  {
    200 <= status <= 299
  }

  /** The requests the page and the services issue. */
  datatype Request =
    | GetEmails                                   // GET  {backend}/emails
    | PostEmail(draft: Draft)                     // POST {backend}/emails
    | PostRoute(prompt: string)                   // POST /api/ai/route
    | PostGenerate(assistant: string, prompt: string) // POST /api/ai/generate?assistant=...

  /**
    `message || fallback` for the message of a caught error: one of the two,
    non-empty whenever either is (so a non-empty fallback guarantees a
    message), and the error's own message whenever it has one.
  */
  function MessageOr(message: string, fallback: string): (r: string)
    ensures r == message || r == fallback
    ensures r != "" <==> message != "" || fallback != ""
    ensures message != "" ==> r == message
    ensures message == "" ==> r == fallback
  {
    if message != "" then message else fallback
  }
}
