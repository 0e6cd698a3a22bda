/** What every route handler shares: the signed-in session it is given, the JSON
    response it returns, and the writes it performs. */
module Http {
  import opened Wrappers
  import opened JsValues
  import opened KvStore

  /** A JSON response with its HTTP status. `NextResponse.json(body)` without a status is 200. */
  datatype Response = Response(status: int, body: Json)

  /** `NextResponse.json({ error: message }, { status })`. */
  function ErrorResponse(status: int, message: string): Response {
    Response(status, JObj([("error", JStr(message))]))
  }

  /** The session a handler obtains: none, or a signed-in user whose `id` may be absent. */
  datatype Session = NoSession | SignedIn(userId: Option<string>)

  /** `session.user.id` when it is truthy (a non-empty string). */
  function CallerId(s: Session): (r: Option<string>)
    ensures r.Some? <==> s.SignedIn? && s.userId.Some? && s.userId.value != ""
    ensures r.Some? ==> r.value == s.userId.value
  {
    if s.SignedIn? && s.userId.Some? && s.userId.value != "" then s.userId else None
  }

  /** What one request does: the response and the store writes, in order. */
  datatype Outcome = Outcome(response: Response, writes: seq<Write>)

  /** A request answered without touching the store. */
  function Reject(status: int, message: string): (o: Outcome)
    ensures o.writes == [] && o.response.status == status
  {
    Outcome(ErrorResponse(status, message), [])
  }
}
