/** What an upstream call comes back with, and the response an endpoint
    sends. Headers are reduced to the one the endpoints read and write,
    `content-type`. */
module Http {
  import opened JsValues

  /** An upstream reply after `response.text()`: the status, the body text
      and the `content-type` header, if present. */
  datatype Reply = Reply(status: int, body: string, contentType: Option<string>)

  /** One upstream call: a reply, or an exception thrown by `fetch` or by
      reading the body (with the `Error`'s message, when it is one). */
  datatype Attempt = Received(reply: Reply) | Thrown(message: Option<string>)

  /** The body of an outgoing response: upstream text relayed unchanged, the
      JSON object `{ message }` the endpoint writes itself, or that object
      holding the message of an error the runtime threw, whose text is the
      engine's own. */
  datatype Body = Text(text: string) | Message(message: string) | EngineMessage

  /** An outgoing response. */
  datatype Response = Response(status: int, body: Body, contentType: string)

  const JsonContentType: string := "application/json"
  const MissingKeyMessage: string := "Missing RajaOngkir API key."
  const UnreachableMessage: string := "Failed to reach RajaOngkir service."

  /** `response.ok`: a reply whose status is in 200..299. */
  predicate IsOk(a: Attempt) {
    a.Received? && 200 <= a.reply.status <= 299
  }

  /** `jsonMessage(message, status)` */
  function JsonMessage(message: string, status: int): Response {
    Response(status, Message(message), JsonContentType)
  }

  /** The statuses `new Response(text, { status })` refuses: a `RangeError`
      outside 200..599, and a `TypeError` for the null-body statuses 204, 205
      and 304, since a text body, even an empty one, is always passed. */
  predicate RefusedStatus(status: int) {
    !(200 <= status <= 599) || status == 204 || status == 205 || status == 304
  }

  /** `new Response(text, { status, headers })` inside the handlers' `try`: the
      response, or, when the constructor throws, the `catch`'s 502 carrying
      the error's message. */
  function NewResponse(status: int, text: string, contentType: string): (res: Response)
    ensures 200 <= res.status <= 599
    ensures res.body.Text? <==> !RefusedStatus(status)
    ensures res.body.Text? ==> res == Response(status, Text(text), contentType)
    ensures !res.body.Text? ==> res == Response(502, EngineMessage, JsonContentType)
  {
    if RefusedStatus(status) then Response(502, EngineMessage, JsonContentType)
    else Response(status, Text(text), contentType)
  }

  /** A reply relayed verbatim, with a missing `content-type` becoming JSON.
      The status is kept exactly when the constructor accepts it, so an `ok`
      reply yields an `ok` response unless it is a 204 or a 205. */
  function Passthrough(r: Reply): (res: Response)
    ensures 200 <= res.status <= 599
    ensures !RefusedStatus(r.status) ==> res == Response(r.status, Text(r.body), r.contentType.GetOr(JsonContentType))
    ensures RefusedStatus(r.status) ==> res.status == 502 && res.body == EngineMessage
    ensures 200 <= res.status <= 299 <==> 200 <= r.status <= 299 && r.status != 204 && r.status != 205
  {
    NewResponse(r.status, r.body, r.contentType.GetOr(JsonContentType))
  }

  /** What an endpoint sends when it stops at attempt `a`: the reply relayed,
      or, when the call threw, 502 with the error's message. Either way the
      status is one the runtime accepts. */
  function Relay(a: Attempt): (res: Response)
    ensures 200 <= res.status <= 599
    ensures a.Thrown? ==> res == JsonMessage(a.message.GetOr(UnreachableMessage), 502)
    ensures a.Received? ==> res == Passthrough(a.reply)
    ensures 200 <= res.status <= 299 ==> IsOk(a)
  {
    match a
    case Received(r) => Passthrough(r)
    case Thrown(m) => JsonMessage(m.GetOr(UnreachableMessage), 502)
  }
}
