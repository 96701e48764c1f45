/** What the source sees of an HTTP exchange made with `fetch`, and what its handlers answer. */
module Http {
  import opened Values

  /** A `fetch` response: status line, the raw text, and the body as parsed JSON. */
  datatype Response<B> = Response(status: nat, statusText: string, text: string, body: B)
  {
    /** `response.ok`: a 2xx status. */
    predicate Ok()
    {
      200 <= status <= 299
    }
  }

  /** A handler's answer `c.json(body, status)`. */
  datatype Reply = Reply(status: nat, body: Value)

  /** `{ error: message }`, the error body every handler uses. */
  function ErrorBody(message: string): Value
  {
    Obj(map["error" := Str(message)])
  }
}
