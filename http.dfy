/**
 * The HTTP exchange as both clients see it. The transport itself (httpx) is
 * not modelled: a request either fails in transit or yields a status code and
 * a body, and the body arrives already classified as empty, unparseable (with
 * the parser's error text) or a parsed JSON value.
 */
module Http {
  import opened Wrappers
  import opened Json

  datatype Body = Empty | NotJson(parseError: string) | Parsed(value: Json)

  datatype Response = Response(status: int, body: Body)

  /** What came back for one request: an answer, or the text of the transport
      error (httpx.RequestError) that prevented one. */
  datatype Exchange = Answered(response: Response) | TransportError(reason: string)

  /** One request as it is handed to the transport: verb, full URL, query
      parameters and JSON body. */
  datatype Request = Request(verb: string, url: string, params: Fields, body: Option<Json>)

  /** `response.json()` when it succeeds. */
  function ParsedBody(b: Body): Option<Json> {
    if b.Parsed? then Some(b.value) else None
  }
}
