/**
 * What one `client.get(url)` gives the code: either the request raised, or a
 * response with a status code and a body, and what `json.loads` makes of that
 * body.  The network and the JSON parser themselves are not modelled: a
 * `Response` is an input.
 */
module Http {
  import opened PyValue

  /** The outcome of `json.loads(result.content)`. */
  datatype Body =
    | Parsed(doc: Json)             // a well-formed document
    | Malformed(reason: string)     // json.JSONDecodeError
    | BadEncoding(reason: string)   // the bytes are not text (UnicodeDecodeError)

  datatype Response =
    | Answered(status: int, body: Body)
    | NoAnswer(reason: string)      // the request itself raised (connection, timeout, ...)

  /** `json.loads(client.get(url).content)`, which raises on any of the failures. */
  function Load(resp: Response): (r: Result<Json>)
    ensures r.Ok? <==> resp.Answered? && resp.body.Parsed?
    ensures r.Ok? ==> r.value == resp.body.doc
    ensures resp.Answered? && resp.body.Malformed? ==> r == Err(DecodeFailed(resp.body.reason))
  {
    match resp
    case NoAnswer(reason) => Err(Raised(reason))
    case Answered(_, body) =>
      match body
      case Parsed(doc) => Ok(doc)
      case Malformed(reason) => Err(DecodeFailed(reason))
      case BadEncoding(reason) => Err(Raised(reason))
  }
}
