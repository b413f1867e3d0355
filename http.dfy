/**
 * The HTTP exchanges the services take part in, reduced to what the code
 * reads from them: the status, two headers, the body and, when the body
 * is JSON, its `detail` member.
 */
module Http {
  import opened Wrappers
  import opened Bytes

  /** What Laravel's `json()` decodes from a body. */
  datatype JsonDoc =
    | NotJson
    | JsonObject(detail: Option<string>)
    | OtherJson

  datatype Response = Response(status: int, contentType: string, contentDisposition: string, body: Bytes, json: JsonDoc)

  /** A request either gets a response or fails to connect (Laravel's `ConnectionException`). */
  datatype Outcome =
    | Responded(response: Response)
    | ConnectionFailed(message: string)

  /** Laravel's `successful()`: a 2xx status. */
  predicate Successful(r: Response)
  {
    200 <= r.status < 300
  }
}
