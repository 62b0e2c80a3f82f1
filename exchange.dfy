/**
 * What crosses the proxy's boundaries: the outcome of one outbound HTTP call
 * (already decoded with `response.json()`, or the exception it raised) and
 * the Flask response the handler returns.
 */
module Exchange {
  import opened PyValue

  /** One outbound call: the exception raised, or the decoded JSON body. */
  datatype Outcome = Raised(message: string) | Returned(json: Json)

  /**
   * A response: the value given to `jsonify`, the HTTP status, and the
   * plates sent to the registration provider while serving it, in order.
   */
  datatype Reply = Reply(body: Json, status: nat, queried: seq<string>)

  /** `{"error": message}` */
  function ErrorBody(message: string): Json {
    Object([Member("error", Str(message))])
  }
}
