/** The response contract every client call returns. */
module ApiResponse {
  import opened Wrappers

  /** Status code the client reports for a failure that did not come from the server. */
  const Unknown: int := -1

  /** Status code, optional machine-readable error code, optional human-readable message. */
  datatype Response = Response(code: int, errCode: Option<string>, message: Option<string>)

  /** A newly constructed response: every field at its default. */
  const Blank: Response := Response(0, None, None)

  /** A new response on which the client sets only `code` and `message`. */
  function Fresh(code: int, message: string): (r: Response)
    ensures r.code == code && r.message == Some(message)
    ensures r.errCode == Blank.errCode
  {
    Blank.(code := code, message := Some(message))
  }
}
