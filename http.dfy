/** What an HTTP exchange with an upstream service looks like to the code that
    reads it. The network itself is not modelled: each exchange is an input. */
module Http {
  import opened Wrappers

  /** Either the request failed before any response (connection refused,
      timeout), or a response arrived: its status, the decoded body text when it
      can be read (`resp.text`), the body's lines as the line iterator yields them,
      and the transport error, if any, that cut the body short after those lines. */
  datatype Exchange<L> =
    | Unreachable(exc: Exc)
    | Response(status: int, text: Option<string>, lines: seq<L>, failure: Option<Exc>)

  /** httpx's `raise_for_status` accepts exactly the 2xx statuses. */
  predicate IsSuccess(status: int) {
    200 <= status < 300
  }
}
