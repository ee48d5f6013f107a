/** The tail of app.js: the catch-all for unmatched paths and the error-handler chain. */
module App {
  import opened Basics
  import opened Http
  import opened ErrorHandlers

  /** How the routers left a request: answered, failed with `next(err)`, or unmatched. */
  datatype Routed = Answered(response: Response) | Raised(err: ErrorRecord) | Unrouted

  /** The final answer. The catch-all is an ordinary middleware, so Express skips it for a
      raised error and hands the error to the error handlers; an unmatched request is
      answered 404 by the catch-all and never reaches an error handler. */
  function Finish(d: Routed): (r: Response)
    ensures d.Unrouted? ==> r == Response(404, Msg("Path not found"))
    ensures d.Answered? ==> r == d.response
    ensures d.Raised? ==> r.status == 400 || r.status == 500 || Some(r.status) == d.err.status
  {
    match d
    case Answered(resp) => resp
    case Raised(err) => HandleError(err)
    case Unrouted => Response(404, Msg("Path not found"))
  }
}
