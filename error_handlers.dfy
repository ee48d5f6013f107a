/** The four error-handling middlewares of error-handlers.js and the order app.js installs
    them in. Each handler either answers or passes an error on to the next one. */
module ErrorHandlers {
  import opened Basics
  import opened Http

  /** One value of a Mongoose ValidationError's `errors` object. */
  datatype ErrorEntry = ErrorEntry(path: string, message: string)

  /** The fields of an error object the handlers look at. `errors` holds the values of
      `err.errors` in enumeration order; `value` is the string form of `err.value`. */
  datatype ErrorRecord = ErrorRecord(
    name: string,
    errors: Option<seq<ErrorEntry>>,
    path: Option<string>,
    value: Option<string>,
    status: Option<int>,
    msg: Option<string>,
    message: Option<string>)

  datatype Handler =
    | MongooseValidationHandler
    | MongooseCastErrorHandler
    | CustomErrorHandler
    | ServerErrorHandler
    | GlobalErrorHandler      // the anonymous handler installed last in app.js

  /** After one handler: an answer, or `next(err)` with the error the next handler receives. */
  datatype Step = Respond(response: Response) | Pass(err: ErrorRecord)

  /** `Object.values(undefined)` throws this TypeError; Express passes a handler's exception
      on to the next error handler. */
  const ObjectValuesTypeError: ErrorRecord :=
    ErrorRecord("TypeError", None, None, None, None, None, Some("Cannot convert undefined or null to object"))

  /** Node's `writeHead` accepts only three-digit status codes. */
  predicate ValidStatusCode(status: int)
  {
    100 <= status <= 999
  }

  /** The RangeError `res.status(code).json(...)` throws for a code outside 100..999. */
  const InvalidStatusError: ErrorRecord :=
    ErrorRecord("RangeError", None, None, None, None, None, Some("Invalid status code"))

  /** `Object.values(err.errors).map(e => ({field: e.path, message: e.message}))`. */
  function FieldErrors(entries: seq<ErrorEntry>): (r: seq<FieldError>)
    ensures |r| == |entries|
    ensures forall i :: 0 <= i < |r| ==> r[i].field == entries[i].path && r[i].message == entries[i].message
  {
    if entries == [] then [] else [FieldError(entries[0].path, entries[0].message)] + FieldErrors(entries[1..])
  }

  /** One handler on one error. Each of the first three answers only the errors it
      recognises; `customErrorHandler` answers only with a status Node accepts, and a
      truthy status outside 100..999 makes its `res.status(...).json(...)` throw. The last
      two answer everything. */
  function Apply(h: Handler, err: ErrorRecord): (r: Step)
    ensures h == ServerErrorHandler || h == GlobalErrorHandler ==> r.Respond?
    ensures h == MongooseValidationHandler ==>
              (r.Respond? <==> err.name == "ValidationError" && err.errors.Some?)
    ensures h == MongooseCastErrorHandler ==> (r.Respond? <==> err.name == "CastError")
    ensures h == CustomErrorHandler ==>
              (r.Respond? <==> TruthyNumber(err.status) && TruthyString(err.msg) && ValidStatusCode(err.status.value))
    ensures r.Respond? && h != CustomErrorHandler && h != ServerErrorHandler ==> r.response.status in {400, 500}
  {
    match h
    case MongooseValidationHandler =>
      if err.name == "ValidationError" then
        match err.errors
        case Some(es) => Respond(Response(400, Report("Validation error", FieldErrors(es))))
        case None => Pass(ObjectValuesTypeError)
      else Pass(err)
    case MongooseCastErrorHandler =>
      if err.name == "CastError" then Respond(Response(400, Msg("Invalid " + Show(err.path) + ": " + Show(err.value))))
      else Pass(err)
    case CustomErrorHandler =>
      if TruthyNumber(err.status) && TruthyString(err.msg) then
        if ValidStatusCode(err.status.value) then Respond(Response(err.status.value, Msg(err.msg.value)))
        else Pass(InvalidStatusError)
      else Pass(err)
    case ServerErrorHandler =>
      Respond(Response(500, Msg("Internal server error")))
    case GlobalErrorHandler =>
      Respond(Response(500, MsgAndError("Internal Server Error", Message(err.message))))
  }

  /** The error handlers in the order app.js installs them. */
  const AppChain: seq<Handler> :=
    [MongooseValidationHandler, MongooseCastErrorHandler, CustomErrorHandler, ServerErrorHandler, GlobalErrorHandler]

  /** Runs a chain of error handlers; None when every handler passed the error on. */
  function Run(chain: seq<Handler>, err: ErrorRecord): (r: Option<Response>)
    ensures chain == [] ==> r.None?
    ensures chain != [] && Apply(chain[0], err).Respond? ==> r == Some(Apply(chain[0], err).response)
    decreases |chain|
  {
    if chain == [] then None
    else match Apply(chain[0], err)
      case Respond(r) => Some(r)
      case Pass(e) => Run(chain[1..], e)
  }

  /** The handlers a chain actually invokes, in order. */
  function Invoked(chain: seq<Handler>, err: ErrorRecord): (r: seq<Handler>)
    ensures chain != [] ==> r != [] && r[0] == chain[0]
    ensures Run(chain, err).None? ==> r == chain
    decreases |chain|
  {
    if chain == [] then []
    else [chain[0]] + match Apply(chain[0], err)
      case Respond(_) => []
      case Pass(e) => Invoked(chain[1..], e)
  }

  /** A chain only ever invokes a prefix of itself. */
  lemma {:induction false} InvokedIsPrefix(chain: seq<Handler>, err: ErrorRecord)
    ensures |Invoked(chain, err)| <= |chain| && Invoked(chain, err) == chain[..|Invoked(chain, err)|]
    decreases |chain|
  {
    if chain != [] {
      match Apply(chain[0], err)
      case Respond(_) =>
      case Pass(e) => InvokedIsPrefix(chain[1..], e);
    }
  }

  /** `serverErrorHandler` always answers and never calls `next`: a chain holding it at
      position k answers, and nothing after position k is ever invoked. */
  lemma {:induction false} ServerHandlerStops(chain: seq<Handler>, err: ErrorRecord, k: nat)
    requires k < |chain| && chain[k] == ServerErrorHandler
    ensures Run(chain, err).Some?
    ensures |Invoked(chain, err)| <= k + 1
  {
    if k > 0 {
      match Apply(chain[0], err)
      case Respond(_) =>
      case Pass(e) => ServerHandlerStops(chain[1..], e, k - 1);
    }
  }

  /** The answer the application gives to an error passed to `next(err)`. The validation
      report lists one entry per entry of `err.errors`; a ValidationError without `errors`
      makes the first handler throw, and the resulting TypeError ends at the 500. */
  function HandleError(err: ErrorRecord): (r: Response)
    ensures err.name == "ValidationError" && err.errors.Some? ==>
              r.status == 400 && r.body.Report? && r.body.msg == "Validation error"
              && |r.body.errors| == |err.errors.value|
              && forall i :: 0 <= i < |r.body.errors| ==>
                   r.body.errors[i] == FieldError(err.errors.value[i].path, err.errors.value[i].message)
    ensures err.name == "ValidationError" && err.errors.None? ==>
              r == Response(500, Msg("Internal server error"))
    ensures err.name == "CastError" ==>
              r == Response(400, Msg("Invalid " + Show(err.path) + ": " + Show(err.value)))
    ensures err.name != "ValidationError" && err.name != "CastError" ==>
              if TruthyNumber(err.status) && TruthyString(err.msg) && ValidStatusCode(err.status.value)
              then r == Response(err.status.value, Msg(err.msg.value))
              else r == Response(500, Msg("Internal server error"))
  {
    ServerHandlerStops(AppChain, err, 3);
    Run(AppChain, err).value
  }

  /** The anonymous handler app.js installs after `serverErrorHandler` is dead code. */
  lemma GlobalHandlerUnreachable(err: ErrorRecord)
    ensures GlobalErrorHandler !in Invoked(AppChain, err)
  {
    ServerHandlerStops(AppChain, err, 3);
    InvokedIsPrefix(AppChain, err);
    var n := |Invoked(AppChain, err)|;
    assert forall i :: 0 <= i < n ==> AppChain[i] != GlobalErrorHandler;
  }

  /** A handler that does not answer passes on the very error it received, with two
      exceptions: the validation handler throws on a ValidationError without `errors`, and
      the custom handler throws on a status Node refuses. */
  lemma PassesErrorUnchanged(h: Handler, err: ErrorRecord)
    requires Apply(h, err).Pass?
    ensures h == MongooseValidationHandler && err.name == "ValidationError" ==> Apply(h, err).err == ObjectValuesTypeError
    ensures h == CustomErrorHandler && TruthyNumber(err.status) && TruthyString(err.msg) ==>
              Apply(h, err).err == InvalidStatusError
    ensures !(h == MongooseValidationHandler && err.name == "ValidationError")
            && !(h == CustomErrorHandler && TruthyNumber(err.status) && TruthyString(err.msg)) ==>
              Apply(h, err).err == err
  {
  }

  /** A custom error whose status Node refuses ends at the generic 500, not at its own
      status: `{ status: 42, msg: "x" }` is answered 500 `Internal server error`. */
  lemma OutOfRangeStatusIsServerError(err: ErrorRecord)
    requires err.name != "ValidationError" && err.name != "CastError"
    requires TruthyNumber(err.status) && TruthyString(err.msg) && !ValidStatusCode(err.status.value)
    ensures HandleError(err) == Response(500, Msg("Internal server error"))
  {
  }

  /** Precedence: an error that is both a ValidationError and carries its own status and
      message gets the validation report, because that handler is installed first. */
  lemma ValidationBeforeCustom(err: ErrorRecord)
    requires err.name == "ValidationError" && err.errors.Some?
    requires TruthyNumber(err.status) && TruthyString(err.msg)
    ensures HandleError(err).status == 400 && HandleError(err).body.Report?
  {
  }
}
