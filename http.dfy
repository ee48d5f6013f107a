/** The responses the handlers send: `res.status(code).json(body)`, with each JSON body
    shape the core produces as its own constructor. */
module Http {
  import opened Basics
  import opened EventModel
  import opened UserModel

  /** One `{field, message}` entry of a validation report. */
  datatype FieldError = FieldError(field: string, message: string)

  /** The `err.message` (or `err`) a handler echoes back, kept abstract: the failure it describes. */
  datatype Cause =
    | CastToObjectId(value: string)         // a path id that is not an ObjectId
    | NegativeSkip(skip: int)               // MongoDB refuses a negative `skip`
    | Invalid(paths: seq<string>)           // a Mongoose ValidationError on these paths
    | DuplicateEmail(email: string)         // the unique index on `email` refused the insert
    | Message(text: Option<string>)         // an arbitrary error's `message`

  datatype Body =
    | Msg(msg: string)                                      // { msg }
    | Report(msg: string, errors: seq<FieldError>)          // { msg, errors }
    | MsgAndError(msg: string, error: Cause)                // { msg, error: err.message }
    | MessageAndError(message: string, error: Cause)        // { message, error: err }
    | EventDoc(id: EventId, event: Event)                   // one Event document
    | Null                                                  // JSON null
    | EventPage(events: seq<(EventId, Event)>, totalEvents: nat, totalPages: nat, currentPage: int)
    | UserDoc(user: User)                                   // one User document
    | UserList(users: seq<User>)                            // an array of User documents

  datatype Response = Response(status: int, body: Body)

  /** What a middleware does: call `next()`, answer and stop the chain, or neither. An
      `async` middleware whose promise rejects is `Unanswered`: Express 4 does not route
      the rejection to an error handler, so no response is ever sent. */
  datatype Outcome = Next | Halt(response: Response) | Unanswered
}
