# Event platform back end: a verified model of its core

This project models, in Dafny, the request-handling core of a small event-listing
back end built on Express and Mongoose. The model covers these parts:

- The two document schemas. An **Event** has a title, description, date, location,
  creator, capacity, participants, keywords, category, tags, image, URL, status and
  organizer contact. A **User** has names, username, email, role and event lists.
  Each schema comes with its required paths, enums, defaults and the `trim` setter.
- The **event controller**. It lists with a category filter, date sort and
  `skip`/`limit` pages, and gets, creates, updates and deletes over an in-memory
  Events collection (`EventController.EventStore`).
- The **user controller**. It creates and lists over an in-memory Users collection
  (`UserController.UserStore`) that keeps the unique index on `email`.
- The two **authorization middleware** revisions:
  - the signed-token one (`TokenAuth`);
  - the identity-provider test mock (`ClerkAuth`), with its default identity, the
    admin-only gate and the creator-admin ownership gate.
- The **error-handler chain** (`ErrorHandlers`). It holds the four handlers of
  `error-handlers.js` plus the anonymous one that `app.js` installs last, in
  installation order, with the path-not-found catch-all in `App`.

Three layers build on each other:

- Pure logic is written as functions with contracts: schema validation, trimming,
  token extraction, the gate decisions, the page arithmetic and the error answer.
- State that handlers change in place is written as classes with `modifies` clauses:
  the request object's `user`, `auth` and `event` fields, and the two collections.
- Lemmas connect the two layers.

Signature verification, the data store and the identity provider are parameters or
in-memory values:

- `TokenAuth.Verifier` stands for the token verifier.
- `ClerkAuth.AuthenticateClerkToken` takes the test-supplied identity as an argument.
- The collections are a `map` from id to Event and a `seq` of User.

In these places the code answers differently from what a reader might expect, and the
model follows the code:

- Updating a missing event answers 200 with `null`, not 404.
- A duplicate email at sign-up is a 500 `Error creating user`, not a 400. Emails are
  compared exactly, with no lower-casing.
- `createUser` does no password policy check and no hashing. `password` is simply
  dropped, because it is not a schema path.
- A malformed id is a 500 in `getEventById` and `deleteEvent`, and a 400 in
  `updateEvent`.
- The event router (routes/eventRoutes.js:6-18) installs no middleware in front of
  the controller. `createEvent` therefore never sees a caller and always answers 400,
  and updates and deletes are open to anyone. The gates of both middleware
  revisions are modelled on their own.

## Model

| member | source | states |
|---|---|---|
| Basics.Show | error-handlers.js:17 | `${x}` prints the string itself, or "undefined" for an absent value |
| Text.TrimStart | models/Event.js:9 | the result is a suffix of the input, does not start with whitespace, and everything removed is whitespace |
| Text.TrimEnd | models/Event.js:9 | the result is a prefix of the input, does not end with whitespace, and everything removed is whitespace |
| Text.Trim | models/Event.js:9 | `trim` never lengthens its input; the lemmas below state what it keeps and removes |
| Text.TrimIsSlice | models/Event.js:9 | `trim` returns a contiguous slice of its input, and everything cut off on either side is whitespace |
| Text.TrimIsTrimmed | models/Event.js:9 | the result of `trim` neither starts nor ends with whitespace |
| Text.TrimOfTrimmed | models/Event.js:9 | a string that neither starts nor ends with whitespace is unchanged by `trim` |
| Text.TrimIdempotent | models/Event.js:9 | the trim setter applied twice stores the same value as once |
| Text.TrimEmptyIffBlank | models/Event.js:6-10 | a trimmed text path is non-empty exactly when the submitted string has a non-whitespace character |
| Text.IndexOf | middlewares/authMiddleware.js:5 | the first position where the pattern occurs, and None exactly when it occurs nowhere |
| Text.ReplaceFirst | middlewares/authMiddleware.js:5 | only the first occurrence is replaced; without an occurrence the string is unchanged |
| Text.ReplaceFirstOfPrefixed | middlewares/authMiddleware.js:5 | replacing in `pat + t` removes exactly the leading `pat`, even when `t` contains it again |
| EventModel.Valid | models/Event.js:6-74 | a stored document satisfies every validator: required text non-empty and trimmed, `maxParticipants >= 1`, category and status listed, both contact members present |
| EventModel.TrimSetter | models/Event.js:9 | the setter keeps an absent value absent and makes a present one trimmed and no longer than before |
| EventModel.PassesValidators | models/Event.js:6-74 | the validators `save` runs, on the document after setters and defaults; `BuildSucceedsIff` ties it to the payload |
| EventModel.Acceptable | models/Event.js:6-74 | what the schema demands, stated on the submitted payload: required paths present, trimmed text not blank, `maxParticipants >= 1`, a listed category, a listed or absent status, both contact members |
| EventModel.Build | models/Event.js:6-74 | a built document always satisfies every schema validator, is created by the caller and has no participants |
| EventModel.BuildSucceedsIff | models/Event.js:6-74 | `save` succeeds exactly for payloads with every required path present, title/description/location not blank, `maxParticipants >= 1`, a listed category and a listed or absent status |
| EventModel.BuildKeepsPayload | controllers/eventController.js:56-71 | the stored document carries the submitted values (text paths trimmed), and status, image, URL, keywords and tags are the submitted value when given and "active", "", "", [], [] when absent |
| EventModel.UnlistedCategoryRefused | models/Event.js:45-49 | a category outside the enum makes creation fail whatever else is sent |
| EventModel.TechnologyNotListed | models/Event.js:48 | "Technology" is not one of the eight listed categories |
| UserModel.Valid | models/User.js:6-10 | a stored user has non-empty first name, last name and email, and a listed role |
| UserModel.EmailsUnique | models/User.js:9 | the unique index on `email`: no two stored users share one |
| UserModel.AppendKeepsEmailsUnique | models/User.js:9 | appending a user keeps emails unique exactly when the email is not already stored |
| ErrorHandlers.Apply | error-handlers.js:2-35 | the server handler and the global one always answer; the validation handler answers exactly for a ValidationError with `errors`, the cast handler exactly for a CastError, both with 400 or 500; the custom handler answers exactly for a truthy status in 100..999 and a truthy msg |
| ErrorHandlers.Run | app.js:34-45 | `next(err)` along the installed handlers: an empty chain answers nothing, and a first handler that answers gives the answer |
| ErrorHandlers.Invoked | app.js:34-45 | the handlers that run start with the first installed one, and when none answers every handler ran |
| ErrorHandlers.FieldErrors | error-handlers.js:4-7 | one `{field, message}` entry per error entry, in order, taken from its `path` and `message` |
| ErrorHandlers.InvokedIsPrefix | app.js:34-45 | the handlers that run for an error are always a prefix of the installed chain |
| ErrorHandlers.ServerHandlerStops | error-handlers.js:32-35 | a chain holding `serverErrorHandler` at position k always answers, and nothing after position k runs |
| ErrorHandlers.HandleError | app.js:34-45 | the answer to `next(err)`: a ValidationError gets 400 with one entry per entry of `errors`, a CastError 400 `Invalid <path>: <value>`, an error with truthy msg and a truthy status in 100..999 that status and msg, and anything else 500 `Internal server error` |
| ErrorHandlers.OutOfRangeStatusIsServerError | error-handlers.js:24-35 | an error whose status lies outside 100..999 makes `res.status` throw; the RangeError reaches the server handler and the answer is 500 `Internal server error` |
| ErrorHandlers.GlobalHandlerUnreachable | app.js:42-45 | the handler installed after `serverErrorHandler` never runs for any error |
| ErrorHandlers.PassesErrorUnchanged | error-handlers.js:10-28 | a handler that does not answer passes on the error it received, except that a ValidationError without `errors` turns into the TypeError thrown by `Object.values`, and an out-of-range status into the RangeError thrown by `res.status` |
| ErrorHandlers.ValidationBeforeCustom | app.js:34-38 | a ValidationError that also carries status and msg still gets the 400 validation report |
| App.Finish | app.js:30-32 | an unmatched path gets 404 `Path not found` and never reaches an error handler; a raised error gets 400, 500 or its own status |
| TokenAuth.ExtractToken | middlewares/authMiddleware.js:5 | a token exists exactly when the header does; a header without "Bearer " is used whole, and one with it loses exactly that many characters |
| TokenAuth.Authenticate | middlewares/authMiddleware.js:4-19 | a missing header or empty token gives 401 `no token provided`, a token the verifier refuses 401 `invalid token`; authentication succeeds exactly for a non-empty token that the verifier accepts, with its payload |
| TokenAuth.BearerHeaderYieldsToken | middlewares/authMiddleware.js:5 | the header `Bearer <token>` yields exactly `<token>` |
| TokenAuth.BareBearerHasNoToken | middlewares/authMiddleware.js:5-9 | the header `Bearer ` alone is answered 401 `no token provided` |
| TokenAuth.PrefixNeedNotLead | middlewares/authMiddleware.js:5 | for every header: one without "Bearer " is used whole, and otherwise the first "Bearer " is cut out where it stands, whatever precedes it |
| TokenAuth.PrefixNeedNotLeadExamples | middlewares/authMiddleware.js:5 | `abc` is used as the token `abc`, and `xBearer y` yields the token `xy` |
| TokenAuth.AuthenticateToken | middlewares/authMiddleware.js:4-19 | on success `req.user` is the decoded payload before `next`; on failure the 401 is sent and `req.user` is unchanged |
| TokenAuth.AdminGate | middlewares/authMiddleware.js:21-26 | `next` exactly for a user whose role is "admin"; otherwise 403 `Access denied` |
| TokenAuth.IsAdmin | middlewares/authMiddleware.js:21-26 | reads `req.user`, changes nothing, and answers by the admin gate |
| TokenAuth.AdminRouteAdmitsAnyHeader | middlewares/authMiddleware.js:4-26 | for any header, the two middlewares in sequence pass exactly when the header yields a non-empty token, with or without the "Bearer " prefix, that verifies with role "admin" |
| TokenAuth.AdminRouteAdmits | middlewares/authMiddleware.js:4-26 | for a header `Bearer <token>`, the two middlewares in sequence pass exactly when the token is non-empty and verifies with role "admin" |
| ClerkAuth.ResolveAuth | middlewares/_mocks_/clerkAuthMiddleware.js:7-10 | the supplied identity, or the default `test_admin_id` one |
| ClerkAuth.FindByExternalId | middlewares/_mocks_/clerkAuthMiddleware.js:15 | the first stored user with the caller's id, and None exactly when there is none |
| ClerkAuth.FindEvent | middlewares/_mocks_/clerkAuthMiddleware.js:27 | the stored event with that id, and None exactly when it is absent |
| ClerkAuth.AdminDecision | middlewares/_mocks_/clerkAuthMiddleware.js:17-19 | allowed exactly for a resolved user with role "admin"; otherwise 403 `Access denied: Admins only` |
| ClerkAuth.CreatorDecision | middlewares/_mocks_/clerkAuthMiddleware.js:29-37 | a missing user or event is 404; otherwise allowed exactly for an admin who created the event, and 403 for anyone else |
| ClerkAuth.MissingEventBeforeRole | middlewares/_mocks_/clerkAuthMiddleware.js:29-31 | a non-admin aiming at a missing event gets 404, not 403 |
| ClerkAuth.OtherAdminGetsOwnershipMessage | middlewares/_mocks_/clerkAuthMiddleware.js:33-37 | an admin who did not create the event passes the admin gate but gets the ownership 403, whose message differs from the admin-only one |
| ClerkAuth.CreatorImpliesAdmin | middlewares/_mocks_/clerkAuthMiddleware.js:33 | passing the creator gate implies passing the admin gate |
| ClerkAuth.AuthenticateClerkToken | middlewares/_mocks_/clerkAuthMiddleware.js:6-12 | sets `req.auth` to the resolved identity, calls `next`, and leaves the other fields alone |
| ClerkAuth.IsAdmin | middlewares/_mocks_/clerkAuthMiddleware.js:14-23 | on success `req.user` is the resolved user before `next`; otherwise 403 and the request is unchanged; with `req.auth` unset the request is left unanswered and unchanged |
| ClerkAuth.IsEventCreatorAdmin | middlewares/_mocks_/clerkAuthMiddleware.js:25-42 | on success both `req.user` and `req.event` are set before `next`; on a 404 or 403 the answer is sent and nothing changes; an unset `req.auth` or a malformed id leaves the request unanswered and unchanged |
| ClerkAuth.DefaultCallerGate | middlewares/_mocks_/clerkAuthMiddleware.js:7-19 | with no identity supplied, the admin gate passes exactly when the first user with id `test_admin_id` is an admin |
| EventController.PageOf | controllers/eventController.js:5 | the requested page, or 1 when none is given |
| EventController.LimitOf | controllers/eventController.js:5 | the requested limit, or 10 when none is given |
| EventController.Descending | controllers/eventController.js:7 | the order is descending exactly when `sortOrder` is "desc" |
| EventController.CeilDiv | controllers/eventController.js:26 | `Math.ceil(n / d)` for a whole count and a positive limit; `CeilDivIsLeast` states what it is |
| EventController.CeilDivIsLeast | controllers/eventController.js:26 | `Math.ceil(n / d)` is the least page count holding n items, and page k+1 is non-empty exactly when k is below it |
| EventController.Matching | controllers/eventController.js:11-13 | what the filter selects: stored documents only, all of the category when a truthy one is given |
| EventController.InIdOrder | controllers/eventController.js:13 | the collection in natural order: every stored document exactly once, ascending by id |
| EventController.WithCategory | controllers/eventController.js:11 | keeps exactly the documents of the given category |
| EventController.Insert | controllers/eventController.js:14 | inserting into a date-sorted list keeps it sorted and adds exactly that one element |
| EventController.SortByDate | controllers/eventController.js:14 | `.sort({date: order})` is sorted ascending, or descending for "desc", and is a permutation of its input |
| EventController.Window | controllers/eventController.js:15-16 | `.skip(s).limit(l)` is the slice from s of at most l items, empty exactly when s is past the end, and keeps the order |
| EventController.Page | controllers/eventController.js:15-16 | page p of l items is non-empty exactly when p is at most `Math.ceil(n / l)`, holds at most l items of the input, and keeps the order |
| EventController.Listing | controllers/eventController.js:11-16 | the page `getAllEvents` lists holds at most `limit` documents, in the requested date order |
| EventController.MatchingIsStoreFiltered | controllers/eventController.js:11-20 | what `find` and `countDocuments` see is exactly the stored documents, of the category when one is given |
| EventController.ListingProperties | controllers/eventController.js:13-16 | a listed page has at most `limit` stored events, in the requested date order, all of the requested category |
| EventController.ListingNonEmptyIff | controllers/eventController.js:15-26 | a listed page is non-empty exactly when `page <= totalPages` |
| EventController.DefaultListing | controllers/eventController.js:5 | with no query parameters the listing is ascending by date and at most ten events |
| EventController.SetTrimmed | controllers/eventController.js:90 | a `trim: true` path after `$set` is the trimmed new value when one is sent, and the current value otherwise |
| EventController.Patched | controllers/eventController.js:86-90 | every path the update sets takes the sent value (trimmed for title, description and location), every other path keeps the stored value, and an empty update changes nothing |
| EventController.PatchIdempotent | controllers/eventController.js:90 | applying the same update twice stores the same document as applying it once |
| EventController.FailingPaths | models/Event.js:6-74 | no path is reported exactly when the document satisfies every schema validator |
| EventController.UpdateBypassesValidators | controllers/eventController.js:90 | as written, patching a valid event with `maxParticipants: 0`, an unlisted category or an empty title stores an invalid document |
| EventController.ValidatedPatch | controllers/eventController.js:90 | an update that passes the validators keeps the document valid, with a listed category and a bound of at least 1 |
| EventController.EventStore.ListEvents | controllers/eventController.js:4-32 | a page below 1 gives 500 for the negative skip; otherwise 200 with the page, the match count, `Math.ceil(total / limit)` and the page number |
| EventController.EventStore.GetEventById | controllers/eventController.js:35-47 | 200 with the stored event, 404 `Event not found` for an absent id, 500 for a malformed one |
| EventController.EventStore.CreateEvent | controllers/eventController.js:51-80 | a refused payload or a missing caller gives 400 `Bad request, invalid data.` and changes nothing; otherwise the built document is stored under a fresh id and returned with 201, and a valid collection stays valid |
| EventController.EventStore.Save | controllers/eventController.js:74 | stores the document under the next id and advances it |
| EventController.EventStore.UpdateEvent | controllers/eventController.js:84-95 | as written: a malformed id gives 400, a missing id 200 `null`, and otherwise the patched document is stored unvalidated and returned |
| EventController.EventStore.UpdateEventValidated | controllers/eventController.js:84-95 | with validators run, an update that would store an invalid document is a 400 naming the failing paths, and a valid collection stays valid |
| EventController.EventStore.DeleteEvent | controllers/eventController.js:99-108 | the id is absent afterwards and the answer is the same whether or not it was stored; a malformed id gives 500 |
| EventController.CreateThenFetch | controllers/eventController.js:74-76 | fetching a created event by its returned id gives back the stored document, with the submitted text trimmed |
| EventController.UpdateLeavesOthers | controllers/eventController.js:90 | an update by id, with or without validators, leaves every other document as it was |
| EventController.UpdateTwice | controllers/eventController.js:84-95 | repeating an update gives the same answer and leaves the collection as after the first one |
| UserController.FailingPaths | models/User.js:6-9 | reports exactly the required paths `firstName`, `lastName`, `email` that are absent or empty |
| UserController.BuildUser | controllers/userController.js:6-8 | a user is built exactly when no required path fails, and the built user satisfies the schema |
| UserController.BuildUserKeepsPayload | controllers/userController.js:6-7 | the new user carries the submitted names, username and email, role "user", no external id and no events |
| UserController.BuildUserIgnoresRole | controllers/userController.js:6-7 | the `role`, `password` or `clerkId` in the body make no difference, so sign-up never creates an admin |
| UserController.UserStore.CreateUser | controllers/userController.js:4-13 | a failed validation or a taken email gives 500 `Error creating user` and changes nothing; otherwise exactly one user is appended and returned with 201, and emails stay unique |
| UserController.UserStore.GetAllUsers | controllers/userController.js:16-23 | 200 with every stored user, in insertion order |
| UserController.SignUpTwice | models/User.js:9 | signing up twice with the same body refuses the second attempt, so the collection grows by at most one |

## Left out

- Network, HTTP parsing, routing tables and the database connection, seeding and
  listener are I/O. The routers are represented only by `App.Routed`. The logging
  calls `console.error` (error-handlers.js:33, app.js:43) are output only and are left
  out.
- Signature and expiry checking of tokens is the `TokenAuth.Verifier` parameter. The
  identity-provider SDK is replaced by the test mock, and the mock's identity is an
  argument of `ClerkAuth.AuthenticateClerkToken`.
- ObjectId format and casting: an id is a `nat`, or a `Malformed` raw string that
  fails the cast. Coercion of query strings and body values to Number or Date is not
  modelled, so payload values already have the schema's types.
- The caller's identity key: the mock queries `User.findOne({ userId })`, which is
  not a path of the User schema. The model looks users up by `clerkId`, the schema's
  external-id path. How a query on an unknown path behaves under a given Mongoose
  setting is not modelled.
- `populate` of `createdBy`, timestamps, `__v` and JSON serialisation of documents
  are library behaviour.
- `sortBy` other than `date` is not modelled. Ties in date keep id order; MongoDB
  leaves that order unspecified.
- EventController.EventStore.ListEvents: requires `limit >= 1`. In JavaScript a limit
  of 0 gives `Infinity` pages, a non-numeric one `NaN`, and a negative one a negative
  page count (`Math.ceil(12 / -5)` is -2) together with MongoDB's treatment of a
  negative limit. The integer model does not represent these.
- Floating-point `Number` semantics for dates and capacities: integers stand in.
- ErrorHandlers.HandleError: error objects are reduced to the fields the handlers
  read. The serialisation of `error: err` in controller answers is abstracted to a
  `Cause`.
- Routes that point at controller functions the user controller does not define, and
  the own-profile, sign-up and sync flows, have no implementation in the code, so
  they are not part of this model.
- Concurrency between requests: each handler runs to completion on the collection.
- EventController.EventStore.UpdateEvent: only bodies of plain paths, which Mongoose
  wraps in `$set`, are modelled. Update operators such as `$unset`, `$inc` or `$push`
  in the body are not.
- `null` as a body value or query value is not modelled: an absent value is
  `undefined`, so a `null` that passes `required` differently, or prints as "null"
  in a template literal, is out of scope.
- EventModel.Acceptable: `keywords` is declared required but is an array. Mongoose 5
  and later default an array path to `[]`, and `[]` passes `required`, so the model
  lets `keywords` be absent. Older Mongoose versions are not modelled.

## Findings

| source | as written | input that shows it | evidently intended | confidence | as-written member | corrected member |
|---|---|---|---|---|---|---|
| controllers/eventController.js:90 | `findByIdAndUpdate(id, updates, { new: true })` runs no schema validators, so an update can store a document the schema forbids | a PUT with body `{ "maxParticipants": 0 }`, `{ "category": "Technology" }` or `{ "title": "" }` on a valid event | updates validated like creation (`runValidators: true`), refused with 400 when invalid | not executed | EventController.UpdateBypassesValidators | EventController.EventStore.UpdateEventValidated |
