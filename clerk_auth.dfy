/** The identity-provider revision of the authorization middleware, as the test mock
    writes it out (middlewares/_mocks_/clerkAuthMiddleware.js): a default identity, the
    admin-only gate and the creator-admin ownership gate. User and event lookups are
    over the stored collections. */
module ClerkAuth {
  import opened Basics
  import opened Http
  import opened EventModel
  import opened UserModel

  /** `req.auth`: the caller's external id and session. */
  datatype AuthInfo = AuthInfo(userId: string, sessionId: Option<string>)

  /** The identity used when a test supplies none. */
  const DefaultAuth: AuthInfo := AuthInfo("test_admin_id", Some("mock-session"))

  const AdminsOnly: Response := Response(403, Msg("Access denied: Admins only"))
  const EventOrUserNotFound: Response := Response(404, Msg("Event or user not found"))
  const NotCreator: Response := Response(403, Msg("Only the admin who created this event can modify it"))

  /** `global.__mockClerkAuth__ || { userId: 'test_admin_id', sessionId: 'mock-session' }`. */
  function ResolveAuth(mock: Option<AuthInfo>): (a: AuthInfo)
    ensures mock.Some? ==> a == mock.value
    ensures mock.None? ==> a.userId == "test_admin_id"
  {
    match mock
    case Some(m) => m
    case None => DefaultAuth
  }

  /** `User.findOne(...)` by external id: the FIRST stored user carrying that id. */
  function FindByExternalId(users: seq<User>, ext: string): (r: Option<User>)
    ensures r.None? <==> forall i :: 0 <= i < |users| ==> users[i].clerkId != Some(ext)
    ensures r.Some? ==> exists i :: 0 <= i < |users| && users[i] == r.value && r.value.clerkId == Some(ext)
                                   && forall j :: 0 <= j < i ==> users[j].clerkId != Some(ext)
  {
    if users == [] then None
    else if users[0].clerkId == Some(ext) then Some(users[0])
    else
      var r := FindByExternalId(users[1..], ext);
      assert forall i :: 1 <= i < |users| ==> users[i] == users[1..][i - 1];
      r
  }

  /** `Event.findById(id)` over the stored collection. */
  function FindEvent(events: map<EventId, Event>, id: EventId): (r: Option<Event>)
    ensures r.Some? <==> id in events
    ensures r.Some? ==> r.value == events[id]
  {
    if id in events then Some(events[id]) else None
  }

  datatype Decision = Allow | Deny(response: Response)

  /** The test of `isAdmin`: allowed exactly for a resolved user whose role is "admin". */
  function AdminDecision(user: Option<User>): (d: Decision)
    ensures d == Allow <==> user.Some? && user.value.role == AdminRole
    ensures d != Allow ==> d == Deny(AdminsOnly)
  {
    if user.None? || user.value.role != AdminRole then Deny(AdminsOnly) else Allow
  }

  /** The tests of `isEventCreatorAdmin`: a missing user or event is 404, checked before any
      role; then only an admin whose id is the event's `createdBy` is allowed. */
  function CreatorDecision(user: Option<User>, event: Option<Event>): (d: Decision)
    ensures (user.None? || event.None?) ==> d == Deny(EventOrUserNotFound)
    ensures d == Allow <==>
              user.Some? && event.Some? && user.value.role == AdminRole && event.value.createdBy == user.value.id
    ensures user.Some? && event.Some? && d != Allow ==> d == Deny(NotCreator)
  {
    if user.None? || event.None? then Deny(EventOrUserNotFound)
    else if !(user.value.role == AdminRole && event.value.createdBy == user.value.id) then Deny(NotCreator)
    else Allow
  }

  /** A non-admin aiming at a missing event is told 404, not 403. */
  lemma MissingEventBeforeRole(u: User)
    requires u.role != AdminRole
    ensures CreatorDecision(Some(u), None) == Deny(EventOrUserNotFound)
    ensures AdminDecision(Some(u)) == Deny(AdminsOnly)
  {
  }

  /** Another admin passes the admin gate but gets the ownership refusal, whose message
      differs from the admin-only one. */
  lemma OtherAdminGetsOwnershipMessage(u: User, e: Event)
    requires u.role == AdminRole && e.createdBy != u.id
    ensures AdminDecision(Some(u)) == Allow
    ensures CreatorDecision(Some(u), Some(e)) == Deny(NotCreator) && NotCreator != AdminsOnly
  {
    assert |NotCreator.body.msg| != |AdminsOnly.body.msg|;
  }

  /** Passing the creator gate implies passing the admin gate. */
  lemma CreatorImpliesAdmin(user: Option<User>, event: Option<Event>)
    requires CreatorDecision(user, event) == Allow
    ensures AdminDecision(user) == Allow
  {
  }

  /** The request object these middlewares read and write. */
  class Request {
    var auth: Option<AuthInfo>
    var user: Option<User>
    var event: Option<Event>

    constructor()
      ensures auth == None && user == None && event == None
    {
      auth, user, event := None, None, None;
    }
  }

  /** `authenticateClerkToken`: sets `req.auth` to the supplied identity or the default, and calls `next`. */
  method AuthenticateClerkToken(req: Request, mock: Option<AuthInfo>) returns (o: Outcome)
    modifies req
    ensures o == Next && req.auth == Some(ResolveAuth(mock))
    ensures req.user == old(req.user) && req.event == old(req.event)
  {
    req.auth := Some(ResolveAuth(mock));
    o := Next;
  }

  /** `isAdmin`: on success `req.user` is the resolved user; otherwise 403 and nothing
      changes. Without `req.auth` (no `authenticateClerkToken` in front) reading
      `req.auth.userId` throws inside the `async` middleware: nothing is sent and nothing
      changes. */
  method IsAdmin(req: Request, users: seq<User>) returns (o: Outcome)
    modifies req
    ensures req.auth == old(req.auth) && req.event == old(req.event)
    ensures req.auth.None? ==> o == Unanswered && req.user == old(req.user)
    ensures req.auth.Some? ==>
      var u := FindByExternalId(users, req.auth.value.userId);
      match AdminDecision(u)
      case Allow => o == Next && req.user == u
      case Deny(resp) => o == Halt(resp) && req.user == old(req.user)
  {
    if req.auth.None? {
      o := Unanswered;
    } else {
      var u := FindByExternalId(users, req.auth.value.userId);
      match AdminDecision(u)
      case Allow =>
        req.user := u;
        o := Next;
      case Deny(resp) =>
        o := Halt(resp);
    }
  }

  /** `isEventCreatorAdmin` for the path id `pid`: on success both `req.user` and
      `req.event` are set before `next`; on a 404 or 403 the response is sent and nothing
      changes. Without `req.auth`, reading `req.auth.userId` throws; with a malformed id
      `Event.findById` rejects with a CastError. The `async` middleware catches neither:
      nothing is sent and nothing changes. */
  method IsEventCreatorAdmin(req: Request, users: seq<User>, events: map<EventId, Event>, pid: PathId)
    returns (o: Outcome)
    modifies req
    ensures req.auth == old(req.auth)
    ensures req.auth.None? || pid.Malformed? ==>
              o == Unanswered && req.user == old(req.user) && req.event == old(req.event)
    ensures req.auth.Some? && pid.Parsed? ==>
      var u := FindByExternalId(users, req.auth.value.userId);
      var e := FindEvent(events, pid.id);
      match CreatorDecision(u, e)
      case Allow => o == Next && req.user == u && req.event == e
      case Deny(resp) => o == Halt(resp) && req.user == old(req.user) && req.event == old(req.event)
  {
    if req.auth.None? || pid.Malformed? {
      o := Unanswered;
    } else {
      var u := FindByExternalId(users, req.auth.value.userId);
      var e := FindEvent(events, pid.id);
      match CreatorDecision(u, e)
      case Allow =>
        req.user := u;
        req.event := e;
        o := Next;
      case Deny(resp) =>
        o := Halt(resp);
    }
  }

  /** With no identity supplied, the admin gate admits exactly when the first user with
      external id `test_admin_id` is an admin. */
  lemma DefaultCallerGate(users: seq<User>)
    ensures AdminDecision(FindByExternalId(users, ResolveAuth(None).userId)) == Allow
            <==> exists i :: 0 <= i < |users| && users[i].clerkId == Some("test_admin_id")
                           && users[i].role == AdminRole
                           && forall j :: 0 <= j < i ==> users[j].clerkId != Some("test_admin_id")
  {
    var r := FindByExternalId(users, "test_admin_id");
    if r.Some? {
      var i :| 0 <= i < |users| && users[i] == r.value && r.value.clerkId == Some("test_admin_id")
               && forall j :: 0 <= j < i ==> users[j].clerkId != Some("test_admin_id");
      forall i' | 0 <= i' < |users| && users[i'].clerkId == Some("test_admin_id")
                  && forall j :: 0 <= j < i' ==> users[j].clerkId != Some("test_admin_id")
        ensures i' == i
      {
      }
    }
  }
}
