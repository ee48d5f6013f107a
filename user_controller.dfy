/** The user controller (controllers/userController.js) over an in-memory Users
    collection that keeps the unique index on `email`. */
module UserController {
  import opened Basics
  import opened Http
  import opened UserModel

  /** A request body given to `createUser`; an absent field is `None`. Only `firstName`,
      `lastName`, `username`, `email` and `password` are read; `role` and `clerkId` stand
      for anything else a client may send. */
  datatype UserPayload = UserPayload(
    firstName: Option<string>,
    lastName: Option<string>,
    username: Option<string>,
    email: Option<string>,
    password: Option<string>,
    role: Option<string>,
    clerkId: Option<string>)

  /** The required paths whose validator fails, in schema order. */
  function FailingPaths(p: UserPayload): (r: seq<string>)
    ensures r == [] <==> RequiredString(p.firstName) && RequiredString(p.lastName) && RequiredString(p.email)
    ensures "firstName" in r <==> !RequiredString(p.firstName)
    ensures "lastName" in r <==> !RequiredString(p.lastName)
    ensures "email" in r <==> !RequiredString(p.email)
    ensures |r| <= 3
  {
    (if RequiredString(p.firstName) then [] else ["firstName"])
    + (if RequiredString(p.lastName) then [] else ["lastName"])
    + (if RequiredString(p.email) then [] else ["email"])
  }

  /** `new User({ firstName, lastName, username, email, password })` as `save` validates it,
      under the id `id`: None when a required path fails. `password` is not a schema path
      and is dropped; `role` takes its default. */
  function BuildUser(p: UserPayload, id: UserId): (r: Option<User>)
    ensures r.Some? <==> FailingPaths(p) == []
    ensures r.Some? ==> Valid(r.value)
  {
    if FailingPaths(p) == [] then
      Some(User(id, None, p.firstName.value, p.lastName.value, p.username, p.email.value, DefaultRole, [], []))
    else
      None
  }

  /** A created user carries the submitted names, username and email, the role "user",
      no external id and no events. */
  lemma BuildUserKeepsPayload(p: UserPayload, id: UserId)
    requires BuildUser(p, id).Some?
    ensures var u := BuildUser(p, id).value;
      && u.id == id
      && Some(u.firstName) == p.firstName && Some(u.lastName) == p.lastName
      && u.username == p.username && Some(u.email) == p.email
      && u.role == DefaultRole && u.clerkId == None
      && u.eventsSignedUp == [] && u.eventsManaged == []
  {
  }

  /** Whatever the body says about `role`, `password` or `clerkId` makes no difference:
      a client cannot make itself an admin by signing up. */
  lemma BuildUserIgnoresRole(p: UserPayload, id: UserId, role: Option<string>, password: Option<string>, clerkId: Option<string>)
    ensures BuildUser(p, id) == BuildUser(p.(role := role, password := password, clerkId := clerkId), id)
    ensures BuildUser(p, id).Some? ==> BuildUser(p, id).value.role != AdminRole
  {
  }

  /** The Users collection, in insertion order. */
  class UserStore {
    var users: seq<User>
    var nextId: UserId

    /** The unique index holds, every stored user passed the validators, and ids are
        below the next one. */
    ghost predicate Valid()
      reads this
    {
      && EmailsUnique(users)
      && (forall i :: 0 <= i < |users| ==> UserModel.Valid(users[i]))
      && (forall i :: 0 <= i < |users| ==> users[i].id < nextId)
    }

    constructor()
      ensures Valid() && users == []
    {
      users := [];
      nextId := 0;
    }

    /** `createUser`. A body failing a required path, or whose email is already stored,
        makes `save` throw: 500 with the error and the collection unchanged. Otherwise the
        new user is appended and returned with 201. */
    method CreateUser(p: UserPayload) returns (r: Response)
      requires Valid()
      modifies this
      ensures Valid()
      ensures match BuildUser(p, old(nextId))
        case None =>
          && r == Response(500, MessageAndError("Error creating user", Invalid(FailingPaths(p))))
          && users == old(users) && nextId == old(nextId)
        case Some(u) =>
          if EmailTaken(old(users), u.email) then
            && r == Response(500, MessageAndError("Error creating user", DuplicateEmail(u.email)))
            && users == old(users) && nextId == old(nextId)
          else
            && r == Response(201, UserDoc(u))
            && users == old(users) + [u] && nextId == old(nextId) + 1
    {
      var built := BuildUser(p, nextId);
      if built.None? {
        r := Response(500, MessageAndError("Error creating user", Invalid(FailingPaths(p))));
      } else {
        var u := built.value;
        if EmailTaken(users, u.email) {
          r := Response(500, MessageAndError("Error creating user", DuplicateEmail(u.email)));
        } else {
          AppendKeepsEmailsUnique(users, u);
          users := users + [u];
          nextId := nextId + 1;
          r := Response(201, UserDoc(u));
        }
      }
    }

    /** `getAllUsers`: every stored user, in insertion order, with 200; nothing changes. */
    method GetAllUsers() returns (r: Response)
      ensures r.status == 200 && r.body.UserList?
      ensures r.body.users == users
    {
      r := Response(200, UserList(users));
    }
  }

  /** Two sign-ups with the same body: the second is refused with 500, so the collection
      grows by at most one user and never holds the email twice. */
  method SignUpTwice(store: UserStore, p: UserPayload) returns (first: Response, second: Response)
    requires store.Valid()
    modifies store
    ensures store.Valid()
    ensures second.status == 500
    ensures |store.users| <= |old(store.users)| + 1
    ensures first.status == 201 <==> |store.users| == |old(store.users)| + 1
  {
    first := store.CreateUser(p);
    ghost var mid := store.users;
    second := store.CreateUser(p);
    if first.status == 201 {
      var u := BuildUser(p, store.nextId - 1).value;
      assert BuildUser(p, store.nextId) == Some(u.(id := store.nextId));
      assert mid[|mid| - 1].email == u.email;
      assert EmailTaken(mid, u.email);
    }
  }
}
