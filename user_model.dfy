/** The User schema (models/User.js): the stored record, the `role` enum and its
    default, the required paths and the unique index on `email`. */
module UserModel {
  import opened Basics

  const Roles: seq<string> := ["user", "admin"]
  const DefaultRole: string := "user"
  const AdminRole: string := "admin"

  /** A stored User document. `clerkId` is the caller's external identity;
      `eventsSignedUp` and `eventsManaged` hold Event ids and nothing else. */
  datatype User = User(
    id: UserId,
    clerkId: Option<string>,
    firstName: string,
    lastName: string,
    username: Option<string>,
    email: string,
    role: string,
    eventsSignedUp: seq<EventId>,
    eventsManaged: seq<EventId>)

  /** The schema's validators: the required String paths are non-empty and `role` is listed. */
  predicate Valid(u: User)
  {
    u.firstName != "" && u.lastName != "" && u.email != "" && u.role in Roles
  }

  /** The unique index on `email`: no two stored users share one. */
  ghost predicate EmailsUnique(users: seq<User>)
  {
    forall i, j :: 0 <= i < j < |users| ==> users[i].email != users[j].email
  }

  /** Some stored user already holds `email`. */
  predicate EmailTaken(users: seq<User>, email: string)
  {
    exists i :: 0 <= i < |users| && users[i].email == email
  }

  /** Adding a user whose email is not taken keeps the index unique, and taking an
      email already present would break it: the index admits exactly the fresh emails. */
  lemma AppendKeepsEmailsUnique(users: seq<User>, u: User)
    requires EmailsUnique(users)
    ensures EmailsUnique(users + [u]) <==> !EmailTaken(users, u.email)
  {
    var us := users + [u];
    if EmailTaken(users, u.email) {
      var i :| 0 <= i < |users| && users[i].email == u.email;
      assert us[i].email == us[|users|].email;
    } else {
      forall i, j | 0 <= i < j < |us| ensures us[i].email != us[j].email {
        if j == |users| { assert us[i] == users[i]; }
      }
    }
  }
}
