/**
 * The profile handlers of backend/src/controllers/user.controller.js over a
 * user collection held as a map from id to record. Each handler runs behind
 * the authentication middleware and is keyed only on the requester's id.
 */
module UserController {
  import opened Wrappers

  type UserId = string

  /** A stored account. `passwordHash` is whatever the signup path stored. */
  datatype User = User(name: string, email: string, passwordHash: string)

  /** `data` of a response: a user record, `null`, or `{}`. */
  datatype Data = Null | Record(user: User) | EmptyObject

  datatype Response = Response(status: nat, success: bool, data: Data)

  /**
   * The `fieldsToUpdate` object: only `name` and `email` are read from the
   * request body. A field the body lacks is `undefined` and is dropped from
   * the update rather than written.
   */
  datatype ProfileUpdate = ProfileUpdate(name: Option<string>, email: Option<string>)

  function FieldsToUpdate(body: map<string, string>): (u: ProfileUpdate)
    ensures u.name.Some? <==> "name" in body
    ensures u.email.Some? <==> "email" in body
    ensures u.name.Some? ==> u.name.value == body["name"]
    ensures u.email.Some? ==> u.email.value == body["email"]
  {
    ProfileUpdate(
      if "name" in body then Some(body["name"]) else None,
      if "email" in body then Some(body["email"]) else None)
  }

  /** Two bodies that agree on `name` and `email` make the same update: every other field, a password included, is ignored. */
  lemma OnlyNameAndEmailAreRead(b1: map<string, string>, b2: map<string, string>)
    requires ("name" in b1 <==> "name" in b2) && ("name" in b1 ==> b1["name"] == b2["name"])
    requires ("email" in b1 <==> "email" in b2) && ("email" in b1 ==> b1["email"] == b2["email"])
    ensures FieldsToUpdate(b1) == FieldsToUpdate(b2)
  {
  }

  /** The record after the update: the password hash is never touched. */
  function ApplyProfile(user: User, u: ProfileUpdate): (r: User)
    ensures r.passwordHash == user.passwordHash
    ensures r.name == u.name.GetOr(user.name) && r.email == u.email.GetOr(user.email)
  {
    User(u.name.GetOr(user.name), u.email.GetOr(user.email), user.passwordHash)
  }

  /** Applying the same update twice is the same as applying it once. */
  lemma ApplyProfileIdempotent(user: User, u: ProfileUpdate)
    ensures ApplyProfile(ApplyProfile(user, u), u) == ApplyProfile(user, u)
  {
  }

  /** The `User` collection. */
  class UserStore {
    var users: map<UserId, User>

    constructor ()
      ensures users == map[]
    {
      users := map[];
    }

    /** `GET /api/users/me`: the requester's record, or `null` when there is none. */
    method GetMe(requester: UserId) returns (r: Response)
      ensures r.status == 200 && r.success
      ensures requester in users ==> r.data == Record(users[requester])
      ensures requester !in users ==> r.data == Null
    {
      if requester in users {
        r := Response(200, true, Record(users[requester]));
      } else {
        r := Response(200, true, Null);
      }
    }

    /**
     * `PUT /api/users/me`: only the requester's record changes, and only its
     * name and email; the record after the update is returned (`new: true`).
     */
    method UpdateUserProfile(requester: UserId, body: map<string, string>) returns (r: Response)
      modifies this
      ensures r.status == 200 && r.success
      ensures requester in old(users) ==>
                && users == old(users)[requester := ApplyProfile(old(users)[requester], FieldsToUpdate(body))]
                && r.data == Record(users[requester])
      ensures requester !in old(users) ==> users == old(users) && r.data == Null
    {
      if requester in users {
        var updated := ApplyProfile(users[requester], FieldsToUpdate(body));
        users := users[requester := updated];
        r := Response(200, true, Record(updated));
      } else {
        r := Response(200, true, Null);
      }
    }

    /** `DELETE /api/users/me`: the requester's record is gone, every other one stays. */
    method DeleteUser(requester: UserId) returns (r: Response)
      modifies this
      ensures users == old(users) - {requester}
      ensures r == Response(200, true, EmptyObject)
    {
      users := users - {requester};
      r := Response(200, true, EmptyObject);
    }
  }
}
