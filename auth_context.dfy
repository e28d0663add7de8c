/**
 * The client-side session of frontend/src/context/AuthContext.jsx: the
 * signed-in user, a loading flag, and the token kept in the browser's
 * storage under the key `token`. Each API reply the provider awaits is a
 * parameter; every request it makes is returned together with the
 * `Authorization` value the interceptor gave it, which is how the order of
 * "store the token, then fetch the profile" shows.
 */
module AuthContext {
  import opened Wrappers
  import Text
  import ApiClient

  /** The user record `/users/me` returns. */
  datatype Profile = Profile(id: string, name: string, email: string)

  /**
   * The `data` field of a profile response: `None` is the JSON `null` the
   * server sends with status 200 when the account no longer exists.
   */
  type ProfileData = Option<Profile>

  /** A settled API call, shared with the rest of the client. */
  type Reply<T> = ApiClient.Reply<T>

  /** A request as it leaves the client, with the `Authorization` header it carried. */
  datatype Request = Request(call: ApiClient.Call, authorization: Option<string>)

  class AuthProvider {
    var user: Option<Profile>
    var loading: bool
    var storedToken: Option<string>

    /** Mounting the provider: no user yet, loading, whatever token the browser already holds. */
    constructor (stored: Option<string>)
      ensures user == None && loading && storedToken == stored
    {
      user := None;
      loading := true;
      storedToken := stored;
    }

    /** A request sent now: it carries the Bearer form of the currently stored token. */
    function Send(call: ApiClient.Call): (r: Request)
      reads this
      ensures r.call == call
      ensures r.authorization.Some? <==> Text.Truthy(storedToken)
      ensures r.authorization.Some? ==> ApiClient.ParseBearer(r.authorization.value) == Some(storedToken.value)
    {
      Request(call, ApiClient.AuthorizationFor(storedToken))
    }

    /**
     * The start-up check. No truthy token: nothing is fetched and the user
     * stays as it is. A token whose profile fetch fails is removed and the
     * user cleared; a fetch that succeeds with `null` data keeps the token and
     * leaves no user. Either way loading ends.
     */
    method CheckUser(me: Reply<ProfileData>) returns (sent: seq<Request>)
      modifies this
      ensures !loading
      ensures !Text.Truthy(old(storedToken)) ==>
                sent == [] && user == old(user) && storedToken == old(storedToken)
      ensures Text.Truthy(old(storedToken)) ==>
                sent == [Request(ApiClient.Get("/users/me"), ApiClient.AuthorizationFor(old(storedToken)))]
      ensures Text.Truthy(old(storedToken)) && me.Fulfilled? ==>
                user == me.value && storedToken == old(storedToken)
      ensures Text.Truthy(old(storedToken)) && me.Rejected? ==>
                user == None && storedToken == None
    {
      sent := [];
      if Text.Truthy(storedToken) {
        sent := [Send(ApiClient.Get("/users/me"))];
        match me {
          case Fulfilled(data) => user := data;
          case Rejected(_) =>
            storedToken := None;
            user := None;
        }
      }
      loading := false;
    }

    /**
     * What `login` and `signup` share: post the credentials; on success
     * store the returned token, then fetch the profile with it and make it
     * the user (none, when the data is `null`). A failed post changes
     * nothing and is passed on; a failed profile fetch keeps the new token
     * and leaves the user as it was.
     */
    method Authenticate(post: ApiClient.Call, reply: Reply<string>, me: Reply<ProfileData>)
      returns (result: Reply<ProfileData>, sent: seq<Request>)
      modifies this
      ensures loading == old(loading)
      ensures |sent| >= 1 && sent[0] == Request(post, ApiClient.AuthorizationFor(old(storedToken)))
      ensures reply.Rejected? ==>
                && result == ApiClient.Rejected(reply.reason) && |sent| == 1
                && user == old(user) && storedToken == old(storedToken)
      ensures reply.Fulfilled? ==>
                && storedToken == Some(reply.value)
                && sent == [sent[0], Request(ApiClient.Get("/users/me"), ApiClient.AuthorizationFor(Some(reply.value)))]
                && result == me
                && user == (if me.Fulfilled? then me.value else old(user))
    {
      sent := [Send(post)];
      match reply {
        case Rejected(error) =>
          result := ApiClient.Rejected(error);
        case Fulfilled(token) =>
          storedToken := Some(token);
          sent := sent + [Send(ApiClient.Get("/users/me"))];
          if me.Fulfilled? {
            user := me.value;
          }
          result := me;
      }
    }

    /** `login(email, password)`. */
    method Login(email: string, password: string, reply: Reply<string>, me: Reply<ProfileData>)
      returns (result: Reply<ProfileData>, sent: seq<Request>)
      modifies this
      ensures loading == old(loading)
      ensures |sent| >= 1
      ensures sent[0] == Request(ApiClient.Post("/auth/login", map["email" := email, "password" := password]),
                                 ApiClient.AuthorizationFor(old(storedToken)))
      ensures reply.Rejected? ==>
                && result == ApiClient.Rejected(reply.reason) && |sent| == 1
                && user == old(user) && storedToken == old(storedToken)
      ensures reply.Fulfilled? ==>
                && storedToken == Some(reply.value)
                && |sent| == 2
                && sent[1] == Request(ApiClient.Get("/users/me"), ApiClient.AuthorizationFor(Some(reply.value)))
                && result == me
                && user == (if me.Fulfilled? then me.value else old(user))
    {
      result, sent := Authenticate(ApiClient.Post("/auth/login", map["email" := email, "password" := password]), reply, me);
    }

    /** `signup(userData)`. */
    method Signup(userData: map<string, string>, reply: Reply<string>, me: Reply<ProfileData>)
      returns (result: Reply<ProfileData>, sent: seq<Request>)
      modifies this
      ensures loading == old(loading)
      ensures |sent| >= 1
      ensures sent[0] == Request(ApiClient.Post("/auth/signup", userData), ApiClient.AuthorizationFor(old(storedToken)))
      ensures reply.Rejected? ==>
                && result == ApiClient.Rejected(reply.reason) && |sent| == 1
                && user == old(user) && storedToken == old(storedToken)
      ensures reply.Fulfilled? ==>
                && storedToken == Some(reply.value)
                && |sent| == 2
                && sent[1] == Request(ApiClient.Get("/users/me"), ApiClient.AuthorizationFor(Some(reply.value)))
                && result == me
                && user == (if me.Fulfilled? then me.value else old(user))
    {
      result, sent := Authenticate(ApiClient.Post("/auth/signup", userData), reply, me);
    }

    /** `logout()`: the token is removed and the user cleared; later requests carry no credentials. */
    method Logout()
      modifies this
      ensures storedToken == None && user == None && loading == old(loading)
      ensures ApiClient.AuthorizationFor(storedToken) == None
    {
      storedToken := None;
      user := None;
    }

    /**
     * `updateUser(userData)`: the user becomes the server's returned record
     * (none, when the data is `null`); the token is untouched.
     */
    method UpdateUser(userData: map<string, string>, reply: Reply<ProfileData>)
      returns (result: Reply<ProfileData>, sent: seq<Request>)
      modifies this`user
      ensures sent == [Request(ApiClient.Put("/users/me", userData), ApiClient.AuthorizationFor(storedToken))]
      ensures result == reply
      ensures user == (if reply.Fulfilled? then reply.value else old(user))
    {
      sent := [Send(ApiClient.Put("/users/me", userData))];
      if reply.Fulfilled? {
        user := reply.value;
      }
      result := reply;
    }
  }
}
