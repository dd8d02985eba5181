/**
 * The front end's session state: who is signed in (`user`) and whether the
 * start-up check is still running (`loading`), with the start-up, login,
 * register and logout transitions. The calls to the back end go through the
 * HTTP client, so a 401 on them takes the client's refresh path first.
 */
module AuthContext {
  import opened Common
  import opened ApiClient

  datatype User = User(id: int, username: string, email: string, role: string,
                       firstName: string, lastName: string)

  /** The body of a successful login or registration. */
  datatype Session = Session(access: string, refresh: string, user: User)

  /** The login request body: the two credentials and nothing else. */
  function LoginBody(username: string, password: string): (d: map<string, string>)
    ensures d.Keys == {"username", "password"}
    ensures d["username"] == username && d["password"] == password
  {
    map["username" := username, "password" := password]
  }

  /** The registration form; the two names are optional and left out of the body when absent. */
  datatype Registration = Registration(username: string, email: string, password: string, password2: string,
                                       role: string, firstName: Option<string>, lastName: Option<string>)

  /** The register request body: the form's fields under their wire names. */
  function RegisterBody(form: Registration): (d: map<string, string>)
    ensures {"username", "email", "password", "password2", "role"} <= d.Keys
    ensures d["username"] == form.username && d["email"] == form.email && d["password"] == form.password
    ensures d["password2"] == form.password2 && d["role"] == form.role
    ensures ("first_name" in d <==> form.firstName.Some?) && ("last_name" in d <==> form.lastName.Some?)
    ensures form.firstName.Some? ==> d["first_name"] == form.firstName.value
    ensures form.lastName.Some? ==> d["last_name"] == form.lastName.value
    ensures d.Keys <= {"username", "email", "password", "password2", "role", "first_name", "last_name"}
  {
    var required := map["username" := form.username, "email" := form.email, "password" := form.password,
                         "password2" := form.password2, "role" := form.role];
    var withFirst := if form.firstName.Some? then required["first_name" := form.firstName.value] else required;
    if form.lastName.Some? then withFirst["last_name" := form.lastName.value] else withFirst
  }

  /** The start-up profile request. */
  const ProfileRequest := Config("GET", "/auth/profile/", map[], None, false)

  class AuthProvider {
    const storage: Storage
    var user: Option<User>
    var loading: bool

    /** The state before the start-up effect runs. */
    constructor (storage: Storage)
      ensures this.storage == storage && user == None && loading
    {
      this.storage := storage;
      user, loading := None, true;
    }

    /** `isAuthenticated` is `!!user`. */
    predicate IsAuthenticated()
      reads this
    {
      user.Some?
    }

    /**
     * The start-up effect: with a stored access token, ask for the profile;
     * on success it becomes the user, on failure both tokens are removed.
     * Loading ends in every case.
     */
    method InitAuth(client: Client, server: Config -> Reply, refresher: string -> RefreshReply,
                    decode: string -> User)
      requires client.storage == storage
      modifies this, client, storage
      ensures !loading
      ensures !Present(old(storage.access)) ==>
        user == old(user) && storage.access == old(storage.access) &&
        storage.refresh == old(storage.refresh) && client.traffic == old(client.traffic) &&
        client.location == old(client.location)
      ensures Present(old(storage.access)) ==>
        var x := Dispatch(old(storage.access), old(storage.refresh), old(client.location),
                          ProfileRequest, server, refresher);
        && client.traffic == old(client.traffic) + x.traffic
        && client.location == x.location
        && (x.outcome.Resolved? ==>
              user == Some(decode(x.outcome.body)) &&
              storage.access == x.access && storage.refresh == x.refresh)
        && (x.outcome.Rejected? ==>
              user == old(user) && storage.access == None && storage.refresh == None)
    {
      var token := storage.access;
      if token.Some? && token.value != "" {
        var outcome := client.Request(ProfileRequest, server, refresher);
        if outcome.Resolved? {
          user := Some(decode(outcome.body));
        } else {
          storage.access := None;
          storage.refresh := None;
        }
      }
      loading := false;
    }

    /**
     * Shared by login and register: post `data` to `path`, then store both
     * tokens and the user. The first call sent carries `data`.
     */
    method SignIn(client: Client, path: string, data: map<string, string>, server: Config -> Reply,
                  refresher: string -> RefreshReply, decode: string -> Session)
      returns (ok: bool)
      requires client.storage == storage
      modifies this, client, storage
      ensures loading == old(loading)
      ensures |client.traffic| > |old(client.traffic)|
      ensures client.traffic[|old(client.traffic)|] ==
              ApiCall(Authorize(Config("POST", path, data, None, false), old(storage.access)))
      ensures var x := Dispatch(old(storage.access), old(storage.refresh), old(client.location),
                                Config("POST", path, data, None, false), server, refresher);
        && ok == x.outcome.Resolved?
        && client.traffic == old(client.traffic) + x.traffic
        && client.location == x.location
        && (ok ==> var s := decode(x.outcome.body);
              storage.access == Some(s.access) && storage.refresh == Some(s.refresh) && user == Some(s.user))
        && (!ok ==> user == old(user) && storage.access == x.access && storage.refresh == x.refresh)
    {
      ghost var access, refresh, location := storage.access, storage.refresh, client.location;
      var config := Config("POST", path, data, None, false);
      AtMostOneRefresh(access, refresh, location, config, server, refresher);
      var outcome := client.Request(config, server, refresher);
      if outcome.Rejected? {
        return false;
      }
      var session := decode(outcome.body);
      storage.access := Some(session.access);
      storage.refresh := Some(session.refresh);
      user := Some(session.user);
      return true;
    }

    /**
     * login: posts the two credentials; on success both tokens and the user
     * come from the response; if the call throws, login writes nothing.
     */
    method Login(client: Client, username: string, password: string, server: Config -> Reply,
                 refresher: string -> RefreshReply, decode: string -> Session)
      returns (ok: bool)
      requires client.storage == storage
      modifies this, client, storage
      ensures loading == old(loading)
      ensures |client.traffic| > |old(client.traffic)|
      ensures client.traffic[|old(client.traffic)|] ==
              ApiCall(Authorize(Config("POST", "/auth/login/", LoginBody(username, password), None, false),
                                old(storage.access)))
      ensures var x := Dispatch(old(storage.access), old(storage.refresh), old(client.location),
                                Config("POST", "/auth/login/", LoginBody(username, password), None, false),
                                server, refresher);
        && ok == x.outcome.Resolved?
        && client.traffic == old(client.traffic) + x.traffic
        && client.location == x.location
        && (ok ==> var s := decode(x.outcome.body);
              storage.access == Some(s.access) && storage.refresh == Some(s.refresh) && user == Some(s.user))
        && (!ok ==> user == old(user) && storage.access == x.access && storage.refresh == x.refresh)
    {
      ok := SignIn(client, "/auth/login/", LoginBody(username, password), server, refresher, decode);
    }

    /** register: posts the form; the same post-state as login, from the registration response. */
    method Register(client: Client, form: Registration, server: Config -> Reply,
                    refresher: string -> RefreshReply, decode: string -> Session)
      returns (ok: bool)
      requires client.storage == storage
      modifies this, client, storage
      ensures loading == old(loading)
      ensures |client.traffic| > |old(client.traffic)|
      ensures client.traffic[|old(client.traffic)|] ==
              ApiCall(Authorize(Config("POST", "/auth/register/", RegisterBody(form), None, false),
                                old(storage.access)))
      ensures var x := Dispatch(old(storage.access), old(storage.refresh), old(client.location),
                                Config("POST", "/auth/register/", RegisterBody(form), None, false),
                                server, refresher);
        && ok == x.outcome.Resolved?
        && client.traffic == old(client.traffic) + x.traffic
        && client.location == x.location
        && (ok ==> var s := decode(x.outcome.body);
              storage.access == Some(s.access) && storage.refresh == Some(s.refresh) && user == Some(s.user))
        && (!ok ==> user == old(user) && storage.access == x.access && storage.refresh == x.refresh)
    {
      ok := SignIn(client, "/auth/register/", RegisterBody(form), server, refresher, decode);
    }

    /** logout: both tokens removed and the user cleared, without calling the back end. */
    method Logout()
      modifies this, storage
      ensures storage.access == None && storage.refresh == None
      ensures user == None && !IsAuthenticated() && loading == old(loading)
    {
      storage.access := None;
      storage.refresh := None;
      user := None;
    }
  }
}
