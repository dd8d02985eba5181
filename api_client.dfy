/**
 * The front end's HTTP client: an outbound step that attaches the stored
 * access token as a bearer credential (section 2.1 of RFC 6750), an inbound
 * step that answers a first 401 with one token refresh and one retry, and the
 * query/body parameters the domain calls build.
 *
 * The browser's `localStorage` is the `Storage` object (two optional keys),
 * `window.location.href` is a field of the client, and the network is two
 * oracles: `server` answers an API request, `refresher` answers the bare
 * POST to `/auth/token/refresh/`.
 */
module ApiClient {
  import opened Common

  /** The two credential keys the browser keeps. */
  class Storage {
    var access: Option<string>   // "access_token"
    var refresh: Option<string>  // "refresh_token"

    constructor ()
      ensures access == None && refresh == None
    {
      access, refresh := None, None;
    }
  }

  /** `localStorage.getItem(k)` is truthy: stored and not the empty string. */
  predicate Present(t: Option<string>) {
    t.Some? && t.value != ""
  }

  /**
   * One request as axios carries it: its JSON body as field names and values
   * (`map[]` when it has none), and `_retry`, the flag the inbound step sets.
   */
  datatype Config = Config(verb: string, path: string, data: map<string, string>, authorization: Option<string>,
                           retry: bool)

  datatype Reply =
    | Success(body: string)
    | HttpError(status: int, body: string)
    | NetworkError(message: string)

  datatype RefreshReply = Renewed(access: string) | RefreshThrew(reason: string)

  datatype Failure =
    | RequestFailed(reply: Reply)    // the error of the request itself
    | RefreshFailed(reason: string)  // the error of the refresh call

  datatype Outcome = Resolved(body: string) | Rejected(failure: Failure)

  /** What leaves the browser, in order. */
  datatype Sent = ApiCall(config: Config) | RefreshCall(refresh: string)

  /** The outbound step: a stored token becomes `Authorization: Bearer <token>`; otherwise the header is left as it is. */
  function Authorize(config: Config, access: Option<string>): (r: Config)
    ensures Present(access) ==> r.authorization == Some("Bearer " + access.value)
    ensures !Present(access) ==> r.authorization == config.authorization
    ensures r.verb == config.verb && r.path == config.path && r.data == config.data && r.retry == config.retry
  {
    if Present(access) then config.(authorization := Some("Bearer " + access.value)) else config
  }

  function Settle(reply: Reply): Outcome {
    if reply.Success? then Resolved(reply.body) else Rejected(RequestFailed(reply))
  }

  predicate IsUnauthorized(reply: Reply) {
    reply.HttpError? && reply.status == 401
  }

  /** The end state of one call through the client. */
  datatype Exchange = Exchange(outcome: Outcome, access: Option<string>, refresh: Option<string>,
                               location: string, traffic: seq<Sent>)

  /** One call, from the stored credentials and location before it to everything after it. */
  function Dispatch(access: Option<string>, refresh: Option<string>, location: string, config: Config,
                    server: Config -> Reply, refresher: string -> RefreshReply): Exchange
    decreases if config.retry then 0 else 1
  {
    var sent := Authorize(config, access);
    var reply := server(sent);
    if !IsUnauthorized(reply) || sent.retry then
      Exchange(Settle(reply), access, refresh, location, [ApiCall(sent)])
    else if !Present(refresh) then
      Exchange(Rejected(RequestFailed(reply)), access, refresh, location, [ApiCall(sent)])
    else
      match refresher(refresh.value)
      case RefreshThrew(reason) =>
        Exchange(Rejected(RefreshFailed(reason)), None, None, "/login",
                 [ApiCall(sent), RefreshCall(refresh.value)])
      case Renewed(newAccess) =>
        var again := sent.(retry := true, authorization := Some("Bearer " + newAccess));
        var rest := Dispatch(Some(newAccess), refresh, location, again, server, refresher);
        rest.(traffic := [ApiCall(sent), RefreshCall(refresh.value)] + rest.traffic)
  }

  class Client {
    const storage: Storage
    var location: string   // window.location.href
    var traffic: seq<Sent>

    constructor (storage: Storage, location: string)
      ensures this.storage == storage && this.location == location && traffic == []
    {
      this.storage := storage;
      this.location := location;
      traffic := [];
    }

    /** One pass through the outbound step and the wire. */
    method Send(config: Config, server: Config -> Reply) returns (sent: Config, reply: Reply)
      modifies this
      ensures sent == Authorize(config, storage.access) && reply == server(sent)
      ensures traffic == old(traffic) + [ApiCall(sent)] && location == old(location)
    {
      sent := config;
      var token := storage.access;
      if token.Some? && token.value != "" {
        sent := sent.(authorization := Some("Bearer " + token.value));
      }
      traffic := traffic + [ApiCall(sent)];
      reply := server(sent);
    }

    /** A request with the inbound step: refresh once on a first 401, then re-send. */
    method Request(config: Config, server: Config -> Reply, refresher: string -> RefreshReply)
      returns (outcome: Outcome)
      modifies this, storage
      decreases if config.retry then 0 else 1
      ensures var x := Dispatch(old(storage.access), old(storage.refresh), old(location), config, server, refresher);
        && outcome == x.outcome
        && storage.access == x.access && storage.refresh == x.refresh
        && location == x.location
        && traffic == old(traffic) + x.traffic
    {
      var sent, reply := Send(config, server);
      if !(reply.HttpError? && reply.status == 401) || sent.retry {
        return Settle(reply);
      }
      var marked := sent.(retry := true);
      var refresh := storage.refresh;
      if refresh.Some? && refresh.value != "" {
        traffic := traffic + [RefreshCall(refresh.value)];
        var answer := refresher(refresh.value);
        match answer {
          case RefreshThrew(reason) =>
            storage.access := None;
            storage.refresh := None;
            location := "/login";
            return Rejected(RefreshFailed(reason));
          case Renewed(newAccess) =>
            storage.access := Some(newAccess);
            marked := marked.(authorization := Some("Bearer " + newAccess));
            outcome := Request(marked, server, refresher);
            return;
        }
      }
      return Rejected(RequestFailed(reply));
    }
  }

  // ---------------------------------------------------------------------------
  // Properties of the refresh-on-401 machine
  // ---------------------------------------------------------------------------

  function CountRefreshes(traffic: seq<Sent>): nat {
    if traffic == [] then 0
    else (if traffic[0].RefreshCall? then 1 else 0) + CountRefreshes(traffic[1..])
  }

  function CountApiCalls(traffic: seq<Sent>): nat {
    if traffic == [] then 0
    else (if traffic[0].ApiCall? then 1 else 0) + CountApiCalls(traffic[1..])
  }

  /**
   * One call first sends the request as authorised, sends it at most twice in
   * all and refreshes at most once; a second send always follows a refresh.
   */
  lemma AtMostOneRefresh(access: Option<string>, refresh: Option<string>, location: string, config: Config,
                         server: Config -> Reply, refresher: string -> RefreshReply)
    ensures var x := Dispatch(access, refresh, location, config, server, refresher);
      && |x.traffic| >= 1 && x.traffic[0] == ApiCall(Authorize(config, access))
      && |x.traffic| == CountApiCalls(x.traffic) + CountRefreshes(x.traffic)
      && 1 <= CountApiCalls(x.traffic) <= 2 && CountRefreshes(x.traffic) <= 1
      && (CountApiCalls(x.traffic) == 2 ==> CountRefreshes(x.traffic) == 1 && x.traffic[1].RefreshCall?)
  {
    var x := Dispatch(access, refresh, location, config, server, refresher);
    var sent := Authorize(config, access);
    if IsUnauthorized(server(sent)) && !sent.retry && Present(refresh) && refresher(refresh.value).Renewed? {
      var newAccess := refresher(refresh.value).access;
      var again := sent.(retry := true, authorization := Some("Bearer " + newAccess));
      var rest := Dispatch(Some(newAccess), refresh, location, again, server, refresher);
      assert |rest.traffic| == 1 && rest.traffic[0].ApiCall?;
      var t := [ApiCall(sent), RefreshCall(refresh.value), rest.traffic[0]];
      assert x.traffic == t;
      assert t[1..] == [RefreshCall(refresh.value), rest.traffic[0]] && t[1..][1..] == [rest.traffic[0]];
      assert t[1..][1..][1..] == [];
      assert CountRefreshes(t) == 1 && CountApiCalls(t) == 2;
    } else if !IsUnauthorized(server(sent)) || sent.retry || !Present(refresh) {
      assert x.traffic == [ApiCall(sent)];
      assert x.traffic[1..] == [];
    } else {
      assert x.traffic == [ApiCall(sent), RefreshCall(refresh.value)];
      assert x.traffic[1..] == [RefreshCall(refresh.value)] && x.traffic[1..][1..] == [];
      assert CountRefreshes(x.traffic) == CountRefreshes(x.traffic[1..]) == 1;
      assert CountApiCalls(x.traffic) == 1 + CountApiCalls(x.traffic[1..]) == 1;
    }
  }

  /** A reply other than a 401, or any reply to a request already retried, settles the call; nothing else changes. */
  lemma SettledUntouched(access: Option<string>, refresh: Option<string>, location: string, config: Config,
                         server: Config -> Reply, refresher: string -> RefreshReply)
    requires var reply := server(Authorize(config, access)); !IsUnauthorized(reply) || config.retry
    ensures var x := Dispatch(access, refresh, location, config, server, refresher);
      && x.outcome == Settle(server(Authorize(config, access)))
      && x.access == access && x.refresh == refresh && x.location == location
      && x.traffic == [ApiCall(Authorize(config, access))]
  {
  }

  /** A first 401 without a stored refresh token is rejected as it is: nothing cleared, no navigation. */
  lemma NoRefreshTokenRejects(access: Option<string>, refresh: Option<string>, location: string, config: Config,
                              server: Config -> Reply, refresher: string -> RefreshReply)
    requires !config.retry && IsUnauthorized(server(Authorize(config, access))) && !Present(refresh)
    ensures var x := Dispatch(access, refresh, location, config, server, refresher);
      && x.outcome == Rejected(RequestFailed(server(Authorize(config, access))))
      && x.access == access && x.refresh == refresh && x.location == location
      && x.traffic == [ApiCall(Authorize(config, access))]
  {
  }

  /** A refresh that throws wipes both tokens, goes to /login and rejects with the refresh error. */
  lemma RefreshFailureWipes(access: Option<string>, refresh: Option<string>, location: string, config: Config,
                            server: Config -> Reply, refresher: string -> RefreshReply)
    requires !config.retry && IsUnauthorized(server(Authorize(config, access))) && Present(refresh)
    requires refresher(refresh.value).RefreshThrew?
    ensures var x := Dispatch(access, refresh, location, config, server, refresher);
      && x.outcome == Rejected(RefreshFailed(refresher(refresh.value).reason))
      && x.access == None && x.refresh == None && x.location == "/login"
      && x.traffic == [ApiCall(Authorize(config, access)), RefreshCall(refresh.value)]
  {
  }

  /**
   * A successful refresh stores the new access token, keeps the refresh token,
   * and re-sends the request once with the new bearer; whatever that second
   * send yields is final, and the tokens survive even its failure.
   */
  lemma RenewedRetriesOnce(access: Option<string>, refresh: Option<string>, location: string, config: Config,
                           server: Config -> Reply, refresher: string -> RefreshReply)
    requires !config.retry && IsUnauthorized(server(Authorize(config, access))) && Present(refresh)
    requires refresher(refresh.value).Renewed?
    ensures var newAccess := refresher(refresh.value).access;
      var x := Dispatch(access, refresh, location, config, server, refresher);
      && x.access == Some(newAccess) && x.refresh == refresh && x.location == location
      && x.traffic == [ApiCall(Authorize(config, access)), RefreshCall(refresh.value),
                       ApiCall(config.(authorization := Some("Bearer " + newAccess), retry := true))]
      && x.outcome == Settle(server(config.(authorization := Some("Bearer " + newAccess), retry := true)))
  {
  }

  /** The login endpoint has no exemption: a first 401 there with a refresh token still refreshes. */
  lemma LoginNotExempt(access: Option<string>, refresh: Option<string>, location: string, config: Config,
                       server: Config -> Reply, refresher: string -> RefreshReply)
    requires config.path == "/auth/login/" || config.path == "/auth/register/"
    requires !config.retry && IsUnauthorized(server(Authorize(config, access))) && Present(refresh)
    ensures RefreshCall(refresh.value) in Dispatch(access, refresh, location, config, server, refresher).traffic
  {
    var x := Dispatch(access, refresh, location, config, server, refresher);
    assert x.traffic[1] == RefreshCall(refresh.value);
  }

  // ---------------------------------------------------------------------------
  // Parameters built by the domain calls
  // ---------------------------------------------------------------------------

  /** The optional id parameter of getTasks, getMySubmissions and getClassSubmissions. */
  function IdQuery(name: string, id: Option<int>): (params: map<string, string>)
    ensures name in params <==> TruthyId(id)
    ensures name in params ==> params[name] == IntToString(id.value) && ParseInt(params[name]) == id
    ensures params.Keys <= {name}
  {
    if TruthyId(id) then
      ParseIntOfIntToString(id.value);
      map[name := IntToString(id.value)]
    else map[]
  }

  /** getTasks: `class_id` only when a class is chosen. */
  function TasksQuery(classId: Option<int>): map<string, string> {
    IdQuery("class_id", classId)
  }

  /** getMySubmissions and getClassSubmissions: `task_id` only when a task is chosen. */
  function SubmissionsQuery(taskId: Option<int>): map<string, string> {
    IdQuery("task_id", taskId)
  }

  /** createInvitationCode's body: `max_uses` is `maxUses || 0`. */
  function InvitationMaxUses(maxUses: Option<int>): (r: int)
    ensures TruthyId(maxUses) ==> r == maxUses.value
    ensures !TruthyId(maxUses) ==> r == 0
  {
    if maxUses.Some? && maxUses.value != 0 then maxUses.value else 0
  }

  /** exportGrades: builds its parameter object by successive assignments. */
  method ExportQuery(classId: Option<int>, taskId: Option<int>, format: Option<string>)
    returns (params: map<string, string>, responseType: string)
    ensures "format" in params && params["format"] == format.GetOr("excel")
    ensures "class_id" in params <==> TruthyId(classId)
    ensures "task_id" in params <==> TruthyId(taskId)
    ensures "class_id" in params ==> ParseInt(params["class_id"]) == classId
    ensures "task_id" in params ==> ParseInt(params["task_id"]) == taskId
    ensures params.Keys <= {"format", "class_id", "task_id"}
    ensures responseType == "blob"
  {
    params := map["format" := format.GetOr("excel")];
    if classId.Some? && classId.value != 0 {
      params := params["class_id" := IntToString(classId.value)];
      ParseIntOfIntToString(classId.value);
    }
    if taskId.Some? && taskId.value != 0 {
      params := params["task_id" := IntToString(taskId.value)];
      ParseIntOfIntToString(taskId.value);
    }
    responseType := "blob";
  }
}
