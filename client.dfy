/** The OneLogin API client: one request per call, with the backend as an abstract server
    that answers each request the client builds. */
module OneLogin {
  import opened Outcomes
  import opened Models
  import opened Request
  import opened Decimal

  datatype HttpMethod = Get | Post | Delete

  /** The API resources the client addresses. */
  datatype Endpoint =
    | Users
    | UserById(userId: string)
    | Roles
    | RoleUsers(roleId: string)
    | RoleAdmins(roleId: string)
    | RoleApps(roleId: string)
    | Apps
    | AppUsers(appId: string)
    | Groups
    | Connectors

  function BaseUrl(subdomain: string): string {
    "https://" + subdomain + ".onelogin.com/"
  }

  /** The URL of an endpoint on the tenant's subdomain (v2 API, except the v1 groups list). */
  function Url(subdomain: string, e: Endpoint): (url: string)
    ensures |BaseUrl(subdomain)| <= |url| && url[..|BaseUrl(subdomain)|] == BaseUrl(subdomain)
  {
    var v1 := BaseUrl(subdomain) + "api/1/";
    var v2 := BaseUrl(subdomain) + "api/2/";
    match e
    case Users => v2 + "users"
    case UserById(id) => v2 + "users" + "/" + id
    case Roles => v2 + "roles"
    case RoleUsers(id) => v2 + "roles/" + id + "/users"
    case RoleAdmins(id) => v2 + "roles/" + id + "/admins"
    case RoleApps(id) => v2 + "roles/" + id + "/apps"
    case Apps => v2 + "apps"
    case AppUsers(id) => v2 + "apps/" + id + "/users"
    case Groups => v1 + "groups"
    case Connectors => v2 + "connectors"
  }

  function TokenUrl(subdomain: string): string {
    BaseUrl(subdomain) + "auth/oauth2/v2/token"
  }

  /** What the client sends: the JSON payload, when there is one, is an array of strings. */
  datatype HttpRequest = HttpRequest(
    verb: HttpMethod,
    url: string,
    query: Params,
    payload: Option<seq<string>>,
    authorization: string)

  datatype TokenRequest = TokenRequest(url: string, authorization: string, body: GrantBody)

  /** What comes back: the exchange failed, or a status, the `after-cursor` header if present,
      and the body decoded into the expected shape (None: it does not decode). */
  datatype HttpResponse<T> =
    | TransportFailure
    | Response(status: int, afterCursor: Option<string>, body: Option<T>)

  /** The backend, one answer function per decoded body shape. */
  datatype Server = Server(
    users: HttpRequest -> HttpResponse<seq<User>>,                // user lists and app users
    user: HttpRequest -> HttpResponse<User>,                      // one user's details
    apps: HttpRequest -> HttpResponse<seq<App>>,                  // app lists and role apps
    groups: HttpRequest -> HttpResponse<GroupsBody>,              // the v1 groups envelope
    roles: HttpRequest -> HttpResponse<seq<Role>>,
    roleMembers: HttpRequest -> HttpResponse<seq<UserUnderRole>>, // role users and role admins
    plain: HttpRequest -> HttpResponse<seq<BaseResource>>,        // writes and the scope probe
    tokens: TokenRequest -> HttpResponse<Credentials>)

  /** The client holds the access token obtained once, at construction. */
  datatype Client = Client(server: Server, token: string, subdomain: string)

  datatype Reply<T> = Reply(body: Option<T>, nextCursor: string)

  /** `Header.Get`: the empty string when the header is absent. */
  function HeaderCursor(h: Option<string>): string {
    match h
    case Some(v) => v
    case None => ""
  }

  /** The request doRequest sends: the query holds every argument's keys, set in order. */
  function BuildRequest(c: Client, verb: HttpMethod, e: Endpoint, payload: Option<seq<string>>, opts: seq<QueryParam>): (req: HttpRequest)
    ensures req.verb == verb && req.url == Url(c.subdomain, e) && req.payload == payload
    ensures req.query == ApplyAll(opts, map[])
    ensures req.authorization == "Bearer " + c.token
  {
    HttpRequest(verb, Url(c.subdomain, e), ApplyAll(opts, map[]), payload, "Bearer " + c.token)
  }

  /** The loop of doRequest that fills one set of query values from the arguments. */
  method EncodeQuery(opts: seq<QueryParam>) returns (q: Params)
    ensures q == ApplyAll(opts, map[])
  {
    var params := new QueryValues();
    var i := 0;
    while i < |opts|
      invariant 0 <= i <= |opts|
      invariant ApplyAll(opts[i..], params.values) == ApplyAll(opts, map[])
    {
      assert opts[i..][1..] == opts[i + 1..];
      opts[i].Setup(params);
      i := i + 1;
    }
    assert opts[i..] == [];
    q := params.values;
  }

  /** What doRequest makes of the response. */
  function Receive<T>(verb: HttpMethod, resp: HttpResponse<T>): (r: Result<Reply<T>>)
    ensures resp.TransportFailure? ==> r == Failure(TransportError)
    // any status of 300 or more is a failure carrying that status
    ensures resp.Response? && resp.status >= 300 ==> r == Failure(StatusError(resp.status))
    // DELETE never decodes: its outcome depends on the status alone
    ensures verb == Delete ==> (r.Success? <==> resp.Response? && resp.status < 300)
    ensures verb == Delete && r.Success? ==> r.value.body == None
    ensures verb != Delete ==> (r.Success? <==> resp.Response? && resp.status < 300 && resp.body.Some?)
    ensures verb != Delete && r.Success? ==> r.value.body == resp.body
    // the next cursor is the after-cursor header, or "" without one
    ensures r.Success? ==> r.value.nextCursor == HeaderCursor(resp.afterCursor)
  {
    match resp
    case TransportFailure => Failure(TransportError)
    case Response(status, afterCursor, body) =>
      if status >= 300 then Failure(StatusError(status))
      else if verb != Delete && body.None? then Failure(DecodeError)
      else Success(Reply(if verb == Delete then None else body, HeaderCursor(afterCursor)))
  }

  function DoRequest<T>(c: Client, verb: HttpMethod, e: Endpoint, exchange: HttpRequest -> HttpResponse<T>,
                        payload: Option<seq<string>>, opts: seq<QueryParam>): Result<Reply<T>>
  {
    Receive(verb, exchange(BuildRequest(c, verb, e, payload, opts)))
  }

  /** A page of a header-cursor endpoint: the items and the after-cursor header, or the failure. */
  ghost predicate HeaderPage<T>(resp: HttpResponse<T>, r: Result<(T, string)>) {
    match resp
    case TransportFailure => r == Failure(TransportError)
    case Response(status, afterCursor, body) =>
      if status >= 300 then r == Failure(StatusError(status))
      else if body.None? then r == Failure(DecodeError)
      else r == Success((body.value, HeaderCursor(afterCursor)))
  }

  /** A GET page: the decoded items with the next cursor. */
  function GetPage<T>(c: Client, e: Endpoint, exchange: HttpRequest -> HttpResponse<T>, opts: seq<QueryParam>): (r: Result<(T, string)>)
    ensures HeaderPage(exchange(BuildRequest(c, Get, e, None, opts)), r)
  {
    var reply :- DoRequest(c, Get, e, exchange, None, opts);
    Success((reply.body.value, reply.nextCursor))
  }

  /** The arguments of a user listing: pagination, then the field selection, then the group. */
  function UsersQuery(pv: PaginationVars, groupId: string): seq<QueryParam> {
    [PaginationParam(pv), FilterParam(UserFilters()), FilterParam(GroupUsersFilters(groupId))]
  }

  /** The query of a user listing: the pagination keys, all seven user fields, and the group
      only when one is given. */
  lemma UsersQueryKeys(pv: PaginationVars, groupId: string)
    ensures var q := ApplyAll(UsersQuery(pv, groupId), map[]);
      && WrittenAt(map[], q, "limit", pv.limit != 0 && pv.cursor == "", Itoa(pv.limit))
      && WrittenAt(map[], q, "cursor", pv.cursor != "", pv.cursor)
      && WrittenAt(map[], q, "after_cursor", pv.v1Cursor != "", pv.v1Cursor)
      && "fields" in q && q["fields"] == Join(UserFields, ",")
      && WrittenAt(map[], q, "group_id", groupId != "", groupId)
      && q.Keys <= PaginationKeys + FilterKeys
  {
    var opts := UsersQuery(pv, groupId);
    var q1 := pv.AppliedTo(map[]);
    var q2 := UserFilters().AppliedTo(q1);
    var q3 := GroupUsersFilters(groupId).AppliedTo(q2);
    assert opts[1..] == [FilterParam(UserFilters()), FilterParam(GroupUsersFilters(groupId))];
    assert opts[1..][1..] == [FilterParam(GroupUsersFilters(groupId))];
    assert opts[1..][1..][1..] == [];
    calc {
      ApplyAll(opts, map[]);
      ApplyAll(opts[1..], q1);
      ApplyAll(opts[1..][1..], q2);
      ApplyAll(opts[1..][1..][1..], q3);
      q3;
    }
  }

  function GetUsers(c: Client, pv: PaginationVars, groupId: string): (r: Result<(seq<User>, string)>)
    ensures HeaderPage(c.server.users(BuildRequest(c, Get, Users, None, UsersQuery(pv, groupId))), r)
  {
    GetPage(c, Users, c.server.users, UsersQuery(pv, groupId))
  }

  function GetUserById(c: Client, userId: int): (r: Result<User>)
    ensures var resp := c.server.user(BuildRequest(c, Get, UserById(Itoa(userId)), None, []));
      r.Success? <==> resp.Response? && resp.status < 300 && resp.body.Some?
    ensures r.Success? ==> c.server.user(BuildRequest(c, Get, UserById(Itoa(userId)), None, [])).body == Some(r.value)
  {
    var reply :- DoRequest(c, Get, UserById(Itoa(userId)), c.server.user, None, []);
    Success(reply.body.value)
  }

  function GetApps(c: Client, pv: PaginationVars): (r: Result<(seq<App>, string)>)
    ensures HeaderPage(c.server.apps(BuildRequest(c, Get, Apps, None, [PaginationParam(pv)])), r)
  {
    GetPage(c, Apps, c.server.apps, [PaginationParam(pv)])
  }

  function GetAppUsers(c: Client, appId: string, pv: PaginationVars): (r: Result<(seq<User>, string)>)
    ensures HeaderPage(c.server.users(BuildRequest(c, Get, AppUsers(appId), None, [PaginationParam(pv)])), r)
  {
    GetPage(c, AppUsers(appId), c.server.users, [PaginationParam(pv)])
  }

  /** The groups list is the v1 envelope: its next cursor comes from the body, never the header. */
  function GetGroups(c: Client, pv: PaginationVars): (r: Result<(seq<Group>, string)>)
    ensures var resp := c.server.groups(BuildRequest(c, Get, Groups, None, [PaginationParam(pv)]));
      match resp
      case TransportFailure => r == Failure(TransportError)
      case Response(status, _, body) =>
        if status >= 300 then r == Failure(StatusError(status))
        else if body.None? then r == Failure(DecodeError)
        else r == Success((body.value.data, body.value.pagination.afterCursor))
  {
    var reply :- DoRequest(c, Get, Groups, c.server.groups, None, [PaginationParam(pv)]);
    Success((reply.body.value.data, reply.body.value.pagination.afterCursor))
  }

  function GetRoles(c: Client, pv: PaginationVars): (r: Result<(seq<Role>, string)>)
    ensures HeaderPage(c.server.roles(BuildRequest(c, Get, Roles, None, [PaginationParam(pv)])), r)
  {
    GetPage(c, Roles, c.server.roles, [PaginationParam(pv)])
  }

  function GetRoleUsers(c: Client, roleId: string, pv: PaginationVars): (r: Result<(seq<UserUnderRole>, string)>)
    ensures HeaderPage(c.server.roleMembers(BuildRequest(c, Get, RoleUsers(roleId), None, [PaginationParam(pv)])), r)
  {
    GetPage(c, RoleUsers(roleId), c.server.roleMembers, [PaginationParam(pv)])
  }

  function GetRoleAdmins(c: Client, roleId: string, pv: PaginationVars): (r: Result<(seq<UserUnderRole>, string)>)
    ensures HeaderPage(c.server.roleMembers(BuildRequest(c, Get, RoleAdmins(roleId), None, [PaginationParam(pv)])), r)
  {
    GetPage(c, RoleAdmins(roleId), c.server.roleMembers, [PaginationParam(pv)])
  }

  function GetRoleApps(c: Client, roleId: string, pv: PaginationVars): (r: Result<(seq<App>, string)>)
    ensures HeaderPage(c.server.apps(BuildRequest(c, Get, RoleApps(roleId), None, [PaginationParam(pv)])), r)
  {
    GetPage(c, RoleApps(roleId), c.server.apps, [PaginationParam(pv)])
  }

  /** Probes the connectors list; only the next cursor is kept. */
  function ValidateScope(c: Client, pv: PaginationVars): (r: Result<string>)
    ensures var resp := c.server.plain(BuildRequest(c, Get, Connectors, None, [PaginationParam(pv)]));
      (r.Success? <==> resp.Response? && resp.status < 300 && resp.body.Some?)
      && (r.Success? ==> r.value == HeaderCursor(resp.afterCursor))
  {
    var reply :- DoRequest(c, Get, Connectors, c.server.plain, None, [PaginationParam(pv)]);
    Success(reply.nextCursor)
  }

  /** A role write goes to the role's admins iff the entitlement is "admin"; every other
      slug goes to the role's users. */
  function RoleEndpoint(roleId: string, entitlement: string): (e: Endpoint)
    ensures e.RoleAdmins? <==> entitlement == "admin"
    ensures e.RoleUsers? <==> entitlement != "admin"
    ensures e.roleId == roleId
  {
    if entitlement == "admin" then RoleAdmins(roleId) else RoleUsers(roleId)
  }

  /** The two role-write URLs never coincide. */
  lemma RoleWriteUrlsDiffer(subdomain: string, roleId: string)
    ensures Url(subdomain, RoleAdmins(roleId)) != Url(subdomain, RoleUsers(roleId))
  {
    assert |Url(subdomain, RoleAdmins(roleId))| == |Url(subdomain, RoleUsers(roleId))| + 1;
  }

  /** The write request of a grant (POST) or revoke (DELETE): a JSON array holding the user id. */
  function RoleWriteRequest(c: Client, verb: HttpMethod, roleId: string, userId: string, entitlement: string): (req: HttpRequest)
    ensures req.verb == verb && req.payload == Some([userId]) && req.query == map[]
    ensures req.url == Url(c.subdomain, RoleAdmins(roleId)) <==> entitlement == "admin"
    ensures req.url == Url(c.subdomain, RoleUsers(roleId)) <==> entitlement != "admin"
  {
    RoleWriteUrlsDiffer(c.subdomain, roleId);
    BuildRequest(c, verb, RoleEndpoint(roleId, entitlement), Some([userId]), [])
  }

  /** Grant is a POST whose response body must decode. */
  function GrantRole(c: Client, roleId: string, userId: string, entitlement: string): (r: Result<()>)
    ensures var resp := c.server.plain(RoleWriteRequest(c, Post, roleId, userId, entitlement));
      && (r.Success? <==> resp.Response? && resp.status < 300 && resp.body.Some?)
      && (resp.Response? && resp.status >= 300 ==> r == Failure(StatusError(resp.status)))
  {
    var _ :- DoRequest(c, Post, RoleEndpoint(roleId, entitlement), c.server.plain, Some([userId]), []);
    Success(())
  }

  /** Revoke is a DELETE: the status alone decides, the body is never read. */
  function RevokeRole(c: Client, roleId: string, userId: string, entitlement: string): (r: Result<()>)
    ensures var resp := c.server.plain(RoleWriteRequest(c, Delete, roleId, userId, entitlement));
      && (r.Success? <==> resp.Response? && resp.status < 300)
      && (resp.Response? && resp.status >= 300 ==> r == Failure(StatusError(resp.status)))
  {
    var _ :- DoRequest(c, Delete, RoleEndpoint(roleId, entitlement), c.server.plain, Some([userId]), []);
    Success(())
  }

  /** The client-credentials token request. */
  function TokenRequestFor(clientId: string, clientSecret: string, subdomain: string): (req: TokenRequest)
    ensures req.body.grantType == "client_credentials"
    ensures req.url == TokenUrl(subdomain)
  {
    TokenRequest(TokenUrl(subdomain), "client_id:" + clientId + ",client_secret:" + clientSecret, NewCredentialsGrant())
  }

  /** generateToken: a status of 300 or more fails with that status; otherwise the decoded
      access token. */
  function GenerateToken(tokens: TokenRequest -> HttpResponse<Credentials>, clientId: string, clientSecret: string, subdomain: string): (r: Result<string>)
    ensures var resp := tokens(TokenRequestFor(clientId, clientSecret, subdomain));
      && (resp.TransportFailure? ==> r == Failure(TransportError))
      && (resp.Response? && resp.status >= 300 ==> r == Failure(StatusError(resp.status)))
      && (r.Success? <==> resp.Response? && resp.status < 300 && resp.body.Some?)
      && (r.Success? ==> r.value == resp.body.value.accessToken)
  {
    match tokens(TokenRequestFor(clientId, clientSecret, subdomain))
    case TransportFailure => Failure(TransportError)
    case Response(status, _, body) =>
      if status >= 300 then Failure(StatusError(status))
      else if body.None? then Failure(DecodeError)
      else Success(body.value.accessToken)
  }

  /** NewClient: the token is obtained once, before the client exists. */
  function NewClient(server: Server, clientId: string, clientSecret: string, subdomain: string): (r: Result<Client>)
    ensures r.Success? <==> GenerateToken(server.tokens, clientId, clientSecret, subdomain).Success?
    ensures r.Success? ==> r.value == Client(server, GenerateToken(server.tokens, clientId, clientSecret, subdomain).value, subdomain)
  {
    var token :- GenerateToken(server.tokens, clientId, clientSecret, subdomain);
    Success(Client(server, token, subdomain))
  }
}
