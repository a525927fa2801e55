# baton-onelogin, modelled in Dafny

This project models the OneLogin connector for the Baton identity-sync SDK. The connector
syncs four resource types:

- users, listed page by page, each user fetched again in full and shown with the email of
  their manager, taken from a cache of every user's email; a successful rebuild of the cache
  is reused for five minutes, and a failed one is rebuilt on the next call;
- roles, whose grants come from three backend lists: the role's apps, its admins and its
  users;
- apps, whose grants are their users;
- groups, listed from the v1 API with the cursor in the response body, whose grants are the
  users the v2 user list returns for the group.

Role membership and administration can be granted to and revoked from users.

The modules follow the source files:

| module | file | source |
|---|---|---|
| `Outcomes` | `outcomes.dfy` | `Option`/`Result` and the error kinds |
| `Models` | `models.dfy` | the decoded API payloads |
| `Decimal` | `decimal.dfy` | decimal formatting of ids, with its inverse |
| `Request` | `request.dfy` | `pkg/onelogin/request.go` |
| `OneLogin` | `client.dfy` | `pkg/onelogin/client.go` |
| `Paging` | `paging.dfy` | the SDK page-state bag, and the caller's loop over continuation tokens |
| `Baton` | `baton.dfy` | SDK output records and resource-type constants |
| `Roles` | `role.dfy` | `pkg/connector/role.go` |
| `Apps` | `apps.dfy` | `pkg/connector/apps.go` |
| `Groups` | `group.dfy` | `pkg/connector/group.go` |
| `Users` | `user.dfy` | `pkg/connector/user.go` |
| `Configuration` | `config.dfy` | `cmd/baton-onelogin/config.go` |

How the model is built:

- **The backend.** It is a value of type `OneLogin.Server`, with one answer function per
  decoded body shape. Each answer function maps the request the client builds (verb, URL,
  query values, payload, authorization) to a transport failure or to a response. A response
  carries a status, the optional `after-cursor` header and the body, decoded or not.
- **The continuation token.** It is the page-state stack itself: a sequence of frames, each a
  phase tag and a backend cursor. The empty stack is the empty token.
- **`Paging.Bag`.** This is the SDK bag the connector mutates in place. It is a class with
  that stack as its field.
- **`Paging.Run`.** This is the caller's loop: it feeds each call the token the previous call
  returned.
- **Whole traversals.** They are stated with `Paging.Chain`: the backend serves a finite
  list of pages linked by cursors.
- **One request per call.** Each `Grants` call on a role makes at most one backend request:
  the call on the role's own frame only schedules the three phases, and every later call
  takes one page of the phase on top.
- **Role writes.** Every slug other than "admin" is written to the role-users URL; no slug
  is refused (`OneLogin.RoleEndpoint`).
- **Numeric ids.** They become resource ids by decimal formatting. `Decimal.ItoaRoundTrip`
  proves that the number can always be read back.

## Model

| member | source | states |
|---|---|---|
| Decimal.ItoaRoundTrip | pkg/connector/role.go:168-171 | the decimal string of any integer id reads back as that id, so an id formatted into a principal is recoverable |
| Decimal.ItoaInjective | pkg/connector/role.go:168-171 | two different numeric ids never give the same principal id string |
| Request.QueryValues.constructor | pkg/onelogin/client.go:385 | a fresh set of query values is empty |
| Request.QueryValues.Set | pkg/onelogin/request.go:28 | setting a key replaces its value and leaves every other key as it was |
| Request.PaginationVars.AppliedTo | pkg/onelogin/request.go:25-39 | `limit` is written only when the limit is non-zero and there is no cursor; `cursor` only when a cursor is given; `after_cursor` only when a v1 cursor is given; every other key is unchanged |
| Request.PaginationVars.Setup | pkg/onelogin/request.go:25-39 | the in-place setup leaves exactly the values `AppliedTo` describes |
| Request.FilterVars.AppliedTo | pkg/onelogin/request.go:51-59 | `fields` is written as the comma-joined field list only when the list is not empty; `group_id` only when a group is given; no other key changes |
| Request.FilterVars.Setup | pkg/onelogin/request.go:51-59 | the in-place setup leaves exactly the values `AppliedTo` describes |
| Request.QueryParam.Setup | pkg/onelogin/request.go:10-12 | either kind of query argument writes its own keys in place |
| Request.UserFilters | pkg/onelogin/request.go:61-65 | the user filter selects the seven user fields and no group |
| Request.GroupUsersFilters | pkg/onelogin/request.go:67-71 | the group filter names the group and selects no fields |
| Request.JoinSplitRoundTrip | pkg/onelogin/request.go:53 | joining field names that contain no separator, then splitting at the separator, gives the names back |
| Request.UserFieldsRoundTrip | pkg/onelogin/request.go:42-44 | the `fields` value of a user listing names exactly the seven user fields, in order |
| Request.NewCredentialsGrant | pkg/onelogin/request.go:78-82 | the token request body asks for the `client_credentials` grant |
| OneLogin.Url | pkg/onelogin/client.go:17-35 | every endpoint URL lies under the tenant's `https://<subdomain>.onelogin.com/` base |
| OneLogin.BuildRequest | pkg/onelogin/client.go:380-394 | the request carries the verb, the endpoint URL, the payload, a bearer authorization with the client's token, and the query built from every argument in order |
| OneLogin.EncodeQuery | pkg/onelogin/client.go:385-390 | the loop over the arguments leaves the query equal to every argument's setup applied in order to empty values |
| OneLogin.Receive | pkg/onelogin/client.go:396-416 | a transport failure or a status of 300 or more fails, the latter with that status; DELETE succeeds on the status alone and never decodes; other verbs also need the body to decode; the next cursor is the `after-cursor` header, or "" without one |
| OneLogin.GetPage | pkg/onelogin/client.go:372-417 | a GET page is the decoded items with the header cursor, or the failure `Receive` gives |
| OneLogin.UsersQueryKeys | pkg/onelogin/client.go:65-69 | a user listing's query holds the pagination keys, the seven user fields, and the group only when one is given, and no other key |
| OneLogin.GetUsers | pkg/onelogin/client.go:56-77 | the users page and its header cursor, from the user list with pagination, field and group filters |
| OneLogin.GetUserById | pkg/onelogin/client.go:79-95 | succeeds exactly when the by-id request returns a status below 300 and a decodable body, and returns that body |
| OneLogin.GetApps | pkg/onelogin/client.go:97-116 | the apps page and its header cursor |
| OneLogin.GetAppUsers | pkg/onelogin/client.go:118-137 | the app's users page and its header cursor |
| OneLogin.GetGroups | pkg/onelogin/client.go:139-164 | the groups page, with the next cursor taken from the body's pagination envelope and never from the header |
| OneLogin.GetRoles | pkg/onelogin/client.go:166-185 | the roles page and its header cursor |
| OneLogin.GetRoleUsers | pkg/onelogin/client.go:187-206 | the role's users page and its header cursor |
| OneLogin.GetRoleAdmins | pkg/onelogin/client.go:208-227 | the role's admins page and its header cursor |
| OneLogin.GetRoleApps | pkg/onelogin/client.go:229-248 | the role's apps page and its header cursor |
| OneLogin.ValidateScope | pkg/onelogin/client.go:306-324 | the connectors probe succeeds exactly on a status below 300 with a decodable body, and yields only the header cursor |
| OneLogin.RoleEndpoint | pkg/onelogin/client.go:254-258 | a role write goes to the role's admins exactly when the slug is "admin", and to its users for every other slug |
| OneLogin.RoleWriteUrlsDiffer | pkg/onelogin/client.go:28-29 | the role-users and role-admins URLs of a role never coincide |
| OneLogin.RoleWriteRequest | pkg/onelogin/client.go:254-271 | a role write sends the user id as a one-element JSON array, with no query, to the admins URL exactly when the slug is "admin" |
| OneLogin.GrantRole | pkg/onelogin/client.go:250-277 | a grant is a POST that succeeds exactly when the status is below 300 and the body decodes, and fails with the status when it is 300 or more |
| OneLogin.RevokeRole | pkg/onelogin/client.go:279-303 | a revoke is a DELETE that succeeds exactly when the status is below 300, whatever the body |
| OneLogin.TokenRequestFor | pkg/onelogin/client.go:330-351 | the token request goes to the OAuth2 token URL of the subdomain with the client-credentials body |
| OneLogin.GenerateToken | pkg/onelogin/client.go:326-370 | a transport failure or a status of 300 or more fails, the latter with that status; otherwise the decoded access token, and a body that does not decode fails |
| OneLogin.NewClient | pkg/onelogin/client.go:43-54 | a client exists exactly when the token is obtained, and it holds that token and the subdomain |
| Paging.Seed | pkg/connector/role.go:130 | an empty token seeds one frame for the resource's own type at the first page; any other token is used as it is |
| Paging.Advance | pkg/connector/role.go:183-186 | advancing pops the top frame and pushes it back with the next cursor exactly when that cursor is not empty; the frames below are untouched |
| Paging.Bag.Parse | pkg/connector/role.go:130 | the parsed bag holds the seeded stack |
| Paging.Bag.ResourceTypeId | pkg/connector/role.go:136 | the tag of the top frame |
| Paging.Bag.PageToken | pkg/connector/role.go:130 | the cursor of the top frame |
| Paging.Bag.Pop | pkg/connector/role.go:139 | removes and returns the top frame; nothing on an empty bag |
| Paging.Bag.Push | pkg/connector/role.go:141-151 | puts a frame on top of the stack |
| Paging.Bag.Marshal | pkg/connector/role.go:269-274 | the token is the stack as it stands |
| Paging.Bag.NextToken | pkg/connector/role.go:183-186 | on an empty bag fails with no active page state; otherwise the bag and the token become the advanced stack |
| Paging.PhaseStep | pkg/connector/role.go:153-188 | one call on a phase fails exactly when the page fetch at the top cursor fails, with its error; otherwise it yields that page's items converted one for one, in order, and the token keeps the phase with the next cursor when there is one and pops it when there is none |
| Paging.SinglePhaseTraversal | pkg/connector/apps.go:51-86 | when every call takes one page of a single seeded phase, the calls from the empty token deliver every item of every backend page, in order, and then return the empty token |
| Paging.LastPhaseDrain | pkg/connector/role.go:153-188 | the last phase on the stack delivers all its pages' items, in order, and ends the enumeration after as many calls as pages |
| Paging.PhaseDrain | pkg/connector/role.go:190-225 | a phase above others delivers all its pages' items, in order, and then hands the stack below it to the following calls unchanged |
| Paging.ThreePhaseDrain | pkg/connector/role.go:139-151 | three phases stacked at their first pages are drained top first, each delivering all its items in order, and then the enumeration ends |
| Roles.RoleResource | pkg/connector/role.go:36-58 | a role becomes a resource of type "role" under its decimal id, named by its name, with its name and id in the profile |
| Roles.List | pkg/connector/role.go:60-95 | one page of roles at the token's cursor, each converted, in order, with the advanced token; a fetch failure fails the call |
| Roles.ListTraversal | pkg/connector/role.go:60-95 | listing roles from the empty token delivers every role the backend serves, in order, and then ends |
| Roles.Entitlements | pkg/connector/role.go:97-127 | a role offers membership then administration, both on the role and grantable to users and apps, with no further page |
| Roles.GrantsStepShape | pkg/connector/role.go:129-275 | the role frame only schedules the three phases; an unknown tag fails; a phase never grows the stack or touches the frames below it; membership comes only from the users phase, and administration from the admins phase (to users) and the apps phase (to apps) |
| Roles.Grants | pkg/connector/role.go:129-275 | one call on the token's stack, dispatched on the top frame's tag |
| Roles.UsersPage | pkg/connector/role.go:153-188 | one page of the role's users at the top cursor, each holding membership as a user principal, with the advanced stack |
| Roles.AdminsPage | pkg/connector/role.go:190-225 | one page of the role's admins at the top cursor, each holding administration as a user principal, with the advanced stack |
| Roles.AppsPage | pkg/connector/role.go:227-263 | one page of the role's apps at the top cursor, each holding administration as the app resource, with the advanced stack |
| Roles.PhaseCall | pkg/connector/role.go:136-266 | a call whose top frame is one of the three phases takes one page of that phase's backend list |
| Roles.PhasesDrain | pkg/connector/role.go:139-151 | the three scheduled phases deliver the role's apps, then its admins, then its users, and then end |
| Roles.RoleExpansion | pkg/connector/role.go:137-151 | the first call on a role yields no grant and the three phases; whatever the phases deliver is then all the role delivers |
| Roles.FullTraversal | pkg/connector/role.go:129-275 | a role's grants enumerated from the empty token are every app (administration), then every admin (administration), then every user (membership) the backend serves, in order, and the enumeration ends within one call per page plus one |
| Roles.GrantMembership | pkg/connector/role.go:277-295 | a non-user principal is refused; for a user the role write is posted and the grant succeeds exactly when the backend accepts it |
| Roles.RevokeMembership | pkg/connector/role.go:297-318 | a non-user principal is refused; for a user the role write is deleted and the revoke succeeds exactly when the status is below 300 |
| Apps.AppResource | pkg/connector/apps.go:27-49 | an app becomes a resource of type "app" under its decimal id, named by its name, with its id and name in the profile |
| Apps.List | pkg/connector/apps.go:51-86 | one page of apps at the token's cursor, each converted, in order, with the advanced token |
| Apps.ListTraversal | pkg/connector/apps.go:51-86 | listing apps from the empty token delivers every app the backend serves, in order, and then ends |
| Apps.Entitlements | pkg/connector/apps.go:88-106 | an app offers one membership entitlement, grantable to users only, with no further page |
| Apps.Grants | pkg/connector/apps.go:108-150 | one page of the app's users at the token's cursor, each holding membership, with the advanced token |
| Apps.GrantsTraversal | pkg/connector/apps.go:108-150 | an app's grants from the empty token are one membership per app user the backend serves, in order, and then the end |
| Groups.GroupResource | pkg/connector/group.go:27-49 | a group becomes a resource of type "group" under its decimal id, named by its name, with its id and name in the profile |
| Groups.ListVars | pkg/connector/group.go:57-63 | the group list pages by the v1 cursor, so the page size goes on every request |
| Groups.List | pkg/connector/group.go:51-86 | one page of groups at the token's cursor, each converted, in order, with the advanced token |
| Groups.ListTraversal | pkg/connector/group.go:51-86 | listing groups from the empty token delivers every group the backend serves, in order, and then ends |
| Groups.Entitlements | pkg/connector/group.go:88-106 | a group offers one membership entitlement, grantable to users only, with no further page |
| Groups.Grants | pkg/connector/group.go:108-150 | one page of the users listed under the group at the token's cursor, each holding membership, with the advanced token |
| Groups.GrantsTraversal | pkg/connector/group.go:108-150 | a group's grants from the empty token are one membership per user the backend lists under the group, in order, and then the end |
| Groups.MembersQuery | pkg/connector/group.go:114-121 | the membership request filters the user list by the group and asks for the seven user fields |
| Users.TrimSpace | pkg/connector/user.go:124 | nothing is left exactly when the string is all white space; what is left neither starts nor ends with white space |
| Users.TrimSpaceParts | pkg/connector/user.go:124 | the string is a blank prefix, then the trimmed string, then a blank suffix, so with the clauses of `TrimSpace` the result is exactly `strings.TrimSpace` |
| Users.BlankJoin | pkg/connector/user.go:123-124 | first and last name joined by a space are blank exactly when both names are |
| Users.ResolveDisplayName | pkg/connector/user.go:119-128 | the username when set; otherwise "first last", unless both names are blank, then the email; a blank display name can only be a blank username or email |
| Users.StatusOf | pkg/connector/user.go:70-79 | status 0, 1 and 2 are disabled, enabled and deleted; every other code is unspecified |
| Users.BuildUserProfile | pkg/connector/user.go:34-54 | the profile has login, user id, first and last name, the manager's id exactly when there is one, and the manager's email exactly when it is not empty; the ids read back as the numbers |
| Users.UserResource | pkg/connector/user.go:57-82 | a user becomes a resource under its decimal id, named by its display name, with its email and status in the trait, the profile `BuildUserProfile` gives, and the manager's email, when set, as its value |
| Users.RecordedKeys | pkg/connector/user.go:105-107 | writing a page into the cache adds exactly the listed ids, and an id nobody listed keeps its email |
| Users.RecordedLastWins | pkg/connector/user.go:105-107 | the last user listed with an id decides that id's email |
| Users.RecordedAppend | pkg/connector/user.go:96-112 | writing two runs of pages one after the other is writing their concatenation |
| Users.LoadChain | pkg/connector/user.go:93-112 | over a finite chain of pages, the cursor walk succeeds and writes every listed user, in listing order |
| Users.CacheLoad | pkg/connector/user.go:93-112 | the rebuilt cache and its error do not depend on the bound that shows the walk stops |
| Users.Refresh | pkg/connector/user.go:85-116 | a fresh cache is left alone and reports success; a success always leaves a cache; a cache that exists is the only kind ever stamped; a rebuild is stamped with its completion time when it succeeds and keeps the old stamp when it fails |
| Users.RefreshFresh | pkg/connector/user.go:89-114 | a completed rebuild is in use until the TTL has passed since it completed |
| Users.RefreshFailureStale | pkg/connector/user.go:89-112 | a failed rebuild keeps the expired stamp, so it is not in use at any later time and the next call rebuilds again |
| Users.RefreshChain | pkg/connector/user.go:93-115 | over a finite chain of pages, a rebuild succeeds, is stamped with its completion time, and maps exactly the listed ids, each to the email of the last user listed with it |
| Users.WithManagerEmail | pkg/connector/user.go:161-166 | the manager's email is replaced by the cached one exactly when the user has a manager the cache knows; nothing else about the user changes |
| Users.Detail | pkg/connector/user.go:154-168 | a listed user yields a resource exactly when the by-id fetch succeeds, and the resource is built from the full record with the cached manager email |
| Users.DetailedShape | pkg/connector/user.go:153-173 | a page never shows more users than were listed; it shows all of them exactly when every by-id fetch succeeds; it shows only users |
| Users.ManagerEmailFromCache | pkg/connector/user.go:154-168 | any listed user whose fetch succeeds is shown; when the cache knows the manager, with the cached email as the manager's email (none when it is empty); otherwise with the email the full record carried |
| Users.ListPage | pkg/connector/user.go:138-180 | a List call with a settled cache succeeds exactly when the page fetch at the token's cursor succeeds; it shows the listed users whose fetch by id succeeds, in listing order, and returns the token advanced by that page's next cursor |
| Users.FetchUsers | pkg/connector/user.go:143-146 | one GET of the user list with the page size (first page only) and the cursor, the seven user fields and no group, decided as every header-cursor page is: a failure on transport, status or decoding, otherwise the users with the `after-cursor` header |
| Users.DetailOf | pkg/connector/user.go:154-172 | the loop body for one listed user: skipped on a failed fetch, otherwise its resource with the cached manager email |
| Users.DetailAll | pkg/connector/user.go:153-173 | the loop over a page yields the resources of the users whose fetch succeeds, in listing order |
| Users.ListWith | pkg/connector/user.go:138-180 | List once the cache is settled: the page at the token's cursor, detailed, with the advanced token |
| Users.UserSyncer.constructor | pkg/connector/user.go:194-199 | a new handler has no cache and no stamp |
| Users.UserSyncer.RefreshUserCache | pkg/connector/user.go:85-116 | the cache and stamp after the call, and its outcome, are what `Refresh` prescribes from the old cache and stamp |
| Users.UserSyncer.List | pkg/connector/user.go:131-181 | the cache is refreshed first; a refresh failure fails the call; otherwise the page is listed with the refreshed cache |
| Users.Entitlements | pkg/connector/user.go:184-186 | users carry no entitlements and no further page |
| Users.Grants | pkg/connector/user.go:189-191 | users carry no grants and no further page |
| Configuration.ValidateConfig | cmd/baton-onelogin/config.go:21-27 | the configuration is accepted exactly when the client id, the client secret and the subdomain are all set |

## Left out

- The JSON form of the continuation token and its codec are not modelled. They are SDK
  code, not part of this model. The token is the page-state stack itself, so a malformed
  token cannot arise and `parsePageToken` has no error path here.
- HTTP details are left out: header names other than `after-cursor`, content types, the
  `context.Context`, the wording of error messages, and logging. Errors keep only their
  kind and the status code. Building a request is total here: the failure of
  `http.NewRequestWithContext` on a URL that does not parse (a malformed subdomain, say) is
  not modelled.
- The JSON decoding of payloads is left out. A response body is either a decoded value or
  "does not decode". `json.Marshal` of the role-write payload cannot fail on a string
  slice, so its error path is left out.
- The mutex around the user cache and any concurrency are left out. The calls are
  sequential here.
- Time is an integer number of nanoseconds, passed in: `now` when the call starts and
  `finished` when the rebuild completes. The zero `time.Time` is a missing stamp.
- `ResourcesPageSize` is defined in a file that is not part of this model. It is an
  unspecified positive constant.
- The SDK resource builders (`rs.NewUserResource`, `rs.NewRoleResource`,
  `rs.NewAppResource`, `rs.NewGroupResource`) are modelled as always succeeding. Their error paths, and the
  entitlement and grant builders' internal ids and annotations, are not modelled.
- Users.UserResource does not record the "primary" flag that the email trait option
  carries.
- Users.UserSyncer.RefreshUserCache requires that the user listing stops, meaning it
  fails or runs out of cursors. When the backend keeps returning cursors, the source loops
  forever. That case is outside the model.
- Users.UserSyncer.List: the same requirement as `RefreshUserCache`, for the same reason.
- Roles.FullTraversal, Apps.GrantsTraversal, Groups.GrantsTraversal and the three
  `ListTraversal` lemmas are stated for a backend that serves a finite chain of pages. A
  backend that fails part-way is covered only per call, by `Paging.PhaseStep`.
- Users.TrimSpace works on code points with the white-space set of Go's
  `unicode.IsSpace`. It does not model the UTF-8 decoding of invalid byte sequences.
- Role grants refuse app principals (`Roles.GrantMembership`), although the role
  entitlements declare themselves grantable to apps. The model keeps both as written.
- The connector wiring (`connector.go`: metadata, `Validate`, `New`), `cmdFlags` and the
  CLI are not part of this model. `ValidateScope` is modelled on the client side only.
