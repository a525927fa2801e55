/** The role resource type. A role's grants come from three backend lists, enumerated one
    after the other through the page-state stack: the role's apps, its admins, its users. */
module Roles {
  import opened Outcomes
  import opened Models
  import opened Request
  import opened OneLogin
  import opened Paging
  import opened Baton
  import opened Decimal
  import Apps

  /** roleResource: the role as a resource of type "role" with its name and id in the profile. */
  function RoleResource(role: Role): (r: Resource)
    ensures r.id.resourceType == RoleType && Atoi(r.id.resource) == Some(role.id)
    ensures r.displayName == role.name && r.traits == RoleTrait
    ensures r.profile.Keys == {"role_name", "role_id"}
    ensures r.profile["role_name"] == Text(role.name) && r.profile["role_id"] == Number(role.id)
  {
    ItoaRoundTrip(role.id);
    Resource(ResourceId(RoleType, Itoa(role.id)), role.name, RoleTrait,
             map["role_name" := Text(role.name), "role_id" := Number(role.id)])
  }

  /** The pagination of every role request: the page size, and the cursor of the frame being
      enumerated as a v2 header cursor. */
  function PageVars(cursor: string): PaginationVars {
    PaginationVars(ResourcesPageSize, cursor, "")
  }

  function RolesFetch(c: Client): string -> Result<(seq<Role>, string)> {
    (cursor: string) => GetRoles(c, PageVars(cursor))
  }

  /** What one List call returns for a token: one page of roles, as resources, in order. */
  function ListCall(c: Client): Token -> Result<Page<Resource>> {
    (token: Token) => PhaseStep(RolesFetch(c), RoleResource, Seed(token, RoleType))
  }

  method List(c: Client, token: Token) returns (r: Result<Page<Resource>>)
    ensures r == ListCall(c)(token)
  {
    var bag := new Bag.Parse(token, RoleType);
    var cursor := bag.PageToken();
    var fetched := GetRoles(c, PageVars(cursor));
    if fetched.Failure? {
      return Failure(fetched.error);
    }
    var roles := fetched.value.0;
    var nextPage := bag.NextToken(fetched.value.1);
    assert nextPage.Success?;  // the bag holds at least the seeded frame
    var rv: seq<Resource> := [];
    var i := 0;
    while i < |roles|
      invariant 0 <= i <= |roles|
      invariant |rv| == i
      invariant forall k :: 0 <= k < i ==> rv[k] == RoleResource(roles[k])
    {
      rv := rv + [RoleResource(roles[i])];
      i := i + 1;
    }
    assert rv == MapSeq(RoleResource, roles);
    r := Success(Page(rv, nextPage.value));
  }

  /** Listing roles from the empty token yields every role the backend serves, in order, and
      then ends. */
  lemma ListTraversal(c: Client, pages: seq<seq<Role>>)
    requires Chain(RolesFetch(c), "", pages)
    ensures Run(ListCall(c), [], |pages|) == Success(Page(Delivered(RoleResource, pages), []))
  {
    SinglePhaseTraversal(ListCall(c), RoleType, RolesFetch(c), RoleResource, pages);
  }

  /** A role offers membership and administration, each grantable to users and apps, with no
      further page. */
  function Entitlements(resource: Resource): (r: Page<Entitlement>)
    ensures |r.items| == 2 && r.nextToken == []
    ensures r.items[0].slug == RoleMembership && r.items[1].slug == RoleAdmin
    ensures forall e :: e in r.items ==> e.resource == resource && e.grantableTo == [UserType, AppType]
  {
    Page([Entitlement(resource, RoleMembership,
                      resource.displayName + " Role " + RoleMembership,
                      "Access to " + resource.displayName + " role in OneLogin",
                      [UserType, AppType]),
          Entitlement(resource, RoleAdmin,
                      resource.displayName + " Role " + RoleAdmin,
                      "Admin access to " + resource.displayName + " role in OneLogin",
                      [UserType, AppType])], [])
  }

  /** The three backend lists a role's grants come from, each by cursor. */
  datatype RoleLists = RoleLists(
    users: string -> Result<(seq<UserUnderRole>, string)>,
    admins: string -> Result<(seq<UserUnderRole>, string)>,
    apps: string -> Result<(seq<App>, string)>)

  /** The role's users, admins and apps as the client lists them, one page per cursor. */
  function ListsOf(c: Client, roleId: string): RoleLists {
    RoleLists((cursor: string) => GetRoleUsers(c, roleId, PageVars(cursor)),
              (cursor: string) => GetRoleAdmins(c, roleId, PageVars(cursor)),
              (cursor: string) => GetRoleApps(c, roleId, PageVars(cursor)))
  }

  /** A user of the role holds its membership. */
  function MemberGrant(resource: Resource): UserUnderRole -> Grant {
    (user: UserUnderRole) => Grant(resource, RoleMembership, UserPrincipal(user.id))
  }

  /** An admin of the role holds its administration. */
  function AdminGrant(resource: Resource): UserUnderRole -> Grant {
    (user: UserUnderRole) => Grant(resource, RoleAdmin, UserPrincipal(user.id))
  }

  /** An app attached to the role holds its administration too, as the app resource. */
  function AppGrant(resource: Resource): App -> Grant {
    (app: App) => Grant(resource, RoleAdmin, Apps.AppResource(app).id)
  }

  /** The frames a role's enumeration pushes in place of its own: users, then admins, then
      apps, so that the apps are enumerated first. */
  const Phases: seq<Frame> := [Frame(UserType, ""), Frame(AdminResourceId, ""), Frame(AppType, "")]

  /** One Grants call on the stack `frames`, by the tag of its top frame. */
  function GrantsStep(lists: RoleLists, resource: Resource, frames: seq<Frame>): Result<Page<Grant>>
    requires |frames| > 0
  {
    var tag := Top(frames).tag;
    if tag == RoleType then
      Success(Page([], Below(frames) + Phases))
    else if tag == UserType then
      PhaseStep(lists.users, MemberGrant(resource), frames)
    else if tag == AdminResourceId then
      PhaseStep(lists.admins, AdminGrant(resource), frames)
    else if tag == AppType then
      PhaseStep(lists.apps, AppGrant(resource), frames)
    else
      Failure(UnknownResourceType(tag))
  }

  /** The shape of one Grants call, whatever the backend answers. */
  lemma GrantsStepShape(lists: RoleLists, resource: Resource, frames: seq<Frame>)
    requires |frames| > 0
    // the role's own frame only schedules the three phases, with no grant and no request
    ensures Top(frames).tag == RoleType ==> GrantsStep(lists, resource, frames) == Success(Page([], Below(frames) + Phases))
    // any other tag but the three phases fails
    ensures Top(frames).tag !in {RoleType, UserType, AdminResourceId, AppType} ==>
      GrantsStep(lists, resource, frames) == Failure(UnknownResourceType(Top(frames).tag))
    ensures var r := GrantsStep(lists, resource, frames);
      r.Success? ==>
        // a phase never grows the stack, and never touches the frames below its own
        && (Top(frames).tag != RoleType ==>
              |Below(frames)| <= |r.value.nextToken| <= |frames| && r.value.nextToken[..|Below(frames)|] == Below(frames))
        && (forall g :: g in r.value.items ==> g.resource == resource)
        // membership comes from the users phase only; admins and apps hold administration
        && (Top(frames).tag == UserType ==>
              forall g :: g in r.value.items ==> g.slug == RoleMembership && g.principal.resourceType == UserType)
        && (Top(frames).tag == AdminResourceId ==>
              forall g :: g in r.value.items ==> g.slug == RoleAdmin && g.principal.resourceType == UserType)
        && (Top(frames).tag == AppType ==>
              forall g :: g in r.value.items ==> g.slug == RoleAdmin && g.principal.resourceType == AppType)
  {
    var r := GrantsStep(lists, resource, frames);
    if r.Success? && Top(frames).tag in {UserType, AdminResourceId, AppType} {
      forall g | g in r.value.items ensures g.resource == resource {
      }
    }
  }

  /** What one Grants call returns for a token: the token's stack, seeded with the resource's
      own type when the token is empty, advanced by one step. */
  function GrantsCall(lists: RoleLists, resource: Resource): Token -> Result<Page<Grant>> {
    (token: Token) => GrantsStep(lists, resource, Seed(token, resource.id.resourceType))
  }

  method Grants(c: Client, resource: Resource, token: Token) returns (r: Result<Page<Grant>>)
    ensures r == GrantsCall(ListsOf(c, resource.id.resource), resource)(token)
  {
    var bag := new Bag.Parse(token, resource.id.resourceType);
    var tag := bag.ResourceTypeId();
    ghost var frames := bag.frames;
    if tag == RoleType {
      var _ := bag.Pop();
      bag.Push(Frame(UserType, ""));
      bag.Push(Frame(AdminResourceId, ""));
      bag.Push(Frame(AppType, ""));
      var nextPage := bag.Marshal();
      assert nextPage == Below(frames) + Phases;
      return Success(Page([], nextPage));
    } else if tag == UserType {
      r := UsersPage(c, resource, bag);
    } else if tag == AdminResourceId {
      r := AdminsPage(c, resource, bag);
    } else if tag == AppType {
      r := AppsPage(c, resource, bag);
    } else {
      return Failure(UnknownResourceType(tag));
    }
  }

  /** The users branch of Grants: one page of the role's users, each holding membership. */
  method UsersPage(c: Client, resource: Resource, bag: Bag) returns (r: Result<Page<Grant>>)
    requires bag.frames != []
    modifies bag
    ensures r == PhaseStep(ListsOf(c, resource.id.resource).users, MemberGrant(resource), old(bag.frames))
  {
    var fetched := GetRoleUsers(c, resource.id.resource, PageVars(bag.PageToken()));
    if fetched.Failure? {
      return Failure(fetched.error);
    }
    var users := fetched.value.0;
    var rv: seq<Grant> := [];
    var i := 0;
    while i < |users|
      invariant 0 <= i <= |users|
      invariant |rv| == i
      invariant forall k :: 0 <= k < i ==> rv[k] == Grant(resource, RoleMembership, UserPrincipal(users[k].id))
    {
      rv := rv + [Grant(resource, RoleMembership, UserPrincipal(users[i].id))];
      i := i + 1;
    }
    var nextPage := bag.NextToken(fetched.value.1);
    assert nextPage.Success?;
    assert rv == MapSeq(MemberGrant(resource), users);
    return Success(Page(rv, nextPage.value));
  }

  /** The admins branch of Grants: one page of the role's admins, each holding administration. */
  method AdminsPage(c: Client, resource: Resource, bag: Bag) returns (r: Result<Page<Grant>>)
    requires bag.frames != []
    modifies bag
    ensures r == PhaseStep(ListsOf(c, resource.id.resource).admins, AdminGrant(resource), old(bag.frames))
  {
    var fetched := GetRoleAdmins(c, resource.id.resource, PageVars(bag.PageToken()));
    if fetched.Failure? {
      return Failure(fetched.error);
    }
    var admins := fetched.value.0;
    var rv: seq<Grant> := [];
    var i := 0;
    while i < |admins|
      invariant 0 <= i <= |admins|
      invariant |rv| == i
      invariant forall k :: 0 <= k < i ==> rv[k] == Grant(resource, RoleAdmin, UserPrincipal(admins[k].id))
    {
      rv := rv + [Grant(resource, RoleAdmin, UserPrincipal(admins[i].id))];
      i := i + 1;
    }
    var nextPage := bag.NextToken(fetched.value.1);
    assert nextPage.Success?;
    assert rv == MapSeq(AdminGrant(resource), admins);
    return Success(Page(rv, nextPage.value));
  }

  /** The apps branch of Grants: one page of the role's apps, each holding administration. */
  method AppsPage(c: Client, resource: Resource, bag: Bag) returns (r: Result<Page<Grant>>)
    requires bag.frames != []
    modifies bag
    ensures r == PhaseStep(ListsOf(c, resource.id.resource).apps, AppGrant(resource), old(bag.frames))
  {
    var fetched := GetRoleApps(c, resource.id.resource, PageVars(bag.PageToken()));
    if fetched.Failure? {
      return Failure(fetched.error);
    }
    var apps := fetched.value.0;
    var rv: seq<Grant> := [];
    var i := 0;
    while i < |apps|
      invariant 0 <= i <= |apps|
      invariant |rv| == i
      invariant forall k :: 0 <= k < i ==> rv[k] == Grant(resource, RoleAdmin, Apps.AppResource(apps[k]).id)
    {
      var app := Apps.AppResource(apps[i]);
      rv := rv + [Grant(resource, RoleAdmin, app.id)];
      i := i + 1;
    }
    var nextPage := bag.NextToken(fetched.value.1);
    assert nextPage.Success?;
    assert rv == MapSeq(AppGrant(resource), apps);
    return Success(Page(rv, nextPage.value));
  }

  /** A call whose top frame is one of the three phases takes one page of that phase. */
  lemma PhaseCall(lists: RoleLists, resource: Resource, frames: seq<Frame>)
    requires |frames| > 0
    ensures Top(frames).tag == UserType ==>
      GrantsCall(lists, resource)(frames) == PhaseStep(lists.users, MemberGrant(resource), frames)
    ensures Top(frames).tag == AdminResourceId ==>
      GrantsCall(lists, resource)(frames) == PhaseStep(lists.admins, AdminGrant(resource), frames)
    ensures Top(frames).tag == AppType ==>
      GrantsCall(lists, resource)(frames) == PhaseStep(lists.apps, AppGrant(resource), frames)
  {
    assert Seed(frames, resource.id.resourceType) == frames;
  }

  /** Every page of the users phase, alone on the stack, is a page of the role's users. */
  lemma UsersPhase(lists: RoleLists, resource: Resource)
    ensures forall cursor: string {:trigger GrantsCall(lists, resource)([Frame(UserType, cursor)])} ::
      GrantsCall(lists, resource)([Frame(UserType, cursor)]) ==
      PhaseStep(lists.users, MemberGrant(resource), [Frame(UserType, cursor)])
  {
    forall cursor: string
      ensures GrantsCall(lists, resource)([Frame(UserType, cursor)]) ==
              PhaseStep(lists.users, MemberGrant(resource), [Frame(UserType, cursor)])
    {
      PhaseCall(lists, resource, [Frame(UserType, cursor)]);
    }
  }

  /** Every page of the admins phase, above the users phase, is a page of the role's admins. */
  lemma AdminsPhase(lists: RoleLists, resource: Resource)
    ensures forall cursor: string {:trigger GrantsCall(lists, resource)([Frame(UserType, "")] + [Frame(AdminResourceId, cursor)])} ::
      GrantsCall(lists, resource)([Frame(UserType, "")] + [Frame(AdminResourceId, cursor)]) ==
      PhaseStep(lists.admins, AdminGrant(resource), [Frame(UserType, "")] + [Frame(AdminResourceId, cursor)])
  {
    forall cursor: string
      ensures GrantsCall(lists, resource)([Frame(UserType, "")] + [Frame(AdminResourceId, cursor)]) ==
              PhaseStep(lists.admins, AdminGrant(resource), [Frame(UserType, "")] + [Frame(AdminResourceId, cursor)])
    {
      PhaseCall(lists, resource, [Frame(UserType, "")] + [Frame(AdminResourceId, cursor)]);
    }
  }

  /** Every page of the apps phase, above the other two, is a page of the role's apps. */
  lemma AppsPhase(lists: RoleLists, resource: Resource)
    ensures forall cursor: string
      {:trigger GrantsCall(lists, resource)([Frame(UserType, "")] + [Frame(AdminResourceId, "")] + [Frame(AppType, cursor)])} ::
      GrantsCall(lists, resource)([Frame(UserType, "")] + [Frame(AdminResourceId, "")] + [Frame(AppType, cursor)]) ==
      PhaseStep(lists.apps, AppGrant(resource), [Frame(UserType, "")] + [Frame(AdminResourceId, "")] + [Frame(AppType, cursor)])
  {
    forall cursor: string
      ensures GrantsCall(lists, resource)([Frame(UserType, "")] + [Frame(AdminResourceId, "")] + [Frame(AppType, cursor)]) ==
              PhaseStep(lists.apps, AppGrant(resource), [Frame(UserType, "")] + [Frame(AdminResourceId, "")] + [Frame(AppType, cursor)])
    {
      PhaseCall(lists, resource, [Frame(UserType, "")] + [Frame(AdminResourceId, "")] + [Frame(AppType, cursor)]);
    }
  }

  /** The three phases a role schedules, drained from the top down: its apps, then its
      admins, then its users, and then the end. */
  lemma {:induction false} PhasesDrain(lists: RoleLists, resource: Resource,
                    appPages: seq<seq<App>>, adminPages: seq<seq<UserUnderRole>>, userPages: seq<seq<UserUnderRole>>)
    requires Chain(lists.apps, "", appPages)
    requires Chain(lists.admins, "", adminPages)
    requires Chain(lists.users, "", userPages)
    ensures Run(GrantsCall(lists, resource), [Frame(UserType, "")] + [Frame(AdminResourceId, "")] + [Frame(AppType, "")],
                |appPages| + (|adminPages| + |userPages|)) ==
      Success(Page(Delivered(AppGrant(resource), appPages)
                   + (Delivered(AdminGrant(resource), adminPages) + Delivered(MemberGrant(resource), userPages)), []))
  {
    UsersPhase(lists, resource);
    AdminsPhase(lists, resource);
    AppsPhase(lists, resource);
    ThreePhaseDrain(GrantsCall(lists, resource),
                    UserType, lists.users, MemberGrant(resource), userPages,
                    AdminResourceId, lists.admins, AdminGrant(resource), adminPages,
                    AppType, lists.apps, AppGrant(resource), appPages);
  }

  /** The first call on a role, from the empty token: no grant, and the three phases
      scheduled; whatever the phases deliver before the end is then all the role delivers. */
  lemma {:induction false} RoleExpansion(lists: RoleLists, resource: Resource, items: seq<Grant>, n: nat, m: nat)
    requires resource.id.resourceType == RoleType && m == n + 1
    requires Run(GrantsCall(lists, resource), [Frame(UserType, "")] + [Frame(AdminResourceId, "")] + [Frame(AppType, "")], n) ==
      Success(Page(items, []))
    ensures GrantsCall(lists, resource)([]) == Success(Page([], Phases))
    ensures Run(GrantsCall(lists, resource), [], m) == Success(Page(items, []))
  {
    assert Seed([], RoleType) == [Frame(RoleType, "")];
    assert Top([Frame(RoleType, "")]).tag == RoleType;
    assert Below([Frame(RoleType, "")]) + Phases == Phases;
    assert [Frame(UserType, "")] + [Frame(AdminResourceId, "")] + [Frame(AppType, "")] == Phases;
    ThenRun(GrantsCall(lists, resource), [], Phases, items, n, m);
  }

  /** A role's grants, enumerated from the empty token: one call schedules the three phases,
      then every app of the role, every admin and every user is delivered, in that order,
      and the enumeration ends. */
  lemma {:induction false} FullTraversal(lists: RoleLists, resource: Resource,
                      appPages: seq<seq<App>>, adminPages: seq<seq<UserUnderRole>>, userPages: seq<seq<UserUnderRole>>)
    requires resource.id.resourceType == RoleType
    requires Chain(lists.apps, "", appPages)
    requires Chain(lists.admins, "", adminPages)
    requires Chain(lists.users, "", userPages)
    ensures Run(GrantsCall(lists, resource), [], 1 + |appPages| + |adminPages| + |userPages|) ==
      Success(Page(Delivered(AppGrant(resource), appPages)
                   + (Delivered(AdminGrant(resource), adminPages) + Delivered(MemberGrant(resource), userPages)), []))
  {
    PhasesDrain(lists, resource, appPages, adminPages, userPages);
    RoleExpansion(lists, resource,
                  Delivered(AppGrant(resource), appPages)
                    + (Delivered(AdminGrant(resource), adminPages) + Delivered(MemberGrant(resource), userPages)),
                  |appPages| + (|adminPages| + |userPages|), 1 + |appPages| + |adminPages| + |userPages|);
  }

  /** Grant: only users can be given a role's membership or administration; for a user the
      role write is sent, to the role's admins iff the slug is "admin", and it succeeds iff
      the backend accepts it. */
  function GrantMembership(c: Client, principal: Resource, entitlement: Entitlement): (r: Result<()>)
    ensures principal.id.resourceType != UserType ==> r == Failure(GrantToNonUser(principal.id.resourceType))
    ensures principal.id.resourceType == UserType ==>
      var resp := c.server.plain(RoleWriteRequest(c, Post, entitlement.resource.id.resource, principal.id.resource, entitlement.slug));
      r.Success? <==> resp.Response? && resp.status < 300 && resp.body.Some?
  {
    if principal.id.resourceType != UserType then Failure(GrantToNonUser(principal.id.resourceType))
    else GrantRole(c, entitlement.resource.id.resource, principal.id.resource, entitlement.slug)
  }

  /** Revoke: only a user's grant can be revoked; for a user the role write is a DELETE and
      succeeds iff the status is below 300. */
  function RevokeMembership(c: Client, g: Grant): (r: Result<()>)
    ensures g.principal.resourceType != UserType ==> r == Failure(RevokeFromNonUser(g.principal.resourceType))
    ensures g.principal.resourceType == UserType ==>
      var resp := c.server.plain(RoleWriteRequest(c, Delete, g.resource.id.resource, g.principal.resource, g.slug));
      r.Success? <==> resp.Response? && resp.status < 300
  {
    if g.principal.resourceType != UserType then Failure(RevokeFromNonUser(g.principal.resourceType))
    else RevokeRole(c, g.resource.id.resource, g.principal.resource, g.slug)
  }
}
