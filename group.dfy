/** The group resource type: groups come from the v1 endpoint, whose cursor travels in the
    response body, and a group's grants are the users the v2 user list filters by group. */
module Groups {
  import opened Outcomes
  import opened Models
  import opened Request
  import opened OneLogin
  import opened Paging
  import opened Baton
  import opened Decimal

  /** groupResource: the group as a resource of type "group" with its id and name in the profile. */
  function GroupResource(group: Group): (r: Resource)
    ensures r.id.resourceType == GroupType && Atoi(r.id.resource) == Some(group.id)
    ensures r.displayName == group.name && r.traits == GroupTrait
    ensures r.profile.Keys == {"group_id", "group_name"}
    ensures r.profile["group_id"] == Number(group.id) && r.profile["group_name"] == Text(group.name)
  {
    ItoaRoundTrip(group.id);
    Resource(ResourceId(GroupType, Itoa(group.id)), group.name, GroupTrait,
             map["group_id" := Number(group.id), "group_name" := Text(group.name)])
  }

  /** The group list pages by the v1 cursor: the page size therefore goes on every request. */
  function ListVars(cursor: string): (pv: PaginationVars)
    ensures pv.v1Cursor == cursor && pv.cursor == ""
    ensures "limit" in pv.AppliedTo(map[]) && pv.AppliedTo(map[])["limit"] == Itoa(ResourcesPageSize)
  {
    PaginationVars(ResourcesPageSize, "", cursor)
  }

  function GroupsFetch(c: Client): string -> Result<(seq<Group>, string)> {
    (cursor: string) => GetGroups(c, ListVars(cursor))
  }

  /** What one List call returns for a token: one page of groups, as resources, in order. */
  function ListCall(c: Client): Token -> Result<Page<Resource>> {
    (token: Token) => PhaseStep(GroupsFetch(c), GroupResource, Seed(token, GroupType))
  }

  method List(c: Client, token: Token) returns (r: Result<Page<Resource>>)
    ensures r == ListCall(c)(token)
  {
    var bag := new Bag.Parse(token, GroupType);
    var cursor := bag.PageToken();
    var fetched := GetGroups(c, ListVars(cursor));
    if fetched.Failure? {
      return Failure(fetched.error);
    }
    var groups := fetched.value.0;
    var nextPage := bag.NextToken(fetched.value.1);
    assert nextPage.Success?;  // the bag holds at least the seeded frame
    var rv: seq<Resource> := [];
    var i := 0;
    while i < |groups|
      invariant 0 <= i <= |groups|
      invariant |rv| == i
      invariant forall k :: 0 <= k < i ==> rv[k] == GroupResource(groups[k])
    {
      rv := rv + [GroupResource(groups[i])];
      i := i + 1;
    }
    assert rv == MapSeq(GroupResource, groups);
    r := Success(Page(rv, nextPage.value));
  }

  /** Listing groups from the empty token yields every group the backend serves, in order,
      and then ends. */
  lemma ListTraversal(c: Client, pages: seq<seq<Group>>)
    requires Chain(GroupsFetch(c), "", pages)
    ensures Run(ListCall(c), [], |pages|) == Success(Page(Delivered(GroupResource, pages), []))
  {
    SinglePhaseTraversal(ListCall(c), GroupType, GroupsFetch(c), GroupResource, pages);
  }

  /** The one entitlement of a group: membership, grantable to users only, with no further page. */
  function Entitlements(resource: Resource): (r: Page<Entitlement>)
    ensures |r.items| == 1 && r.nextToken == []
    ensures r.items[0].resource == resource && r.items[0].slug == RoleMembership
    ensures r.items[0].grantableTo == [UserType]
  {
    Page([Entitlement(resource, RoleMembership,
                      resource.displayName + " Group " + RoleMembership,
                      "Access to " + resource.displayName + " group in OneLogin",
                      [UserType])], [])
  }

  /** The members of a group page by the v2 header cursor of the user list. */
  function GrantVars(cursor: string): PaginationVars {
    PaginationVars(ResourcesPageSize, cursor, "")
  }

  function MembersFetch(c: Client, groupId: string): string -> Result<(seq<User>, string)> {
    (cursor: string) => GetUsers(c, GrantVars(cursor), groupId)
  }

  /** A user listed under the group holds the group's membership. */
  function MemberGrant(resource: Resource): User -> Grant {
    (user: User) => Grant(resource, RoleMembership, UserPrincipal(user.id))
  }

  /** What one Grants call returns: one page of the group's users, each as a membership grant. */
  function GrantsCall(c: Client, resource: Resource): Token -> Result<Page<Grant>> {
    (token: Token) => PhaseStep(MembersFetch(c, resource.id.resource), MemberGrant(resource), Seed(token, resource.id.resourceType))
  }

  method Grants(c: Client, resource: Resource, token: Token) returns (r: Result<Page<Grant>>)
    ensures r == GrantsCall(c, resource)(token)
  {
    var bag := new Bag.Parse(token, resource.id.resourceType);
    var cursor := bag.PageToken();
    var fetched := GetUsers(c, GrantVars(cursor), resource.id.resource);
    if fetched.Failure? {
      return Failure(fetched.error);
    }
    var users := fetched.value.0;
    var rv: seq<Grant> := [];
    var i := 0;
    while i < |users|
      invariant 0 <= i <= |users|
      invariant |rv| == i
      invariant forall k :: 0 <= k < i ==> rv[k] == Grant(resource, RoleMembership, UserPrincipal(users[k].id))
    {
      rv := rv + [Grant(resource, RoleMembership, UserPrincipal(users[i].id))];
      i := i + 1;
    }
    var nextPage := bag.NextToken(fetched.value.1);
    assert nextPage.Success?;
    assert rv == MapSeq(MemberGrant(resource), users);
    r := Success(Page(rv, nextPage.value));
  }

  /** Enumerating a group's grants from the empty token yields one membership grant per user
      the backend lists under the group, in order, and then ends. */
  lemma GrantsTraversal(c: Client, resource: Resource, pages: seq<seq<User>>)
    requires Chain(MembersFetch(c, resource.id.resource), "", pages)
    ensures Run(GrantsCall(c, resource), [], |pages|) == Success(Page(Delivered(MemberGrant(resource), pages), []))
  {
    SinglePhaseTraversal(GrantsCall(c, resource), resource.id.resourceType, MembersFetch(c, resource.id.resource),
                         MemberGrant(resource), pages);
  }

  /** The membership request filters the user list by the group and asks for the seven user
      fields. */
  lemma MembersQuery(pv: PaginationVars, groupId: string)
    requires groupId != ""
    ensures var q := ApplyAll(UsersQuery(pv, groupId), map[]);
      "group_id" in q && q["group_id"] == groupId && "fields" in q && q["fields"] == Join(UserFields, ",")
  {
    UsersQueryKeys(pv, groupId);
  }
}
