/** The app resource type: apps are listed from one header-cursor endpoint, and an app's
    grants are its users. */
module Apps {
  import opened Outcomes
  import opened Models
  import opened Request
  import opened OneLogin
  import opened Paging
  import opened Baton
  import opened Decimal

  /** appResource: the app as a resource of type "app" with its id and name in the profile. */
  function AppResource(app: App): (r: Resource)
    ensures r.id.resourceType == AppType && Atoi(r.id.resource) == Some(app.id)
    ensures r.displayName == app.name && r.traits == AppTrait
    ensures r.profile.Keys == {"app_id", "app_name"}
    ensures r.profile["app_id"] == Number(app.id) && r.profile["app_name"] == Text(app.name)
  {
    ItoaRoundTrip(app.id);
    Resource(ResourceId(AppType, Itoa(app.id)), app.name, AppTrait,
             map["app_id" := Number(app.id), "app_name" := Text(app.name)])
  }

  /** The pagination of every app request: the page size, and the token's cursor as a v2
      header cursor. */
  function PageVars(cursor: string): PaginationVars {
    PaginationVars(ResourcesPageSize, cursor, "")
  }

  function AppsFetch(c: Client): string -> Result<(seq<App>, string)> {
    (cursor: string) => GetApps(c, PageVars(cursor))
  }

  /** What one List call returns for a token: one page of apps, as resources, in order. */
  function ListCall(c: Client): Token -> Result<Page<Resource>> {
    (token: Token) => PhaseStep(AppsFetch(c), AppResource, Seed(token, AppType))
  }

  method List(c: Client, token: Token) returns (r: Result<Page<Resource>>)
    ensures r == ListCall(c)(token)
  {
    var bag := new Bag.Parse(token, AppType);
    var cursor := bag.PageToken();
    var fetched := GetApps(c, PageVars(cursor));
    if fetched.Failure? {
      return Failure(fetched.error);
    }
    var apps := fetched.value.0;
    var nextPage := bag.NextToken(fetched.value.1);
    assert nextPage.Success?;  // the bag holds at least the seeded frame
    var rv: seq<Resource> := [];
    var i := 0;
    while i < |apps|
      invariant 0 <= i <= |apps|
      invariant |rv| == i
      invariant forall k :: 0 <= k < i ==> rv[k] == AppResource(apps[k])
    {
      rv := rv + [AppResource(apps[i])];
      i := i + 1;
    }
    assert rv == MapSeq(AppResource, apps);
    r := Success(Page(rv, nextPage.value));
  }

  /** Listing apps from the empty token yields every app the backend serves, in order, and
      then ends. */
  lemma ListTraversal(c: Client, pages: seq<seq<App>>)
    requires Chain(AppsFetch(c), "", pages)
    ensures Run(ListCall(c), [], |pages|) == Success(Page(Delivered(AppResource, pages), []))
  {
    SinglePhaseTraversal(ListCall(c), AppType, AppsFetch(c), AppResource, pages);
  }

  /** The one entitlement of an app: membership, grantable to users only, with no further page. */
  function Entitlements(resource: Resource): (r: Page<Entitlement>)
    ensures |r.items| == 1 && r.nextToken == []
    ensures r.items[0].resource == resource && r.items[0].slug == RoleMembership
    ensures r.items[0].grantableTo == [UserType]
  {
    Page([Entitlement(resource, RoleMembership,
                      resource.displayName + " App " + RoleMembership,
                      "Access to " + resource.displayName + " app in OneLogin",
                      [UserType])], [])
  }

  function AppUsersFetch(c: Client, appId: string): string -> Result<(seq<User>, string)> {
    (cursor: string) => GetAppUsers(c, appId, PageVars(cursor))
  }

  /** An app user holds the app's membership. */
  function MemberGrant(resource: Resource): User -> Grant {
    (user: User) => Grant(resource, RoleMembership, UserPrincipal(user.id))
  }

  /** What one Grants call returns: one page of the app's users, each as a membership grant. */
  function GrantsCall(c: Client, resource: Resource): Token -> Result<Page<Grant>> {
    (token: Token) => PhaseStep(AppUsersFetch(c, resource.id.resource), MemberGrant(resource), Seed(token, resource.id.resourceType))
  }

  method Grants(c: Client, resource: Resource, token: Token) returns (r: Result<Page<Grant>>)
    ensures r == GrantsCall(c, resource)(token)
  {
    var bag := new Bag.Parse(token, resource.id.resourceType);
    var cursor := bag.PageToken();
    var fetched := GetAppUsers(c, resource.id.resource, PageVars(cursor));
    if fetched.Failure? {
      return Failure(fetched.error);
    }
    var users := fetched.value.0;
    var rv: seq<Grant> := [];
    var i := 0;
    while i < |users|
      invariant 0 <= i <= |users|
      invariant |rv| == i
      invariant forall k :: 0 <= k < i ==> rv[k] == Grant(resource, RoleMembership, UserPrincipal(users[k].id))
    {
      rv := rv + [Grant(resource, RoleMembership, UserPrincipal(users[i].id))];
      i := i + 1;
    }
    var nextPage := bag.NextToken(fetched.value.1);
    assert nextPage.Success?;
    assert rv == MapSeq(MemberGrant(resource), users);
    r := Success(Page(rv, nextPage.value));
  }

  /** Enumerating an app's grants from the empty token yields one membership grant per app
      user the backend serves, in order, and then ends. */
  lemma GrantsTraversal(c: Client, resource: Resource, pages: seq<seq<User>>)
    requires Chain(AppUsersFetch(c, resource.id.resource), "", pages)
    ensures Run(GrantsCall(c, resource), [], |pages|) == Success(Page(Delivered(MemberGrant(resource), pages), []))
  {
    SinglePhaseTraversal(GrantsCall(c, resource), resource.id.resourceType, AppUsersFetch(c, resource.id.resource),
                         MemberGrant(resource), pages);
  }
}
