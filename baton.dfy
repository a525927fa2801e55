/** The connector SDK's output records, as plain values, and the resource types this
    connector syncs. */
module Baton {
  import opened Paging
  import opened Decimal
  import opened Outcomes

  const UserType := "user"
  const RoleType := "role"
  const AppType := "app"
  const GroupType := "group"

  /** The entitlement slugs, and the tag of the role-admins phase. */
  const RoleMembership := "member"
  const RoleAdmin := "admin"
  const AdminResourceId := "Admin"

  type PageSize = n: int | n > 0 witness 1

  /** The page size every list request asks for on the first page of a phase. Its value is
      set outside the files modelled here; only its being positive matters below. */
  const ResourcesPageSize: PageSize

  datatype ResourceId = ResourceId(resourceType: string, resource: string)

  /** Profile values: strings, or the numeric ids some profiles keep as numbers. */
  datatype Value = Text(s: string) | Number(n: int)

  datatype UserStatus = StatusDisabled | StatusEnabled | StatusDeleted | StatusUnspecified

  datatype Trait =
    | UserTrait(email: string, status: UserStatus)
    | RoleTrait
    | GroupTrait
    | AppTrait

  datatype Resource = Resource(id: ResourceId, displayName: string, traits: Trait, profile: map<string, Value>)

  datatype Entitlement = Entitlement(
    resource: Resource,
    slug: string,
    displayName: string,
    description: string,
    grantableTo: seq<string>)

  /** A grant of entitlement `slug` on `resource` to `principal`. */
  datatype Grant = Grant(resource: Resource, slug: string, principal: ResourceId)

  /** The principal of a grant to the OneLogin user with numeric id `id`. */
  function UserPrincipal(id: int): (p: ResourceId)
    ensures p.resourceType == UserType && Atoi(p.resource) == Some(id)
  {
    ItoaRoundTrip(id);
    ResourceId(UserType, Itoa(id))
  }
}
