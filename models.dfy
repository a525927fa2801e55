/** The OneLogin API payloads the connector decodes. They carry no behaviour. */
module Models {
  import opened Outcomes

  datatype BaseResource = BaseResource(id: int)

  datatype User = User(
    id: int,
    username: string,
    email: string,
    firstname: string,
    lastname: string,
    status: int,
    managerId: Option<int>,   // absent in the payload: None (a nil `*int` in the Go client)
    managerEmail: string)

  datatype Role = Role(id: int, name: string, admins: seq<int>, users: seq<int>, apps: seq<int>)

  datatype UserUnderRole = UserUnderRole(id: int, username: string, email: string, name: string)

  datatype Credentials = Credentials(accessToken: string)

  datatype App = App(id: int, name: string, roleIds: seq<int>)

  datatype Group = Group(id: int, name: string)

  /** The body-embedded cursor envelope of the v1 groups endpoint. */
  datatype Pagination = Pagination(beforeCursor: string, afterCursor: string)

  datatype GroupsBody = GroupsBody(data: seq<Group>, pagination: Pagination)
}
