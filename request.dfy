/** Query parameters and request bodies of the OneLogin API client: the pagination and
    filter records, and how each one writes its keys into the request's query values. */
module Request {
  import opened Decimal

  /** url.Values restricted to what the client uses: `Set` leaves one value per key. */
  type Params = map<string, string>

  /** `key` holds `value` when `write`; otherwise `r` agrees with `m` at `key`. */
  ghost predicate WrittenAt(m: Params, r: Params, key: string, write: bool, value: string) {
    if write then key in r && r[key] == value
    else (key in r <==> key in m) && (key in m ==> r[key] == m[key])
  }

  /** A mutable set of query values, filled in place by the setters. */
  class QueryValues {
    var values: Params

    constructor ()
      ensures values == map[]
    {
      values := map[];
    }

    /** Replaces whatever `key` held by `value`. */
    method Set(key: string, value: string)
      modifies this
      ensures values == old(values)[key := value]
    {
      values := values[key := value];
    }
  }

  const PaginationKeys: set<string> := {"limit", "cursor", "after_cursor"}
  const FilterKeys: set<string> := {"fields", "group_id"}

  /** Page position for one request: `cursor` for the v2 header-cursor endpoints,
      `v1Cursor` for the v1 body-cursor endpoints. */
  datatype PaginationVars = PaginationVars(limit: int, cursor: string, v1Cursor: string) {

    /** The query values after this record's setup ran on `m`. */
    function AppliedTo(m: Params): (r: Params)
      // the page size goes only on the first request of a phase
      ensures WrittenAt(m, r, "limit", limit != 0 && cursor == "", Itoa(limit))
      ensures WrittenAt(m, r, "cursor", cursor != "", cursor)
      // the v1 cursor does not suppress the page size
      ensures WrittenAt(m, r, "after_cursor", v1Cursor != "", v1Cursor)
      ensures forall k :: k !in PaginationKeys ==> (k in r <==> k in m) && (k in m ==> r[k] == m[k])
    {
      var withLimit := if limit != 0 && cursor == "" then m["limit" := Itoa(limit)] else m;
      var withCursor := if cursor != "" then withLimit["cursor" := cursor] else withLimit;
      if v1Cursor != "" then withCursor["after_cursor" := v1Cursor] else withCursor
    }

    method Setup(params: QueryValues)
      modifies params
      ensures params.values == AppliedTo(old(params.values))
    {
      if limit != 0 && cursor == "" {
        params.Set("limit", Itoa(limit));
      }
      if cursor != "" {
        params.Set("cursor", cursor);
      }
      if v1Cursor != "" {
        params.Set("after_cursor", v1Cursor);
      }
    }
  }

  /** strings.Join */
  function Join(parts: seq<string>, sep: string): string
    decreases |parts|
  {
    if |parts| == 0 then ""
    else if |parts| == 1 then parts[0]
    else parts[0] + sep + Join(parts[1..], sep)
  }

  const UserFields: seq<string> := ["id", "email", "username", "firstname", "lastname", "status", "group_id"]

  datatype FilterVars = FilterVars(fields: seq<string>, groupId: string) {

    function AppliedTo(m: Params): (r: Params)
      ensures WrittenAt(m, r, "fields", |fields| != 0, Join(fields, ","))
      ensures WrittenAt(m, r, "group_id", groupId != "", groupId)
      ensures forall k :: k !in FilterKeys ==> (k in r <==> k in m) && (k in m ==> r[k] == m[k])
    {
      var withFields := if |fields| != 0 then m["fields" := Join(fields, ",")] else m;
      if groupId != "" then withFields["group_id" := groupId] else withFields
    }

    method Setup(params: QueryValues)
      modifies params
      ensures params.values == AppliedTo(old(params.values))
    {
      if |fields| != 0 {
        params.Set("fields", Join(fields, ","));
      }
      if groupId != "" {
        params.Set("group_id", groupId);
      }
    }
  }

  /** The field selection every user listing asks for, and no group. */
  function UserFilters(): (f: FilterVars)
    ensures f.fields == UserFields && f.groupId == ""
  {
    FilterVars(UserFields, "")
  }

  /** The group restriction of a user listing, and no field selection. */
  function GroupUsersFilters(groupId: string): (f: FilterVars)
    ensures f.fields == [] && f.groupId == groupId
  {
    FilterVars([], groupId)
  }

  /** strings.Split on a one-character separator: always at least one part. */
  function Split(s: string, sep: char): (parts: seq<string>)
    ensures |parts| > 0
    decreases |s|
  {
    if |s| == 0 then [""]
    else if s[0] == sep then [""] + Split(s[1..], sep)
    else
      var rest := Split(s[1..], sep);
      [[s[0]] + rest[0]] + rest[1..]
  }

  lemma {:induction false} SplitAfterPlainPrefix(p: string, t: string, sep: char)
    requires forall i :: 0 <= i < |p| ==> p[i] != sep
    ensures Split(p + t, sep) == [p + Split(t, sep)[0]] + Split(t, sep)[1..]
    decreases |p|
  {
    if |p| > 0 {
      assert (p + t)[1..] == p[1..] + t;
      SplitAfterPlainPrefix(p[1..], t, sep);
      assert [p[0]] + (p[1..] + Split(t, sep)[0]) == p + Split(t, sep)[0];
    } else {
      assert p + t == t;
      assert p + Split(t, sep)[0] == Split(t, sep)[0];
      assert [Split(t, sep)[0]] + Split(t, sep)[1..] == Split(t, sep);
    }
  }

  /** The server can recover the requested field list from the `fields` value:
      joining names that contain no separator and splitting again gives them back. */
  lemma {:induction false} JoinSplitRoundTrip(parts: seq<string>, sep: char)
    requires |parts| > 0
    requires forall j, i :: 0 <= j < |parts| && 0 <= i < |parts[j]| ==> parts[j][i] != sep
    ensures Split(Join(parts, [sep]), sep) == parts
    decreases |parts|
  {
    if |parts| == 1 {
      SplitAfterPlainPrefix(parts[0], "", sep);
      assert parts[0] + "" == parts[0];
    } else {
      var tail := Join(parts[1..], [sep]);
      JoinSplitRoundTrip(parts[1..], sep);
      assert Join(parts, [sep]) == parts[0] + ([sep] + tail);
      SplitAfterPlainPrefix(parts[0], [sep] + tail, sep);
      assert ([sep] + tail)[1..] == tail;
      assert parts[0] + "" == parts[0];
      assert [parts[0]] + parts[1..] == parts;
    }
  }

  /** The user field names contain no comma, so the `fields` value lists exactly them. */
  lemma UserFieldsRoundTrip()
    ensures Split(Join(UserFields, ","), ',') == UserFields
  {
    JoinSplitRoundTrip(UserFields, ',');
  }

  /** One argument of a request: either kind of record writes its own keys. */
  datatype QueryParam = PaginationParam(p: PaginationVars) | FilterParam(f: FilterVars) {
    function AppliedTo(m: Params): Params {
      match this
      case PaginationParam(p) => p.AppliedTo(m)
      case FilterParam(f) => f.AppliedTo(m)
    }

    method Setup(params: QueryValues)
      modifies params
      ensures params.values == AppliedTo(old(params.values))
    {
      match this
      case PaginationParam(p) => p.Setup(params);
      case FilterParam(f) => f.Setup(params);
    }
  }

  /** The query values after every argument's setup ran, in argument order, on `m`. */
  function ApplyAll(opts: seq<QueryParam>, m: Params): Params
    decreases |opts|
  {
    if opts == [] then m else ApplyAll(opts[1..], opts[0].AppliedTo(m))
  }

  datatype GrantBody = GrantBody(grantType: string)

  /** The body of the token request. */
  function NewCredentialsGrant(): (g: GrantBody)
    ensures g.grantType == "client_credentials"
  {
    GrantBody("client_credentials")
  }
}
