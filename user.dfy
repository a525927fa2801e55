/** The user resource type: users are listed one page per call, each user is fetched again in
    full, and a manager's email comes from a cache of every user's email: a successful rebuild
    is reused for five minutes, and a failed one is rebuilt on the next call. */
module Users {
  import opened Outcomes
  import opened Models
  import opened Request
  import opened OneLogin
  import opened Paging
  import opened Baton
  import opened Decimal

  // ---------------------------------------------------------------------------------------
  // Display name

  /** unicode.IsSpace: the Latin-1 spaces and the other White_Space code points. */
  predicate IsSpace(ch: char) {
    || ch == ' ' || ch == '\t' || ch == '\n' || ch == '\U{000B}' || ch == '\U{000C}' || ch == '\r'
    || ch == '\U{0085}' || ch == '\U{00A0}' || ch == '\U{1680}'
    || ('\U{2000}' <= ch <= '\U{200A}')
    || ch == '\U{2028}' || ch == '\U{2029}' || ch == '\U{202F}' || ch == '\U{205F}' || ch == '\U{3000}'
  }

  /** Every character of `s` is a space (vacuously so for the empty string). */
  predicate Blank(s: string) {
    forall i :: 0 <= i < |s| ==> IsSpace(s[i])
  }

  /** `s` without its leading spaces. */
  function TrimLeft(s: string): (t: string)
    ensures |t| <= |s| && t == s[|s| - |t|..]
    ensures t != "" ==> !IsSpace(t[0])
    ensures Blank(s[..|s| - |t|])
    decreases |s|
  {
    if s != "" && IsSpace(s[0]) then
      var t := TrimLeft(s[1..]);
      assert s[..|s| - |t|] == [s[0]] + s[1..][..|s[1..]| - |t|];
      t
    else s
  }

  /** `s` without its trailing spaces. */
  function TrimRight(s: string): (t: string)
    ensures |t| <= |s| && t == s[..|t|]
    ensures t != "" ==> !IsSpace(t[|t| - 1])
    ensures Blank(s[|t|..])
    decreases |s|
  {
    if s != "" && IsSpace(s[|s| - 1]) then
      var t := TrimRight(s[..|s| - 1]);
      assert s[|t|..] == s[..|s| - 1][|t|..] + [s[|s| - 1]];
      t
    else s
  }

  /** strings.TrimSpace: nothing is left exactly when the string is all spaces. */
  function TrimSpace(s: string): (t: string)
    ensures t == "" <==> Blank(s)
    ensures t != "" ==> !IsSpace(t[0]) && !IsSpace(t[|t| - 1])
  {
    var l := TrimLeft(s);
    assert l != "" ==> l[0] == s[|s| - |l|];
    assert l == "" ==> s[..|s| - |l|] == s;
    var t := TrimRight(l);
    assert t == "" ==> l[|t|..] == l;
    t
  }

  /** strings.TrimSpace removes exactly a blank prefix and a blank suffix. */
  lemma TrimSpaceParts(s: string)
    ensures exists a, b :: Blank(a) && Blank(b) && s == a + TrimSpace(s) + b
  {
    var l := TrimLeft(s);
    var t := TrimRight(l);
    var a, b := s[..|s| - |l|], l[|t|..];
    Reassemble(s, l, t);
    assert TrimSpace(s) == t;
    assert Blank(a) && Blank(b) && s == a + t + b;
  }

  /** A suffix `l` of `s`, and a prefix `t` of `l`, put back between what they left out. */
  lemma Reassemble(s: string, l: string, t: string)
    requires |l| <= |s| && l == s[|s| - |l|..]
    requires |t| <= |l| && t == l[..|t|]
    ensures s == s[..|s| - |l|] + t + l[|t|..]
  {
    assert s == s[..|s| - |l|] + l;
    assert l == t + l[|t|..];
  }

  /** First and last name joined by one space are blank exactly when both names are. */
  lemma BlankJoin(first: string, last: string)
    ensures Blank(first + " " + last) <==> Blank(first) && Blank(last)
  {
    var joined := first + " " + last;
    if Blank(joined) {
      forall i | 0 <= i < |first| ensures IsSpace(first[i]) {
        assert first[i] == joined[i];
      }
      forall i | 0 <= i < |last| ensures IsSpace(last[i]) {
        assert last[i] == joined[|first| + 1 + i];
      }
    }
    if Blank(first) && Blank(last) {
      forall i | 0 <= i < |joined| ensures IsSpace(joined[i]) {
        if i < |first| {
          assert joined[i] == first[i];
        } else if i > |first| {
          assert joined[i] == last[i - |first| - 1];
        }
      }
    }
  }

  /** resolveDisplayName: the username when set; otherwise first and last name, unless they
      are both blank, in which case the email. */
  function ResolveDisplayName(user: User): (name: string)
    ensures user.username != "" ==> name == user.username
    ensures user.username == "" && Blank(user.firstname) && Blank(user.lastname) ==> name == user.email
    ensures user.username == "" && !(Blank(user.firstname) && Blank(user.lastname)) ==>
      name == user.firstname + " " + user.lastname
    // a blank name is never the joined names: only a blank username or email shows through
    ensures Blank(name) ==> name == user.username || name == user.email
  {
    BlankJoin(user.firstname, user.lastname);
    if user.username != "" then user.username
    else
      var name := user.firstname + " " + user.lastname;
      if TrimSpace(name) == "" then user.email else name
  }

  // ---------------------------------------------------------------------------------------
  // The user resource

  /** The trait status of a OneLogin status code: 0, 1 and 2 are disabled, enabled and
      deleted; every other code is unspecified. */
  function StatusOf(status: int): (s: UserStatus)
    ensures s == StatusDisabled <==> status == 0
    ensures s == StatusEnabled <==> status == 1
    ensures s == StatusDeleted <==> status == 2
    ensures s == StatusUnspecified <==> status !in {0, 1, 2}
  {
    if status == 0 then StatusDisabled
    else if status == 1 then StatusEnabled
    else if status == 2 then StatusDeleted
    else StatusUnspecified
  }

  /** buildUserProfile: the four fixed keys, the manager's id only when there is one, and the
      manager's email only when it is not empty; the ids are written in decimal. */
  function BuildUserProfile(displayName: string, firstName: string, lastName: string,
                            managerId: Option<int>, managerEmail: string, id: int): (p: map<string, Value>)
    ensures p.Keys == {"login", "user_id", "first_name", "last_name"}
                      + (if managerId.Some? then {"manager_user_id"} else {})
                      + (if managerEmail != "" then {"manager_email"} else {})
    ensures p["login"] == Text(displayName)
    ensures p["first_name"] == Text(firstName) && p["last_name"] == Text(lastName)
    ensures p["user_id"].Text? && Atoi(p["user_id"].s) == Some(id)
    ensures managerId.Some? ==> p["manager_user_id"].Text? && Atoi(p["manager_user_id"].s) == Some(managerId.value)
    ensures managerEmail != "" ==> p["manager_email"] == Text(managerEmail)
  {
    ItoaRoundTrip(id);
    var base := map["login" := Text(displayName), "user_id" := Text(Itoa(id)),
                    "first_name" := Text(firstName), "last_name" := Text(lastName)];
    var withId :=
      if managerId.Some? then
        ItoaRoundTrip(managerId.value);
        base["manager_user_id" := Text(Itoa(managerId.value))]
      else base;
    if managerEmail != "" then withId["manager_email" := Text(managerEmail)] else withId
  }

  /** parseIntoUserResource: a resource of type "user" under the user's numeric id, named by
      its display name, with its email and status in the trait and its profile. */
  function UserResource(user: User): (r: Resource)
    ensures r.id == UserPrincipal(user.id)
    ensures r.displayName == ResolveDisplayName(user)
    ensures r.traits == UserTrait(user.email, StatusOf(user.status))
    ensures "login" in r.profile && r.profile["login"] == Text(r.displayName)
    ensures r.profile == BuildUserProfile(r.displayName, user.firstname, user.lastname, user.managerId, user.managerEmail, user.id)
    ensures "manager_email" in r.profile <==> user.managerEmail != ""
    ensures user.managerEmail != "" ==> r.profile["manager_email"] == Text(user.managerEmail)
    ensures "manager_user_id" in r.profile <==> user.managerId.Some?
  {
    var name := ResolveDisplayName(user);
    Resource(UserPrincipal(user.id), name, UserTrait(user.email, StatusOf(user.status)),
             BuildUserProfile(name, user.firstname, user.lastname, user.managerId, user.managerEmail, user.id))
  }

  // ---------------------------------------------------------------------------------------
  // The email cache

  /** usersCacheTTL: five minutes, in nanoseconds. */
  const UsersCacheTTL: int := 5 * 60 * 1_000_000_000

  /** Every user listing, in the cache as in List, asks for the page size and takes the
      cursor as a v2 header cursor. */
  function PageVars(cursor: string): PaginationVars {
    PaginationVars(ResourcesPageSize, cursor, "")
  }

  /** The unfiltered user listing. */
  function UsersFetch(c: Client): string -> Result<(seq<User>, string)> {
    (cursor: string) => GetUsers(c, PageVars(cursor), "")
  }

  /** The cache after the users of one page were written into `cache` in order: each id maps
      to its email, a later user overriding an earlier one with the same id. */
  function Recorded(cache: map<int, string>, users: seq<User>): map<int, string>
    decreases |users|
  {
    if users == [] then cache
    else Recorded(cache[users[0].id := users[0].email], users[1..])
  }

  /** The cache holds the ids it held and the listed ids, and no other; an id no listed user
      has keeps its email. */
  lemma {:induction false} RecordedKeys(cache: map<int, string>, users: seq<User>)
    ensures Recorded(cache, users).Keys == cache.Keys + (set u | u in users :: u.id)
    ensures forall id :: id in cache && (forall u | u in users :: u.id != id) ==> Recorded(cache, users)[id] == cache[id]
    decreases |users|
  {
    if users != [] {
      RecordedKeys(cache[users[0].id := users[0].email], users[1..]);
      assert users == [users[0]] + users[1..];
      assert (set u | u in users :: u.id) == {users[0].id} + (set u | u in users[1..] :: u.id);
    }
  }

  /** The last user listed with an id decides its email. */
  lemma {:induction false} RecordedLastWins(cache: map<int, string>, users: seq<User>, i: int)
    requires 0 <= i < |users|
    requires forall j :: i < j < |users| ==> users[j].id != users[i].id
    ensures users[i].id in Recorded(cache, users) && Recorded(cache, users)[users[i].id] == users[i].email
    decreases |users|
  {
    RecordedKeys(cache, users);
    if i > 0 {
      RecordedLastWins(cache[users[0].id := users[0].email], users[1..], i - 1);
    } else {
      var next := cache[users[0].id := users[0].email];
      forall u | u in users[1..] ensures u.id != users[0].id {
        var j :| 0 <= j < |users[1..]| && users[1..][j] == u;
        assert users[j + 1] == u;
      }
      RecordedKeys(next, users[1..]);
    }
  }

  /** Writing two runs of users one after the other is writing their concatenation. */
  lemma {:induction false} RecordedAppend(cache: map<int, string>, xs: seq<User>, ys: seq<User>)
    ensures Recorded(Recorded(cache, xs), ys) == Recorded(cache, xs + ys)
    decreases |xs|
  {
    if xs == [] {
      assert xs + ys == ys;
    } else {
      RecordedAppend(cache[xs[0].id := xs[0].email], xs[1..], ys);
      assert (xs + ys)[1..] == xs[1..] + ys;
    }
  }

  /** The cache the cursor walk from `cursor` builds onto `cache`, and the error that stopped
      it, if a request failed: the pages fetched before the failure stay written. */
  function Load(fetch: string -> Result<(seq<User>, string)>, cursor: string, cache: map<int, string>, n: nat): (r: (map<int, string>, Option<Error>))
    requires Ends(fetch, cursor, n)
    decreases n
  {
    match fetch(cursor)
    case Failure(e) => (cache, Some(e))
    case Success(page) =>
      if page.1 == "" then (Recorded(cache, page.0), None)
      else Load(fetch, page.1, Recorded(cache, page.0), n - 1)
  }

  /** The walk's outcome does not depend on the bound it was given. */
  lemma {:induction false} LoadBound(fetch: string -> Result<(seq<User>, string)>, cursor: string, cache: map<int, string>, n: nat, m: nat)
    requires Ends(fetch, cursor, n) && Ends(fetch, cursor, m)
    ensures Load(fetch, cursor, cache, n) == Load(fetch, cursor, cache, m)
    decreases n
  {
    if fetch(cursor).Success? && fetch(cursor).value.1 != "" {
      LoadBound(fetch, fetch(cursor).value.1, Recorded(cache, fetch(cursor).value.0), n - 1, m - 1);
    }
  }

  /** A walk over a chain of pages succeeds and writes every user of every page, in order. */
  lemma {:induction false} LoadChain(fetch: string -> Result<(seq<User>, string)>, cursor: string, cache: map<int, string>, pages: seq<seq<User>>)
    requires Chain(fetch, cursor, pages)
    ensures Ends(fetch, cursor, |pages|)
    ensures Load(fetch, cursor, cache, |pages|) == (Recorded(cache, Flatten(pages)), None)
    decreases |pages|
  {
    ChainEnds(fetch, cursor, pages);
    if |pages| == 1 {
      assert Flatten(pages) == pages[0] + [];
      assert pages[0] + [] == pages[0];
    } else {
      var next := fetch(cursor).value.1;
      LoadChain(fetch, next, Recorded(cache, pages[0]), pages[1..]);
      RecordedAppend(cache, pages[0], Flatten(pages[1..]));
    }
  }

  /** The user listing stops, after some number of requests. */
  ghost predicate Stops(fetch: string -> Result<(seq<User>, string)>) {
    exists n :: Ends(fetch, "", n)
  }

  /** A bound on the number of requests a stopping listing makes. */
  lemma StopsWithin(fetch: string -> Result<(seq<User>, string)>) returns (n: nat)
    requires Stops(fetch)
    ensures Ends(fetch, "", n)
  {
    n :| Ends(fetch, "", n);
  }

  /** The cache a refresh builds from an empty map, and its error: the same whatever bound
      shows that the walk stops. */
  ghost function CacheLoad(fetch: string -> Result<(seq<User>, string)>): (r: (map<int, string>, Option<Error>))
    requires Stops(fetch)
    ensures forall n :: Ends(fetch, "", n) ==> r == Load(fetch, "", map[], n)
  {
    var n :| Ends(fetch, "", n);
    forall m | Ends(fetch, "", m) ensures Load(fetch, "", map[], n) == Load(fetch, "", map[], m) {
      LoadBound(fetch, "", map[], n, m);
    }
    Load(fetch, "", map[], n)
  }

  /** The cache is in use at time `now`: it exists and was completed less than the TTL
      before. A never-completed cache has no timestamp (the zero time, older than any TTL). */
  predicate IsFresh(users: Option<map<int, string>>, stamp: Option<int>, now: int) {
    users.Some? && stamp.Some? && now - stamp.value < UsersCacheTTL
  }

  /** The cache's map and the time its last complete rebuild finished. */
  datatype CacheState = CacheState(users: Option<map<int, string>>, stamp: Option<int>) {
    /** Only a cache that exists has been stamped. */
    predicate Consistent() {
      users.None? ==> stamp.None?
    }
  }

  /** What refreshUserCache does to the cache at time `now`, completing at time `finished`:
      nothing while it is fresh; otherwise the map is rebuilt from the whole user listing, and
      only a rebuild that reaches the end of the listing is stamped. */
  ghost function Refresh(fetch: string -> Result<(seq<User>, string)>, s: CacheState, now: int, finished: int): (r: (CacheState, Result<()>))
    requires IsFresh(s.users, s.stamp, now) || Stops(fetch)
    ensures r.1.Success? ==> r.0.users.Some?
    ensures s.Consistent() ==> r.0.Consistent()
    ensures IsFresh(s.users, s.stamp, now) ==> r == (s, Success(()))
    ensures !IsFresh(s.users, s.stamp, now) ==> r.0.stamp == (if r.1.Success? then Some(finished) else s.stamp)
  {
    if IsFresh(s.users, s.stamp, now) then (s, Success(()))
    else
      var (cache, err) := CacheLoad(fetch);
      if err.Some? then (CacheState(Some(cache), s.stamp), Failure(err.value))
      else (CacheState(Some(cache), Some(finished)), Success(()))
  }

  /** A completed rebuild is in use until the TTL has passed since it completed. */
  lemma RefreshFresh(fetch: string -> Result<(seq<User>, string)>, s: CacheState, now: int, finished: int, later: int)
    requires !IsFresh(s.users, s.stamp, now) && Stops(fetch)
    requires Refresh(fetch, s, now, finished).1.Success?
    requires finished <= later < finished + UsersCacheTTL
    ensures var s' := Refresh(fetch, s, now, finished).0;
      IsFresh(s'.users, s'.stamp, later)
  {
  }

  /** A failed rebuild is never in use: it keeps the old stamp, which had already expired, so
      the next call rebuilds again. */
  lemma RefreshFailureStale(fetch: string -> Result<(seq<User>, string)>, s: CacheState, now: int, finished: int, later: int)
    requires !IsFresh(s.users, s.stamp, now) && Stops(fetch)
    requires s.Consistent() && Refresh(fetch, s, now, finished).1.Failure?
    requires later >= now
    ensures var s' := Refresh(fetch, s, now, finished).0;
      !IsFresh(s'.users, s'.stamp, later)
  {
  }

  /** Over a backend that serves the user listing as a chain of pages, a rebuild succeeds,
      and its cache maps the id of every listed user to the email of the last user listed
      with that id, and holds no other id. */
  lemma RefreshChain(fetch: string -> Result<(seq<User>, string)>, s: CacheState, now: int, finished: int, pages: seq<seq<User>>)
    requires !IsFresh(s.users, s.stamp, now) && Chain(fetch, "", pages)
    ensures Stops(fetch)
    ensures var (s', r) := Refresh(fetch, s, now, finished);
      && r.Success? && s'.stamp == Some(finished)
      && s'.users.value.Keys == (set u | u in Flatten(pages) :: u.id)
      && forall i :: 0 <= i < |Flatten(pages)| && (forall j :: i < j < |Flatten(pages)| ==> Flatten(pages)[j].id != Flatten(pages)[i].id) ==>
           s'.users.value[Flatten(pages)[i].id] == Flatten(pages)[i].email
  {
    LoadChain(fetch, "", map[], pages);
    RecordedKeys(map[], Flatten(pages));
    forall i | 0 <= i < |Flatten(pages)| && (forall j :: i < j < |Flatten(pages)| ==> Flatten(pages)[j].id != Flatten(pages)[i].id)
      ensures Recorded(map[], Flatten(pages))[Flatten(pages)[i].id] == Flatten(pages)[i].email
    {
      RecordedLastWins(map[], Flatten(pages), i);
    }
  }

  // ---------------------------------------------------------------------------------------
  // Listing

  /** A fully fetched user with its manager's email taken from the cache when the cache knows
      the manager; otherwise the email the user record carried. */
  function WithManagerEmail(user: User, cache: map<int, string>): (u: User)
    ensures u.(managerEmail := user.managerEmail) == user
    ensures user.managerId.Some? && user.managerId.value in cache ==> u.managerEmail == cache[user.managerId.value]
    ensures !(user.managerId.Some? && user.managerId.value in cache) ==> u == user
  {
    if user.managerId.Some? && user.managerId.value in cache then user.(managerEmail := cache[user.managerId.value])
    else user
  }

  /** The resource of one listed user: the user fetched again by id, with the manager's
      email from the cache; none when the fetch fails. */
  function Detail(c: Client, cache: map<int, string>, listed: User): (r: Option<Resource>)
    ensures r.Some? <==> GetUserById(c, listed.id).Success?
    ensures r.Some? ==> r.value == UserResource(WithManagerEmail(GetUserById(c, listed.id).value, cache))
  {
    match GetUserById(c, listed.id)
    case Failure(_) => None
    case Success(full) => Some(UserResource(WithManagerEmail(full, cache)))
  }

  /** The resources of one page of listed users: a user whose fetch fails is skipped, the
      others become resources in listing order. */
  function Detailed(c: Client, cache: map<int, string>, listed: seq<User>): seq<Resource>
    decreases |listed|
  {
    if listed == [] then []
    else
      var rest := Detailed(c, cache, listed[1..]);
      match Detail(c, cache, listed[0])
      case None => rest
      case Some(r) => [r] + rest
  }

  /** A page loses exactly the users whose fetch fails, and shows only users. */
  lemma {:induction false} DetailedShape(c: Client, cache: map<int, string>, listed: seq<User>)
    ensures |Detailed(c, cache, listed)| <= |listed|
    ensures |Detailed(c, cache, listed)| == |listed| <==> forall i :: 0 <= i < |listed| ==> Detail(c, cache, listed[i]).Some?
    ensures forall r | r in Detailed(c, cache, listed) :: r.id.resourceType == UserType
    decreases |listed|
  {
    if listed != [] {
      DetailedShape(c, cache, listed[1..]);
      assert forall i :: 1 <= i < |listed| ==> listed[i] == listed[1..][i - 1];
    }
  }

  /** The manager's email a listed user is shown with: the cached email when the cache knows
      the manager (no email at all when the cached one is empty), otherwise the email the full
      record carried. */
  lemma ManagerEmailFromCache(c: Client, cache: map<int, string>, listed: User)
    requires GetUserById(c, listed.id).Success?
    ensures Detail(c, cache, listed).Some?
    ensures var full := GetUserById(c, listed.id).value;
      var r := Detail(c, cache, listed).value;
      && r.id == UserPrincipal(full.id)
      && (full.managerId.Some? && full.managerId.value in cache ==>
            && (cache[full.managerId.value] != "" ==>
                  "manager_email" in r.profile && r.profile["manager_email"] == Text(cache[full.managerId.value]))
            && (cache[full.managerId.value] == "" ==> "manager_email" !in r.profile))
      && (!(full.managerId.Some? && full.managerId.value in cache) ==>
            && ("manager_email" in r.profile <==> full.managerEmail != "")
            && (full.managerEmail != "" ==> r.profile["manager_email"] == Text(full.managerEmail)))
  {
  }

  /** What one List call returns, given the cache: one page of the listing at the token's
      cursor, each user fetched in full and converted, and the token advanced. */
  function ListPage(c: Client, cache: map<int, string>, token: Token): (r: Result<Page<Resource>>)
    ensures r.Success? <==> UsersFetch(c)(Top(Seed(token, UserType)).cursor).Success?
    ensures r.Success? ==> r.value.nextToken == Advance(Seed(token, UserType), UsersFetch(c)(Top(Seed(token, UserType)).cursor).value.1)
    // the users of the page whose fetch by id succeeds, in listing order (see DetailedShape)
    ensures r.Success? ==> r.value.items == Detailed(c, cache, UsersFetch(c)(Top(Seed(token, UserType)).cursor).value.0)
  {
    var frames := Seed(token, UserType);
    var page :- UsersFetch(c)(Top(frames).cursor);
    Success(Page(Detailed(c, cache, page.0), Advance(frames, page.1)))
  }

  /** One request of the unfiltered user listing. */
  method FetchUsers(c: Client, cursor: string) returns (r: Result<(seq<User>, string)>)
    // the unfiltered listing (no group) at `cursor`, decided as every header-cursor page is
    ensures HeaderPage(c.server.users(BuildRequest(c, Get, Users, None, UsersQuery(PageVars(cursor), ""))), r)
    ensures r == UsersFetch(c)(cursor)
  {
    r := GetUsers(c, PageVars(cursor), "");
  }

  /** The loop body of List for one listed user: the full record, its manager's email from
      the cache, and the resource; a failed fetch is skipped. */
  method DetailOf(c: Client, cache: map<int, string>, listed: User) returns (r: Option<Resource>)
    ensures r == Detail(c, cache, listed)
  {
    var full := GetUserById(c, listed.id);
    if full.Failure? {
      return None;
    }
    var user := full.value;
    if user.managerId.Some? {
      if user.managerId.value in cache {
        user := user.(managerEmail := cache[user.managerId.value]);
      }
    }
    return Some(UserResource(user));
  }

  /** The loop of List over one page of listed users. */
  method DetailAll(c: Client, cache: map<int, string>, listed: seq<User>) returns (rv: seq<Resource>)
    ensures rv == Detailed(c, cache, listed)
  {
    rv := [];
    var i := 0;
    while i < |listed|
      invariant 0 <= i <= |listed|
      invariant rv + Detailed(c, cache, listed[i..]) == Detailed(c, cache, listed)
    {
      var one := DetailOf(c, cache, listed[i]);
      assert listed[i..][1..] == listed[i + 1..];
      ghost var rest := Detailed(c, cache, listed[i + 1..]);
      if one.Some? {
        assert Detailed(c, cache, listed[i..]) == [one.value] + rest;
        assert (rv + [one.value]) + rest == rv + ([one.value] + rest);
        rv := rv + [one.value];
      } else {
        assert Detailed(c, cache, listed[i..]) == rest;
      }
      i := i + 1;
    }
    assert listed[|listed|..] == [];
  }

  /** List once the cache is settled: one page of the listing at the token's cursor, each
      user fetched in full, and the token advanced. */
  method ListWith(c: Client, cache: map<int, string>, token: Token) returns (r: Result<Page<Resource>>)
    ensures r == ListPage(c, cache, token)
  {
    var bag := new Bag.Parse(token, UserType);
    var cursor := bag.PageToken();
    var fetched := FetchUsers(c, cursor);
    assert fetched == UsersFetch(c)(Top(Seed(token, UserType)).cursor);
    if fetched.Failure? {
      return Failure(fetched.error);
    }
    var listed := fetched.value.0;
    var rv := DetailAll(c, cache, listed);
    assert rv == Detailed(c, cache, listed);
    var nextPage := bag.NextToken(fetched.value.1);
    assert nextPage == Success(Advance(Seed(token, UserType), fetched.value.1));
    r := Success(Page(rv, nextPage.value));
  }

  /** The user resource type's handler, holding the email cache between calls. */
  class UserSyncer {
    const client: Client
    var users: Option<map<int, string>>
    var usersTimestamp: Option<int>

    /** userBuilder: no cache yet. */
    constructor (client: Client)
      ensures this.client == client && users == None && usersTimestamp == None
    {
      this.client := client;
      users := None;
      usersTimestamp := None;
    }

    function State(): CacheState
      reads this
    {
      CacheState(users, usersTimestamp)
    }

    /** refreshUserCache, at time `now`, the rebuild completing at time `finished`. The
        listing must stop (fail or run out of cursors) for the rebuild to return. */
    method RefreshUserCache(now: int, finished: int) returns (r: Result<()>)
      requires IsFresh(users, usersTimestamp, now) || Stops(UsersFetch(client))
      modifies this
      ensures (State(), r) == Refresh(UsersFetch(client), old(State()), now, finished)
    {
      if users.Some? && usersTimestamp.Some? && now - usersTimestamp.value < UsersCacheTTL {
        return Success(());
      }
      ghost var fetch := UsersFetch(client);
      ghost var n := StopsWithin(fetch);
      users := Some(map[]);
      var cursor := "";
      ghost var fuel := n;
      while true
        invariant users.Some? && usersTimestamp == old(usersTimestamp)
        invariant Ends(fetch, cursor, fuel)
        invariant Load(fetch, cursor, users.value, fuel) == Load(fetch, "", map[], n)
        decreases fuel
      {
        var fetched := FetchUsers(client, cursor);
        if fetched.Failure? {
          return Failure(fetched.error);
        }
        var page := fetched.value.0;
        ghost var before := users.value;
        var i := 0;
        while i < |page|
          invariant 0 <= i <= |page| && users.Some? && usersTimestamp == old(usersTimestamp)
          invariant Recorded(users.value, page[i..]) == Recorded(before, page)
        {
          users := Some(users.value[page[i].id := page[i].email]);
          assert page[i..][1..] == page[i + 1..];
          i := i + 1;
        }
        if fetched.value.1 == "" {
          break;
        }
        cursor := fetched.value.1;
        fuel := fuel - 1;
      }
      usersTimestamp := Some(finished);
      return Success(());
    }

    /** List, at time `now`: the cache is refreshed first, and its failure fails the call;
        then one page of users is listed and shown with their managers' cached emails. */
    method List(now: int, finished: int, token: Token) returns (r: Result<Page<Resource>>)
      requires IsFresh(users, usersTimestamp, now) || Stops(UsersFetch(client))
      modifies this
      ensures State() == Refresh(UsersFetch(client), old(State()), now, finished).0
      ensures var refreshed := Refresh(UsersFetch(client), old(State()), now, finished).1;
        && (refreshed.Failure? ==> r == Failure(refreshed.error))
        && (refreshed.Success? ==> r == ListPage(client, users.value, token))
    {
      var refreshed := RefreshUserCache(now, finished);
      if refreshed.Failure? {
        return Failure(refreshed.error);
      }
      r := ListWith(client, users.value, token);
    }
  }

  /** Users carry no entitlements. */
  function Entitlements(resource: Resource): (r: Page<Entitlement>)
    ensures r.items == [] && r.nextToken == []
  {
    Page([], [])
  }

  /** Users carry no grants. */
  function Grants(resource: Resource): (r: Page<Grant>)
    ensures r.items == [] && r.nextToken == []
  {
    Page([], [])
  }
}
