/** The request layer (src/services/githubApi.ts): the paths and query parameters each GET is built from,
    and the shaping of a user-search response. The transport itself is not modelled: a response or a
    failure is an input to whoever awaits it. */
module GithubApi {
  import opened Common

  /** Origin every relative path is resolved against. */
  const BaseUrl: string := "https://api.github.com"
  /** Default of the `page` parameter. */
  const DefaultPage: int := 1
  /** Default of the `perPage` parameter. */
  const DefaultPerPage: int := 10

  datatype ParamValue = Text(text: string) | Number(number: int)
  datatype Param = Param(name: string, value: ParamValue)

  /** A GET as handed to the HTTP client: a path and its query parameters, in order. */
  datatype Request = Request(path: string, params: seq<Param>)

  /** One entry of a user search. */
  datatype GitHubUser = GitHubUser(id: int, login: string, avatarUrl: string)

  /** The profile fields the views read; nullable fields are `Option`s. */
  datatype Profile = Profile(
    login: string,
    name: Option<string>,
    avatarUrl: string,
    bio: Option<string>,
    company: Option<string>,
    location: Option<string>,
    blog: Option<string>,
    publicRepos: int,
    followers: int,
    following: int,
    publicGists: int,
    createdAt: string,
    htmlUrl: string)

  /** The body of a user-search response: `items` and `total_count`. */
  datatype SearchResponse = SearchResponse(items: seq<GitHubUser>, totalCount: int)

  /** What `searchUsers` resolves to. */
  datatype SearchPage = SearchPage(users: seq<GitHubUser>, hasMore: bool)

  /** A JavaScript default parameter: the default stands in for an omitted argument. */
  function OrDefault(arg: Option<int>, default: int): (r: int)
    ensures arg.None? ==> r == default
    ensures arg.Some? ==> r == arg.value
  {
    if arg.Some? then arg.value else default
  }

  /** The value of the first query parameter called `name`, if there is one. */
  function Lookup(params: seq<Param>, name: string): Option<ParamValue>
  {
    if params == [] then None
    else if params[0].name == name then Some(params[0].value)
    else Lookup(params[1..], name)
  }

  const UsersPrefix: string := "/users/"
  const ReposSuffix: string := "/repos"

  /** `fetchUserProfile(username)`: GET `/users/<username>` with no query parameters. */
  function FetchUserProfile(username: string): (r: Request)
    ensures |r.path| == |UsersPrefix| + |username|
    ensures r.path[..|UsersPrefix|] == UsersPrefix && r.path[|UsersPrefix|..] == username
    ensures r.params == []
  {
    Request(UsersPrefix + username, [])
  }

  /** `fetchUserRepos(username, page = 1, perPage = 10)`: GET `/users/<username>/repos` with `per_page`,
      `page` and `sort = "updated"`. */
  function FetchUserRepos(username: string, page: Option<int>, perPage: Option<int>): (r: Request)
    ensures |r.path| == |UsersPrefix| + |username| + |ReposSuffix|
    ensures r.path[..|UsersPrefix|] == UsersPrefix
    ensures r.path[|UsersPrefix|..|UsersPrefix| + |username|] == username
    ensures r.path[|UsersPrefix| + |username|..] == ReposSuffix
    ensures |r.params| == 3
    ensures Lookup(r.params, "per_page") == Some(Number(OrDefault(perPage, DefaultPerPage)))
    ensures Lookup(r.params, "page") == Some(Number(OrDefault(page, DefaultPage)))
    ensures Lookup(r.params, "sort") == Some(Text("updated"))
  {
    var path := UsersPrefix + username + ReposSuffix;
    assert path[|UsersPrefix|..|UsersPrefix| + |username|] == username;
    var params := [
      Param("per_page", Number(OrDefault(perPage, DefaultPerPage))),
      Param("page", Number(OrDefault(page, DefaultPage))),
      Param("sort", Text("updated"))];
    assert Lookup(params[2..], "sort") == Some(Text("updated"));
    assert params[1..][1..] == params[2..];
    Request(path, params)
  }

  /** The GET `searchUsers(query, page = 1, perPage = 10)` issues: `/search/users` with `q`, `page` and
      `per_page`. */
  function SearchUsers(query: string, page: Option<int>, perPage: Option<int>): (r: Request)
    ensures r.path == "/search/users"
    ensures |r.params| == 3
    ensures Lookup(r.params, "q") == Some(Text(query))
    ensures Lookup(r.params, "page") == Some(Number(OrDefault(page, DefaultPage)))
    ensures Lookup(r.params, "per_page") == Some(Number(OrDefault(perPage, DefaultPerPage)))
  {
    var params := [
      Param("q", Text(query)),
      Param("page", Number(OrDefault(page, DefaultPage))),
      Param("per_page", Number(OrDefault(perPage, DefaultPerPage)))];
    assert Lookup(params[2..], "per_page") == Some(Number(OrDefault(perPage, DefaultPerPage)));
    assert params[1..][1..] == params[2..];
    Request("/search/users", params)
  }

  /** More results remain once `page` pages of `perPage` entries are shown. */
  predicate HasMore(totalCount: int, page: int, perPage: int)
  {
    totalCount > page * perPage
  }

  /** What `searchUsers(query, page, perPage)` resolves to for a response body: the items as they came,
      and whether results remain beyond the pages requested so far. */
  function ShapeSearchResponse(response: SearchResponse, page: Option<int>, perPage: Option<int>): (r: SearchPage)
    ensures r.users == response.items
    ensures r.hasMore <==> response.totalCount > OrDefault(page, DefaultPage) * OrDefault(perPage, DefaultPerPage)
  {
    SearchPage(response.items, HasMore(response.totalCount, OrDefault(page, DefaultPage), OrDefault(perPage, DefaultPerPage)))
  }

  /** With both parameters left to their defaults, more results remain exactly when there are over 10. */
  lemma DefaultHasMore(response: SearchResponse)
    ensures ShapeSearchResponse(response, None, None).hasMore <==> response.totalCount > 10
  {
  }

  /** Once a page reports that nothing remains, every later page reports the same. */
  lemma NoMoreStaysNoMore(response: SearchResponse, p: int, q: int, perPage: int)
    requires 0 < perPage && p <= q
    requires !ShapeSearchResponse(response, Some(p), Some(perPage)).hasMore
    ensures !ShapeSearchResponse(response, Some(q), Some(perPage)).hasMore
  {
    assert q * perPage - p * perPage == (q - p) * perPage;
  }

  /** Different usernames never share a profile request. */
  lemma ProfileRequestInjective(a: string, b: string)
    requires FetchUserProfile(a) == FetchUserProfile(b)
    ensures a == b
  {
    assert a == FetchUserProfile(a).path[|UsersPrefix|..];
  }

  /** The username is interpolated without escaping: the profile path of `a + "/repos"` is the repository
      path of `a`. */
  lemma ProfilePathCanSpellReposPath(a: string)
    ensures FetchUserProfile(a + ReposSuffix).path == FetchUserRepos(a, None, None).path
  {
    assert UsersPrefix + (a + ReposSuffix) == UsersPrefix + a + ReposSuffix;
  }
}
