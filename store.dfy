/** The store (src/redux/store.ts) as the two slices side by side, and the commands the components dispatch
    into it. Dispatching a thunk (`fetchUser`, `fetchRepos`) runs its `pending` case at once and starts its
    request; the `fulfilled` or `rejected` case arrives later as a separate settle event. */
module Store {
  import opened Common
  import GithubApi
  import RepoSlice
  import UserSlice

  datatype AppState = AppState(user: UserSlice.UserState, repos: RepoSlice.RepoState)

  const InitialState: AppState := AppState(UserSlice.InitialState, RepoSlice.InitialState)

  /** What a component hands to `dispatch`: a plain action or a thunk with its argument. */
  datatype Command =
    | ClearUser
    | ClearRepos
    | ResetPage
    | NextPage
    | FetchUser(username: string)
    | FetchRepos(args: RepoSlice.FetchReposArgs)

  /** The synchronous effect of dispatching one command. */
  function Dispatched(app: AppState, c: Command): AppState
  {
    match c
    case ClearUser => app.(user := UserSlice.Reduce(app.user, UserSlice.ClearUser))
    case ClearRepos => app.(repos := RepoSlice.Reduce(app.repos, RepoSlice.ClearRepos))
    case ResetPage => app.(repos := RepoSlice.Reduce(app.repos, RepoSlice.ResetPage))
    case NextPage => app.(repos := RepoSlice.Reduce(app.repos, RepoSlice.NextPage))
    case FetchUser(_) => app.(user := UserSlice.Reduce(app.user, UserSlice.Pending))
    case FetchRepos(_) => app.(repos := RepoSlice.Reduce(app.repos, RepoSlice.Pending))
  }

  function DispatchedAll(app: AppState, cs: seq<Command>): AppState
    decreases |cs|
  {
    if cs == [] then app else DispatchedAll(Dispatched(app, cs[0]), cs[1..])
  }

  /** The request a command starts, if it is a thunk. */
  function StartedRequest(c: Command): Option<GithubApi.Request>
  {
    match c
    case FetchUser(username) => Some(UserSlice.FetchUserRequest(username))
    case FetchRepos(args) => Some(RepoSlice.FetchReposRequest(args))
    case _ => None
  }

  /** The requests a sequence of commands starts, in order. */
  function StartedRequests(cs: seq<Command>): seq<GithubApi.Request>
    decreases |cs|
  {
    if cs == [] then []
    else (if StartedRequest(cs[0]).Some? then [StartedRequest(cs[0]).value] else []) + StartedRequests(cs[1..])
  }

  /** Dispatching `cs` and then `c` is dispatching `cs + [c]`. */
  lemma {:induction false} DispatchedAllSnoc(app: AppState, cs: seq<Command>, c: Command)
    ensures DispatchedAll(app, cs + [c]) == Dispatched(DispatchedAll(app, cs), c)
    decreases |cs|
  {
    if cs == [] {
      assert ([] + [c])[1..] == [];
    } else {
      assert (cs + [c])[1..] == cs[1..] + [c];
      DispatchedAllSnoc(Dispatched(app, cs[0]), cs[1..], c);
    }
  }

  /** What a commit dispatches, in order: `clearUser`, `clearRepos`, `resetPage`, `fetchUser(value)`,
      `fetchRepos({username: value})`. */
  function CommitCommands(value: string): seq<Command>
  {
    [ClearUser, ClearRepos, ResetPage, FetchUser(value), FetchRepos(RepoSlice.FetchReposArgs(value, None))]
  }

  /** Whatever the store held, a commit leaves both slices cleared and loading — the user slice with an
      empty username, the list empty on page 1 — and starts exactly one profile request and one request for
      page 1 of the repositories. */
  lemma CommitResetsBothSlices(app: AppState, value: string)
    ensures DispatchedAll(app, CommitCommands(value)) ==
      AppState(UserSlice.UserState(true, None, None, ""), RepoSlice.RepoState(true, None, [], 1))
    ensures StartedRequests(CommitCommands(value)) ==
      [GithubApi.FetchUserProfile(value), RepoSlice.FetchReposRequest(RepoSlice.FetchReposArgs(value, Some(1)))]
  {
    var cs := CommitCommands(value);
    assert cs == [ClearUser, ClearRepos, ResetPage, FetchUser(value)] + [cs[4]];
    assert [ClearUser, ClearRepos, ResetPage, FetchUser(value)] == [ClearUser, ClearRepos, ResetPage] + [FetchUser(value)];
    assert [ClearUser, ClearRepos, ResetPage] == [ClearUser, ClearRepos] + [ResetPage];
    assert [ClearUser, ClearRepos] == [ClearUser] + [ClearRepos];
    assert [ClearUser] == [] + [ClearUser];
    DispatchedAllSnoc(app, [], ClearUser);
    DispatchedAllSnoc(app, [ClearUser], ClearRepos);
    DispatchedAllSnoc(app, [ClearUser, ClearRepos], ResetPage);
    DispatchedAllSnoc(app, [ClearUser, ClearRepos, ResetPage], FetchUser(value));
    DispatchedAllSnoc(app, [ClearUser, ClearRepos, ResetPage, FetchUser(value)], cs[4]);
    assert cs[1..][1..][1..] == [FetchUser(value), cs[4]];
    assert cs[1..][1..][1..][1..] == [cs[4]];
    assert cs[1..][1..][1..][1..][1..] == [];
    assert StartedRequests(cs[1..][1..][1..][1..]) == [RepoSlice.FetchReposRequest(cs[4].args)];
    assert StartedRequests(cs[1..][1..][1..]) ==
      [UserSlice.FetchUserRequest(value), RepoSlice.FetchReposRequest(cs[4].args)];
    assert StartedRequests(cs[1..][1..]) == StartedRequests(cs[1..][1..][1..]);
    assert StartedRequests(cs[1..]) == StartedRequests(cs[1..][1..]);
    assert StartedRequests(cs) == StartedRequests(cs[1..]);
  }

  /** The user and repository updates of one settle event act on one slice each: a profile failure leaves
      the repository slice exactly as it was. */
  lemma SettleUserIsolated(app: AppState, username: string, outcome: HttpOutcome<GithubApi.Profile>)
    ensures UserSettles(app, username, outcome).repos == app.repos
    ensures outcome.Failure? ==> ErrorTruthy(UserSettles(app, username, outcome).user.error)
  {
    UserSlice.SettledUser(app.user, username, outcome);
  }

  /** The effect of the `fetchUser` thunk settling. */
  function UserSettles(app: AppState, username: string, outcome: HttpOutcome<GithubApi.Profile>): AppState
  {
    app.(user := UserSlice.Reduce(app.user, UserSlice.FetchUserSettled(username, outcome)))
  }

  /** The effect of the `fetchRepos` thunk settling. */
  function ReposSettle(app: AppState, outcome: HttpOutcome<seq<RepoSlice.Repo>>): AppState
  {
    app.(repos := RepoSlice.Reduce(app.repos, RepoSlice.FetchReposSettled(outcome)))
  }

  /** The store object: one instance of each slice. */
  class AppStore {
    const user: UserSlice.UserStore
    const repos: RepoSlice.RepoStore

    function State(): AppState
      reads user, repos
    {
      AppState(user.State(), repos.State())
    }

    constructor ()
      ensures fresh(user) && fresh(repos)
      ensures State() == InitialState
    {
      user := new UserSlice.UserStore();
      repos := new RepoSlice.RepoStore();
    }

    /** `dispatch(c)`: runs the reducer case now and returns the request a thunk starts. */
    method Dispatch(c: Command) returns (request: Option<GithubApi.Request>)
      modifies user, repos
      ensures State() == Dispatched(old(State()), c)
      ensures request == StartedRequest(c)
    {
      match c {
        case ClearUser => user.ClearUser();
        case ClearRepos => repos.ClearRepos();
        case ResetPage => repos.ResetPage();
        case NextPage => repos.NextPage();
        case FetchUser(_) => user.OnPending();
        case FetchRepos(_) => repos.OnPending();
      }
      request := StartedRequest(c);
    }

    /** The five dispatches of a commit, in order, and the two requests they start. */
    method Commit(value: string) returns (dispatched: seq<Command>, requests: seq<GithubApi.Request>)
      modifies user, repos
      ensures dispatched == CommitCommands(value)
      ensures State() == DispatchedAll(old(State()), dispatched)
      ensures requests == StartedRequests(dispatched)
    {
      ghost var before := State();
      var _ := Dispatch(ClearUser);
      var _ := Dispatch(ClearRepos);
      var _ := Dispatch(ResetPage);
      var userRequest := Dispatch(FetchUser(value));
      var reposRequest := Dispatch(FetchRepos(RepoSlice.FetchReposArgs(value, None)));
      dispatched := CommitCommands(value);
      requests := [userRequest.value, reposRequest.value];
      CommitResetsBothSlices(before, value);
    }

    /** The `fetchUser(username)` request settles. */
    method SettleUser(username: string, outcome: HttpOutcome<GithubApi.Profile>)
      modifies user
      ensures State() == UserSettles(old(State()), username, outcome)
    {
      user.Dispatch(UserSlice.FetchUserSettled(username, outcome));
    }

    /** A `fetchRepos` request settles. */
    method SettleRepos(outcome: HttpOutcome<seq<RepoSlice.Repo>>)
      modifies repos
      ensures State() == ReposSettle(old(State()), outcome)
    {
      repos.Dispatch(RepoSlice.FetchReposSettled(outcome));
    }
  }
}
