/** The repository-list slice (src/redux/slices/repoSlice.ts). `Reduce` is the slice's reducer as a function
    of the state and the action; `RepoStore` is the same slice as the source writes it, assigning the
    fields of its state in place. */
module RepoSlice {
  import opened Common
  import GithubApi

  datatype Repo = Repo(
    id: int,
    name: string,
    description: Option<string>,
    stargazersCount: int,
    language: Option<string>,
    htmlUrl: string)

  /** The slice's four fields. There is no `hasMore` field. */
  datatype RepoState = RepoState(loading: bool, error: Option<RejectValue>, repos: seq<Repo>, page: int)

  /** The three reducers and the three lifecycle cases of `fetchRepos`. */
  datatype RepoAction =
    | ClearRepos
    | NextPage
    | ResetPage
    | Pending
    | Fulfilled(payload: seq<Repo>)
    | Rejected(reason: RejectValue)

  const InitialState: RepoState := RepoState(false, None, [], 1)

  /** The reducer: each case assigns only the fields named in the source. */
  function Reduce(s: RepoState, a: RepoAction): RepoState
  {
    match a
    case ClearRepos => s.(repos := [], error := None, page := 1)
    case NextPage => s.(page := s.page + 1)
    case ResetPage => s.(page := 1)
    case Pending => s.(loading := true, error := None)
    case Fulfilled(payload) => s.(loading := false, repos := payload)
    case Rejected(reason) => s.(loading := false, error := Some(reason))
  }

  /** The state after a sequence of actions, dispatched in order. */
  function ReduceAll(s: RepoState, actions: seq<RepoAction>): RepoState
    decreases |actions|
  {
    if actions == [] then s else ReduceAll(Reduce(s, actions[0]), actions[1..])
  }

  /** The slice's invariant: the page cursor is positive, and a fetch in flight carries no error. */
  predicate Valid(s: RepoState)
  {
    s.page >= 1 && (s.loading ==> s.error == None)
  }

  /** Every action preserves the invariant. */
  lemma ReduceValid(s: RepoState, a: RepoAction)
    requires Valid(s)
    ensures Valid(Reduce(s, a))
  {
  }

  /** From a valid state, any sequence of actions keeps the invariant. */
  lemma {:induction false} ReduceAllValid(s: RepoState, actions: seq<RepoAction>)
    requires Valid(s)
    ensures Valid(ReduceAll(s, actions))
    decreases |actions|
  {
    if actions != [] {
      ReduceValid(s, actions[0]);
      ReduceAllValid(Reduce(s, actions[0]), actions[1..]);
    }
  }

  /** Every state reachable from the initial state has `page >= 1`, and is not loading while in error. */
  lemma ReachableValid(actions: seq<RepoAction>)
    ensures ReduceAll(InitialState, actions).page >= 1
    ensures ReduceAll(InitialState, actions).loading ==> ReduceAll(InitialState, actions).error == None
  {
    ReduceAllValid(InitialState, actions);
  }

  function Repeat(a: RepoAction, n: nat): (r: seq<RepoAction>)
    ensures |r| == n && forall i :: 0 <= i < n ==> r[i] == a
  {
    if n == 0 then [] else [a] + Repeat(a, n - 1)
  }

  /** `n` dispatches of `nextPage` advance the page by exactly `n` and change nothing else. */
  lemma {:induction false} NextPageRepeated(s: RepoState, n: nat)
    ensures ReduceAll(s, Repeat(NextPage, n)) == s.(page := s.page + n)
    decreases n
  {
    if n > 0 {
      assert Repeat(NextPage, n)[1..] == Repeat(NextPage, n - 1);
      NextPageRepeated(Reduce(s, NextPage), n - 1);
    }
  }

  /** `resetPage` is idempotent. */
  lemma ResetPageIdempotent(s: RepoState)
    ensures Reduce(Reduce(s, ResetPage), ResetPage) == Reduce(s, ResetPage)
  {
  }

  /** Actions other than `clearRepos` and `fulfilled` never touch the list: repositories already loaded stay
      there through any number of failed fetches. */
  lemma {:induction false} ListSurvivesFailures(s: RepoState, actions: seq<RepoAction>)
    requires forall i :: 0 <= i < |actions| ==> !actions[i].ClearRepos? && !actions[i].Fulfilled?
    ensures ReduceAll(s, actions).repos == s.repos
    decreases |actions|
  {
    if actions != [] {
      ListSurvivesFailures(Reduce(s, actions[0]), actions[1..]);
    }
  }

  /** `fulfilled` replaces the list: fetching a second page leaves exactly the second page's repositories. */
  lemma FulfilledReplaces(s: RepoState, first: seq<Repo>, second: seq<Repo>)
    ensures ReduceAll(s, [Pending, Fulfilled(first), NextPage, Pending, Fulfilled(second)]).repos == second
    ensures ReduceAll(s, [Pending, Fulfilled(first), NextPage, Pending, Fulfilled(second)]).page == s.page + 1
  {
    var acts := [Pending, Fulfilled(first), NextPage, Pending, Fulfilled(second)];
    var s1 := Reduce(s, Pending);
    var s2 := Reduce(s1, Fulfilled(first));
    var s3 := Reduce(s2, NextPage);
    var s4 := Reduce(s3, Pending);
    assert ReduceAll(s, acts) == ReduceAll(s1, acts[1..]);
    assert acts[1..][1..] == acts[2..];
    assert ReduceAll(s1, acts[1..]) == ReduceAll(s2, acts[2..]);
    assert acts[2..][1..] == acts[3..];
    assert ReduceAll(s2, acts[2..]) == ReduceAll(s3, acts[3..]);
    assert acts[3..][1..] == acts[4..];
    assert ReduceAll(s3, acts[3..]) == ReduceAll(s4, acts[4..]);
    assert acts[4..][1..] == [];
  }

  /** The arguments of `fetchRepos`; an omitted `page` means 1. */
  datatype FetchReposArgs = FetchReposArgs(username: string, page: Option<int>)

  /** The GET the `fetchRepos` thunk issues: the absolute repository URL, 10 per page, sorted by update. */
  function FetchReposRequest(args: FetchReposArgs): (r: GithubApi.Request)
    ensures r.path == GithubApi.BaseUrl + GithubApi.FetchUserRepos(args.username, None, None).path
    ensures r.params == GithubApi.FetchUserRepos(args.username, args.page, Some(10)).params
  {
    GithubApi.Request(GithubApi.BaseUrl + "/users/" + args.username + "/repos", [
      GithubApi.Param("per_page", GithubApi.Number(10)),
      GithubApi.Param("page", GithubApi.Number(GithubApi.OrDefault(args.page, 1))),
      GithubApi.Param("sort", GithubApi.Text("updated"))])
  }

  /** The action the thunk settles with: `fulfilled` with the response body, or `rejected` with the
      rejection value. */
  function FetchReposSettled(outcome: HttpOutcome<seq<Repo>>): (a: RepoAction)
    ensures outcome.Response? ==> a == Fulfilled(outcome.data)
    ensures outcome.Failure? ==> a == Rejected(RejectionValue(outcome.status))
  {
    match outcome
    case Response(data) => Fulfilled(data)
    case Failure(status) => Rejected(RejectionValue(status))
  }

  /** Once a fetch settles the slice is no longer loading; a failure leaves a truthy `error` and the list
      and page as they were, a success leaves `error` as it was. */
  lemma SettledStopsLoading(s: RepoState, outcome: HttpOutcome<seq<Repo>>)
    ensures !Reduce(s, FetchReposSettled(outcome)).loading
    ensures outcome.Failure? ==> ErrorTruthy(Reduce(s, FetchReposSettled(outcome)).error)
    ensures outcome.Failure? ==> Reduce(s, FetchReposSettled(outcome)).repos == s.repos
    ensures outcome.Failure? ==> Reduce(s, FetchReposSettled(outcome)).page == s.page
    ensures outcome.Response? ==> Reduce(s, FetchReposSettled(outcome)).error == s.error
  {
    if outcome.Failure? {
      RejectionValueIsTruthy(outcome.status);
    }
  }

  /** The slice as the source writes it: every reducer assigns fields of the state in place. */
  class RepoStore {
    var loading: bool
    var error: Option<RejectValue>
    var repos: seq<Repo>
    var page: int

    function State(): RepoState
      reads this
    {
      RepoState(loading, error, repos, page)
    }

    /** `initialState`. */
    constructor ()
      ensures !loading && error == None && repos == [] && page == 1
      ensures State() == InitialState
    {
      loading, error, repos, page := false, None, [], 1;
    }

    /** `clearRepos`: empties the list, clears the error and returns to page 1; `loading` is untouched. */
    method ClearRepos()
      modifies this
      ensures repos == [] && error == None && page == 1
      ensures loading == old(loading)
    {
      repos := [];
      error := None;
      page := 1;
    }

    /** `nextPage`: one page further, nothing else. */
    method NextPage()
      modifies this
      ensures page == old(page) + 1
      ensures loading == old(loading) && error == old(error) && repos == old(repos)
    {
      page := page + 1;
    }

    /** `resetPage`: back to page 1, nothing else. */
    method ResetPage()
      modifies this
      ensures page == 1
      ensures loading == old(loading) && error == old(error) && repos == old(repos)
    {
      page := 1;
    }

    /** `fetchRepos.pending`: loading, with the error cleared; list and page are kept. */
    method OnPending()
      modifies this
      ensures loading && error == None
      ensures repos == old(repos) && page == old(page)
    {
      loading := true;
      error := None;
    }

    /** `fetchRepos.fulfilled`: the payload replaces the list; error and page are kept. */
    method OnFulfilled(payload: seq<Repo>)
      modifies this
      ensures !loading && repos == payload
      ensures error == old(error) && page == old(page)
    {
      loading := false;
      repos := payload;
    }

    /** `fetchRepos.rejected`: the rejection value becomes the error; list and page are kept. */
    method OnRejected(reason: RejectValue)
      modifies this
      ensures !loading && error == Some(reason)
      ensures repos == old(repos) && page == old(page)
    {
      loading := false;
      error := Some(reason);
    }

    /** The slice reducer applied to one action. */
    method Dispatch(a: RepoAction)
      modifies this
      ensures State() == Reduce(old(State()), a)
    {
      match a
      case ClearRepos => ClearRepos();
      case NextPage => NextPage();
      case ResetPage => ResetPage();
      case Pending => OnPending();
      case Fulfilled(payload) => OnFulfilled(payload);
      case Rejected(reason) => OnRejected(reason);
    }
  }
}
