/** The page as src/App.tsx puts it together: the search bar, the profile card and the repository list over
    one store. Each method below starts from a fresh page and plays one sequence of events through the
    components, as the browser would deliver them, and states what the user then sees or what goes out on
    the network. */
module App {
  import opened Common
  import opened Text
  import GithubApi
  import RepoSlice
  import UserSlice
  import Store
  import SearchBar
  import RepoList
  import UserCard

  /** Typing replaces the scheduled search: whatever was typed before, only the last text is searched when
      the timer finally expires. */
  method DebounceKeepsLatest(e1: string, e2: string, e3: string) returns (request: Option<GithubApi.Request>)
    requires |Trim(e3)| >= SearchBar.MinQueryLength
    ensures request == Some(GithubApi.SearchUsers(e3, Some(1), None))
  {
    var bar := new SearchBar.SearchBarState();
    bar.HandleInputChange(e1);
    bar.HandleInputChange(e2);
    LongTrimIsNotBlank(e3);
    bar.HandleInputChange(e3);
    request := bar.Fire();
  }

  /** Two searches out at once, answered in the opposite order: the answer to the older query arrives last
      and is what the dropdown lists, under the newer text. */
  method LateResponseOverwrites(q1: string, q2: string, older: GithubApi.SearchResponse, newer: GithubApi.SearchResponse)
    returns (requests: seq<Option<GithubApi.Request>>, text: string, shown: seq<GithubApi.GitHubUser>, spinner: bool)
    requires q2 != q1
    requires |Trim(q1)| >= SearchBar.MinQueryLength && |Trim(q2)| >= SearchBar.MinQueryLength
    ensures requests == [Some(GithubApi.SearchUsers(q1, Some(1), None)), Some(GithubApi.SearchUsers(q2, Some(1), None))]
    ensures text == q2
    ensures shown == older.items
    ensures !spinner
  {
    var bar := new SearchBar.SearchBarState();
    bar.HandleInputChange(q1);
    var r1 := bar.Fire();
    bar.HandleInputChange(q2);
    var r2 := bar.Fire();
    bar.CompleteSearch(Some(newer));
    bar.CompleteSearch(Some(older));
    requests, text, shown, spinner := [r1, r2], bar.username, bar.suggestions, bar.isSearching;
  }

  /** The spinner goes off with the first answer, while the second search is still out. */
  method SpinnerStopsEarly(q1: string, q2: string, first: Option<GithubApi.SearchResponse>)
    returns (outstanding: nat, spinner: bool)
    requires q2 != q1
    requires |Trim(q1)| >= SearchBar.MinQueryLength && |Trim(q2)| >= SearchBar.MinQueryLength
    ensures outstanding == 1 && !spinner
  {
    var bar := new SearchBar.SearchBarState();
    bar.HandleInputChange(q1);
    var _ := bar.Fire();
    bar.HandleInputChange(q2);
    var _ := bar.Fire();
    bar.CompleteSearch(first);
    outstanding, spinner := bar.searchesInFlight, bar.isSearching;
  }

  /** Picking a suggestion whose login differs from the typed text schedules a search for the login; once
      that answers with any user, the dropdown is open again over the profile that is loading. */
  method PickReopensDropdown(typed: string, first: GithubApi.SearchResponse, second: GithubApi.SearchResponse)
    returns (commands: seq<Store.Command>, request: Option<GithubApi.Request>, dropdown: bool)
    requires |Trim(typed)| >= SearchBar.MinQueryLength
    requires first.items != [] && first.items[0].login != typed
    requires |Trim(first.items[0].login)| >= SearchBar.MinQueryLength
    requires second.items != []
    ensures commands == Store.CommitCommands(first.items[0].login)
    ensures request == Some(GithubApi.SearchUsers(first.items[0].login, Some(1), None))
    ensures dropdown
  {
    var store := new Store.AppStore();
    var bar := new SearchBar.SearchBarState();
    bar.HandleInputChange(typed);
    var _ := bar.Fire();
    bar.CompleteSearch(Some(first));
    LongTrimIsNotBlank(first.items[0].login);
    var requests;
    commands, requests := bar.PickSuggestion(0, store);
    request := bar.Fire();
    bar.CompleteSearch(Some(second));
    dropdown := SearchBar.DropdownVisible(bar.showSuggestions, bar.suggestions);
  }

  /** A commit asks for page 1 of the repositories. The list's fetch effect sees no name while the profile
      loads, and the name once the profile arrives, so it asks for page 1 again: the same request twice. */
  method CommitFetchesFirstPageTwice(value: string, profile: GithubApi.Profile)
    returns (onMount: Option<RepoSlice.FetchReposArgs>, commitRequests: seq<GithubApi.Request>,
             afterCommit: Option<RepoSlice.FetchReposArgs>, afterProfile: Option<RepoSlice.FetchReposArgs>)
    requires !IsBlank(value)
    ensures onMount == None && afterCommit == None
    ensures |commitRequests| == 2 && commitRequests[0] == GithubApi.FetchUserProfile(value)
    ensures afterProfile == Some(RepoSlice.FetchReposArgs(value, Some(1)))
    ensures RepoSlice.FetchReposRequest(afterProfile.value) == commitRequests[1]
  {
    var store := new Store.AppStore();
    var bar := new SearchBar.SearchBarState();
    var view := new RepoList.RepoListView();
    onMount := view.RunFetchEffect(store.user.State(), store.repos.State());
    var dispatched;
    dispatched, commitRequests := bar.HandleSearch(value, store);
    Store.CommitResetsBothSlices(Store.InitialState, value);
    afterCommit := view.RunFetchEffect(store.user.State(), store.repos.State());
    store.SettleUser(value, HttpOutcome.Response(profile));
    assert value != "" by {
      assert IsBlank("");
    }
    afterProfile := view.RunFetchEffect(store.user.State(), store.repos.State());
  }

  /** A profile that fails to load after a commit leaves a truthy error and no card, and leaves the
      repository slice as the commit left it: still loading page 1, under the list's loader. */
  method ProfileFailureAfterCommit(value: string, status: Option<int>)
    returns (card: Option<UserCard.CardView>, userError: Option<RejectValue>, repos: RepoSlice.RepoState)
    requires !IsBlank(value)
    ensures card == None
    ensures ErrorTruthy(userError)
    ensures repos == RepoSlice.RepoState(true, None, [], 1)
    ensures RepoList.SelectView(repos) == RepoList.LoaderView
  {
    var store := new Store.AppStore();
    var bar := new SearchBar.SearchBarState();
    var _, _ := bar.HandleSearch(value, store);
    Store.CommitResetsBothSlices(Store.InitialState, value);
    store.SettleUser(value, HttpOutcome.Failure(status));
    RejectionValueIsTruthy(status);
    card, userError, repos := UserCard.RenderCard(store.user.profile), store.user.error, store.repos.State();
  }

  /** The list never pages by scrolling: whatever the slice holds, the `hasMore` read from it is false, so
      the observer the sentinel installs never dispatches `nextPage`. */
  method SentinelNeverDispatches(s: RepoSlice.RepoState, node: Option<nat>, isIntersecting: bool)
    returns (dispatched: Option<Store.Command>)
    ensures dispatched == None
  {
    var view := new RepoList.RepoListView();
    view.AttachRef(s.loading, RepoList.SliceHasMore(s), node);
    dispatched := view.Intersect(isIntersecting);
  }

  /** Enter on a text whose search button is disabled commits nothing: no command goes to the store and no
      request goes out, and the page is as typing left it. */
  method EnterWhileDisabled(text: string) returns (dispatched: seq<Store.Command>, requests: seq<GithubApi.Request>,
                                                  state: Store.AppState)
    requires SearchBar.SearchDisabled(text)
    ensures dispatched == [] && requests == []
    ensures state == Store.InitialState
  {
    var store := new Store.AppStore();
    var bar := new SearchBar.SearchBarState();
    bar.HandleInputChange(text);
    SearchBar.SearchDisabledIffIgnored(text);
    dispatched, requests := bar.HandleKeyDown("Enter", store);
    state := store.State();
  }

  /** A search that finds nobody renders no dropdown list, so there is no box to scroll: however many
      results the answer announced, a scroll asks for nothing. */
  method NoScrollWithoutList(query: string, totalCount: int, nearBottom: bool,
                             reply: Option<GithubApi.SearchResponse>)
    returns (request: Option<GithubApi.Request>, dropdown: bool)
    requires |Trim(query)| >= SearchBar.MinQueryLength
    ensures !dropdown && request == None
  {
    var bar := new SearchBar.SearchBarState();
    LongTrimIsNotBlank(query);
    bar.HandleInputChange(query);
    var _ := bar.Fire();
    bar.CompleteSearch(Some(GithubApi.SearchResponse([], totalCount)));
    dropdown := SearchBar.DropdownVisible(bar.showSuggestions, bar.suggestions);
    request := bar.HandleScroll(nearBottom, reply);
  }
}
