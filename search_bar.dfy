/** The search box with its suggestion dropdown (src/components/SearchBar.tsx). The six `useState` cells are
    fields of `SearchBarState`; the lodash debounce is the slot `pending`, holding the argument of the one
    call its timer will run. Every handler and every completion is one atomic event. There is no staleness
    guard and no in-flight gate: a late result overwrites whatever is shown. */
module SearchBar {
  import opened Common
  import opened Text
  import GithubApi
  import RepoSlice
  import Store

  /** The shortest trimmed query the debounced body sends to the search. */
  const MinQueryLength: nat := 2

  /** `showSuggestions && suggestions.length > 0`: the dropdown list, and with it the scrollable box the
      outside-click and scroll listeners look at, is rendered. */
  predicate DropdownVisible(show: bool, suggestions: seq<GithubApi.GitHubUser>)
  {
    show && |suggestions| > 0
  }

  /** The "No users found" box. */
  predicate NoResultsVisible(show: bool, suggestions: seq<GithubApi.GitHubUser>, username: string, isSearching: bool)
  {
    show && |suggestions| == 0 && |Trim(username)| >= MinQueryLength && !isSearching
  }

  /** The dropdown and the "No users found" box are never shown together, and the box implies a text
      that is not blank. */
  lemma PanelsExclusive(show: bool, suggestions: seq<GithubApi.GitHubUser>, username: string, isSearching: bool)
    ensures !(DropdownVisible(show, suggestions) && NoResultsVisible(show, suggestions, username, isSearching))
    ensures NoResultsVisible(show, suggestions, username, isSearching) ==> !IsBlank(username)
  {
    BlankIffTrimEmpty(username);
  }

  /** `disabled={!username.trim()}`: the search button is disabled when nothing is left of the trimmed text. */
  predicate SearchDisabled(username: string)
  {
    Trim(username) == ""
  }

  /** The button's test and `handleSearch`'s guard are the same expression `!x.trim()`; the model writes the
      guard as `IsBlank`, and this links the two forms: the button is disabled exactly for the texts
      `handleSearch` ignores. */
  lemma SearchDisabledIffIgnored(username: string)
    ensures SearchDisabled(username) <==> IsBlank(username)
  {
    BlankIffTrimEmpty(username);
  }

  class SearchBarState {
    var username: string
    var suggestions: seq<GithubApi.GitHubUser>
    var suggestionPage: int
    var hasMoreSuggestions: bool
    var showSuggestions: bool
    var isSearching: bool
    /** The debounce slot: the argument of the scheduled call, if one is waiting for its timer. */
    var pending: Option<string>
    /** Debounced searches whose request has started and not yet settled. */
    var searchesInFlight: nat

    /** The page cursor is positive, and the spinner is on only while some search is still out. */
    predicate Valid()
      reads this
    {
      suggestionPage >= 1 && (isSearching ==> searchesInFlight > 0)
    }

    /** The initial cells, after the mount effect has handed the empty text to the debounced function. */
    constructor ()
      ensures Valid()
      ensures username == "" && suggestions == [] && suggestionPage == 1
      ensures !hasMoreSuggestions && !showSuggestions && !isSearching
      ensures pending == Some("") && searchesInFlight == 0
    {
      username, suggestions, suggestionPage := "", [], 1;
      hasMoreSuggestions, showSuggestions, isSearching := false, false, false;
      pending, searchesInFlight := Some(""), 0;
    }

    /** The debounce timer expires and runs the body on the pending query. A query that trims to fewer
        than 2 characters empties and hides the list and sends nothing; any other starts the search for
        page 1 and turns the spinner on. */
    method Fire() returns (request: Option<GithubApi.Request>)
      requires Valid() && pending.Some?
      modifies this
      ensures Valid()
      ensures pending == None
      ensures username == old(username) && hasMoreSuggestions == old(hasMoreSuggestions)
      ensures |Trim(old(pending).value)| < MinQueryLength ==>
        && request == None
        && suggestions == [] && !showSuggestions
        && suggestionPage == old(suggestionPage) && isSearching == old(isSearching)
        && searchesInFlight == old(searchesInFlight)
      ensures |Trim(old(pending).value)| >= MinQueryLength ==>
        && request == Some(GithubApi.SearchUsers(old(pending).value, Some(1), None))
        && suggestionPage == 1 && isSearching
        && searchesInFlight == old(searchesInFlight) + 1
        && suggestions == old(suggestions) && showSuggestions == old(showSuggestions)
    {
      var query := pending.value;
      var trimmedLength := |Trim(query)|;
      pending := None;
      if trimmedLength < MinQueryLength {
        suggestions := [];
        showSuggestions := false;
        request := None;
        return;
      }
      suggestionPage := 1;
      isSearching := true;
      searchesInFlight := searchesInFlight + 1;
      request := Some(GithubApi.SearchUsers(query, Some(1), None));
    }

    /** One debounced search settles, with its response body or as a failure. Success replaces the list
        with the page-1 users and shows it; failure hides the panel and keeps the list. Either way the
        spinner goes off, even if another search is still out. */
    method CompleteSearch(response: Option<GithubApi.SearchResponse>)
      requires Valid() && searchesInFlight > 0
      modifies this
      ensures Valid()
      ensures !isSearching && searchesInFlight == old(searchesInFlight) - 1
      ensures response.Some? ==>
        && suggestions == GithubApi.ShapeSearchResponse(response.value, Some(1), None).users
        && hasMoreSuggestions == GithubApi.ShapeSearchResponse(response.value, Some(1), None).hasMore
        && showSuggestions
      ensures response.None? ==>
        && !showSuggestions
        && suggestions == old(suggestions) && hasMoreSuggestions == old(hasMoreSuggestions)
      ensures username == old(username) && suggestionPage == old(suggestionPage) && pending == old(pending)
    {
      if response.Some? {
        var page := GithubApi.ShapeSearchResponse(response.value, Some(1), None);
        suggestions := page.users;
        hasMoreSuggestions := page.hasMore;
        showSuggestions := true;
      } else {
        showSuggestions := false;
      }
      isSearching := false;
      searchesInFlight := searchesInFlight - 1;
    }

    /** A scroll event in the suggestion box, with the reply to the request it may start. The listener is on
        the box, which exists only while the dropdown list is rendered. Near the bottom and with more results
        announced, it asks for the next page of the current text; a reply appends its users after the
        existing ones and moves the cursor, a failed request changes nothing. Otherwise nothing happens. */
    method HandleScroll(nearBottom: bool, response: Option<GithubApi.SearchResponse>)
      returns (request: Option<GithubApi.Request>)
      requires Valid()
      modifies this
      ensures Valid()
      ensures !(DropdownVisible(old(showSuggestions), old(suggestions)) && nearBottom && old(hasMoreSuggestions)) ==>
        request == None && unchanged(this)
      ensures DropdownVisible(old(showSuggestions), old(suggestions)) && nearBottom && old(hasMoreSuggestions) ==>
        request == Some(GithubApi.SearchUsers(old(username), Some(old(suggestionPage) + 1), None))
      ensures DropdownVisible(old(showSuggestions), old(suggestions)) && nearBottom && old(hasMoreSuggestions) &&
              response.Some? ==>
        && suggestions == old(suggestions) +
             GithubApi.ShapeSearchResponse(response.value, Some(old(suggestionPage) + 1), None).users
        && suggestionPage == old(suggestionPage) + 1
        && hasMoreSuggestions ==
             GithubApi.ShapeSearchResponse(response.value, Some(old(suggestionPage) + 1), None).hasMore
      ensures response.None? ==>
        suggestions == old(suggestions) && suggestionPage == old(suggestionPage) &&
        hasMoreSuggestions == old(hasMoreSuggestions)
      ensures username == old(username) && showSuggestions == old(showSuggestions)
      ensures isSearching == old(isSearching) && pending == old(pending)
      ensures searchesInFlight == old(searchesInFlight)
    {
      request := None;
      var listening := DropdownVisible(showSuggestions, suggestions);
      if listening && nearBottom && hasMoreSuggestions {
        var nextPage := suggestionPage + 1;
        request := Some(GithubApi.SearchUsers(username, Some(nextPage), None));
        if response.Some? {
          var page := GithubApi.ShapeSearchResponse(response.value, Some(nextPage), None);
          suggestions := suggestions + page.users;
          suggestionPage := nextPage;
          hasMoreSuggestions := page.hasMore;
        }
      }
    }

    /** `handleSearch(value)`: a blank value is ignored. Otherwise the pending search is cancelled, the text
        becomes `value`, the suggestion state is cleared and hidden, and the commit commands go to the store
        in order. When `value` differs from the text, the effect on the text then schedules a debounced
        search for it. */
    method HandleSearch(value: string, store: Store.AppStore)
      returns (dispatched: seq<Store.Command>, requests: seq<GithubApi.Request>)
      requires Valid()
      modifies this, store.user, store.repos
      ensures Valid()
      ensures IsBlank(value) ==>
        dispatched == [] && requests == [] && unchanged(this) && store.State() == old(store.State())
      ensures !IsBlank(value) ==>
        && dispatched == Store.CommitCommands(value)
        && requests == Store.StartedRequests(dispatched)
        && store.State() == Store.DispatchedAll(old(store.State()), dispatched)
        && username == value && suggestions == [] && !showSuggestions
        && !hasMoreSuggestions && suggestionPage == 1
        && pending == (if value != old(username) then Some(value) else None)
        && isSearching == old(isSearching) && searchesInFlight == old(searchesInFlight)
    {
      var blank := IsBlank(value);
      if blank {
        dispatched, requests := [], [];
        return;
      }
      var previous := username;
      pending := None;
      username := value;
      suggestions := [];
      showSuggestions := false;
      hasMoreSuggestions := false;
      suggestionPage := 1;

      dispatched, requests := store.Commit(value);

      // The effect on the text runs after the handler.
      if value != previous {
        pending := Some(value);
      }
    }

    /** A key press in the input: Enter commits the current text. */
    method HandleKeyDown(key: string, store: Store.AppStore)
      returns (dispatched: seq<Store.Command>, requests: seq<GithubApi.Request>)
      requires Valid()
      modifies this, store.user, store.repos
      ensures Valid()
      ensures key != "Enter" || IsBlank(old(username)) ==>
        dispatched == [] && requests == [] && unchanged(this) && store.State() == old(store.State())
      ensures key == "Enter" && !IsBlank(old(username)) ==>
        && dispatched == Store.CommitCommands(old(username))
        && requests == Store.StartedRequests(dispatched)
        && store.State() == Store.DispatchedAll(old(store.State()), dispatched)
        && username == old(username) && suggestions == [] && !showSuggestions
        && !hasMoreSuggestions && suggestionPage == 1
        && pending == None
        && isSearching == old(isSearching) && searchesInFlight == old(searchesInFlight)
    {
      if key == "Enter" {
        dispatched, requests := HandleSearch(username, store);
      } else {
        dispatched, requests := [], [];
      }
    }

    /** A click on the suggestion at `index` commits that user's login. */
    method PickSuggestion(index: nat, store: Store.AppStore)
      returns (dispatched: seq<Store.Command>, requests: seq<GithubApi.Request>)
      requires Valid() && index < |suggestions|
      modifies this, store.user, store.repos
      ensures Valid()
      ensures IsBlank(old(suggestions)[index].login) ==>
        dispatched == [] && requests == [] && unchanged(this) && store.State() == old(store.State())
      ensures !IsBlank(old(suggestions)[index].login) ==>
        && dispatched == Store.CommitCommands(old(suggestions)[index].login)
        && requests == Store.StartedRequests(dispatched)
        && store.State() == Store.DispatchedAll(old(store.State()), dispatched)
        && username == old(suggestions)[index].login && suggestions == [] && !showSuggestions
        && !hasMoreSuggestions && suggestionPage == 1
        && pending == (if old(suggestions)[index].login != old(username) then Some(old(suggestions)[index].login) else None)
        && isSearching == old(isSearching) && searchesInFlight == old(searchesInFlight)
    {
      dispatched, requests := HandleSearch(suggestions[index].login, store);
    }

    /** `handleInputChange`: the text always becomes `value`. A blank value also cancels the pending search
        and empties and hides the list. When the value differs from the text, the effect on the text then
        schedules a debounced search for it. */
    method HandleInputChange(value: string)
      requires Valid()
      modifies this
      ensures Valid()
      ensures username == value
      ensures pending ==
        if value != old(username) then Some(value)
        else if IsBlank(value) then None
        else old(pending)
      ensures IsBlank(value) ==> suggestions == [] && !showSuggestions
      ensures !IsBlank(value) ==> suggestions == old(suggestions) && showSuggestions == old(showSuggestions)
      ensures suggestionPage == old(suggestionPage) && hasMoreSuggestions == old(hasMoreSuggestions)
      ensures isSearching == old(isSearching) && searchesInFlight == old(searchesInFlight)
    {
      var previous := username;
      username := value;
      if IsBlank(value) {
        pending := None;
        suggestions := [];
        showSuggestions := false;
      }
      // The effect on the text runs after the handler.
      if value != previous {
        pending := Some(value);
      }
    }

    /** A mouse press anywhere in the document. The listener acts only while the suggestion box exists and
        the press is outside it: it cancels the pending search and hides the panel, keeping the list. */
    method HandleMouseDown(insideBox: bool)
      requires Valid()
      modifies this
      ensures Valid()
      ensures DropdownVisible(old(showSuggestions), old(suggestions)) && !insideBox ==>
        pending == None && !showSuggestions
      ensures !(DropdownVisible(old(showSuggestions), old(suggestions)) && !insideBox) ==>
        pending == old(pending) && showSuggestions == old(showSuggestions)
      ensures suggestions == old(suggestions) && username == old(username)
      ensures suggestionPage == old(suggestionPage) && hasMoreSuggestions == old(hasMoreSuggestions)
      ensures isSearching == old(isSearching) && searchesInFlight == old(searchesInFlight)
    {
      if DropdownVisible(showSuggestions, suggestions) && !insideBox {
        pending := None;
        showSuggestions := false;
      }
    }

    /** The input gains focus: the panel reopens only if there are suggestions to show. */
    method Focus()
      requires Valid()
      modifies this
      ensures Valid()
      ensures showSuggestions == (old(showSuggestions) || |suggestions| > 0)
      ensures suggestions == old(suggestions) && username == old(username) && pending == old(pending)
      ensures suggestionPage == old(suggestionPage) && hasMoreSuggestions == old(hasMoreSuggestions)
      ensures isSearching == old(isSearching) && searchesInFlight == old(searchesInFlight)
    {
      if |suggestions| > 0 {
        showSuggestions := true;
      }
    }
  }
}
