# GitHub User Finder: the client-side state logic in Dafny

GitHub User Finder is a React and Redux front-end. The user types a GitHub handle, picks a suggestion from
an autocomplete dropdown or commits the text, and sees the profile card and the list of the user's
repositories. This project models the state logic behind that page and proves properties of it:

- **the two Redux slices**: the repository list in `RepoSlice` and the user profile in `UserSlice`;
- **the store** that holds both slices, in `Store`;
- **the search bar's state machine**, in `SearchBar`: six `useState` cells, a cancellable trailing
  debounce, and its handlers;
- **the request builders and search-response shaping** of the service layer, in `GithubApi`;
- **the decisions of the repository list**, in `RepoList`: which name it fetches for, which view it
  renders, the infinite-scroll sentinel, and the language badges;
- **the decisions of the profile card**, in `UserCard`;
- **the JavaScript string built-ins** the code relies on (`trim`, `startsWith`), in `Text`;
- **JavaScript truthiness and the rejection value** `err.response?.status || "Unknown error"`, in `Common`.

Code that changes state in place is modelled as classes:

- each slice reducer assigns fields of `state`;
- each search-bar handler sets `useState` cells and cancels or reschedules the debounced call;
- the list's ref callback replaces `observer.current`.

Each such method states its whole new state in its `ensures`. For each slice, a pure `Reduce` function
over a state datatype is the specification. The class's `Dispatch` is proved equal to `Reduce`, and the
slice's properties are lemmas about `Reduce` and `ReduceAll`.

The debounce is the field `pending`. It holds the argument of the one call the lodash timer will run:

- a change of the text schedules the new text, replacing any call already waiting;
- `cancel` empties the slot;
- `Fire` runs the debounced body on what is waiting.

`searchesInFlight` counts debounced searches that have started and not settled, so that a completion
can be its own event. It is not a gate. As in the source, nothing checks whether a result is stale.

The module `App` puts the components on one fresh page. Each of its methods plays one sequence of events
and states what the user sees or which requests go out.

## Model

| member | source | states |
|---|---|---|
| `Common.RejectionValue` | src/redux/slices/repoSlice.ts:47 | a failure is rejected with the response status when a response arrived and its status is not 0, and with "Unknown error" otherwise |
| `Common.RejectionValueIsTruthy` | src/components/RepoList.tsx:52 | every stored rejection value is truthy, so `if (error)` sees any failure |
| `Common.Truthy` | src/components/RepoList.tsx:155 | JavaScript truthiness of a nullable string, as `||` and `&&` test it: `null`, `undefined` and `""` are falsy, every other text is truthy |
| `Common.ErrorTruthy` | src/components/RepoList.tsx:52 | JavaScript truthiness of a slice's `error` cell, as `if (error)` tests it: `null` and the status 0 are falsy, any other status and the text "Unknown error" are truthy |
| `Text.TrimStart` | src/components/SearchBar.tsx:28 | the result is a suffix of the input, only whitespace was dropped, and it does not start with whitespace |
| `Text.TrimEnd` | src/components/SearchBar.tsx:28 | the result is a prefix of the input, only whitespace was dropped, and it does not end with whitespace |
| `Text.Trim` | src/components/SearchBar.tsx:28 | `trim()` is never longer than its input, and a non-empty result neither starts nor ends with ECMAScript whitespace |
| `Text.TrimIsTrimStartThenEnd` | src/components/SearchBar.tsx:28 | trimming both ends is the same as trimming the start and then the end |
| `Text.BlankIffTrimEmpty` | src/components/SearchBar.tsx:79 | `!value.trim()` holds exactly when every character is whitespace |
| `Text.TrimIdempotent` | src/components/SearchBar.tsx:28 | a property of the model's `trim()`: trimming a trimmed text changes nothing |
| `Text.LongTrimIsNotBlank` | src/components/SearchBar.tsx:28-32 | a text whose trimmed length is at least 2 is neither blank nor empty |
| `Text.IsWhitespace` | src/components/SearchBar.tsx:28 | the characters `trim()` removes: the ECMAScript WhiteSpace and LineTerminator code points |
| `Text.IsBlank` | src/components/SearchBar.tsx:79 | a text is blank when every character is whitespace, the strings for which `!value.trim()` holds |
| `Text.StartsWith` | src/components/UserCard.tsx:109 | `s.startsWith(prefix)`: the prefix is no longer than the text and equals its first characters |
| `GithubApi.OrDefault` | src/services/githubApi.ts:18-22 | an omitted argument takes the default, and a given one is used as it is |
| `GithubApi.FetchUserProfile` | src/services/githubApi.ts:12-15 | the path is "/users/" followed by exactly the username, with no query parameters |
| `GithubApi.FetchUserRepos` | src/services/githubApi.ts:18-31 | the path is "/users/", the username and "/repos"; `per_page` defaults to 10, `page` defaults to 1, and `sort` is "updated" |
| `GithubApi.SearchUsers` | src/services/githubApi.ts:34-41 | the path is "/search/users", with `q` the query, `page` defaulting to 1 and `per_page` defaulting to 10 |
| `GithubApi.ShapeSearchResponse` | src/services/githubApi.ts:42-45 | `users` is exactly `items`, and `hasMore` holds iff `total_count > page * perPage` |
| `GithubApi.HasMore` | src/services/githubApi.ts:44 | more results remain exactly when `total_count` exceeds `page * perPage` |
| `GithubApi.DefaultHasMore` | src/services/githubApi.ts:34-44 | with both defaults, `hasMore` holds iff `total_count > 10` |
| `GithubApi.NoMoreStaysNoMore` | src/services/githubApi.ts:44 | for a positive page size, once a page reports nothing more, every later page does too |
| `GithubApi.ProfileRequestInjective` | src/services/githubApi.ts:13 | two different usernames never give the same profile request |
| `GithubApi.ProfilePathCanSpellReposPath` | src/services/githubApi.ts:13-23 | with the name unescaped, the profile path of `a + "/repos"` is the repository path of `a` |
| `RepoSlice.ReduceValid` | src/redux/slices/repoSlice.ts:56-81 | every action keeps `page >= 1`, and keeps a pending fetch free of an error |
| `RepoSlice.Reduce` | src/redux/slices/repoSlice.ts:56-81 | the three reducers and the three `fetchRepos` cases: each assigns only the fields the source names, and `fulfilled` replaces the list |
| `RepoSlice.ReduceAll` | src/redux/store.ts:5-10 | the repository slice after a sequence of actions, each reduced in dispatch order |
| `RepoSlice.ReduceAllValid` | src/redux/slices/repoSlice.ts:56-81 | any sequence of actions from a valid state keeps the invariant |
| `RepoSlice.ReachableValid` | src/redux/slices/repoSlice.ts:20-25 | every state reachable from `initialState` has `page >= 1` and no error while loading |
| `RepoSlice.NextPageRepeated` | src/redux/slices/repoSlice.ts:61-63 | `n` dispatches of `nextPage` raise `page` by exactly `n` and change nothing else |
| `RepoSlice.ResetPageIdempotent` | src/redux/slices/repoSlice.ts:64-66 | dispatching `resetPage` twice is the same as dispatching it once |
| `RepoSlice.ListSurvivesFailures` | src/redux/slices/repoSlice.ts:70-81 | actions other than `clearRepos` and `fulfilled` never change the list, so failed fetches keep the repositories already loaded |
| `RepoSlice.FulfilledReplaces` | src/redux/slices/repoSlice.ts:74-77 | after page 1 and then page 2 arrive, the list is exactly page 2: the payload replaces the list and is not appended |
| `RepoSlice.FetchReposRequest` | src/redux/slices/repoSlice.ts:31-44 | `fetchRepos` fetches the absolute repository URL of the name with `per_page` 10, `page` defaulting to 1, and `sort` "updated" |
| `RepoSlice.FetchReposSettled` | src/redux/slices/repoSlice.ts:45-47 | a response settles as `fulfilled` with the body, and a failure as `rejected` with the rejection value |
| `RepoSlice.SettledStopsLoading` | src/redux/slices/repoSlice.ts:74-81 | once a fetch settles, loading is off; a failure leaves a truthy error with the list and page unchanged, and a success leaves the error unchanged |
| `RepoSlice.RepoStore.constructor` | src/redux/slices/repoSlice.ts:20-25 | the initial state is not loading, has no error or repositories, and is on page 1 |
| `RepoSlice.RepoStore.ClearRepos` | src/redux/slices/repoSlice.ts:56-60 | the list is empty, the error is cleared and the page is 1; `loading` is unchanged |
| `RepoSlice.RepoStore.NextPage` | src/redux/slices/repoSlice.ts:61-63 | the page goes up by one, and nothing else changes |
| `RepoSlice.RepoStore.ResetPage` | src/redux/slices/repoSlice.ts:64-66 | the page is 1, and nothing else changes |
| `RepoSlice.RepoStore.OnPending` | src/redux/slices/repoSlice.ts:70-73 | loading is on and the error cleared; list and page are unchanged |
| `RepoSlice.RepoStore.OnFulfilled` | src/redux/slices/repoSlice.ts:74-77 | loading is off and the list is the payload; error and page are unchanged |
| `RepoSlice.RepoStore.OnRejected` | src/redux/slices/repoSlice.ts:78-81 | loading is off and the error is the rejection value; list and page are unchanged |
| `RepoSlice.RepoStore.Dispatch` | src/redux/slices/repoSlice.ts:52-83 | the in-place slice goes to the state `Reduce` gives for the action |
| `UserSlice.ReduceValid` | src/redux/slices/userSlice.ts:34-54 | every action keeps the invariant: no error while loading, and a stored username always comes with a profile |
| `UserSlice.Reduce` | src/redux/slices/userSlice.ts:34-54 | `clearUser` and the three `fetchUser` cases: each assigns only the fields the source names |
| `UserSlice.ReduceAll` | src/redux/store.ts:5-10 | the user slice after a sequence of actions, each reduced in dispatch order |
| `UserSlice.ReduceAllValid` | src/redux/slices/userSlice.ts:34-54 | any sequence of actions from a valid state keeps the invariant |
| `UserSlice.ReachableValid` | src/redux/slices/userSlice.ts:11-16 | every state reachable from `initialState` satisfies the invariant |
| `UserSlice.PendingThenFulfilled` | src/redux/slices/userSlice.ts:42-50 | after `pending` and then `fulfilled`, loading is off, the error is null, and profile and username are the payload's |
| `UserSlice.ProfileSurvivesFailures` | src/redux/slices/userSlice.ts:42-54 | actions other than `clearUser` and `fulfilled` never change the profile or the username |
| `UserSlice.FetchUserRequest` | src/redux/slices/userSlice.ts:22 | `fetchUser` issues the profile GET for exactly its argument |
| `UserSlice.FetchUserSettled` | src/redux/slices/userSlice.ts:20-26 | success carries the profile together with the thunk's own argument, and failure carries the rejection value |
| `UserSlice.SettledUser` | src/redux/slices/userSlice.ts:46-54 | after a fetch for `username` settles, loading is off; success stores exactly that username and the profile, and failure leaves a truthy error with profile and username unchanged |
| `UserSlice.UserStore.constructor` | src/redux/slices/userSlice.ts:11-16 | the initial state is not loading, has no error and no profile, and has an empty username |
| `UserSlice.UserStore.ClearUser` | src/redux/slices/userSlice.ts:34-38 | profile and error are null and the username is ""; `loading` is unchanged |
| `UserSlice.UserStore.OnPending` | src/redux/slices/userSlice.ts:42-45 | loading is on and the error cleared; profile and username are unchanged |
| `UserSlice.UserStore.OnFulfilled` | src/redux/slices/userSlice.ts:46-50 | loading is off, and profile and username are the payload's; the error is unchanged |
| `UserSlice.UserStore.OnRejected` | src/redux/slices/userSlice.ts:51-54 | loading is off and the error is the rejection value; profile and username are unchanged |
| `UserSlice.UserStore.Dispatch` | src/redux/slices/userSlice.ts:30-56 | the in-place slice goes to the state `Reduce` gives for the action |
| `Store.CommitResetsBothSlices` | src/components/SearchBar.tsx:90-94 | whatever the store held, the five commit dispatches leave both slices cleared, loading and on page 1, and start exactly one profile request and one request for repository page 1, in that order |
| `Store.Dispatched` | src/components/SearchBar.tsx:90-94 | the synchronous effect on the store of each command the search bar dispatches: a plain action is reduced in its slice, and a thunk puts its slice into `pending` |
| `Store.StartedRequest` | src/redux/slices/userSlice.ts:22 | the GET a command starts: `fetchUser` the profile request of its argument, `fetchRepos` the repository request of its arguments (src/redux/slices/repoSlice.ts:35-44), and a plain action none |
| `Store.CommitCommands` | src/components/SearchBar.tsx:90-94 | a commit's five dispatches in source order: `clearUser`, `clearRepos`, `resetPage`, `fetchUser(value)`, `fetchRepos({ username: value })` with no page |
| `Store.DispatchedAll` | src/redux/store.ts:5-10 | the store after a sequence of commands, each taking effect in dispatch order |
| `Store.StartedRequests` | src/components/SearchBar.tsx:90-94 | the requests a sequence of commands starts, in dispatch order, one per thunk |
| `Store.UserSettles` | src/redux/slices/userSlice.ts:46-54 | the `fetchUser` thunk settling: the user slice takes the `fulfilled` or `rejected` case for the outcome |
| `Store.ReposSettle` | src/redux/slices/repoSlice.ts:74-81 | the `fetchRepos` thunk settling: the repository slice takes the `fulfilled` or `rejected` case for the outcome |
| `Store.SettleUserIsolated` | src/redux/store.ts:5-10 | a profile settling never touches the repository slice, and a failure leaves a truthy user error |
| `Store.AppStore.constructor` | src/redux/store.ts:5-10 | the store starts with both slices in their initial state |
| `Store.AppStore.Dispatch` | src/redux/store.ts:5-10 | a plain action is reduced at once; a thunk runs its `pending` case and returns the request it starts |
| `Store.AppStore.Commit` | src/components/SearchBar.tsx:90-94 | dispatches `clearUser`, `clearRepos`, `resetPage`, `fetchUser(value)` and `fetchRepos({username: value})` in that order, and returns the requests they start |
| `Store.AppStore.SettleUser` | src/redux/slices/userSlice.ts:46-54 | the user slice takes the `fulfilled` or `rejected` case for the outcome |
| `Store.AppStore.SettleRepos` | src/redux/slices/repoSlice.ts:74-81 | the repository slice takes the `fulfilled` or `rejected` case for the outcome |
| `SearchBar.PanelsExclusive` | src/components/SearchBar.tsx:170-213 | the dropdown and the "No users found" box never show together, and the box implies a text that is not blank |
| `SearchBar.DropdownVisible` | src/components/SearchBar.tsx:170 | the dropdown renders when `showSuggestions` is on and there is at least one suggestion |
| `SearchBar.NoResultsVisible` | src/components/SearchBar.tsx:213 | the "No users found" box renders when the panel is on, the list is empty, the trimmed text has at least 2 characters and no search is running |
| `SearchBar.SearchDisabled` | src/components/SearchBar.tsx:231 | the search button is disabled when nothing is left of the trimmed text |
| `SearchBar.SearchDisabledIffIgnored` | src/components/SearchBar.tsx:79-231 | the button's test and the `handleSearch` guard are one expression, `!x.trim()`, which the model writes in two forms; this links them: the button is disabled exactly for the blank texts `handleSearch` ignores |
| `SearchBar.SearchBarState.constructor` | src/components/SearchBar.tsx:17-22 | the six cells start empty, on page 1 and hidden, and the mount effect has scheduled a search for "" |
| `SearchBar.SearchBarState.Fire` | src/components/SearchBar.tsx:27-35 | the timer runs the latest scheduled query; under 2 trimmed characters it empties and hides the list and sends nothing, with page and spinner unchanged; otherwise it requests page 1 of the query, sets page 1 and turns the spinner on |
| `SearchBar.SearchBarState.CompleteSearch` | src/components/SearchBar.tsx:37-46 | success replaces the list with the page-1 users, sets `hasMore` and shows the panel; failure hides the panel and keeps the list; the spinner is off either way |
| `SearchBar.SearchBarState.HandleScroll` | src/components/SearchBar.tsx:56-76 | while the dropdown list is rendered, near the bottom with more announced, it requests page `suggestionPage + 1` of the text, and a reply appends its users, advances the page and sets `hasMore`; otherwise nothing changes |
| `SearchBar.SearchBarState.HandleSearch` | src/components/SearchBar.tsx:78-95 | a blank value changes nothing; otherwise the pending search is cancelled, the text is set, the suggestions are cleared and hidden on page 1, and the five commands are dispatched in order; a changed text then schedules a search for itself |
| `SearchBar.SearchBarState.HandleKeyDown` | src/components/SearchBar.tsx:108-112 | Enter on a non-blank text commits it: the five commands and their two requests, the suggestion cells cleared and page 1, the debounce cancelled, the spinner untouched; any other key, or a blank text, changes nothing |
| `SearchBar.SearchBarState.PickSuggestion` | src/components/SearchBar.tsx:179 | clicking a suggestion commits its login: the five commands and their two requests, the suggestion cells cleared and page 1, and a search scheduled for the login when it differs from the text; a blank login changes nothing |
| `SearchBar.SearchBarState.HandleInputChange` | src/components/SearchBar.tsx:97-106 | the text always becomes the value; a blank value also cancels and empties and hides the list; a changed text schedules a search for itself |
| `SearchBar.SearchBarState.HandleMouseDown` | src/components/SearchBar.tsx:116-121 | a press outside the rendered dropdown cancels the pending search and hides the panel, keeping the list |
| `SearchBar.SearchBarState.Focus` | src/components/SearchBar.tsx:155-159 | focus shows the panel again only when there are suggestions |
| `RepoList.EffectiveUsername` | src/components/RepoList.tsx:19-21 | the stored username when it is non-empty, otherwise the profile's login, otherwise none |
| `RepoList.EffectiveUsernameNeedsProfile` | src/components/RepoList.tsx:19-21 | in a valid user slice, the effective name is truthy exactly when a profile is loaded and the stored or the profile's name is non-empty |
| `RepoList.FetchEffect` | src/components/RepoList.tsx:44-48 | the effect dispatches `fetchRepos` iff the name is truthy, with that name and the current page |
| `RepoList.FetchEffectRequest` | src/components/RepoList.tsx:44-48 | the request of the effect's fetch asks for exactly the current page |
| `RepoList.SelectView` | src/components/RepoList.tsx:51-54 | the loader shows while page 1 loads; otherwise any truthy error shows the error view; otherwise an empty list shows "No Public Repositories"; otherwise the list shows |
| `RepoList.BottomLoaderCondition` | src/components/RepoList.tsx:211 | in a valid slice, the bottom loader shows exactly while a later page loads over a non-empty list |
| `RepoList.BottomLoaderShown` | src/components/RepoList.tsx:211 | the spinner under the list: inside the list view, while the slice loads a page after the first |
| `RepoList.SliceHasMore` | src/components/RepoList.tsx:14 | the `hasMore` the list destructures from the repository slice: the slice has no such field, so it is `undefined` and always falsy |
| `RepoList.RejectionShowsError` | src/components/RepoList.tsx:52 | after any failed fetch the error view shows, even with repositories loaded |
| `RepoList.FulfilledShowsPayload` | src/components/RepoList.tsx:51-54 | with no error left from before, a fetched page shows as the list, or as the empty view when it is empty |
| `RepoList.SentinelRefs` | src/components/RepoList.tsx:120-125 | each rendered card has one ref flag |
| `RepoList.SentinelIsLastCard` | src/components/RepoList.tsx:121-125 | only the last card carries the sentinel ref, and an empty list has none |
| `RepoList.DescriptionText` | src/components/RepoList.tsx:155 | the description when it is truthy, and "No description provided" otherwise; the line is never empty |
| `RepoList.LanguageBadge` | src/components/RepoList.tsx:159-164 | a badge appears iff the language is truthy, coloured from the table when the language is listed and gray otherwise |
| `RepoList.BadgeFromPalette` | src/components/RepoList.tsx:85-100 | every badge class is a table colour or the gray default, and is never empty |
| `RepoList.ShellLooksUnlisted` | src/components/RepoList.tsx:94 | a Shell badge looks the same as the badge of an unlisted language |
| `RepoList.RepoListView.constructor` | src/components/RepoList.tsx:25 | before the first render there is no observer and no effect run |
| `RepoList.RepoListView.RunFetchEffect` | src/components/RepoList.tsx:44-48 | the effect runs only when the name or the page changed since its last run, and then fetches as `FetchEffect` says |
| `RepoList.RepoListView.AttachRef` | src/components/RepoList.tsx:27-41 | while loading the old observer stays; otherwise a new observer captures the current `hasMore` and observes the node; an observer that cannot dispatch stays so when `hasMore` is false |
| `RepoList.RepoListView.Intersect` | src/components/RepoList.tsx:32-36 | `nextPage` is dispatched iff a card is observed, its entry intersects, and the captured `hasMore` is true |
| `UserCard.DisplayName` | src/components/UserCard.tsx:37 | the heading is the name when it is truthy, and the login otherwise |
| `UserCard.SecondaryLoginIffHeadingDiffers` | src/components/UserCard.tsx:40 | the login line shows under the heading iff the heading is not already the login |
| `UserCard.ShowsSecondaryLogin` | src/components/UserCard.tsx:40 | the login line under the heading renders when `name` is truthy and differs from `login` |
| `UserCard.BlogHref` | src/components/UserCard.tsx:109 | the href always starts with "http"; it is the blog when the blog starts with "http", and "https://" plus the blog otherwise |
| `UserCard.BlogHrefIdempotent` | src/components/UserCard.tsx:109 | normalising an href twice gives the same result as once |
| `UserCard.BlogHrefKeepsBlog` | src/components/UserCard.tsx:109 | the href ends with the blog text as written |
| `UserCard.BlogHrefTakesHttpHostAsUrl` | src/components/UserCard.tsx:109 | "httpbin.org" is kept as it is, while "example.org" gets the scheme |
| `UserCard.Row` | src/components/UserCard.tsx:50 | an optional row renders iff its field is truthy, and then shows the field |
| `UserCard.RenderCard` | src/components/UserCard.tsx:8-115 | no card without a profile; otherwise the heading, the "@login" handle, the login line only when the heading differs, the bio, location and company rows showing their fields only when truthy, and a blog link whose text is the blog and whose href is `BlogHref` of it |
| `App.DebounceKeepsLatest` | src/components/SearchBar.tsx:47-53 | after three edits the timer searches only the last text |
| `App.LateResponseOverwrites` | src/components/SearchBar.tsx:36-40 | when two searches answer out of order, the older query's users are listed under the newer text |
| `App.SpinnerStopsEarly` | src/components/SearchBar.tsx:44-46 | the spinner goes off at the first answer while another search is still out |
| `App.PickReopensDropdown` | src/components/SearchBar.tsx:51-53 | picking a suggestion whose login differs from the text schedules a search for the login, and its answer reopens the dropdown |
| `App.CommitFetchesFirstPageTwice` | src/components/RepoList.tsx:44-48 | after a commit, the list's effect fetches nothing until the profile arrives, then asks again for the page-1 request the commit already sent |
| `App.ProfileFailureAfterCommit` | src/redux/slices/userSlice.ts:51-54 | a failed profile after a commit leaves a truthy error and no card, and the repository slice still loading page 1 under the loader |
| `App.SentinelNeverDispatches` | src/components/RepoList.tsx:14 | the `hasMore` read from the slice is always false, so the sentinel never dispatches `nextPage` |
| `App.EnterWhileDisabled` | src/components/SearchBar.tsx:231 | Enter on a text whose search button is disabled sends no command and no request, and the store stays in its initial state |
| `App.NoScrollWithoutList` | src/components/SearchBar.tsx:56-58 | after a search that finds nobody no dropdown is rendered, so whatever total the answer announced, a scroll asks for nothing |

## Left out

- HTTP transport (src/services/githubApi.ts:3-9, src/redux/slices/repoSlice.ts:35-44): the axios instance, the `Accept` header and the 10-second timeout are not modelled. A response body or a failure with its optional status is an input to the event that settles the request.
- Redux Toolkit, Immer, `createAsyncThunk` and `configureStore` are library code. Only the reducers' field updates are modelled, and a thunk's synchronous `pending`.
- React rendering and the DOM are reduced to boolean events: `nearBottom`, `insideBox`, `isIntersecting`, and the index of the observed card. This covers scroll geometry, `contains`, IntersectionObserver and listener attachment. The model does not decide when React renders. A scenario calls `RunFetchEffect` where a render would run the effect.
- SearchBar.SearchBarState.HandleScroll: does not model that the listener is attached only to the box present when the scroll effect last ran (src/components/SearchBar.tsx:56-76). A box that is unmounted and mounted again without a change of page, `hasMore` or text has no listener. The model lets every scroll through while the dropdown list is rendered.
- lodash's 400 ms delay: only scheduling, replacing, cancelling and firing are modelled, not time.
- Interleaving within one event: a scroll's request and its reply form one atomic event, because the reply uses the page captured when the request started. A debounced search's start (`Fire`) and its completion (`CompleteSearch`) are separate events, any number of which may be outstanding. What this loses: in the source, several near-bottom scroll events before a reply each ask for page `suggestionPage + 1` (src/components/SearchBar.tsx:60-66), and each reply appends its users (src/components/SearchBar.tsx:67-68), so the same page can be listed twice. In the model a second scroll sees the advanced cursor, so duplicated pages cannot arise. It also loses the stale scroll reply: the reply's callback uses the `username` and `nextPage` captured when the request started and appends without checking (src/components/SearchBar.tsx:66-70). A reply landing after the text changed, after a new debounced search or after a commit appends the old query's page to the current list and sets `suggestionPage` and `hasMoreSuggestions` from it; after a commit, `Focus` can then show that list again. In the model no event can come between a scroll's request and its reply.
- `console.error` on a failed suggestion search (src/components/SearchBar.tsx:42) is output only.
- `formatNumber` (src/components/RepoList.tsx:102-106, src/components/UserCard.tsx:10-14) uses floating-point division and `toFixed`.
- The join date (src/components/UserCard.tsx:16-19) depends on `Date` and the locale.
- src/components/Loader.tsx, src/components/Error.tsx, src/components/ThemeToggle.tsx and src/App.tsx are markup, or a localStorage and DOM class toggle; their logic is not part of this model. The row styling classes and the "Loading more..." item of the dropdown (src/components/SearchBar.tsx:180-207) are not modelled either.
- The quick-pick buttons (src/components/SearchBar.tsx:247-255) call `handleSearch` with fixed names. That call is `HandleSearch`; the buttons have no member of their own.
- RepoList.LanguageBadge: a language spelled like an inherited property of a JavaScript object, such as "constructor", finds a function in `languageColors` and renders with no colour class. The model gives such a language the gray default.
- Strings are sequences of Unicode scalar values, not UTF-16 code units. `Text.IsWhitespace` lists the ECMAScript WhiteSpace and LineTerminator code points, which include the Zs space separators. What this loses: one character outside the Basic Multilingual Plane, such as an emoji, has `trim().length` 2 in JavaScript, so the source searches for it (src/components/SearchBar.tsx:28) and can show the "No users found" box for it (src/components/SearchBar.tsx:213). The model counts it as length 1 and does neither.
- RepoList.SentinelRefs: its own contract gives only the length. Which card carries the ref is stated by `RepoList.SentinelIsLastCard`.

## Where the code does not do what it announces

The model follows the code. At these points the code does something other than what its own comments,
names or neighbouring code announce. Each point gives the source lines, and the member named with it
shows the behaviour.

- Paging replaces the list: the sentinel's callback says "bump page → triggers fetch" (src/components/RepoList.tsx:34), and the bottom loader shows while a later page loads under the cards already listed (src/components/RepoList.tsx:211), but `fetchRepos.fulfilled` assigns the payload to `repos` (src/redux/slices/repoSlice.ts:74-77), so page 2 replaces page 1 (`RepoSlice.FulfilledReplaces`).
- The list destructures `hasMore` from the repository slice (src/components/RepoList.tsx:14), whose state has no such field (src/redux/slices/repoSlice.ts:20-25) and whose reducers never set one. It reads as `undefined`, so the sentinel's `entries[0].isIntersecting && hasMore` (src/components/RepoList.tsx:33) never dispatches `nextPage` (`App.SentinelNeverDispatches`).
- A commit sends the page-1 repository request itself (src/components/SearchBar.tsx:94). The list's fetch effect (src/components/RepoList.tsx:44-48) sends the same request again once the profile arrives, because the commit emptied the stored username and the effective name changes from `undefined` to the login (`App.CommitFetchesFirstPageTwice`).
- Nothing checks whether a suggestion result is stale (src/components/SearchBar.tsx:36-46): a search answering late overwrites a newer one (`App.LateResponseOverwrites`), and `finally` turns the spinner off at the first answer while another search is out (`App.SpinnerStopsEarly`).
- A commit cancels the waiting search, with the comment "Cancel any pending debounced function calls" (src/components/SearchBar.tsx:81-82), but then sets the text (src/components/SearchBar.tsx:84). When the text changed, the effect on the text (src/components/SearchBar.tsx:51-53) schedules a new search, whose answer reopens the dropdown (`App.PickReopensDropdown`).
- Typing clears the list at once only for a blank text (src/components/SearchBar.tsx:101-105). A non-blank text shorter than 2 characters keeps the old list until the debounced call fires and clears it (src/components/SearchBar.tsx:28-32) (`SearchBar.SearchBarState.HandleInputChange`, `SearchBar.SearchBarState.Fire`).
- A failed repository fetch keeps the list (src/redux/slices/repoSlice.ts:78-81), but the early return `if (error)` (src/components/RepoList.tsx:52) shows the error view in its place (`RepoList.RejectionShowsError`).
- The username goes into the path without escaping (src/services/githubApi.ts:13 and :19), so a profile path can spell a repository path (`GithubApi.ProfilePathCanSpellReposPath`).
- The blog check `startsWith('http')` (src/components/UserCard.tsx:109) looks only at four letters, so a blog written `httpbin.org` is used as the href unchanged, a relative link (`UserCard.BlogHrefTakesHttpHostAsUrl`).
