/** The repository list (src/components/RepoList.tsx): which name its fetch effect uses, when the effect
    dispatches, which of the four views it renders, where the infinite-scroll sentinel sits and when it
    dispatches `nextPage`, and the class of each language badge. The effect and the sentinel keep state
    between renders, so they are the fields of `RepoListView`; the rest are functions of the store. */
module RepoList {
  import opened Common
  import GithubApi
  import RepoSlice
  import UserSlice
  import Store

  /** `usernameFromStore || profileUsername`: an empty stored name falls through to the profile's login,
      and to `undefined` when there is no profile. */
  function EffectiveUsername(storeUsername: string, profile: Option<GithubApi.Profile>): (r: Option<string>)
    ensures storeUsername != "" ==> r == Some(storeUsername)
    ensures storeUsername == "" && profile.Some? ==> r == Some(profile.value.login)
    ensures storeUsername == "" && profile.None? ==> r == None
  {
    if storeUsername != "" then Some(storeUsername)
    else if profile.Some? then Some(profile.value.login)
    else None
  }

  /** In a state the user slice can reach, a usable name needs a profile: the stored name is set only
      together with one, so with no profile the effect has nothing to fetch for. */
  lemma EffectiveUsernameNeedsProfile(s: UserSlice.UserState)
    requires UserSlice.Valid(s)
    ensures Truthy(EffectiveUsername(s.username, s.profile)) <==>
      s.profile.Some? && (s.username != "" || s.profile.value.login != "")
    ensures Truthy(EffectiveUsername(s.username, s.profile)) && s.username != "" ==>
      EffectiveUsername(s.username, s.profile) == Some(s.username)
  {
  }

  /** The fetch effect's body: `fetchRepos({username, page})` when the name is truthy, nothing otherwise.
      The page is passed explicitly. */
  function FetchEffect(username: Option<string>, page: int): (r: Option<RepoSlice.FetchReposArgs>)
    ensures r.Some? <==> Truthy(username)
    ensures r.Some? ==> r.value.username == username.value && r.value.page == Some(page)
  {
    if Truthy(username) then Some(RepoSlice.FetchReposArgs(username.value, Some(page))) else None
  }

  /** The effect asks for exactly the page the slice is on, with the repository path of the name. */
  lemma FetchEffectRequest(username: string, page: int)
    requires username != ""
    ensures FetchEffect(Some(username), page).Some?
    ensures RepoSlice.FetchReposRequest(FetchEffect(Some(username), page).value) ==
      RepoSlice.FetchReposRequest(RepoSlice.FetchReposArgs(username, Some(page)))
    ensures GithubApi.Lookup(RepoSlice.FetchReposRequest(FetchEffect(Some(username), page).value).params, "page") ==
      Some(GithubApi.Number(page))
  {
  }

  /** The component's early returns, in order, and the list itself. */
  datatype View = LoaderView | ErrorView | NoRepositoriesView | ListView

  function SelectView(s: RepoSlice.RepoState): (v: View)
    ensures v == LoaderView <==> s.loading && s.page == 1
    ensures v == ErrorView <==> !(s.loading && s.page == 1) && ErrorTruthy(s.error)
    ensures v == NoRepositoriesView <==> !(s.loading && s.page == 1) && !ErrorTruthy(s.error) && s.repos == []
    ensures v == ListView <==> !(s.loading && s.page == 1) && !ErrorTruthy(s.error) && s.repos != []
  {
    if s.loading && s.page == 1 then LoaderView
    else if ErrorTruthy(s.error) then ErrorView
    else if s.repos == [] then NoRepositoriesView
    else ListView
  }

  /** The "Loading more" spinner under the list: it is part of the list view, and shows while a fetch of a
      later page is out. */
  predicate BottomLoaderShown(s: RepoSlice.RepoState)
  {
    SelectView(s) == ListView && s.loading && s.page > 1
  }

  /** In a valid slice a fetch in flight carries no error, so the spinner under the list shows exactly while
      a later page is loading over a non-empty list. */
  lemma BottomLoaderCondition(s: RepoSlice.RepoState)
    requires RepoSlice.Valid(s)
    ensures BottomLoaderShown(s) <==> s.loading && s.page > 1 && s.repos != []
  {
  }

  /** A failed fetch shows the error view, even when repositories were already on screen. */
  lemma RejectionShowsError(s: RepoSlice.RepoState, status: Option<int>)
    ensures SelectView(RepoSlice.Reduce(s, RepoSlice.FetchReposSettled(HttpOutcome.Failure(status)))) == ErrorView
  {
    RepoSlice.SettledStopsLoading(s, HttpOutcome.Failure(status));
  }

  /** A successful fetch shows the list of the payload, or the empty view for an empty payload, unless an
      error was left from before. */
  lemma FulfilledShowsPayload(s: RepoSlice.RepoState, payload: seq<RepoSlice.Repo>)
    requires !ErrorTruthy(s.error)
    ensures SelectView(RepoSlice.Reduce(s, RepoSlice.Fulfilled(payload))) ==
      (if payload == [] then NoRepositoriesView else ListView)
  {
  }

  /** For each of `count` repository cards, whether it carries the sentinel ref: `idx === repos.length - 1`. */
  function SentinelRefs(count: nat): (r: seq<bool>)
    ensures |r| == count
  {
    seq(count, idx => idx == count - 1)
  }

  /** Exactly one card carries the sentinel, the last one, and an empty list has none. */
  lemma SentinelIsLastCard(count: nat)
    ensures count > 0 ==> SentinelRefs(count)[count - 1]
    ensures forall i, j :: 0 <= i < count && 0 <= j < count && SentinelRefs(count)[i] && SentinelRefs(count)[j] ==> i == j
    ensures forall i :: 0 <= i < count - 1 ==> !SentinelRefs(count)[i]
  {
  }

  /** The repository's description, or the placeholder when it is missing or empty. A card's description
      line is never empty, and shows the repository's own text whenever it has one. */
  function DescriptionText(description: Option<string>): (r: string)
    ensures r != ""
    ensures Truthy(description) ==> r == description.value
    ensures !Truthy(description) ==> r == "No description provided"
  {
    if Truthy(description) then description.value else "No description provided"
  }

  /** The badge colours for the languages the component knows. */
  const LanguageColors: map<string, string> := map[
    "JavaScript" := "bg-yellow-100 text-yellow-800 border-yellow-200",
    "TypeScript" := "bg-blue-100 text-blue-800 border-blue-200",
    "Python" := "bg-green-100 text-green-800 border-green-200",
    "HTML" := "bg-orange-100 text-orange-800 border-orange-200",
    "CSS" := "bg-purple-100 text-purple-800 border-purple-200",
    "Java" := "bg-red-100 text-red-800 border-red-200",
    "Go" := "bg-cyan-100 text-cyan-800 border-cyan-200",
    "C++" := "bg-pink-100 text-pink-800 border-pink-200",
    "Shell" := "bg-gray-100 text-gray-800 border-gray-200",
    "PHP" := "bg-indigo-100 text-indigo-800 border-indigo-200",
    "Ruby" := "bg-red-100 text-red-800 border-red-200",
    "Swift" := "bg-orange-100 text-orange-800 border-orange-200",
    "Kotlin" := "bg-purple-100 text-purple-800 border-purple-200",
    "Rust" := "bg-orange-100 text-orange-800 border-orange-200"]

  /** The class of a badge for a language not in the table. */
  const DefaultBadge: string := "bg-gray-100 text-gray-800 border-gray-200"

  /** The badge's class, when a badge is rendered at all: only for a truthy language, coloured from the
      table, gray otherwise. */
  function LanguageBadge(language: Option<string>): (r: Option<string>)
    ensures r.Some? <==> Truthy(language)
    ensures r.Some? && language.value in LanguageColors ==> r.value == LanguageColors[language.value]
    ensures r.Some? && language.value !in LanguageColors ==> r.value == DefaultBadge
  {
    if !Truthy(language) then None
    else if language.value in LanguageColors then Some(LanguageColors[language.value])
    else Some(DefaultBadge)
  }

  /** Every badge class is one of the table's colours or the gray default, and never empty, so the
      fallback `||` only ever applies to a language missing from the table. */
  lemma BadgeFromPalette(language: Option<string>)
    requires Truthy(language)
    ensures LanguageBadge(language).value in LanguageColors.Values + {DefaultBadge}
    ensures LanguageBadge(language).value != ""
  {
    if language.value in LanguageColors {
      assert LanguageColors[language.value] in LanguageColors.Values;
    }
  }

  /** Shell's colour is the gray default: a Shell badge looks like that of a language the table lacks. */
  lemma ShellLooksUnlisted(other: string)
    requires other != "" && other !in LanguageColors
    ensures LanguageBadge(Some("Shell")) == LanguageBadge(Some(other))
  {
  }

  /** `hasMore` as the component reads it from the slice: the slice has no such field, so the destructured
      value is `undefined`, which is falsy. */
  function SliceHasMore(s: RepoSlice.RepoState): bool
  {
    false
  }

  /** An IntersectionObserver as the sentinel ref creates it: the `hasMore` its callback captured, and the
      card it observes, if it was given one. */
  datatype Observer = Observer(hasMore: bool, target: Option<nat>)

  /** The state the component keeps across renders: the dependencies of the last run of the fetch effect
      (none before the first render) and `observer.current`. */
  class RepoListView {
    var effectDeps: Option<(Option<string>, int)>
    var observer: Option<Observer>

    /** No observer ever dispatches: the one installed, if any, captured a false `hasMore`. */
    predicate Inert()
      reads this
    {
      observer.None? || !observer.value.hasMore
    }

    /** Before the first render. */
    constructor ()
      ensures effectDeps == None && observer == None
      ensures Inert()
    {
      effectDeps, observer := None, None;
    }

    /** A render's fetch effect: it runs on the first render and whenever the effective name or the page
        differs from the previous run, and then dispatches `fetchRepos` if the name is truthy. */
    method RunFetchEffect(user: UserSlice.UserState, repos: RepoSlice.RepoState)
      returns (fetch: Option<RepoSlice.FetchReposArgs>)
      modifies this
      ensures effectDeps == Some((EffectiveUsername(user.username, user.profile), repos.page))
      ensures old(effectDeps) == effectDeps ==> fetch == None
      ensures old(effectDeps) != effectDeps ==> fetch == FetchEffect(EffectiveUsername(user.username, user.profile), repos.page)
      ensures observer == old(observer)
    {
      var deps := (EffectiveUsername(user.username, user.profile), repos.page);
      if effectDeps == Some(deps) {
        fetch := None;
      } else {
        effectDeps := Some(deps);
        fetch := FetchEffect(deps.0, deps.1);
      }
    }

    /** The sentinel ref callback, called with the last card (or with none when it goes away). While the
        slice is loading it returns at once and the previous observer stays; otherwise the previous one is
        disconnected and a new one captures the current `hasMore` and observes the card. */
    method AttachRef(loading: bool, hasMore: bool, node: Option<nat>)
      modifies this
      ensures loading ==> observer == old(observer)
      ensures !loading ==> observer == Some(Observer(hasMore, node))
      ensures effectDeps == old(effectDeps)
      ensures old(Inert()) && !hasMore ==> Inert()
    {
      if loading {
        return;
      }
      observer := Some(Observer(hasMore, node));
    }

    /** The observer's callback for its entry: `nextPage` is dispatched only when a card is observed, its
        entry is intersecting, and the `hasMore` the callback captured is true. */
    method Intersect(isIntersecting: bool) returns (dispatched: Option<Store.Command>)
      ensures dispatched.Some? <==>
        observer.Some? && observer.value.target.Some? && isIntersecting && observer.value.hasMore
      ensures dispatched.Some? ==> dispatched.value == Store.NextPage
      ensures Inert() ==> dispatched == None
    {
      dispatched := None;
      if observer.Some? && observer.value.target.Some? && isIntersecting && observer.value.hasMore {
        dispatched := Some(Store.NextPage);
      }
    }
  }
}
