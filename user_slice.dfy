/** The user-profile slice (src/redux/slices/userSlice.ts). `Reduce` is the reducer as a function of the state
    and the action; `UserStore` is the slice as the source writes it, assigning fields in place. */
module UserSlice {
  import opened Common
  import GithubApi

  /** The slice's four fields: `username` remembers the name the last successful fetch was asked for. */
  datatype UserState = UserState(
    loading: bool,
    error: Option<RejectValue>,
    profile: Option<GithubApi.Profile>,
    username: string)

  /** The `clearUser` reducer and the three lifecycle cases of `fetchUser`. */
  datatype UserAction =
    | ClearUser
    | Pending
    | Fulfilled(profile: GithubApi.Profile, username: string)
    | Rejected(reason: RejectValue)

  const InitialState: UserState := UserState(false, None, None, "")

  /** The reducer: each case assigns only the fields named in the source. */
  function Reduce(s: UserState, a: UserAction): UserState
  {
    match a
    case ClearUser => s.(profile := None, error := None, username := "")
    case Pending => s.(loading := true, error := None)
    case Fulfilled(profile, username) => s.(loading := false, profile := Some(profile), username := username)
    case Rejected(reason) => s.(loading := false, error := Some(reason))
  }

  function ReduceAll(s: UserState, actions: seq<UserAction>): UserState
    decreases |actions|
  {
    if actions == [] then s else ReduceAll(Reduce(s, actions[0]), actions[1..])
  }

  /** The slice's invariant: a fetch in flight carries no error, and a remembered username comes with a
      profile. */
  predicate Valid(s: UserState)
  {
    (s.loading ==> s.error == None) && (s.username != "" ==> s.profile.Some?)
  }

  lemma ReduceValid(s: UserState, a: UserAction)
    requires Valid(s)
    ensures Valid(Reduce(s, a))
  {
  }

  /** From a valid state, any sequence of actions keeps the invariant. */
  lemma {:induction false} ReduceAllValid(s: UserState, actions: seq<UserAction>)
    requires Valid(s)
    ensures Valid(ReduceAll(s, actions))
    decreases |actions|
  {
    if actions != [] {
      ReduceValid(s, actions[0]);
      ReduceAllValid(Reduce(s, actions[0]), actions[1..]);
    }
  }

  /** In every state reachable from the initial one, a non-empty `username` comes with a profile. */
  lemma ReachableValid(actions: seq<UserAction>)
    ensures Valid(ReduceAll(InitialState, actions))
  {
    ReduceAllValid(InitialState, actions);
  }

  /** `fulfilled` never writes `error`, so after `pending` and then `fulfilled` the error is null. */
  lemma PendingThenFulfilled(s: UserState, profile: GithubApi.Profile, username: string)
    ensures ReduceAll(s, [Pending, Fulfilled(profile, username)]) ==
      UserState(false, None, Some(profile), username)
  {
    var acts := [Pending, Fulfilled(profile, username)];
    var s1 := Reduce(s, Pending);
    assert ReduceAll(s, acts) == ReduceAll(s1, acts[1..]);
    assert acts[1..][1..] == [];
    assert ReduceAll(s1, acts[1..]) == Reduce(s1, Fulfilled(profile, username));
  }

  /** Actions other than `clearUser` and `fulfilled` never touch the profile or the username: a failed
      fetch leaves both as they were. */
  lemma {:induction false} ProfileSurvivesFailures(s: UserState, actions: seq<UserAction>)
    requires forall i :: 0 <= i < |actions| ==> !actions[i].ClearUser? && !actions[i].Fulfilled?
    ensures ReduceAll(s, actions).profile == s.profile
    ensures ReduceAll(s, actions).username == s.username
    decreases |actions|
  {
    if actions != [] {
      ProfileSurvivesFailures(Reduce(s, actions[0]), actions[1..]);
    }
  }

  /** The GET the `fetchUser` thunk issues. */
  function FetchUserRequest(username: string): (r: GithubApi.Request)
    ensures r == GithubApi.Request("/users/" + username, [])
  {
    GithubApi.FetchUserProfile(username)
  }

  /** The action the `fetchUser` thunk settles with: the payload pairs the profile with exactly the argument
      given to the thunk; a failure carries the rejection value. */
  function FetchUserSettled(username: string, outcome: HttpOutcome<GithubApi.Profile>): (a: UserAction)
    ensures outcome.Response? ==> a == Fulfilled(outcome.data, username)
    ensures outcome.Failure? ==> a == Rejected(RejectionValue(outcome.status))
  {
    match outcome
    case Response(data) => Fulfilled(data, username)
    case Failure(status) => Rejected(RejectionValue(status))
  }

  /** After a fetch for `username` settles: a success remembers exactly `username` with the profile, a
      failure leaves a truthy error and the previous profile and username. */
  lemma SettledUser(s: UserState, username: string, outcome: HttpOutcome<GithubApi.Profile>)
    ensures !Reduce(s, FetchUserSettled(username, outcome)).loading
    ensures outcome.Response? ==> Reduce(s, FetchUserSettled(username, outcome)).username == username
    ensures outcome.Response? ==> Reduce(s, FetchUserSettled(username, outcome)).profile == Some(outcome.data)
    ensures outcome.Failure? ==> ErrorTruthy(Reduce(s, FetchUserSettled(username, outcome)).error)
    ensures outcome.Failure? ==> Reduce(s, FetchUserSettled(username, outcome)).profile == s.profile
    ensures outcome.Failure? ==> Reduce(s, FetchUserSettled(username, outcome)).username == s.username
  {
    if outcome.Failure? {
      RejectionValueIsTruthy(outcome.status);
    }
  }

  /** The slice as the source writes it. */
  class UserStore {
    var loading: bool
    var error: Option<RejectValue>
    var profile: Option<GithubApi.Profile>
    var username: string

    function State(): UserState
      reads this
    {
      UserState(loading, error, profile, username)
    }

    /** `initialState`. */
    constructor ()
      ensures !loading && error == None && profile == None && username == ""
      ensures State() == InitialState
    {
      loading, error, profile, username := false, None, None, "";
    }

    /** `clearUser`: no profile, no error, empty username; `loading` is untouched. */
    method ClearUser()
      modifies this
      ensures profile == None && error == None && username == ""
      ensures loading == old(loading)
    {
      profile := None;
      error := None;
      username := "";
    }

    /** `fetchUser.pending`: loading, with the error cleared; profile and username are kept. */
    method OnPending()
      modifies this
      ensures loading && error == None
      ensures profile == old(profile) && username == old(username)
    {
      loading := true;
      error := None;
    }

    /** `fetchUser.fulfilled`: stores the profile and the username from the payload; `error` is kept. */
    method OnFulfilled(p: GithubApi.Profile, name: string)
      modifies this
      ensures !loading && profile == Some(p) && username == name
      ensures error == old(error)
    {
      loading := false;
      profile := Some(p);
      username := name;
    }

    /** `fetchUser.rejected`: the rejection value becomes the error; profile and username are kept. */
    method OnRejected(reason: RejectValue)
      modifies this
      ensures !loading && error == Some(reason)
      ensures profile == old(profile) && username == old(username)
    {
      loading := false;
      error := Some(reason);
    }

    /** The slice reducer applied to one action. */
    method Dispatch(a: UserAction)
      modifies this
      ensures State() == Reduce(old(State()), a)
    {
      match a
      case ClearUser => ClearUser();
      case Pending => OnPending();
      case Fulfilled(p, name) => OnFulfilled(p, name);
      case Rejected(reason) => OnRejected(reason);
    }
  }
}
