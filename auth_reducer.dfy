/**
 * The legacy reducer (redux/reducers/auth.reducer.ts): a pure function of
 * the previous state and an action type. The `...state` spread keeps every
 * field besides `isLogged`; those fields are carried opaquely in `others`.
 */
module AuthReducer {
  import opened Wrappers

  datatype LegacyAuthState = LegacyAuthState(isLogged: bool, others: map<string, string>)

  /** Lines 1-3. */
  const InitialState: LegacyAuthState := LegacyAuthState(false, map[])

  const LoginAction: string := "LOGIN"
  const LogoutAction: string := "LOGOUT"

  /** `authReducer(state = initialState, action)` (lines 5-14); an absent state is `undefined`. */
  function Reduce(state: Option<LegacyAuthState>, actionType: string): (r: LegacyAuthState)
    ensures state.None? && actionType != LoginAction && actionType != LogoutAction ==> r == InitialState
    ensures actionType == LoginAction ==> r.isLogged && r.others == state.GetOr(InitialState).others
    ensures actionType == LogoutAction ==> !r.isLogged && r.others == state.GetOr(InitialState).others
    ensures actionType != LoginAction && actionType != LogoutAction ==> r == state.GetOr(InitialState)
  {
    var s := state.GetOr(InitialState);
    if actionType == LoginAction then s.(isLogged := true)
    else if actionType == LogoutAction then s.(isLogged := false)
    else s
  }

  /** LOGIN twice is LOGIN once; so is LOGOUT. */
  lemma ReduceIdempotent(state: Option<LegacyAuthState>, actionType: string)
    requires actionType == LoginAction || actionType == LogoutAction
    ensures Reduce(Some(Reduce(state, actionType)), actionType) == Reduce(state, actionType)
  {
  }

  /** The store folding a sequence of actions through the reducer, starting from `undefined`. */
  function Replay(state: Option<LegacyAuthState>, actions: seq<string>): LegacyAuthState
    decreases |actions|
  {
    if actions == [] then state.GetOr(InitialState)
    else Replay(Some(Reduce(state, actions[0])), actions[1..])
  }

  /** The last LOGIN or LOGOUT in `actions`, when there is one. */
  function LastAuthAction(actions: seq<string>): (r: Option<string>)
    ensures r.Some? ==> r.value == LoginAction || r.value == LogoutAction
  {
    if actions == [] then None
    else
      var last := actions[|actions| - 1];
      if last == LoginAction || last == LogoutAction then Some(last)
      else LastAuthAction(actions[..|actions| - 1])
  }

  lemma LastAuthActionCons(a: string, rest: seq<string>)
    ensures LastAuthAction([a] + rest) ==
      (if LastAuthAction(rest).Some? then LastAuthAction(rest)
       else if a == LoginAction || a == LogoutAction then Some(a) else None)
    decreases |rest|
  {
    if rest != [] {
      assert ([a] + rest)[..|[a] + rest| - 1] == [a] + rest[..|rest| - 1];
      LastAuthActionCons(a, rest[..|rest| - 1]);
    }
  }

  /**
   * After any sequence of actions, the user is logged in exactly when the
   * last LOGIN/LOGOUT was LOGIN; other fields are never changed.
   */
  lemma {:induction false} ReplayTracksLastAuthAction(state: Option<LegacyAuthState>, actions: seq<string>)
    ensures Replay(state, actions).isLogged ==
      (if LastAuthAction(actions).Some? then LastAuthAction(actions) == Some(LoginAction)
       else state.GetOr(InitialState).isLogged)
    ensures Replay(state, actions).others == state.GetOr(InitialState).others
    decreases |actions|
  {
    if actions != [] {
      assert actions == [actions[0]] + actions[1..];
      LastAuthActionCons(actions[0], actions[1..]);
      ReplayTracksLastAuthAction(Some(Reduce(state, actions[0])), actions[1..]);
    }
  }
}
