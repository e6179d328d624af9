/** The login state container (src/context/AuthContext.tsx): a reducer over two actions. */
module Auth {
  import opened Wrappers

  datatype AuthState = AuthState(isAuthenticated: bool, userId: Option<string>)

  datatype Action = Login(userId: string) | Logout | UnrecognisedAction(tag: string)

  function InitialState(): AuthState
  {
    AuthState(false, None)
  }

  /** Logged in exactly when a user id is held. */
  predicate Consistent(s: AuthState)
  {
    s.isAuthenticated <==> s.userId.Some?
  }

  /** `login` and `logout` ignore the prior state; anything else leaves it as it was. */
  function Reduce(state: AuthState, action: Action): (r: AuthState)
    ensures action.Login? ==> r.isAuthenticated && r.userId == Some(action.userId)
    ensures action.Logout? ==> r == InitialState()
    ensures action.UnrecognisedAction? ==> r == state
    ensures Consistent(state) ==> Consistent(r)
  {
    match action
    case Login(id) => AuthState(true, Some(id))
    case Logout => AuthState(false, None)
    case UnrecognisedAction(_) => state
  }

  function ApplyAll(state: AuthState, actions: seq<Action>): AuthState
    decreases |actions|
  {
    if actions == [] then state else ApplyAll(Reduce(state, actions[0]), actions[1..])
  }

  /** From the initial state, "authenticated iff a user id is set" holds after any
      sequence of actions. */
  lemma {:induction false} ConsistentAlways(state: AuthState, actions: seq<Action>)
    requires Consistent(state)
    ensures Consistent(ApplyAll(state, actions))
    decreases |actions|
  {
    if actions != [] {
      ConsistentAlways(Reduce(state, actions[0]), actions[1..]);
    }
  }

  lemma InitialConsistent()
    ensures Consistent(InitialState())
  {
  }

  /** The last login or logout decides the state, whatever came before it. */
  lemma {:induction false} LastActionDecides(state: AuthState, actions: seq<Action>, last: Action)
    requires last.Login? || last.Logout?
    ensures ApplyAll(state, actions + [last]) == Reduce(ApplyAll(state, actions), last)
    ensures ApplyAll(state, actions + [last]) == Reduce(InitialState(), last)
    decreases |actions|
  {
    if actions == [] {
      assert actions + [last] == [last];
    } else {
      assert (actions + [last])[1..] == actions[1..] + [last];
      LastActionDecides(Reduce(state, actions[0]), actions[1..], last);
    }
  }

  /** Logging out twice is logging out once. */
  lemma LogoutIdempotent(state: AuthState)
    ensures Reduce(Reduce(state, Logout), Logout) == Reduce(state, Logout)
  {
  }

  /** A login followed by a logout returns exactly the initial state. */
  lemma LoginThenLogout(state: AuthState, id: string)
    ensures ApplyAll(state, [Login(id), Logout]) == InitialState()
  {
    assert [Login(id)] + [Logout] == [Login(id), Logout];
    LastActionDecides(state, [Login(id)], Logout);
  }
}
