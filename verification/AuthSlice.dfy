/**
  The session store: the `auth` slice with its three reducers `login`, `logout` and
  `updateUserInfo`. `Reduce` is the reducer as a function of state and action; `AuthStore`
  is the slice's state object, whose methods assign its fields in place as the reducers do.
 */
module AuthSlice {
  import opened Js

  datatype AuthState = AuthState(
    token: Option<string>,
    id: Option<string>,
    username: Option<string>,
    isLoggedIn: bool,
    name: Option<string>,
    imageUrl: Option<string>)

  /** Logged out, every field null. */
  const InitialState := AuthState(None, None, None, false, None, None)

  /** `imageUrl?: string | null`: None stands for both `undefined` and `null`. */
  datatype LoginPayload = LoginPayload(token: string, id: string, username: string, name: string, imageUrl: Option<string>)

  datatype Action =
    | Login(payload: LoginPayload)
    | Logout
    | UpdateUserInfo(newName: string, newImageUrl: Option<string>)

  /** The session invariant: logged in exactly when a token is held. */
  predicate Consistent(s: AuthState) {
    s.isLoggedIn <==> s.token.Some?
  }

  /**
    The slice reducer: `login` opens a session with the payload's token, `logout` closes it,
    `updateUserInfo` touches only the displayed name and image. Each keeps the invariant.
   */
  function Reduce(s: AuthState, a: Action): (r: AuthState)
    ensures a.Login? ==> r.isLoggedIn && r.token == Some(a.payload.token) && r.username == Some(a.payload.username)
    ensures a.Logout? ==> !r.isLoggedIn && r.token == None && r.username == None
    ensures a.UpdateUserInfo? ==>
      && r.token == s.token && r.id == s.id && r.username == s.username && r.isLoggedIn == s.isLoggedIn
      && r.name == Some(a.newName) && r.imageUrl == a.newImageUrl
    ensures Consistent(s) ==> Consistent(r)
  {
    match a
    case Login(p) =>
      AuthState(Some(p.token), Some(p.id), Some(p.username), true, Some(p.name), OrNull(p.imageUrl))
    case Logout =>
      InitialState
    case UpdateUserInfo(n, img) =>
      s.(name := Some(n), imageUrl := img)
  }

  /** The state after dispatching `actions` in order, starting from `s`. */
  function Replay(s: AuthState, actions: seq<Action>): AuthState
    decreases |actions|
  {
    if actions == [] then s else Replay(Reduce(s, actions[0]), actions[1..])
  }

  /** The initial state is logged out, holds no token and satisfies the session invariant. */
  lemma InitialStateLoggedOut()
    ensures !InitialState.isLoggedIn && InitialState.token == None && Consistent(InitialState)
  {
  }

  /**
    After `login` the session is the payload's: logged in, identity and token copied, an
    image URL kept only when present and non-empty. Nothing of the prior session survives.
   */
  lemma LoginOverwrites(s: AuthState, p: LoginPayload)
    ensures Reduce(s, Login(p)).isLoggedIn
    ensures Reduce(s, Login(p)).token == Some(p.token) && Reduce(s, Login(p)).id == Some(p.id)
    ensures Reduce(s, Login(p)).username == Some(p.username) && Reduce(s, Login(p)).name == Some(p.name)
    ensures Reduce(s, Login(p)).imageUrl == None <==> p.imageUrl == None || p.imageUrl == Some("")
    ensures Reduce(s, Login(p)).imageUrl != None ==> Reduce(s, Login(p)).imageUrl == p.imageUrl
    ensures forall s' :: Reduce(s', Login(p)) == Reduce(s, Login(p))
  {
  }

  /** `logout` yields the initial state from any state, so logging out twice is logging out once. */
  lemma LogoutResets(s: AuthState)
    ensures Reduce(s, Logout) == InitialState
    ensures Reduce(Reduce(s, Logout), Logout) == Reduce(s, Logout)
  {
  }

  /** `updateUserInfo` sets name and image and leaves token, id, username and login flag alone. */
  lemma UpdateUserInfoFrame(s: AuthState, n: string, img: Option<string>)
    ensures Reduce(s, UpdateUserInfo(n, img)).name == Some(n)
    ensures Reduce(s, UpdateUserInfo(n, img)).imageUrl == img
    ensures Reduce(s, UpdateUserInfo(n, img)).(name := s.name, imageUrl := s.imageUrl) == s
  {
  }

  /** Every reducer preserves the session invariant. */
  lemma ReduceKeepsConsistent(s: AuthState, a: Action)
    requires Consistent(s)
    ensures Consistent(Reduce(s, a))
  {
  }

  /** Any sequence of dispatched actions preserves the session invariant. */
  lemma {:induction false} ReplayKeepsConsistent(s: AuthState, actions: seq<Action>)
    requires Consistent(s)
    ensures Consistent(Replay(s, actions))
    decreases |actions|
  {
    if actions != [] {
      ReduceKeepsConsistent(s, actions[0]);
      ReplayKeepsConsistent(Reduce(s, actions[0]), actions[1..]);
    }
  }

  /** Every session reachable from the initial state satisfies the invariant. */
  lemma ReachableConsistent(actions: seq<Action>)
    ensures Consistent(Replay(InitialState, actions))
  {
    ReplayKeepsConsistent(InitialState, actions);
  }

  /** The store's state object; each method is one reducer, assigning fields in place. */
  class AuthStore {
    var token: Option<string>
    var id: Option<string>
    var username: Option<string>
    var isLoggedIn: bool
    var name: Option<string>
    var imageUrl: Option<string>

    function State(): AuthState
      reads this
    {
      AuthState(token, id, username, isLoggedIn, name, imageUrl)
    }

    ghost predicate Valid()
      reads this
    {
      Consistent(State())
    }

    constructor ()
      ensures State() == InitialState && Valid()
    {
      token := None;
      id := None;
      username := None;
      name := None;
      imageUrl := None;
      isLoggedIn := false;
    }

    method Login(p: LoginPayload)
      modifies this
      ensures State() == Reduce(old(State()), Action.Login(p)) && Valid()
    {
      token := Some(p.token);
      id := Some(p.id);
      username := Some(p.username);
      name := Some(p.name);
      imageUrl := OrNull(p.imageUrl);
      isLoggedIn := true;
    }

    method Logout()
      modifies this
      ensures State() == Reduce(old(State()), Action.Logout) && Valid()
    {
      token := None;
      id := None;
      username := None;
      name := None;
      imageUrl := None;
      isLoggedIn := false;
    }

    method UpdateUserInfo(newName: string, newImageUrl: Option<string>)
      modifies this
      ensures State() == Reduce(old(State()), Action.UpdateUserInfo(newName, newImageUrl))
      ensures old(Valid()) ==> Valid()
    {
      name := Some(newName);
      imageUrl := newImageUrl;
    }
  }
}
