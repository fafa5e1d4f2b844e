/**
  The authenticated layout: a guard that redirects anonymous visitors to the login page, the
  logout handler, and the `feedKey` counter whose change remounts the routed page.
 */
module PrivateRoute {
  import opened Http
  import opened AuthSlice

  const LoginPath := "/login"

  /** What the guard renders. */
  datatype View =
    | RedirectTo(path: string)
    /** The sidebar, the routed page mounted under key `outletKey`, and the trends column. */
    | Layout(outletKey: nat)

  /** The guard decides on `isLoggedIn` alone: anonymous sessions get only a redirect to /login. */
  function Guard(session: AuthState, feedKey: nat): (v: View)
    ensures v.RedirectTo? <==> !session.isLoggedIn
    ensures v.RedirectTo? ==> v.path == LoginPath
    ensures v.Layout? ==> v.outletKey == feedKey
  {
    if !session.isLoggedIn then RedirectTo(LoginPath) else Layout(feedKey)
  }

  /** Two sessions that agree on `isLoggedIn` are guarded alike, whatever their other fields. */
  lemma GuardOnlyReadsLoginFlag(s1: AuthState, s2: AuthState, feedKey: nat)
    requires s1.isLoggedIn == s2.isLoggedIn
    ensures Guard(s1, feedKey) == Guard(s2, feedKey)
  {
  }

  /** A session satisfying the store's invariant is let through exactly when it holds a token. */
  lemma GuardAdmitsTokenHolders(s: AuthState, feedKey: nat)
    requires Consistent(s)
    ensures Guard(s, feedKey).Layout? <==> s.token.Some?
  {
  }

  class PrivateRouteView {
    var feedKey: nat

    constructor ()
      ensures feedKey == 0
    {
      feedKey := 0;
    }

    /** `handleLogout`: dispatches `logout`, then navigates to /login. */
    method HandleLogout(store: AuthStore) returns (effects: seq<Effect>)
      modifies store
      ensures store.State() == InitialState && store.Valid()
      ensures effects == [Navigate(LoginPath)]
      ensures Guard(store.State(), feedKey) == RedirectTo(LoginPath)
    {
      store.Logout();
      effects := [Navigate(LoginPath)];
    }

    /** `handleNewTweetPosted`: bumps the key, so the routed page is mounted afresh. */
    method HandleNewTweetPosted()
      modifies this
      ensures feedKey == old(feedKey) + 1
    {
      feedKey := feedKey + 1;
    }
  }
}
