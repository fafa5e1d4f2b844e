/**
  The profile page: fetches either the viewer's own profile or another user's, unwraps the
  response, shows a not-found message on failure; the follow button is a stub that only logs.
 */
module ProfilePage {
  import opened Js
  import opened Http

  const OwnProfilePath := "/users/me"
  const UsersPrefix := "/users/"
  const NotFoundMessage := "Não foi possível carregar o perfil. Usuário não encontrado."

  datatype UserProfile = UserProfile(
    id: string,
    name: string,
    username: string,
    email: string,
    imageUrl: Option<string>,
    coverUrl: Option<string>,
    followers: int,
    following: int,
    isFollowed: bool,
    tweetsCount: Option<int>)

  /** `response.data`: either an envelope with a truthy `user`, or the profile itself. */
  datatype ProfileData = WithUser(user: UserProfile) | Bare(profile: UserProfile)

  /** `response.data.user || response.data` */
  function Unwrap(d: ProfileData): (p: UserProfile)
    ensures d.WithUser? ==> p == d.user
    ensures d.Bare? ==> p == d.profile
  {
    match d
    case WithUser(u) => u
    case Bare(p) => p
  }

  /** `username === loggedUsername`: the route's user is the logged-in one; a null session name matches nothing. */
  function IsOwnProfile(routeUsername: string, loggedUsername: Option<string>): (own: bool)
    ensures loggedUsername.None? ==> !own
    ensures loggedUsername.Some? ==> (own <==> loggedUsername.value == routeUsername)
  {
    loggedUsername == Some(routeUsername)
  }

  /** The endpoint: `/users/me` for one's own profile, `/users/{username}` for anyone else's. */
  function ProfileEndpoint(routeUsername: string, loggedUsername: Option<string>): (path: string)
    ensures IsOwnProfile(routeUsername, loggedUsername) ==> path == OwnProfilePath
    ensures !IsOwnProfile(routeUsername, loggedUsername) ==>
      UsersPrefix <= path && path[|UsersPrefix|..] == routeUsername
  {
    if IsOwnProfile(routeUsername, loggedUsername) then OwnProfilePath else UsersPrefix + routeUsername
  }

  /** A user whose name is literally `me` cannot be told apart from the viewer's own profile by the endpoint. */
  lemma EndpointOfUserNamedMe(loggedUsername: Option<string>)
    ensures ProfileEndpoint("me", loggedUsername) == OwnProfilePath
  {
  }

  class ProfileView {
    /** The `:username` route parameter of the latest render. */
    var routeUsername: string
    /** The session's `username` of the latest render. */
    var loggedUsername: Option<string>
    var profile: Option<UserProfile>
    var loading: bool
    var error: Option<string>

    constructor (routeUsername: string, loggedUsername: Option<string>)
      ensures this.routeUsername == routeUsername && this.loggedUsername == loggedUsername
      ensures profile == None && loading && error == None
    {
      this.routeUsername := routeUsername;
      this.loggedUsername := loggedUsername;
      profile := None;
      loading := true;
      error := None;
    }

    /** `fetchProfile` up to its `await`: loading starts, the error is cleared, the endpoint chosen. */
    method FetchProfile() returns (request: Request)
      modifies this
      ensures routeUsername == old(routeUsername) && loggedUsername == old(loggedUsername)
      ensures loading && error == None && profile == old(profile)
      ensures request == Request(Get, ProfileEndpoint(routeUsername, loggedUsername), NoBody)
    {
      loading := true;
      error := None;
      var endpoint := if IsOwnProfile(routeUsername, loggedUsername) then OwnProfilePath else UsersPrefix + routeUsername;
      request := Request(Get, endpoint, NoBody);
    }

    /**
      A re-render of the mounted page with new route and session values: the effect runs
      `fetchProfile` again exactly when `username` or `isOwnProfile` changed. The profile
      shown so far stays until the new request settles.
     */
    method Rerender(username: string, logged: Option<string>) returns (request: Option<Request>)
      modifies this
      ensures routeUsername == username && loggedUsername == logged
      ensures profile == old(profile)
      ensures request.Some? <==>
        username != old(routeUsername) || IsOwnProfile(username, logged) != IsOwnProfile(old(routeUsername), old(loggedUsername))
      ensures request.Some? ==>
        request.value == Request(Get, ProfileEndpoint(username, logged), NoBody) && loading && error == None
      ensures request.None? ==> loading == old(loading) && error == old(error)
    {
      var changed := username != routeUsername || IsOwnProfile(username, logged) != IsOwnProfile(routeUsername, loggedUsername);
      routeUsername := username;
      loggedUsername := logged;
      if changed {
        var r := FetchProfile();
        request := Some(r);
      } else {
        request := None;
      }
    }

    /** The continuation: the unwrapped profile on success; no profile and the not-found message on failure. */
    method ProfileFetched(outcome: Outcome<ProfileData>)
      modifies this
      ensures routeUsername == old(routeUsername) && loggedUsername == old(loggedUsername)
      ensures !loading
      ensures outcome.Success? ==> profile == Some(Unwrap(outcome.data)) && error == old(error)
      ensures outcome.Failure? ==> profile == None && error == Some(NotFoundMessage)
    {
      if outcome.Success? {
        profile := Some(Unwrap(outcome.data));
      } else {
        error := Some(NotFoundMessage);
        profile := None;
      }
      loading := false;
    }

    /** `handleFollowToggle`: changes nothing; with a profile loaded it logs that profile's username, otherwise it returns at once. */
    method HandleFollowToggle() returns (logged: Option<string>)
      ensures logged.None? <==> profile.None?
      ensures profile.Some? ==> logged == Some(profile.value.username)
    {
      if profile.None? {
        return None;
      }
      logged := Some(profile.value.username);
    }

    /** The header title: the profile's name when loaded and non-empty, else the route's username. */
    function HeaderName(): (title: string)
      reads this
      ensures profile.Some? && Truthy(profile.value.name) ==> title == profile.value.name
      ensures profile.None? || !Truthy(profile.value.name) ==> title == routeUsername
    {
      if profile.Some? && Truthy(profile.value.name) then profile.value.name else routeUsername
    }

    /** The header's tweet count: the profile's count, or 0 when there is no profile or no count. */
    function HeaderTweetsCount(): (count: int)
      reads this
      ensures profile.Some? && profile.value.tweetsCount.Some? ==> count == profile.value.tweetsCount.value
      ensures profile.None? || profile.value.tweetsCount.None? ==> count == 0
    {
      if profile.Some? then profile.value.tweetsCount.GetOr(0) else 0
    }
  }
}
