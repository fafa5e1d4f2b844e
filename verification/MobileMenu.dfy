/**
  The bottom navigation bar: which tab is highlighted for a path, and what choosing a tab does.
  Tabs 0 to 2 navigate (home, explore, the viewer's profile); tab 3 logs out.
 */
module MobileMenu {
  import opened Js

  const HomePath := "/"
  const ExplorePath := "/explore"
  const ProfileSegment := "/profile"

  /** `getCurrentValue`: the highlighted tab for a path. */
  function CurrentTab(pathname: string): (tab: nat)
    ensures tab <= 2
    ensures pathname == HomePath ==> tab == 0
    ensures pathname == ExplorePath ==> tab == 1
    ensures tab == 2 <==> pathname != HomePath && pathname != ExplorePath && Contains(pathname, ProfileSegment)
    ensures pathname != HomePath && pathname != ExplorePath && !Contains(pathname, ProfileSegment) ==> tab == 0
  {
    if pathname == HomePath then 0
    else if pathname == ExplorePath then 1
    else if Contains(pathname, ProfileSegment) then 2
    else 0
  }

  /** What choosing a tab asks of the app. */
  datatype MenuAction = NavigateTo(path: string) | Logout | NoAction

  /** `/profile/${username}`: a null username is rendered as the text `null`. */
  function ProfilePath(username: Option<string>): (path: string)
    ensures ProfileSegment + "/" <= path
    ensures username.Some? ==> path[|ProfileSegment| + 1..] == username.value
    ensures username.None? ==> path[|ProfileSegment| + 1..] == "null"
  {
    ProfileSegment + "/" + (if username.Some? then username.value else "null")
  }

  /** The bar's `onChange`: tab 3 only logs out, tabs 0 to 2 only navigate, anything else does nothing. */
  function TabAction(tab: int, username: Option<string>): (a: MenuAction)
    ensures a.Logout? <==> tab == 3
    ensures a.NavigateTo? <==> 0 <= tab <= 2
    ensures a.NoAction? <==> tab < 0 || tab > 3
    ensures tab == 0 ==> a == NavigateTo(HomePath)
    ensures tab == 1 ==> a == NavigateTo(ExplorePath)
    ensures tab == 2 ==> a == NavigateTo(ProfilePath(username))
  {
    if tab == 0 then NavigateTo(HomePath)
    else if tab == 1 then NavigateTo(ExplorePath)
    else if tab == 2 then NavigateTo(ProfilePath(username))
    else if tab == 3 then Logout
    else NoAction
  }

  /** Choosing a navigation tab lands on a path that highlights that same tab, whatever the username. */
  lemma TabRoundTrip(tab: int, username: Option<string>)
    requires 0 <= tab <= 2
    ensures TabAction(tab, username).NavigateTo?
    ensures CurrentTab(TabAction(tab, username).path) == tab
  {
    if tab == 2 {
      var rest := "/" + (if username.Some? then username.value else "null");
      var p := ProfilePath(username);
      assert p == ProfileSegment + rest;
      ContainsPrefix(ProfileSegment, rest);
      assert p != HomePath by {
        assert |p| > 1;
      }
      assert p != ExplorePath by {
        assert p[1] == 'p';
      }
    }
  }
}
