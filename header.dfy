/**
 * The page header (src/components/Header.tsx): which navigation links are
 * shown and where the logo links to, chosen from the `isLoggedIn` prop.
 */
module Header {
  import opened Js

  /** One navigation link; the icon is presentation and is not modelled. */
  datatype NavItem = NavItem(name: string, path: string)

  /** The destructuring default `{ isLoggedIn = false }`: an absent prop reads as logged out. */
  function LoggedIn(prop: Option<bool>): (loggedIn: bool)
    ensures prop.None? ==> !loggedIn
    ensures prop.Some? ==> loggedIn == prop.value
  {
    match prop
    case None => false
    case Some(b) => b
  }

  /** `navItems`: empty when logged out, the three page links when logged in. */
  function NavItems(isLoggedIn: bool): (items: seq<NavItem>)
    ensures !isLoggedIn <==> items == []
    ensures isLoggedIn ==> |items| == 3
    ensures forall i, j :: 0 <= i < j < |items| ==> items[i].path != items[j].path
  {
    if isLoggedIn then
      [NavItem("Upload", "/upload"), NavItem("Leaderboard", "/leaderboard"), NavItem("Profile", "/profile")]
    else
      []
  }

  /** `homeRoute`: the logo leads to the landing page when logged out and to the home page when logged in. */
  function HomeRoute(isLoggedIn: bool): (route: string)
    ensures route == "/" <==> !isLoggedIn
    ensures isLoggedIn ==> route == "/home"
  {
    if isLoggedIn then "/home" else "/"
  }

  /** The order of the links as listed, by name and path. */
  lemma LoggedInNavOrder()
    ensures |NavItems(true)| == 3
    ensures NavItems(true)[0] == NavItem("Upload", "/upload")
    ensures NavItems(true)[1] == NavItem("Leaderboard", "/leaderboard")
    ensures NavItems(true)[2] == NavItem("Profile", "/profile")
  {
  }

  /** No navigation link points at the logo's destination, whichever the flag. */
  lemma NavSeparateFromHome(isLoggedIn: bool)
    ensures forall i :: 0 <= i < |NavItems(isLoggedIn)| ==> NavItems(isLoggedIn)[i].path != HomeRoute(isLoggedIn)
  {
  }
}
