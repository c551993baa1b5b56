/** The root of the app (myProjectApp.swift): which screen the window shows
    for the authentication state and role. The role is an optional string;
    `lowercased()` is modelled on ASCII letters. */
module App {
  import opened Text
  import opened DashboardScreen

  datatype RootView = LoginView | RestaurantDashboardView | MainTabView

  /** The body of the window group. */
  function RootFor(isAuthenticated: bool, role: Option<string>): RootView {
    if isAuthenticated then
      if role.Some? && Lower(role.value) == "restaurant" then RestaurantDashboardView
      else MainTabView
    else LoginView
  }

  /** Signed out, the login screen shows whatever the role. */
  lemma SignedOutShowsLogin(role: Option<string>)
    ensures RootFor(false, role) == LoginView
  {
  }

  /** Signed in, the dashboard shows exactly for a restaurant role in any
      case, and the main tabs otherwise, an absent role included. */
  lemma SignedInRouting(role: Option<string>)
    ensures RootFor(true, role) == RestaurantDashboardView <==> role.Some? && Lower(role.value) == "restaurant"
    ensures RootFor(true, role) == MainTabView <==> !(role.Some? && Lower(role.value) == "restaurant")
    ensures RootFor(true, None) == MainTabView
  {
  }

  /** The role is matched without regard to case. */
  lemma RoleCaseIgnored(isAuthenticated: bool, role: string)
    ensures RootFor(isAuthenticated, Some(Upper(role))) == RootFor(isAuthenticated, Some(role))
    ensures RootFor(isAuthenticated, Some(Lower(role))) == RootFor(isAuthenticated, Some(role))
  {
    LowerOfUpper(role);
    LowerIdempotent(role);
  }

  /** The role as stored, and the same role in capitals, both open the
      dashboard. */
  lemma CapitalisedRestaurant()
    ensures RootFor(true, Some("restaurant")) == RestaurantDashboardView
    ensures RootFor(true, Some(Upper("restaurant"))) == RestaurantDashboardView
  {
    var r := "restaurant";
    assert forall i :: 0 <= i < |r| ==> IsAsciiLower(r[i]);
    LowerKeeps(r);
    RoleCaseIgnored(true, r);
  }

  /** Lower-casing leaves a text without capitals alone. */
  lemma LowerKeeps(s: string)
    requires forall i :: 0 <= i < |s| ==> !IsAsciiUpper(s[i])
    ensures Lower(s) == s
  {
  }

  /** The window's root for the shared session. */
  function Root(auth: AuthSession): RootView
    reads auth
  {
    RootFor(auth.isAuthenticated, auth.role)
  }

  /** Logging out of the dashboard brings the window back to the login
      screen; a failed sign-out leaves it where it was. */
  method LogoutFromDashboard(screen: DashboardState, auth: AuthSession, signOutError: Option<string>)
    modifies screen, auth
    ensures signOutError.None? ==> Root(auth) == LoginView
    ensures signOutError.Some? ==> Root(auth) == old(Root(auth))
  {
    screen.Logout(auth, signOutError);
  }
}
