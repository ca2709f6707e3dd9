/**
  The navigation bar: where its Dashboard link points for each role, which links it shows,
  its two drop-down toggles, and its logout action.
 */
module Navbar {
  import opened Wrappers
  import Auth
  import DoctorDashboard
  import AdminDashboard
  import Dashboard

  /** `getDashboardLink`: no user and patients go to `/dashboard`, admins to `/admin`,
      doctors to `/doctor-dashboard`. */
  function DashboardLink(user: Option<Auth.User>): (route: string)
    ensures route in {"/dashboard", "/admin", "/doctor-dashboard"}
    ensures user.None? ==> route == "/dashboard"
  {
    if user.None? then "/dashboard"
    else match user.value.role
      case Admin => "/admin"
      case Doctor => "/doctor-dashboard"
      case Patient => "/dashboard"
  }

  /** The Dashboard link never leads a signed-in user to a page that denies them: admins reach
      the admin view, doctors the doctor view, patients the directory. */
  lemma DashboardLinkIsGranted(user: Option<Auth.User>)
    requires user.Some?
    ensures DashboardLink(user) == "/admin" <==> AdminDashboard.AccessGranted(user)
    ensures DashboardLink(user) == "/doctor-dashboard" <==> DoctorDashboard.AccessGranted(user)
    ensures DashboardLink(user) == "/dashboard" ==>
              Dashboard.AccessGranted(user) && user.value.role == Auth.Patient
  {
  }

  datatype NavLink = NavLink(caption: string, route: string)

  /** The desktop links: Home always, then Dashboard and Appointments for a signed-in user. */
  function Links(user: Option<Auth.User>): (links: seq<NavLink>)
    ensures |links| >= 1 && links[0] == NavLink("Home", "/")
    ensures user.None? ==> |links| == 1
    ensures user.Some? ==> links[1..] == [NavLink("Dashboard", DashboardLink(user)),
                                          NavLink("Appointments", "/appointments")]
  {
    if user.None? then [NavLink("Home", "/")]
    else [NavLink("Home", "/"), NavLink("Dashboard", DashboardLink(user)),
          NavLink("Appointments", "/appointments")]
  }

  /** A Dashboard or Appointments link is shown if and only if a user is signed in. */
  lemma UserLinksIffSignedIn(user: Option<Auth.User>)
    ensures (exists i :: 0 <= i < |Links(user)| && Links(user)[i].caption == "Dashboard") <==> user.Some?
    ensures (exists i :: 0 <= i < |Links(user)| && Links(user)[i].caption == "Appointments") <==> user.Some?
  {
    var links := Links(user);
    if user.Some? {
      assert links[1].caption == "Dashboard";
      assert links[2].caption == "Appointments";
    }
  }

  class NavbarState {
    const session: Auth.SessionStore
    var isMenuOpen: bool
    var isProfileOpen: bool

    /** The bar as it mounts, reading the shared session. */
    constructor (session: Auth.SessionStore)
      ensures this.session == session && !isMenuOpen && !isProfileOpen
    {
      this.session := session;
      isMenuOpen := false;
      isProfileOpen := false;
    }

    /** The profile button. */
    method ToggleProfile()
      modifies this
      ensures isProfileOpen == !old(isProfileOpen) && isMenuOpen == old(isMenuOpen)
    {
      isProfileOpen := !isProfileOpen;
    }

    /** The mobile menu button. */
    method ToggleMenu()
      modifies this
      ensures isMenuOpen == !old(isMenuOpen) && isProfileOpen == old(isProfileOpen)
    {
      isMenuOpen := !isMenuOpen;
    }

    /** A link in the profile drop-down closes it. */
    method CloseProfile()
      modifies this
      ensures !isProfileOpen && isMenuOpen == old(isMenuOpen)
    {
      isProfileOpen := false;
    }

    /** A link in the mobile menu closes it. */
    method CloseMenu()
      modifies this
      ensures !isMenuOpen && isProfileOpen == old(isProfileOpen)
    {
      isMenuOpen := false;
    }

    /** `handleLogout`: the session is cleared, the browser goes to `/` (the returned route)
        and the profile drop-down closes; the mobile menu is left as it was. */
    method HandleLogout() returns (route: string)
      modifies this, session
      ensures session.user == None && session.storage == None
      ensures session.isLoading == old(session.isLoading)
      ensures route == "/" && !isProfileOpen && isMenuOpen == old(isMenuOpen)
    {
      session.Logout();
      route := "/";
      isProfileOpen := false;
    }
  }

  /** A signed-in doctor opens the profile drop-down and logs out: afterwards the bar shows
      only the Home link and the drop-down is closed. */
  method LogoutFromProfile(email: string, password: string, id: string)
    returns (linksBefore: seq<NavLink>, linksAfter: seq<NavLink>, profileOpen: bool)
    ensures linksBefore == [NavLink("Home", "/"), NavLink("Dashboard", "/doctor-dashboard"),
                            NavLink("Appointments", "/appointments")]
    ensures linksAfter == [NavLink("Home", "/")] && !profileOpen
  {
    var session := new Auth.SessionStore(None);
    session.Restore();
    var _ := session.Login(email, password, Auth.Doctor, id, true);
    var bar := new NavbarState(session);
    linksBefore := Links(session.user);
    bar.ToggleProfile();
    var _ := bar.HandleLogout();
    linksAfter := Links(session.user);
    profileOpen := bar.isProfileOpen;
  }
}
