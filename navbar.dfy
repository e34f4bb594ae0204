/** The navigation bar: which links it shows for the stored session, and logout. */
module Navbar {
  import opened Wrappers
  import opened Http
  import opened Session

  datatype Link = Home | Dashboard | HealthProfile | Classes | AdminDashboardLink | TrainerDashboardLink | Logout | LoginLink | RegisterLink

  /** Lines 25-56: Home first, then the role's links and Logout, or Login and Register. */
  function VisibleLinks(isAuthenticated: bool, role: Option<string>): (r: seq<Link>)
    ensures |r| > 0 && r[0] == Home
    ensures !isAuthenticated ==> r == [Home, LoginLink, RegisterLink]
    ensures isAuthenticated ==> r[|r| - 1] == Logout && LoginLink !in r && RegisterLink !in r
    ensures (Dashboard in r || HealthProfile in r || Classes in r) <==> isAuthenticated && role == Some("user")
    ensures AdminDashboardLink in r <==> isAuthenticated && role == Some("admin")
    ensures TrainerDashboardLink in r <==> isAuthenticated && role == Some("trainer")
  {
    if !isAuthenticated then [Home, LoginLink, RegisterLink]
    else
      [Home] +
      (if role == Some("user") then [Dashboard, HealthProfile, Classes] else []) +
      (if role == Some("admin") then [AdminDashboardLink] else []) +
      (if role == Some("trainer") then [TrainerDashboardLink] else []) +
      [Logout]
  }

  /** A signed-in session of some other role (or none stored) sees only Home and Logout. */
  lemma UnknownRoleLinks(role: Option<string>)
    requires role != Some("user") && role != Some("admin") && role != Some("trainer")
    ensures VisibleLinks(true, role) == [Home, Logout]
  {
  }

  class NavbarState {
    var isAuthenticated: bool
    var role: Option<string>

    /** The initial state and the mount effect both read the storage. */
    constructor (storage: LocalStorage)
      ensures isAuthenticated == storage.HasToken() && role == storage.role
    {
      isAuthenticated := storage.HasToken();
      role := storage.role;
    }

    function Links(): seq<Link>
      reads this
    {
      VisibleLinks(isAuthenticated, role)
    }

    /**
     * `handleLogout`: both keys removed, both state variables reset, and a
     * navigation to `/`. The result does not depend on the old state, so a
     * second logout changes nothing.
     */
    method HandleLogout(storage: LocalStorage) returns (e: Effect)
      modifies this, storage
      ensures storage.token == None && storage.role == None
      ensures !isAuthenticated && role == None
      ensures Links() == [Home, LoginLink, RegisterLink]
      ensures e == Effect(false, Some("/"), Some(SuccessToastOf("Logged out successfully!")), false)
    {
      storage.ClearSession();
      isAuthenticated := false;
      role := None;
      e := Effect(false, Some("/"), Some(SuccessToastOf("Logged out successfully!")), false);
    }
  }
}
