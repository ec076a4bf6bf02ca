/**
 * The navigation sidebar: which menu a user sees, which entry is
 * highlighted for the current location, and the portal's title.
 */
module AppSidebar {
  import opened Wrappers
  import opened Text

  // ---------------------------------------------------------------- roles

  /** The session as the auth hook sees it: nobody, or a user whose profile may carry a role. */
  datatype Session = SignedOut | SignedIn(profileRole: Option<string>)

  /** `userRole`: the profile's role when it is set and non-empty, `'user'` otherwise. */
  function UserRole(s: Session): (r: string)
    ensures r != ""
    ensures s.SignedIn? && s.profileRole.Some? && s.profileRole.value != "" ==> r == s.profileRole.value
    ensures !(s.SignedIn? && s.profileRole.Some? && s.profileRole.value != "") ==> r == "user"
  {
    if s.SignedIn? && s.profileRole.Some? && s.profileRole.value != "" then s.profileRole.value else "user"
  }

  predicate IsSuperAdmin(s: Session) {
    UserRole(s) == "super_admin"
  }

  predicate IsCustomerAdmin(s: Session) {
    UserRole(s) == "customer_admin"
  }

  // ---------------------------------------------------------------- route highlighting

  /** `isActiveRoute`: the location equals the path or starts with it. */
  function IsActiveRoute(pathname: string, path: string): (r: bool)
    ensures r <==> path <= pathname
  {
    StartsWithIsPrefix(pathname, path);
    pathname == path || StartsWith(pathname, path)
  }

  /** The prefix test ignores path segments: "/users" is active on "/users-archive". */
  lemma ActiveRouteIgnoresSegments()
    ensures IsActiveRoute("/users-archive", "/users")
    ensures !IsActiveRoute("/user", "/users")
  {
  }

  // ---------------------------------------------------------------- menu

  datatype SubItem = SubItem(id: string, heading: string, path: string)

  /** A menu entry: a link, or a group that opens a submenu. */
  datatype MenuItem = Link(id: string, heading: string, path: string) | Group(id: string, heading: string, submenu: seq<SubItem>)

  const Home := Link("home", "Home", "/home")

  const Dashboards := Group("dashboards", "Dashboards", [
    SubItem("overview", "Overview", "/dashboard/overview"),
    SubItem("analytics", "Analytics", "/dashboard/analytics"),
    SubItem("reports", "Reports", "/dashboard/reports")])

  const Devices := SubItem("devices", "Devices", "/devices")
  const OtaUpdates := SubItem("ota-updates", "OTA Updates", "/ota")
  const Scheduler := SubItem("scheduler", "Scheduler", "/scheduler")
  const UsersLink := Link("users", "Users", "/users")

  function Ids(items: seq<MenuItem>): seq<string> {
    seq(|items|, i requires 0 <= i < |items| => items[i].id)
  }

  function SubIds(sub: seq<SubItem>): seq<string> {
    seq(|sub|, i requires 0 <= i < |sub| => sub[i].id)
  }

  /** Every entry with the given id is a group whose submenu has exactly the given ids. */
  ghost predicate SubmenuIs(items: seq<MenuItem>, id: string, subIds: seq<string>) {
    forall i :: 0 <= i < |items| && items[i].id == id ==> items[i].Group? && SubIds(items[i].submenu) == subIds
  }

  predicate Distinct(s: seq<string>) {
    forall i, j :: 0 <= i < j < |s| ==> s[i] != s[j]
  }

  const AllEntities := Group("entities", "Entities", [
    Devices,
    SubItem("all-branches", "All Branches", "/entities/branches"),
    SubItem("all-zones", "All Zones", "/entities/zones")])
  const CustomersLink := Link("customers", "Customers", "/customers")
  const AdvancedFeatures := Group("advanced", "Advanced Features", [
    OtaUpdates,
    Scheduler,
    SubItem("system-config", "System Config", "/admin/config")])

  const DeviceEntities := Group("entities", "Entities", [Devices])
  const Organization := Link("hierarchy", "Organization", "/hierarchy")
  const Operations := Group("advanced", "Operations", [OtaUpdates, Scheduler])

  /** The super admin's menu as pushed. */
  lemma SuperAdminMenu(items: seq<MenuItem>)
    requires items == [Home, Dashboards] + [AllEntities, CustomersLink, UsersLink, AdvancedFeatures]
    ensures Ids(items) == ["home", "dashboards", "entities", "customers", "users", "advanced"]
    ensures SubmenuIs(items, "entities", ["devices", "all-branches", "all-zones"])
    ensures SubmenuIs(items, "advanced", ["ota-updates", "scheduler", "system-config"])
    ensures Distinct(Ids(items))
  {
  }

  /** Everyone else's menu as pushed, with users only for a customer admin. */
  lemma PortalMenu(items: seq<MenuItem>, customerAdmin: bool)
    requires items == [Home, Dashboards] + [DeviceEntities, Organization]
                      + (if customerAdmin then [UsersLink] else []) + [Operations]
    ensures customerAdmin ==> Ids(items) == ["home", "dashboards", "entities", "hierarchy", "users", "advanced"]
    ensures !customerAdmin ==> Ids(items) == ["home", "dashboards", "entities", "hierarchy", "advanced"]
    ensures "users" in Ids(items) <==> customerAdmin
    ensures "hierarchy" in Ids(items) && "customers" !in Ids(items)
    ensures SubmenuIs(items, "entities", ["devices"])
    ensures SubmenuIs(items, "advanced", ["ota-updates", "scheduler"])
    ensures Distinct(Ids(items))
  {
    if customerAdmin {
      assert Ids(items) == ["home", "dashboards", "entities", "hierarchy", "users", "advanced"];
    } else {
      assert Ids(items) == ["home", "dashboards", "entities", "hierarchy", "advanced"];
    }
  }

  /**
   * `getMenuItems`: everyone starts with Home and Dashboards and ends with
   * the advanced group. A super admin sees all entities, customers, users
   * and the system configuration; anyone else sees only devices, the
   * organisation view, users when a customer admin, and scheduling without
   * the system configuration. No id appears twice.
   */
  method GetMenuItems(s: Session) returns (items: seq<MenuItem>)
    ensures |items| >= 5 && items[0] == Home && items[1] == Dashboards
    ensures items[|items| - 1].Group? && items[|items| - 1].id == "advanced"
    ensures "users" in Ids(items) <==> IsSuperAdmin(s) || IsCustomerAdmin(s)
    ensures IsSuperAdmin(s) ==>
              Ids(items) == ["home", "dashboards", "entities", "customers", "users", "advanced"]
              && SubmenuIs(items, "entities", ["devices", "all-branches", "all-zones"])
              && SubmenuIs(items, "advanced", ["ota-updates", "scheduler", "system-config"])
    ensures !IsSuperAdmin(s) && IsCustomerAdmin(s) ==>
              Ids(items) == ["home", "dashboards", "entities", "hierarchy", "users", "advanced"]
    ensures !IsSuperAdmin(s) && !IsCustomerAdmin(s) ==>
              Ids(items) == ["home", "dashboards", "entities", "hierarchy", "advanced"]
    ensures !IsSuperAdmin(s) ==>
              "hierarchy" in Ids(items) && "customers" !in Ids(items)
              && SubmenuIs(items, "entities", ["devices"])
              && SubmenuIs(items, "advanced", ["ota-updates", "scheduler"])
    ensures Distinct(Ids(items))
  {
    items := [Home, Dashboards];
    if IsSuperAdmin(s) {
      items := items + [AllEntities, CustomersLink, UsersLink, AdvancedFeatures];
      SuperAdminMenu(items);
    } else {
      items := items + [DeviceEntities, Organization];
      if IsCustomerAdmin(s) {
        items := items + [UsersLink];
      }
      items := items + [Operations];
      PortalMenu(items, IsCustomerAdmin(s));
    }
  }

  // ---------------------------------------------------------------- header

  /** `getPortalTitle`. */
  function PortalTitle(s: Session): string {
    if IsSuperAdmin(s) then "Super Admin Portal"
    else if IsCustomerAdmin(s) then "Customer Admin Portal"
    else "SecureBank Portal"
  }

  /** `getPortalSubtitle`. */
  function PortalSubtitle(s: Session): string {
    if IsSuperAdmin(s) then "System Management"
    else if IsCustomerAdmin(s) then "Customer Management"
    else "Monitoring Dashboard"
  }

  /** The title and the subtitle always name the same tier. */
  lemma HeaderTiersAgree(s: Session)
    ensures PortalTitle(s) == "Super Admin Portal" <==> PortalSubtitle(s) == "System Management"
    ensures PortalTitle(s) == "Customer Admin Portal" <==> PortalSubtitle(s) == "Customer Management"
    ensures PortalTitle(s) == "SecureBank Portal" <==> PortalSubtitle(s) == "Monitoring Dashboard"
  {
  }

  /**
   * The two admin tests read one role, so at most one holds; a session with
   * no role set, or no session, gets the plain portal.
   */
  lemma RolesExclusive(s: Session)
    ensures !(IsSuperAdmin(s) && IsCustomerAdmin(s))
    ensures !(s.SignedIn? && s.profileRole.Some? && s.profileRole.value != "") ==>
              UserRole(s) == "user" && PortalTitle(s) == "SecureBank Portal"
  {
  }
}
