/**
 * The navigation menu: a fixed table of pages, each with the roles allowed
 * to see it, filtered by the logged-in user's role.
 */
module Sidebar {
  import opened Types
  import opened Collections

  datatype MenuItem = MenuItem(id: string, caption: string, allowedRoles: seq<string>)

  /** The menu table, in display order. */
  const MenuItems: seq<MenuItem> := [
    MenuItem("dashboard", "Dashboard", ["admin", "doctor", "reception"]),
    MenuItem("patients", "Patients", ["admin", "doctor", "reception"]),
    MenuItem("appointments", "Appointments", ["admin", "doctor", "reception"]),
    MenuItem("records", "Medical Records", ["admin", "doctor"]),
    MenuItem("users", "User Management", ["admin"]),
    MenuItem("analytics", "Analytics", ["admin", "doctor"])
  ]

  /** `user?.role || ''`: the role the menu is filtered by. */
  function RoleOf(user: Option<User>): string {
    if user.Some? then user.value.role else ""
  }

  /** The test the menu applies to each item. */
  function AllowedFor(role: string): MenuItem -> bool {
    (item: MenuItem) => role in item.allowedRoles
  }

  /** `filteredMenuItems`: the items whose allowed roles contain the role, in table order. */
  function VisibleItems(role: string): (r: seq<MenuItem>)
    ensures forall item :: item in r <==> item in MenuItems && role in item.allowedRoles
    ensures IsSubsequence(r, MenuItems)
  {
    FilterIsSubsequence(MenuItems, AllowedFor(role));
    Filter(MenuItems, AllowedFor(role))
  }

  /** An item is highlighted iff it is the current page. */
  predicate IsActive(currentPage: string, item: MenuItem) {
    currentPage == item.id
  }

  /** The table's ids are pairwise distinct, so at most one item is highlighted. */
  lemma AtMostOneActive(currentPage: string)
    ensures forall i, j :: 0 <= i < j < |MenuItems| ==> MenuItems[i].id != MenuItems[j].id
    ensures forall i, j ::
              (0 <= i < |MenuItems| && 0 <= j < |MenuItems| &&
               IsActive(currentPage, MenuItems[i]) && IsActive(currentPage, MenuItems[j])) ==> i == j
  {
  }

  /** The admin sees all six items. */
  lemma AdminSeesAll()
    ensures VisibleItems("admin") == MenuItems
  {
    FilterKeepsAll(MenuItems, AllowedFor("admin"));
  }

  /** "doctor" sees every item but user management, in table order. */
  lemma DoctorMenu()
    ensures forall item :: item in VisibleItems("doctor") <==> item in MenuItems && item.id != "users"
  {
    forall i | 0 <= i < |MenuItems|
      ensures "doctor" in MenuItems[i].allowedRoles <==> MenuItems[i].id != "users"
    {
      assert "doctor" != "admin";
    }
  }

  /**
   * "reception" sees the dashboard, patients and appointments, in table order:
   * every item but medical records, user management and analytics.
   */
  lemma ReceptionMenu()
    ensures forall item :: item in VisibleItems("reception") <==>
      item in MenuItems && item.id != "records" && item.id != "users" && item.id != "analytics"
  {
    forall i | 0 <= i < |MenuItems|
      ensures "reception" in MenuItems[i].allowedRoles <==>
        MenuItems[i].id != "records" && MenuItems[i].id != "users" && MenuItems[i].id != "analytics"
    {
      assert "reception" != "admin" && "reception" != "doctor";
    }
  }

  /** A role that the table never names sees no item at all. */
  lemma UnnamedRoleSeesNothing(role: string)
    requires role != "admin" && role != "doctor" && role != "reception"
    ensures VisibleItems(role) == []
  {
    forall item | item in MenuItems ensures !AllowedFor(role)(item) {
    }
    FilterKeepsNone(MenuItems, AllowedFor(role));
  }

  /**
   * No logged-in user, and the declared roles "doktor" and "foydalanuvchi",
   * see no item at all.
   */
  lemma NoItemsWithoutMatchingRole()
    ensures VisibleItems(RoleOf(None)) == []
    ensures VisibleItems("doktor") == [] && VisibleItems("foydalanuvchi") == []
  {
    UnnamedRoleSeesNothing("");
    assert "doktor"[2] != "doctor"[2] && "doktor" != "admin" && "doktor" != "reception";
    UnnamedRoleSeesNothing("doktor");
    assert "foydalanuvchi" != "admin" && "foydalanuvchi" != "doctor" && "foydalanuvchi" != "reception";
    UnnamedRoleSeesNothing("foydalanuvchi");
  }

  /** Among declared roles only the admin sees anything. */
  lemma DeclaredRolesMenu(u: User)
    requires WellTypedUser(u)
    ensures VisibleItems(RoleOf(Some(u))) == if u.role == "admin" then MenuItems else []
  {
    if u.role == "admin" { AdminSeesAll(); } else { NoItemsWithoutMatchingRole(); }
  }
}
