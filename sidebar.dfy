/**
 * The React sidebar's navigation table and its role filter. Its access
 * lists use the roles `admin` and `kasir`, while the session store issues
 * `owner` and `cashier`; the lemmas below keep that mismatch visible.
 */
module Sidebar {
  import opened Common
  import Auth

  const AdminRole := "admin"
  const KasirRole := "kasir"

  /** A navigation entry; the icon is markup and is left out. */
  datatype NavItem = NavItem(name: string, path: string, access: seq<string>)

  const Staff: seq<string> := [AdminRole, KasirRole]
  const ReportsItem := NavItem("Reports", "/reports/sales", [AdminRole])

  /** Every entry but the last is open to both roles. */
  const StaffItems: seq<NavItem> := [
    NavItem("Dashboard", "/", Staff),
    NavItem("Menu", "/menu", Staff),
    NavItem("Categories", "/categories", Staff),
    NavItem("Tables", "/tables", Staff),
    NavItem("Orders", "/orders", Staff),
    NavItem("Reservations", "/reservations", Staff),
    NavItem("Payments", "/payments", Staff)
  ]

  const NavItems: seq<NavItem> := StaffItems + [ReportsItem]

  /** `item.access.includes(role)` */
  predicate Grants(item: NavItem, role: string)
  {
    role in item.access
  }

  /** `filteredNavItems`: nothing without a user, otherwise the entries open to the user's role. */
  function FilteredNavItems(user: Option<Auth.User>): (r: seq<NavItem>)
    ensures user.None? ==> r == []
    ensures forall item :: item in r <==> item in NavItems && user.Some? && Grants(item, user.value.role)
    ensures IsSubsequence(r, NavItems)
  {
    if user.None? then []
    else
      var r := Filter(NavItems, (item: NavItem) => Grants(item, user.value.role));
      FilterIsSubsequence(NavItems, (item: NavItem) => Grants(item, user.value.role));
      r
  }

  lemma StaffItemsAccess()
    ensures |StaffItems| == 7 && |NavItems| == 8
    ensures forall i :: 0 <= i < |StaffItems| ==> StaffItems[i].access == Staff
    ensures NavItems[7] == ReportsItem
  {
  }

  /** `admin` sees the whole table, in table order. */
  lemma AdminSeesAll(u: Auth.User)
    requires u.role == AdminRole
    ensures FilteredNavItems(Some(u)) == NavItems
  {
    StaffItemsAccess();
    FilterAll(NavItems, (item: NavItem) => Grants(item, u.role));
  }

  /** `kasir` sees every entry except Reports, in table order. */
  lemma KasirSeesAllButReports(u: Auth.User)
    requires u.role == KasirRole
    ensures FilteredNavItems(Some(u)) == StaffItems
  {
    var p := (item: NavItem) => Grants(item, u.role);
    StaffItemsAccess();
    FilterAppend(StaffItems, [ReportsItem], p);
    FilterAll(StaffItems, p);
    assert !p(ReportsItem);
    assert Filter([ReportsItem], p) == [];
  }

  /** Any role other than `admin` and `kasir` sees nothing. */
  lemma OtherRolesSeeNothing(u: Auth.User)
    requires u.role != AdminRole && u.role != KasirRole
    ensures FilteredNavItems(Some(u)) == []
  {
    StaffItemsAccess();
    FilterNone(NavItems, (item: NavItem) => Grants(item, u.role));
  }

  /** The identities the session store produces, `owner` after login and `cashier` after restore, see no entry. */
  lemma SessionUsersSeeNothing()
    ensures FilteredNavItems(Some(Auth.LoggedInUser)) == []
    ensures FilteredNavItems(Some(Auth.RestoredUser)) == []
  {
    OtherRolesSeeNothing(Auth.LoggedInUser);
    OtherRolesSeeNothing(Auth.RestoredUser);
  }
}
