/**
 * The React dashboard layout: its own navigation table, filtered by the
 * session's `owner`/`cashier` roles, the role badge in the header, the
 * active-entry test on the current path, and the logout button.
 */
module DashboardLayout {
  import opened Common
  import Auth
  import RouteGuard

  /** A navigation entry; `label` is `caption`; the icon is left out. */
  datatype NavItem = NavItem(path: string, caption: string, access: seq<string>)

  const Staff: seq<string> := [Auth.OwnerRole, Auth.CashierRole]
  const ReportsItem := NavItem("/reports", "Laporan", [Auth.OwnerRole])

  /** Every entry but the last is open to both roles. */
  const StaffItems: seq<NavItem> := [
    NavItem("/dashboard", "Dashboard", Staff),
    NavItem("/menu", "Menu", Staff),
    NavItem("/category", "Kategori", Staff),
    NavItem("/table", "Meja", Staff),
    NavItem("/order", "Pesanan", Staff),
    NavItem("/reservation", "Reservasi", Staff),
    NavItem("/payment", "Pembayaran", Staff)
  ]

  const NavItems: seq<NavItem> := StaffItems + [ReportsItem]

  const OwnerBadge := "Owner"
  const KasirBadge := "Kasir"

  /** `user?.role`, with `None` for `undefined`. */
  function RoleOf(user: Option<Auth.User>): (r: Option<string>)
    ensures r.Some? <==> user.Some?
    ensures user.Some? ==> r.value == user.value.role
  {
    if user.Some? then Some(user.value.role) else None
  }

  /** `item.access.includes(user?.role)`: `undefined` is in no access list. */
  predicate Grants(item: NavItem, role: Option<string>)
  {
    role.Some? && role.value in item.access
  }

  /** `filteredNavItems` */
  function FilteredNavItems(user: Option<Auth.User>): (r: seq<NavItem>)
    ensures forall item :: item in r <==> item in NavItems && user.Some? && user.value.role in item.access
    ensures IsSubsequence(r, NavItems)
  {
    var p := (item: NavItem) => Grants(item, RoleOf(user));
    FilterIsSubsequence(NavItems, p);
    Filter(NavItems, p)
  }

  lemma StaffItemsAccess()
    ensures |StaffItems| == 7 && |NavItems| == 8
    ensures forall i :: 0 <= i < |StaffItems| ==> StaffItems[i].access == Staff
    ensures NavItems[7] == ReportsItem
  {
  }

  /** Without a user the list is empty. */
  lemma NoUserNoItems()
    ensures FilteredNavItems(None) == []
  {
    FilterNone(NavItems, (item: NavItem) => Grants(item, RoleOf(None)));
  }

  /** `owner` sees the whole table, in table order. */
  lemma OwnerSeesAll(u: Auth.User)
    requires u.role == Auth.OwnerRole
    ensures FilteredNavItems(Some(u)) == NavItems
  {
    StaffItemsAccess();
    FilterAll(NavItems, (item: NavItem) => Grants(item, RoleOf(Some(u))));
  }

  /** `cashier` sees every entry except the reports, in table order. */
  lemma CashierSeesAllButReports(u: Auth.User)
    requires u.role == Auth.CashierRole
    ensures FilteredNavItems(Some(u)) == StaffItems
  {
    var p := (item: NavItem) => Grants(item, RoleOf(Some(u)));
    StaffItemsAccess();
    FilterAppend(StaffItems, [ReportsItem], p);
    FilterAll(StaffItems, p);
    assert !p(ReportsItem);
    assert Filter([ReportsItem], p) == [];
  }

  /** The reports entry is shown exactly to the role the reports route requires. */
  lemma ReportsEntryMatchesGuard(user: Option<Auth.User>)
    ensures ReportsItem in FilteredNavItems(user) <==> user.Some? && user.value.role == RouteGuard.ReportsRole
  {
    StaffItemsAccess();
    assert ReportsItem in NavItems;
  }

  /** The header badge. */
  function RoleBadge(user: Option<Auth.User>): (r: string)
    ensures r == OwnerBadge <==> user.Some? && user.value.role == Auth.OwnerRole
    ensures r != OwnerBadge ==> r == KasirBadge
  {
    if RoleOf(user) == Some(Auth.OwnerRole) then OwnerBadge else KasirBadge
  }

  /** `location.pathname.startsWith(item.path)` */
  predicate IsActive(pathname: string, item: NavItem)
  {
    StartsWith(pathname, item.path)
  }

  /** An entry is highlighted exactly on the paths that extend its own, including unrelated longer names. */
  lemma {:induction false} ActiveIffExtends(pathname: string, item: NavItem)
    ensures IsActive(pathname, item) <==> exists rest :: pathname == item.path + rest
  {
    if IsActive(pathname, item) {
      var rest := pathname[|item.path|..];
      assert pathname == item.path + rest;
    }
  }

  /** `handleLogout`: log out, then navigate to the login page, which `logout` already targets. */
  method HandleLogout(store: Auth.Store)
    modifies store
    ensures store.State() == Auth.Logout(old(store.State()))
  {
    store.SignOut();
    store.Navigate(Auth.LoginPath);
  }
}
