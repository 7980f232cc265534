/** The side navigation (src/components/Layout.tsx): a fixed table of eight
    entries, each with the roles that see it, filtered by the logged-in
    user's role. */
module Layout {
  import opened Types
  import opened Seqs
  import opened AppRoutes

  datatype NavItem = NavItem(name: string, path: string, roles: seq<UserRole>)

  const NavigationItems: seq<NavItem> := [
    NavItem("Dashboard", "/dashboard", [Admin, Manager]),
    NavItem("Waiter POS", "/waiter", [Waiter, Admin, Manager]),
    NavItem("Kitchen", "/kds", [Kitchen, Admin, Manager]),
    NavItem("Billing", "/billing", [Cashier, Admin, Manager]),
    NavItem("Menu", "/menu", [Admin, Manager]),
    NavItem("Inventory", "/inventory", [Storekeeper, Admin, Manager]),
    NavItem("Reports", "/reports", [Admin, Manager, Cashier]),
    NavItem("Settings", "/settings", [Admin, Manager])
  ]

  /** `user && item.roles.includes(user.role)`. */
  function ShownTo(user: Option<User>): NavItem -> bool
  {
    (item: NavItem) => user.Some? && user.value.role in item.roles
  }

  /** `allowedNavItems`: the entries the user's role may see, in table order. */
  function AllowedNavItems(user: Option<User>): (r: seq<NavItem>)
    ensures |r| <= |NavigationItems|
    ensures forall item :: item in r <==> item in NavigationItems && user.Some? && user.value.role in item.roles
  {
    Filter(NavigationItems, ShownTo(user))
  }

  /** Without a user there is no navigation. */
  lemma NoUserNoNavigation()
    ensures AllowedNavItems(None) == []
  {
    FilterKeepsNone(NavigationItems, ShownTo(None));
  }

  /** Admins and managers see all eight entries, in order. */
  lemma AdminAndManagerSeeAll(user: User)
    requires user.role == Admin || user.role == Manager
    ensures AllowedNavItems(Some(user)) == NavigationItems
  {
    AdminAndManagerListed();
    FilterKeepsAll(NavigationItems, ShownTo(Some(user)));
  }

  /** Every entry lists the admin and the manager roles. */
  lemma AdminAndManagerListed()
    ensures forall k :: 0 <= k < |NavigationItems| ==>
      Admin in NavigationItems[k].roles && Manager in NavigationItems[k].roles
  {
  }

  /** The paths of a list of entries. */
  function Paths(items: seq<NavItem>): (ps: seq<string>)
    ensures |ps| == |items| && forall k :: 0 <= k < |items| ==> ps[k] == items[k].path
  {
    if items == [] then [] else [items[0].path] + Paths(items[1..])
  }

  /** A waiter sees only the waiter screen. */
  lemma WaiterNav(user: User)
    requires user.role == Waiter
    ensures Paths(AllowedNavItems(Some(user))) == ["/waiter"]
  {
    var p := ShownTo(Some(user));
    assert !p(NavigationItems[0]) && p(NavigationItems[1]);
    FilterOnly(NavigationItems, p, 1);
  }

  /** The kitchen sees only the kitchen display. */
  lemma KitchenNav(user: User)
    requires user.role == Kitchen
    ensures Paths(AllowedNavItems(Some(user))) == ["/kds"]
  {
    FilterOnly(NavigationItems, ShownTo(Some(user)), 2);
  }

  /** A storekeeper sees only the inventory. */
  lemma StorekeeperNav(user: User)
    requires user.role == Storekeeper
    ensures Paths(AllowedNavItems(Some(user))) == ["/inventory"]
  {
    StorekeeperListed();
    FilterOnly(NavigationItems, ShownTo(Some(user)), 5);
  }

  /** Only the inventory entry lists the storekeeper role. */
  lemma StorekeeperListed()
    ensures forall k :: 0 <= k < |NavigationItems| ==> (Storekeeper in NavigationItems[k].roles <==> k == 5)
  {
  }

  /** A cashier sees billing and reports, in that order. */
  lemma CashierNav(user: User)
    requires user.role == Cashier
    ensures Paths(AllowedNavItems(Some(user))) == ["/billing", "/reports"]
  {
    CashierShown(user);
  }

  /** The entries a cashier sees are the fourth and the seventh. */
  lemma CashierShown(user: User)
    requires user.role == Cashier
    ensures AllowedNavItems(Some(user)) == [NavigationItems[3], NavigationItems[6]]
  {
    CashierEntries(user);
    FilterOnlyTwo(NavigationItems, ShownTo(Some(user)), 3, 6);
  }

  /** Which entries pass the cashier's role test. */
  lemma CashierEntries(user: User)
    requires user.role == Cashier
    ensures forall k :: 0 <= k < |NavigationItems| ==> (ShownTo(Some(user))(NavigationItems[k]) <==> k == 3 || k == 6)
  {
  }

  /** The menu and the router agree: the entries a role sees are exactly the
      protected pages the guard lets it open. */
  lemma NavMatchesGuard(user: User, k: nat)
    requires k < |NavigationItems|
    ensures NavigationItems[k] in AllowedNavItems(Some(user)) <==>
      Visit(NavigationItems[k].path, true, Some(user)) == Page(NavigationItems[k].path)
  {
    assert ProtectedRoutes[k].path == NavigationItems[k].path;
    assert ProtectedRoutes[k].allowedRoles == NavigationItems[k].roles;
    RouteAt(k, user);
  }

  /** Every protected page has a navigation entry at the same position, shown
      to the same roles. */
  lemma EveryPageHasEntry()
    ensures |NavigationItems| == |ProtectedRoutes|
    ensures forall k :: 0 <= k < |NavigationItems| ==>
      NavigationItems[k].path == ProtectedRoutes[k].path && NavigationItems[k].roles == ProtectedRoutes[k].allowedRoles
  {
  }
}
