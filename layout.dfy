/** The route guard every protected page renders through. */
module MainLayout {
  import opened Wrappers
  import opened AuthContext
  import Seqs

  datatype Screen = LoadingScreen | ToLogin | ToUnauthorized | PageContent

  /** What the layout shows: the loading screen first, then the login redirect, then the
      role check (only when `requiredRoles` is given, and an empty array is given), then
      the page. */
  function Gate(loading: bool, user: Option<User>, requiredRoles: Option<seq<Role>>): Screen {
    if loading then LoadingScreen
    else if !IsAuthenticated(user) then ToLogin
    else if requiredRoles.Some? && !Seqs.Any(requiredRoles.value, (r: Role) => HasRole(user, OneRole(r)))
    then ToUnauthorized
    else PageContent
  }

  /** The page is shown exactly when loading is over, someone is signed in and, when roles
      are required, the user's role is one of them. */
  lemma GateShowsContentIff(loading: bool, user: Option<User>, requiredRoles: Option<seq<Role>>)
    ensures Gate(loading, user, requiredRoles) == PageContent <==>
              !loading && user.Some? && (requiredRoles.None? || user.value.role in requiredRoles.value)
  {
    if !loading && user.Some? && requiredRoles.Some? && user.value.role in requiredRoles.value {
      var rs := requiredRoles.value;
      var i :| 0 <= i < |rs| && rs[i] == user.value.role;
      assert HasRole(user, OneRole(rs[i]));
    }
  }

  /** An empty `requiredRoles` array is truthy and admits nobody. */
  lemma EmptyRequiredRolesDenies(user: Option<User>)
    requires user.Some?
    ensures Gate(false, user, Some([])) == ToUnauthorized
  {
  }

  /** A signed-out visitor is sent to the login page whatever the page requires. */
  lemma SignedOutGoesToLogin(requiredRoles: Option<seq<Role>>)
    ensures Gate(false, None, requiredRoles) == ToLogin
  {
  }
}

/** The navigation menu. */
module Sidebar {
  import opened Wrappers
  import opened AuthContext
  import Seqs

  datatype NavItem = NavItem(to: string, title: string, visible: bool)

  const DashboardLink := NavItem("/dashboard", "Dashboard", true)
  const AdminLinks: seq<NavItem> := [
    NavItem("/routes", "Routes Management", true),
    NavItem("/sellers", "Sellers", true),
    NavItem("/products", "Products", true),
    NavItem("/price-plans", "Price Plans", true),
    NavItem("/reports", "Reports", true)
  ]
  const SalesOrdersLink := NavItem("/sales-orders", "Sales Orders", true)
  const DeliveryLinks: seq<NavItem> := [
    NavItem("/purchase-orders", "Purchase Orders", true),
    NavItem("/loading", "Loading Orders", true),
    NavItem("/delivery", "Delivery Orders", true),
    NavItem("/returns", "Returns", true),
    NavItem("/broken", "Broken Items", true),
    NavItem("/denomination", "Cash Handover", true)
  ]
  const SettingsLink := NavItem("/settings", "Settings", true)

  /** The menu a user sees: Dashboard, the five administration links for everyone, the
      sales link for the sales role, the six delivery links for the delivery role, and
      Settings last. */
  function Menu(user: Option<User>): seq<NavItem> {
    [DashboardLink] + AdminLinks
    + (if HasRole(user, OneRole(Sales)) then [SalesOrdersLink] else [])
    + (if HasRole(user, OneRole(Delivery)) then DeliveryLinks else [])
    + [SettingsLink]
  }

  /** The `visible` test `getNavItems` filters by. */
  predicate Visible(item: NavItem) {
    item.visible
  }

  /** Every entry of the menu is visible, so the final filter keeps it whole. */
  lemma MenuAllVisible(user: Option<User>)
    ensures Seqs.Filter(Menu(user), Visible) == Menu(user)
  {
    var m := Menu(user);
    assert forall i :: 0 <= i < |m| ==> Visible(m[i]);
    Seqs.FilterKeepsAll(m, Visible);
  }

  /** `getNavItems`: the entries are pushed one group at a time and the visible ones kept. */
  method GetNavItems(user: Option<User>) returns (items: seq<NavItem>)
    ensures items == Menu(user)
  {
    items := [DashboardLink];
    items := items + AdminLinks;
    if HasRole(user, OneRole(Sales)) {
      items := items + [SalesOrdersLink];
    }
    if HasRole(user, OneRole(Delivery)) {
      items := items + DeliveryLinks;
    }
    items := items + [SettingsLink];
    assert items == Menu(user);
    MenuAllVisible(user);
    items := Seqs.Filter(items, Visible);
  }

  /** Every user sees seven entries, plus one for the sales role and six for the delivery
      role; Dashboard comes first, the administration links next, Settings last. */
  lemma MenuShape(user: Option<User>)
    ensures var m := Menu(user);
            |m| == 7 + (if HasRole(user, OneRole(Sales)) then 1 else 0)
                     + (if HasRole(user, OneRole(Delivery)) then 6 else 0)
            && m[0] == DashboardLink && m[1..6] == AdminLinks && m[|m| - 1] == SettingsLink
  {
  }

  /** The Sales Orders link is in the menu exactly for users with the sales role. */
  lemma SalesLinkIffSalesRole(user: Option<User>)
    ensures SalesOrdersLink in Menu(user) <==> HasRole(user, OneRole(Sales))
  {
    var others := [DashboardLink] + AdminLinks + DeliveryLinks + [SettingsLink];
    assert forall i :: 0 <= i < |others| ==> others[i].to != SalesOrdersLink.to;
    if !HasRole(user, OneRole(Sales)) {
      var m := Menu(user);
      assert forall i :: 0 <= i < |m| ==> m[i] in others;
    }
  }

  /** Each delivery link is in the menu exactly for users with the delivery role. */
  lemma DeliveryLinksIffDeliveryRole(user: Option<User>, d: NavItem)
    requires d in DeliveryLinks
    ensures d in Menu(user) <==> HasRole(user, OneRole(Delivery))
  {
    var others := [DashboardLink] + AdminLinks + [SalesOrdersLink, SettingsLink];
    assert forall i, j :: 0 <= i < |others| && 0 <= j < |DeliveryLinks| ==> others[i].to != DeliveryLinks[j].to;
    if !HasRole(user, OneRole(Delivery)) {
      var m := Menu(user);
      assert forall i :: 0 <= i < |m| ==> m[i] in others;
    }
  }

  /** A menu entry is highlighted exactly when its path is the current location. */
  function IsActive(pathname: string, path: string): (r: bool)
    ensures r <==> pathname == path
  {
    pathname == path
  }

  /** No two entries of the list share a path. */
  predicate DistinctPaths(m: seq<NavItem>) {
    forall a, b :: 0 <= a < b < |m| ==> m[a].to != m[b].to
  }

  /** Two lists with distinct paths and no path in common join into one. */
  lemma DistinctPathsAppend(m: seq<NavItem>, n: seq<NavItem>)
    requires DistinctPaths(m) && DistinctPaths(n)
    requires forall a, b :: 0 <= a < |m| && 0 <= b < |n| ==> m[a].to != n[b].to
    ensures DistinctPaths(m + n)
  {
    forall a, b | 0 <= a < b < |m + n|
      ensures (m + n)[a].to != (m + n)[b].to
    {
      if b < |m| {
        assert (m + n)[a] == m[a] && (m + n)[b] == m[b];
      } else if a < |m| {
        assert (m + n)[a] == m[a] && (m + n)[b] == n[b - |m|];
      } else {
        assert (m + n)[a] == n[a - |m|] && (m + n)[b] == n[b - |m|];
      }
    }
  }

  /** The fixed groups of links have distinct paths, and the delivery links share none
      with the links before them. */
  lemma FixedLinksDistinct()
    ensures DistinctPaths([DashboardLink] + AdminLinks) && DistinctPaths(DeliveryLinks)
    ensures forall a, b :: 0 <= a < |[DashboardLink] + AdminLinks| && 0 <= b < |DeliveryLinks| ==>
              ([DashboardLink] + AdminLinks)[a].to != DeliveryLinks[b].to
  {
    var head := [DashboardLink] + AdminLinks;
    assert DistinctPaths(head);
    assert DistinctPaths(DeliveryLinks);
    assert forall a, b :: 0 <= a < |head| && 0 <= b < |DeliveryLinks| ==> head[a].to != DeliveryLinks[b].to;
  }

  /** The menu never lists a path twice, whatever the roles. */
  lemma MenuPathsDistinct(user: Option<User>)
    ensures DistinctPaths(Menu(user))
  {
    var head := [DashboardLink] + AdminLinks;
    var sales := if HasRole(user, OneRole(Sales)) then [SalesOrdersLink] else [];
    var delivery := if HasRole(user, OneRole(Delivery)) then DeliveryLinks else [];
    FixedLinksDistinct();
    DistinctPathsAppend(head, sales);
    DistinctPathsAppend(head + sales, delivery);
    DistinctPathsAppend(head + sales + delivery, [SettingsLink]);
  }

  /** The menu's paths are distinct, so at most one entry is highlighted at any location. */
  lemma AtMostOneActive(user: Option<User>, pathname: string, i: nat, j: nat)
    requires i < |Menu(user)| && j < |Menu(user)|
    requires IsActive(pathname, Menu(user)[i].to) && IsActive(pathname, Menu(user)[j].to)
    ensures i == j
  {
    MenuPathsDistinct(user);
  }
}
