/** The admin sidebar's navigation: which of the three links is highlighted
    for the current path. */
module AdminSidebar {
  import opened Text

  datatype NavItem = NavItem(href: string, title: string)

  const DashboardHref: string := "/admin"

  const NavItems: seq<NavItem> := [
    NavItem(DashboardHref, "Dashboard"),
    NavItem("/admin/products", "Produtos"),
    NavItem("/admin/leads", "Leads")
  ]

  /** An item is active on its own path, and every item but the dashboard
      also on any path that starts with its href. */
  predicate IsActive(pathname: string, href: string) {
    pathname == href || (href != DashboardHref && StartsWith(pathname, href))
  }

  /** The positions of the highlighted items, in navigation order. */
  function ActiveItems(pathname: string): (r: seq<nat>)
    ensures forall k: nat :: k in r <==> k < |NavItems| && IsActive(pathname, NavItems[k].href)
  {
    (if IsActive(pathname, NavItems[0].href) then [0] else [])
    + (if IsActive(pathname, NavItems[1].href) then [1] else [])
    + (if IsActive(pathname, NavItems[2].href) then [2] else [])
  }

  /** The dashboard is highlighted on "/admin" only, never by prefix. */
  lemma DashboardOnlyExact(pathname: string)
    ensures IsActive(pathname, DashboardHref) <==> pathname == DashboardHref
  {
  }

  /** Products and leads are highlighted on every path below them, such as
      "/admin/products/123". */
  lemma SubpagesActive(pathname: string, k: nat)
    requires 1 <= k < |NavItems|
    ensures StartsWith(pathname, NavItems[k].href) <==> IsActive(pathname, NavItems[k].href)
  {
  }

  /** The prefix test is on characters, not on path segments: a sibling path
      that extends the href highlights the item too. */
  lemma SiblingPathActive()
    ensures IsActive("/admin/products-archive", "/admin/products")
    ensures !IsActive("/admin/products-archive", DashboardHref)
  {
    assert "/admin/products" <= "/admin/products-archive";
  }

  /** A path below the products page is not below the leads page: the two
      hrefs part at their eighth character. */
  lemma ProductsNotLeads(pathname: string)
    requires StartsWith(pathname, NavItems[1].href)
    ensures !StartsWith(pathname, NavItems[2].href)
  {
    assert pathname[7] == 'p';
  }

  /** With these three hrefs, no path highlights two items. */
  lemma AtMostOneActive(pathname: string)
    ensures |ActiveItems(pathname)| <= 1
  {
    if StartsWith(pathname, NavItems[1].href) {
      ProductsNotLeads(pathname);
    }
  }
}
