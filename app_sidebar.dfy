/**
 * The sidebar's navigation list and the rule that highlights the entry for
 * the current path.
 */
module AppSidebar {
  datatype NavItem = NavItem(href: string, title: string)

  const NAV_ITEMS: seq<NavItem> := [
    NavItem("/", "Dashboard"),
    NavItem("/expenses", "Expenses"),
    NavItem("/budgets", "Budgets"),
    NavItem("/analytics", "Analytics"),
    NavItem("/ai-insights", "AI Insights")
  ]

  /** An entry is highlighted on its own path and, except for the root, on any path it is a prefix of. */
  predicate IsActive(pathname: string, href: string)
    ensures IsActive(pathname, href) <==> href <= pathname && (href == "/" ==> pathname == "/")
  {
    pathname == href || (href != "/" && href <= pathname)
  }

  /** The root entry is highlighted on the root path only. */
  lemma RootActiveOnlyAtRoot(pathname: string)
    ensures IsActive(pathname, "/") <==> pathname == "/"
  {
  }

  /** Every entry is highlighted on its own path. */
  lemma ActiveAtOwnPath(i: nat)
    requires i < |NAV_ITEMS|
    ensures IsActive(NAV_ITEMS[i].href, NAV_ITEMS[i].href)
  {
  }

  /**
   * A non-root entry is highlighted on every extension of its path, with no
   * check for a separating slash: "/budgetsX" highlights Budgets.
   */
  lemma ActiveWithoutBoundary(href: string, rest: string)
    requires href != "/"
    ensures IsActive(href + rest, href)
    ensures IsActive("/budgetsX", NAV_ITEMS[2].href)
  {
    assert href <= href + rest;
    assert NAV_ITEMS[2].href <= "/budgetsX";
  }

  /** Of two prefixes of one path, the shorter is a prefix of the longer. */
  lemma PrefixesNest(a: string, b: string, p: string)
    requires a <= p && b <= p && |a| <= |b|
    ensures a <= b
  {
    assert a == p[..|a|];
    assert b[..|a|] == p[..|a|];
  }

  /** A path that extends one of two unnested strings does not extend the other. */
  lemma OnlyOneExtended(a: string, b: string, p: string)
    requires a <= p && !(a <= b) && !(b <= a)
    ensures !(b <= p)
  {
    if b <= p {
      if |a| <= |b| {
        PrefixesNest(a, b, p);
      } else {
        PrefixesNest(b, a, p);
      }
    }
  }

  /** No path highlights two entries. */
  lemma {:induction false} AtMostOneActive(pathname: string)
    ensures forall i, j :: 0 <= i < j < |NAV_ITEMS| && IsActive(pathname, NAV_ITEMS[i].href) ==>
              !IsActive(pathname, NAV_ITEMS[j].href)
  {
    forall i, j | 0 <= i < j < |NAV_ITEMS| && IsActive(pathname, NAV_ITEMS[i].href)
      ensures !IsActive(pathname, NAV_ITEMS[j].href)
    {
      var a, b := NAV_ITEMS[i].href, NAV_ITEMS[j].href;
      if i == 0 {
        assert |b| > |pathname|;
      } else {
        assert a[1] != b[1] || a[2] != b[2];
        OnlyOneExtended(a, b, pathname);
      }
    }
  }
}
