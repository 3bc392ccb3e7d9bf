// The sidebar's navigation (src/components/layout/sidebar.tsx): three constant
// lists of links, the rule that marks a link active, and the width classes of
// the sidebar container.

module SidebarNav {
  import opened Common

  datatype NavItem = NavItem(name: string, href: string)

  /** The workspace links. */
  const Navigation: seq<NavItem> := [
    NavItem("Dashboard", "/dashboard"),
    NavItem("Projects", "/dashboard/projects"),
    NavItem("Clients", "/dashboard/clients"),
    NavItem("Contracts", "/dashboard/contracts"),
    NavItem("Invoices", "/dashboard/invoices"),
    NavItem("Time Tracking", "/dashboard/time-tracking"),
    NavItem("Billing", "/dashboard/billing"),
    NavItem("Team", "/dashboard/team"),
    NavItem("Reports", "/dashboard/reports")
  ]

  /** The account links. */
  const SecondaryNavigation: seq<NavItem> := [
    NavItem("Settings", "/dashboard/settings"),
    NavItem("Profile", "/dashboard/profile")
  ]

  /** The public-site links. */
  const PublicNavigation: seq<NavItem> := [
    NavItem("Home", "/"),
    NavItem("About", "/about"),
    NavItem("Pricing", "/pricing"),
    NavItem("Contact", "/contact"),
    NavItem("Documentation", "/docs"),
    NavItem("Terms", "/terms"),
    NavItem("Privacy", "/privacy")
  ]

  /** A link is highlighted when the current path is exactly its target. */
  predicate IsActive(pathname: string, item: NavItem)
  {
    pathname == item.href
  }

  /** The highlighted links of a list, in order. */
  function ActiveItems(pathname: string, items: seq<NavItem>): (r: seq<NavItem>)
    ensures forall x :: x in r <==> x in items && IsActive(pathname, x)
    decreases |items|
  {
    if items == [] then []
    else (if IsActive(pathname, items[0]) then [items[0]] else []) + ActiveItems(pathname, items[1..])
  }

  predicate DistinctHrefs(items: seq<NavItem>)
  {
    forall i, j :: 0 <= i < j < |items| ==> items[i].href != items[j].href
  }

  predicate DistinctNames(items: seq<NavItem>)
  {
    forall i, j :: 0 <= i < j < |items| ==> items[i].name != items[j].name
  }

  /** With distinct targets, at most one link of a list is highlighted, and one is exactly when the path is a target. */
  lemma {:induction false} AtMostOneActive(pathname: string, items: seq<NavItem>)
    requires DistinctHrefs(items)
    ensures |ActiveItems(pathname, items)| <= 1
    ensures |ActiveItems(pathname, items)| == 1 <==> exists i :: 0 <= i < |items| && items[i].href == pathname
    decreases |items|
  {
    if items != [] {
      var rest := items[1..];
      assert DistinctHrefs(rest);
      AtMostOneActive(pathname, rest);
      if IsActive(pathname, items[0]) && |ActiveItems(pathname, rest)| == 1 {
        assert false;
      }
      if exists i :: 0 <= i < |items| && items[i].href == pathname {
        var i :| 0 <= i < |items| && items[i].href == pathname;
        if i > 0 {
          assert rest[i - 1].href == pathname;
        }
      }
      if exists i :: 0 <= i < |rest| && rest[i].href == pathname {
        var i :| 0 <= i < |rest| && rest[i].href == pathname;
        assert items[i + 1] == rest[i];
      }
    }
  }

  /** No target is listed twice within a list. */
  lemma HrefsDistinct()
    ensures DistinctHrefs(Navigation)
    ensures DistinctHrefs(SecondaryNavigation)
    ensures DistinctHrefs(PublicNavigation)
  {
  }

  /**
   * The render keys are unique: names across the workspace and account lists
   * (both rendered with the name as key), targets within the public list.
   */
  lemma RenderKeysDistinct()
    ensures DistinctNames(Navigation + SecondaryNavigation)
    ensures DistinctHrefs(PublicNavigation)
  {
  }

  /** No prefix matching: on a projects page only 'Projects' is highlighted, not 'Dashboard'. */
  lemma NoPrefixMatch()
    ensures !IsActive("/dashboard/projects", Navigation[0])
    ensures ActiveItems("/dashboard/projects", Navigation) == [NavItem("Projects", "/dashboard/projects")]
  {
  }

  // ---------------------------------------------------------------- width

  /**
   * The container's classes: the base list, then the collapsing classes when
   * the sidebar is closed. Of two conflicting width classes the later one wins.
   */
  function ContainerClasses(isOpen: bool): (r: seq<string>)
    ensures "w-64" in r && "md:w-64" in r
    ensures "w-0" in r <==> !isOpen
    ensures "md:w-0" in r <==> !isOpen
  {
    ["h-screen", "max-h-svh", "flex", "flex-col", "sidebar-transition", "w-64", "md:w-64"]
    + (if !isOpen then ["w-0", "overflow-hidden", "md:w-0"] else [])
  }

  predicate HasPrefix(s: string, prefix: string)
  {
    |prefix| <= |s| && s[..|prefix|] == prefix
  }

  /** The class that decides a property: the last one carrying its prefix. */
  function LastWithPrefix(classes: seq<string>, prefix: string): (r: Option<string>)
    ensures r.Some? ==> r.value in classes && HasPrefix(r.value, prefix)
    ensures r.None? ==> forall c :: c in classes ==> !HasPrefix(c, prefix)
    ensures r.Some? ==> exists i :: 0 <= i < |classes| && classes[i] == r.value &&
                                    (forall j :: i < j < |classes| ==> !HasPrefix(classes[j], prefix))
    decreases |classes|
  {
    if classes == [] then None
    else if HasPrefix(classes[|classes| - 1], prefix) then Some(classes[|classes| - 1])
    else
      var init := classes[..|classes| - 1];
      var r := LastWithPrefix(init, prefix);
      assert forall j :: 0 <= j < |init| ==> classes[j] == init[j];
      r
  }

  /** The sidebar is zero wide, on small and on medium screens, exactly when it is closed. */
  lemma WidthCollapsesIffClosed(isOpen: bool)
    ensures LastWithPrefix(ContainerClasses(isOpen), "w-") == Some(if isOpen then "w-64" else "w-0")
    ensures LastWithPrefix(ContainerClasses(isOpen), "md:w-") == Some(if isOpen then "md:w-64" else "md:w-0")
  {
    var c := ContainerClasses(isOpen);
    assert "md:w-64"[..2][0] == 'm' && "md:w-0"[..2][0] == 'm' && "overflow-hidden"[..2][0] == 'o';
    assert HasPrefix("w-64", "w-") && HasPrefix("w-0", "w-");
    assert HasPrefix("md:w-64", "md:w-") && HasPrefix("md:w-0", "md:w-");
    if isOpen {
      assert c[..|c| - 1][|c| - 2] == "w-64";
    } else {
      var c1 := c[..|c| - 1];
      var c2 := c1[..|c1| - 1];
      assert c[|c| - 1] == "md:w-0" && c1[|c1| - 1] == "overflow-hidden" && c2[|c2| - 1] == "w-0";
      assert LastWithPrefix(c2, "w-") == Some("w-0");
      assert LastWithPrefix(c1, "w-") == Some("w-0");
    }
  }
}
