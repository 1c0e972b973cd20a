/** The sidebar: its fixed list of links, the link highlighted for the
    current path, and the open/closed state of the menu on small screens. */
module Navigation {
  import opened Strings

  datatype NavItem = NavItem(name: string, href: string)

  /** The `navigation` list. */
  const Items: seq<NavItem> := [
    NavItem("Tableau de bord", "/"),
    NavItem("Employés", "/employes"),
    NavItem("Pointage", "/pointage"),
    NavItem("Revenus", "/revenus"),
    NavItem("Statistiques", "/statistiques")
  ]

  /** The number of occurrences of `c` in `s`, so `s.split(c).length` is
      this plus one. */
  function CountChar(s: string, c: char): nat
  {
    if s == [] then 0 else CountChar(s[..|s| - 1], c) + (if s[|s| - 1] == c then 1 else 0)
  }

  /** `isActive` for the link `href` on the path `pathname`. */
  predicate IsActive(pathname: string, href: string)
  {
    EndsWith(pathname, href) && (if href == "" then CountChar(pathname, '/') + 1 <= 2 else true)
  }

  /** No listed link is empty, so the root-path test never applies: a link
      is active exactly when the path ends with it. */
  lemma ActiveIffSuffix(pathname: string, k: nat)
    requires k < |Items|
    ensures Items[k].href != ""
    ensures IsActive(pathname, Items[k].href) <==> EndsWith(pathname, Items[k].href)
  {
  }

  /** Two suffixes of one path: the shorter is a suffix of the longer. */
  lemma SuffixOfSuffix(s: string, a: string, b: string)
    requires EndsWith(s, a) && EndsWith(s, b) && |a| <= |b|
    ensures EndsWith(b, a)
  {
    assert b[|b| - |a|..] == s[|s| - |b|..][|b| - |a|..] == s[|s| - |a|..];
  }

  /** No listed link ends with another listed link. */
  lemma NoLinkEndsWithAnother(i: nat, j: nat)
    requires i < |Items| && j < |Items| && i != j
    ensures !EndsWith(Items[j].href, Items[i].href)
  {
  }

  /** Whatever the path, at most one link is highlighted. */
  lemma AtMostOneActive(pathname: string)
    ensures forall i, j :: 0 <= i < j < |Items| && IsActive(pathname, Items[i].href) ==> !IsActive(pathname, Items[j].href)
  {
    forall i, j | 0 <= i < j < |Items| && IsActive(pathname, Items[i].href)
      ensures !IsActive(pathname, Items[j].href)
    {
      var a, b := Items[i].href, Items[j].href;
      if EndsWith(pathname, b) {
        if |a| <= |b| {
          SuffixOfSuffix(pathname, a, b);
          NoLinkEndsWithAnother(i, j);
        } else {
          SuffixOfSuffix(pathname, b, a);
          NoLinkEndsWithAnother(j, i);
        }
      }
    }
  }

  /** The dashboard link is highlighted exactly on paths ending with `/`;
      on the bare locale root `/fr` no link is highlighted. */
  lemma DashboardActive(pathname: string)
    ensures IsActive(pathname, Items[0].href) <==> |pathname| > 0 && pathname[|pathname| - 1] == '/'
    ensures forall k :: 0 <= k < |Items| ==> !IsActive("/fr", Items[k].href)
  {
    if |pathname| > 0 {
      assert pathname[|pathname| - 1..] == [pathname[|pathname| - 1]];
    }
    forall k | 0 <= k < |Items|
      ensures !IsActive("/fr", Items[k].href)
    {
      if k == 0 {
        assert "/fr"[2..] == "r";
      }
    }
  }

  /** The menu state: whether the sidebar is open. */
  class Sidebar {
    var isSidebarOpen: bool

    /** `useState(false)` */
    constructor ()
      ensures !isSidebarOpen
    {
      isSidebarOpen := false;
    }

    /** The menu button: `setIsSidebarOpen(!isSidebarOpen)`. */
    method Toggle()
      modifies this
      ensures isSidebarOpen == !old(isSidebarOpen)
    {
      isSidebarOpen := !isSidebarOpen;
    }

    /** A click on a link or on the overlay closes the sidebar. */
    method CloseOnLinkClick()
      modifies this
      ensures !isSidebarOpen
    {
      isSidebarOpen := false;
    }
  }

  /** Pressing the menu button twice leaves the sidebar as it was. */
  method ToggleTwice(s: Sidebar)
    modifies s
    ensures s.isSidebarOpen == old(s.isSidebarOpen)
  {
    s.Toggle();
    s.Toggle();
  }
}
