/**
 * The dashboard's page shell (WebInterface/src/pages/Layout.jsx): the
 * navigation entries a user sees, which one is highlighted, and which shell
 * wraps the page.
 */
module LayoutPage {
  import opened Wrappers
  import opened Seqs
  import Text
  import Pages

  datatype NavItem = NavItem(name: string, path: string, adminOnly: bool)

  /** Every entry, in menu order. */
  const AllItems: seq<NavItem> := [
    NavItem("Dashboard", "Dashboard", false),
    NavItem("Projects", "Projects", false),
    NavItem("Downloads", "Downloads", false),
    NavItem("Icon Download", "IconDownload", false),
    NavItem("API Docs", "APIDocumentation", false),
    NavItem("Knowledge Base", "KnowledgeBase", false),
    NavItem("Analytics", "Analytics", true),
    NavItem("Files", "FileManagement", true),
    NavItem("Admin", "Admin", true)
  ]

  datatype LayoutUser = LayoutUser(role: string)

  /** `item => !item.adminOnly || user?.role === 'admin'`. */
  function Visible(isAdmin: bool): NavItem -> bool {
    (item: NavItem) => !item.adminOnly || isAdmin
  }

  /** `navigation`: nothing without a user; administrators see every entry, others the public ones. */
  function Navigation(user: Option<LayoutUser>): (nav: seq<NavItem>)
    ensures user.None? ==> nav == []
    ensures user.Some? ==> forall i :: 0 <= i < |nav| ==> nav[i] in AllItems && (!nav[i].adminOnly || user.value.role == "admin")
    ensures user.Some? ==> forall i :: 0 <= i < |AllItems| && (!AllItems[i].adminOnly || user.value.role == "admin") ==> AllItems[i] in nav
  {
    if user.None? then [] else Filter(AllItems, Visible(user.value.role == "admin"))
  }

  /** A non-administrator sees the six public entries, in order; an administrator all nine. */
  lemma NavigationSizes(role: string)
    ensures role != "admin" ==> Navigation(Some(LayoutUser(role))) == AllItems[..6]
    ensures role == "admin" ==> Navigation(Some(LayoutUser(role))) == AllItems
    ensures |AllItems[..6]| == 6 && |AllItems| == 9
  {
    var p := Visible(role == "admin");
    assert forall i :: 0 <= i < 6 ==> !AllItems[i].adminOnly;
    assert forall i :: 6 <= i < 9 ==> AllItems[i].adminOnly;
    if role == "admin" {
      FilterAll(AllItems, p);
    } else {
      var tail := AllItems[6..];
      assert AllItems == AllItems[..6] + tail;
      FilterAppend(AllItems[..6], tail, p);
      FilterAll(AllItems[..6], p);
      FilterNone(tail, p);
    }
  }

  /** Every entry's path is one of the router's page keys. */
  lemma PathsArePages()
    ensures forall i :: 0 <= i < |AllItems| ==> AllItems[i].path in Pages.PageKeys
  {
    assert AllItems[0].path == Pages.PageKeys[3];
    assert AllItems[1].path == Pages.PageKeys[9];
    assert AllItems[2].path == Pages.PageKeys[4];
    assert AllItems[3].path == Pages.PageKeys[7];
    assert AllItems[4].path == Pages.PageKeys[0];
    assert AllItems[5].path == Pages.PageKeys[8];
    assert AllItems[6].path == Pages.PageKeys[2];
    assert AllItems[7].path == Pages.PageKeys[5];
    assert AllItems[8].path == Pages.PageKeys[1];
  }

  /**
   * Every entry links to a page the router resolves back to that same entry.
   * The link is `createPageUrl(item.path)`; that helper lives in the pages'
   * `utils` module, which is not part of this model, and is taken to be "/"
   * followed by the page name, kept as it is or lower-cased: both forms resolve.
   */
  lemma NavigationPathsResolve(user: Option<LayoutUser>, i: nat)
    requires i < |Navigation(user)|
    ensures Navigation(user)[i].path in Pages.PageKeys
    ensures Pages.CurrentPage("/" + Navigation(user)[i].path) == Navigation(user)[i].path
    ensures Pages.CurrentPage("/" + Text.LowerStr(Navigation(user)[i].path)) == Navigation(user)[i].path
  {
    var item := Navigation(user)[i];
    var k :| 0 <= k < |AllItems| && AllItems[k] == item;
    PathsArePages();
    Pages.ResolveOwnPath(item.path);
  }

  /** `isActive`: an entry is highlighted iff it is the current page. */
  predicate IsHighlighted(item: NavItem, currentPageName: string) {
    currentPageName == item.path
  }

  /** No two entries share a path, so at most one is ever highlighted. */
  lemma AtMostOneHighlighted(user: Option<LayoutUser>, currentPageName: string, i: nat, j: nat)
    requires i < j < |Navigation(user)|
    ensures !(IsHighlighted(Navigation(user)[i], currentPageName) && IsHighlighted(Navigation(user)[j], currentPageName))
  {
    var nav := Navigation(user);
    if user.Some? {
      var p := Visible(user.value.role == "admin");
      SubsequenceDistinct(AllItems, p, i, j);
    }
  }

  /** Elements of a filtered list at different positions come from different positions of the list. */
  lemma {:induction false} SubsequenceDistinct(s: seq<NavItem>, p: NavItem -> bool, i: nat, j: nat)
    requires forall a, b :: 0 <= a < b < |s| ==> s[a].path != s[b].path
    requires i < j < |Filter(s, p)|
    ensures Filter(s, p)[i].path != Filter(s, p)[j].path
    decreases |s|
  {
    var init := s[..|s| - 1];
    var rest := Filter(init, p);
    if j < |rest| {
      SubsequenceDistinct(init, p, i, j);
    } else {
      assert Filter(s, p)[j] == s[|s| - 1];
      assert Filter(s, p)[i] in init;
    }
  }

  /** Which frame wraps the page. */
  datatype Shell =
    | LoadingScreen            // "Loading Signal Forge..."
    | Bare                     // the page alone on the dark background
    | HomeShell                // the landing page, unframed
    | Framed(nav: seq<NavItem>) // top bar with the navigation

  /** The branch the layout renders. */
  function ShellFor(loading: bool, user: Option<LayoutUser>, currentPageName: string): (s: Shell)
    ensures loading <==> s == LoadingScreen
    ensures !loading && user.None? && currentPageName != "Home" ==> s == Bare
    ensures !loading && currentPageName == "Home" ==> s == HomeShell
    ensures !loading && user.Some? && currentPageName != "Home" ==> s == Framed(Navigation(user))
    ensures s.Framed? ==> user.Some? && s.nav == Navigation(user) && s.nav != []
  {
    if loading then LoadingScreen
    else if user.None? && currentPageName != "Home" then Bare
    else if currentPageName == "Home" then HomeShell
    else
      NavigationSizes(user.value.role);
      Framed(Navigation(user))
  }
}
