/**
 * The sidebar (src/components/Sidebar.tsx): the alert count, the five
 * navigation items with their badges, which item is highlighted, and the
 * collapse toggle.
 */
module Sidebar {
  import opened Types
  import opened Collections
  import opened Overview
  import opened Pages

  /** `alertCount`: how many posts are Highly Suspicious. */
  function AlertCount(posts: seq<Post>): (n: nat)
    ensures n <= |posts|
  {
    CountOf(posts, HighlySuspicious)
  }

  /** The count is zero exactly when no post is Highly Suspicious. */
  lemma AlertCountZero(posts: seq<Post>)
    ensures AlertCount(posts) == 0 <==> forall i :: 0 <= i < |posts| ==> posts[i].classification != HighlySuspicious
  {
    var h := Filter(posts, Labelled(HighlySuspicious));
    if AlertCount(posts) == 0 {
      forall i | 0 <= i < |posts|
        ensures posts[i].classification != HighlySuspicious
      {
        assert posts[i] !in h;
      }
    } else {
      assert h[0] in h;
    }
  }

  /**
   * One entry of `navigationItems`; `caption` is the source's `label` field
   * (`label` is a Dafny keyword), and `count` is `null` where the item shows no badge.
   */
  datatype NavItem = NavItem(id: string, caption: string, count: Option<nat>)

  /** The text shown next to each page's icon. */
  function Caption(p: Page): string
  {
    match p
    case OverviewPage => "Overview"
    case PostsPage => "Posts"
    case AlertsPage => "Alerts"
    case AnalyticsPage => "Analytics"
    case SettingsPage => "Settings"
  }

  /** The badge count of a page's item: the posts and the alerts are counted. */
  function CountFor(p: Page, posts: seq<Post>): Option<nat>
  {
    match p
    case PostsPage => Some(|posts|)
    case AlertsPage => Some(AlertCount(posts))
    case _ => None
  }

  /** `navigationItems`, built from the live post list. */
  function NavigationItems(posts: seq<Post>): (items: seq<NavItem>)
    ensures |items| == |AllPages| == 5
    ensures forall i :: 0 <= i < 5 ==> items[i].id == PageIds()[i]
  {
    seq(5, i requires 0 <= i < 5 => var p := AllPages[i]; NavItem(PageId(p), Caption(p), CountFor(p, posts)))
  }

  /**
   * The items come in the order overview, posts, alerts, analytics,
   * settings; only posts and alerts carry a count, and those are the post
   * total and the alert count.
   */
  lemma NavigationItemsSpec(posts: seq<Post>)
    ensures [NavigationItems(posts)[0].id, NavigationItems(posts)[1].id, NavigationItems(posts)[2].id,
             NavigationItems(posts)[3].id, NavigationItems(posts)[4].id]
         == ["overview", "posts", "alerts", "analytics", "settings"]
    ensures NavigationItems(posts)[1].count == Some(|posts|)
    ensures NavigationItems(posts)[2].count == Some(AlertCount(posts))
    ensures NavigationItems(posts)[0].count == NavigationItems(posts)[3].count == NavigationItems(posts)[4].count == None
    ensures forall i :: 0 <= i < 5 && NavigationItems(posts)[i].count.Some? ==> NavigationItems(posts)[i].count.value <= |posts|
  {
  }

  /** `isActive`: the item whose id is the current page. */
  predicate IsActive(currentPage: string, item: NavItem)
  {
    currentPage == item.id
  }

  /**
   * Whatever the current page, at most one item is active, and item `i`
   * is active exactly when the current page is its id, which is what a
   * click on it stores.
   */
  lemma AtMostOneActive(posts: seq<Post>, currentPage: string, i: nat, j: nat)
    requires i < 5 && j < 5
    ensures IsActive(currentPage, NavigationItems(posts)[i]) <==> currentPage == PageId(AllPages[i])
    ensures IsActive(currentPage, NavigationItems(posts)[i]) && IsActive(currentPage, NavigationItems(posts)[j]) ==> i == j
  {
    PageIdsDistinct(AllPages[i], AllPages[j]);
    assert AllPages[i] == AllPages[j] ==> i == j;
  }

  /** How an item's count badge is drawn. */
  datatype BadgeStyle = OnActive | Danger | Muted

  /** The badge class: inverted on the active item, red on a non-zero alerts count, grey otherwise. */
  function BadgeStyleOf(item: NavItem, active: bool): BadgeStyle
  {
    if active then OnActive
    else if item.id == "alerts" && item.count.Some? && item.count.value > 0 then Danger
    else Muted
  }

  /** A badge is drawn when the sidebar is open and the item has a count. */
  predicate ShowsBadge(item: NavItem, collapsed: bool)
  {
    !collapsed && item.count.Some?
  }

  /**
   * Of the five items, only the alerts item can turn red, and it does so
   * exactly when it is not the current page and some post is Highly
   * Suspicious.
   */
  lemma DangerBadge(posts: seq<Post>, currentPage: string, i: nat)
    requires i < 5
    ensures BadgeStyleOf(NavigationItems(posts)[i], IsActive(currentPage, NavigationItems(posts)[i])) == Danger
        <==> i == 2 && currentPage != "alerts" && exists k :: 0 <= k < |posts| && posts[k].classification == HighlySuspicious
  {
    AlertCountZero(posts);
  }

  /** The sidebar's own state. */
  class SidebarState {
    var isCollapsed: bool

    /** The sidebar starts expanded. */
    constructor()
      ensures !isCollapsed
    {
      isCollapsed := false;
    }

    /** The menu button flips the state. */
    method ToggleCollapse()
      modifies this
      ensures isCollapsed == !old(isCollapsed)
    {
      isCollapsed := !isCollapsed;
    }
  }

  /** Pressing the menu button twice leaves the sidebar as it was. */
  method ToggleTwice(s: SidebarState)
    modifies s
    ensures s.isCollapsed == old(s.isCollapsed)
  {
    s.ToggleCollapse();
    s.ToggleCollapse();
  }
}
