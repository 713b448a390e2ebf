/**
 * The five pages of the dashboard (`PageType` in src/components/Dashboard.tsx)
 * and the string ids the sidebar and the header use for them.
 */
module Pages {
  /** One constructor per page component the dashboard can render. */
  datatype Page = OverviewPage | PostsPage | AlertsPage | AnalyticsPage | SettingsPage

  /** The page's id, the value `currentPage` holds while it is shown. */
  function PageId(p: Page): string
  {
    match p
    case OverviewPage => "overview"
    case PostsPage => "posts"
    case AlertsPage => "alerts"
    case AnalyticsPage => "analytics"
    case SettingsPage => "settings"
  }

  /** The pages in sidebar order. */
  const AllPages: seq<Page> := [OverviewPage, PostsPage, AlertsPage, AnalyticsPage, SettingsPage]

  /** The ids in sidebar order. */
  function PageIds(): (ids: seq<string>)
    ensures |ids| == 5
    ensures forall i :: 0 <= i < 5 ==> ids[i] == PageId(AllPages[i])
  {
    ["overview", "posts", "alerts", "analytics", "settings"]
  }

  /** Every page is listed once, and distinct pages have distinct ids. */
  lemma PageIdsDistinct(p: Page, q: Page)
    ensures p in AllPages
    ensures PageId(p) in PageIds()
    ensures PageId(p) == PageId(q) <==> p == q
    ensures forall i, j :: 0 <= i < j < 5 ==> PageIds()[i] != PageIds()[j]
  {
  }
}
