/**
 * The header bar (src/components/Header.tsx): the page title and
 * description looked up from the current page id, and the bell badge.
 */
module Header {
  import opened Types
  import opened Pages
  import opened Sidebar

  /** A string-keyed table, as an object literal read with `table[key]`. */
  function Lookup(table: seq<(string, string)>, key: string): (r: Option<string>)
    ensures r.Some? <==> exists i :: 0 <= i < |table| && table[i].0 == key
    ensures r.Some? ==> exists i :: 0 <= i < |table| && table[i] == (key, r.value)
  {
    if |table| == 0 then None
    else if table[0].0 == key then Some(table[0].1)
    else
      var r := Lookup(table[1..], key);
      assert forall i :: 0 < i < |table| ==> table[i] == table[1..][i - 1];
      r
  }

  /** `table[key] || fallback`: a missing or empty entry gives the fallback. */
  function LookupOr(table: seq<(string, string)>, key: string, fallback: string): string
  {
    var r := Lookup(table, key);
    if r.Some? && r.value != "" then r.value else fallback
  }

  const Titles: seq<(string, string)> := [
    ("overview", "Overview Dashboard"),
    ("posts", "Posts Analysis"),
    ("alerts", "Security Alerts"),
    ("analytics", "Advanced Analytics"),
    ("settings", "System Settings")]

  const Descriptions: seq<(string, string)> := [
    ("overview", "Real-time monitoring and threat assessment"),
    ("posts", "Comprehensive social media post analysis"),
    ("alerts", "Critical security alerts and high-risk content"),
    ("analytics", "Detailed insights and trend analysis"),
    ("settings", "System configuration and preferences")]

  /** `getPageTitle`. */
  function PageTitle(page: string): string
  {
    LookupOr(Titles, page, "Dashboard")
  }

  /** `getPageDescription`. */
  function PageDescription(page: string): string
  {
    LookupOr(Descriptions, page, "")
  }

  /** No key occurs twice in the table. */
  predicate UniqueKeys(table: seq<(string, string)>)
  {
    forall a, b :: 0 <= a < b < |table| ==> table[a].0 != table[b].0
  }

  /** With unique keys, looking up the key of entry `i` finds entry `i`'s value. */
  lemma {:induction false} LookupUnique(table: seq<(string, string)>, i: nat)
    requires UniqueKeys(table) && i < |table|
    ensures Lookup(table, table[i].0) == Some(table[i].1)
  {
    if i > 0 {
      assert table[0].0 != table[i].0;
      assert table[1..][i - 1] == table[i];
      LookupUnique(table[1..], i - 1);
    }
  }

  /** Both tables are keyed by exactly the five page ids, in sidebar order. */
  lemma TablesKeyedByPages()
    ensures |Titles| == |Descriptions| == 5
    ensures forall i :: 0 <= i < 5 ==> Titles[i].0 == Descriptions[i].0 == PageIds()[i]
    ensures UniqueKeys(Titles) && UniqueKeys(Descriptions)
  {
    PageIdsDistinct(OverviewPage, OverviewPage);
  }

  /** Every entry of both tables is a non-empty text, so `||` never falls back on a known page. */
  lemma TablesNonEmpty()
    ensures forall i :: 0 <= i < |Titles| ==> Titles[i].1 != "" && Titles[i].1 != "Dashboard"
    ensures forall i :: 0 <= i < |Descriptions| ==> Descriptions[i].1 != ""
  {
  }

  /** Page `i` of the sidebar order gets entry `i` of the tables. */
  lemma KnownPage(i: nat)
    requires i < 5
    ensures PageTitle(PageIds()[i]) == Titles[i].1
    ensures PageDescription(PageIds()[i]) == Descriptions[i].1 != ""
  {
    TablesKeyedByPages();
    TablesNonEmpty();
    LookupUnique(Titles, i);
    LookupUnique(Descriptions, i);
  }

  /** Any id that is not a page id finds nothing in either table. */
  lemma UnknownPage(page: string)
    requires page !in PageIds()
    ensures PageTitle(page) == "Dashboard"
    ensures PageDescription(page) == ""
  {
    TablesKeyedByPages();
    assert forall i :: 0 <= i < 5 ==> PageIds()[i] != page;
  }

  /**
   * The five ids get their fixed titles; the title is "Dashboard", the
   * fallback, exactly when the id is not one of the five.
   */
  lemma PageTitleSpec(page: string)
    ensures PageTitle("overview") == "Overview Dashboard"
    ensures PageTitle("posts") == "Posts Analysis"
    ensures PageTitle("alerts") == "Security Alerts"
    ensures PageTitle("analytics") == "Advanced Analytics"
    ensures PageTitle("settings") == "System Settings"
    ensures PageTitle(page) == "Dashboard" <==> page !in PageIds()
  {
    KnownPage(0);
    KnownPage(1);
    KnownPage(2);
    KnownPage(3);
    KnownPage(4);
    TablesNonEmpty();
    if page in PageIds() {
      var i :| 0 <= i < 5 && PageIds()[i] == page;
      KnownPage(i);
    } else {
      UnknownPage(page);
    }
  }

  /** Distinct pages have distinct titles. */
  lemma PageTitlesDistinct(p: Page, q: Page)
    ensures PageTitle(PageId(p)) == PageTitle(PageId(q)) <==> p == q
  {
    PageTitleSpec("");
  }

  /** Each known page has a non-empty description; any other id has the empty one. */
  lemma PageDescriptionSpec(page: string)
    ensures PageDescription(page) != "" <==> page in PageIds()
  {
    if page in PageIds() {
      var i :| 0 <= i < 5 && PageIds()[i] == page;
      KnownPage(i);
    } else {
      UnknownPage(page);
    }
  }

  /** The bell shows a badge when `alertCount > 0`. */
  predicate ShowsBellBadge(posts: seq<Post>)
  {
    AlertCount(posts) > 0
  }

  /** The bell badge is up exactly when some post is Highly Suspicious. */
  lemma BellBadgeSpec(posts: seq<Post>)
    ensures ShowsBellBadge(posts) <==> exists k :: 0 <= k < |posts| && posts[k].classification == HighlySuspicious
  {
    AlertCountZero(posts);
  }
}
