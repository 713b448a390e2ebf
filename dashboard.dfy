/**
 * The dashboard's store (src/components/Dashboard.tsx): the current page,
 * the post list and the filter record, the timer tick that prepends a
 * synthetic high-risk post, the classification update, the filter reset
 * and the page dispatch.
 */
module Dashboard {
  import opened Types
  import opened Collections
  import opened MockData
  import opened Overview
  import opened Pages
  import opened Sidebar

  // ------------------------------------------------------ synthetic posts

  /** The four texts a synthetic post picks its content from. */
  const AlertContent: seq<string> := [
    "New evidence of systematic oppression discovered. The world must know the truth!",
    "Breaking: Leaked documents show the real agenda behind recent policies.",
    "They are trying to silence us, but we will not be stopped. #TruthWillPrevail",
    "International intervention is needed immediately. Human rights are under attack!"]

  const AlertAvatar: string := "https://api.dicebear.com/7.x/initials/svg?seed=Alert&backgroundColor=ef4444"

  const AlertHashtags: seq<string> := ["#Alert", "#Breaking", "#TruthWillPrevail"]

  const AlertUserPrefix: string := "AlertBot_"

  /** The user name `AlertBot_<n>`: the prefix, then the decimal digits of `n`. */
  function AlertUser(n: nat): (u: string)
    ensures |u| > |AlertUserPrefix| && u[..|AlertUserPrefix|] == AlertUserPrefix
    ensures forall i :: |AlertUserPrefix| <= i < |u| ==> IsDigit(u[i])
    ensures DigitsValue(u[|AlertUserPrefix|..]) == n
  {
    var digits := NatToString(n);
    NatToStringValue(n);
    assert (AlertUserPrefix + digits)[|AlertUserPrefix|..] == digits;
    AlertUserPrefix + digits
  }

  /** Distinct draws give distinct user names. */
  lemma AlertUserInjective(n: nat, m: nat)
    ensures AlertUser(n) == AlertUser(m) <==> n == m
  {
  }

  /**
   * The post a timer tick creates.  `now` is the current time in
   * milliseconds, which serves as both the id and the timestamp; the
   * remaining parameters are the floored random draws, each below the
   * bound its `Math.random()` multiplier gives it.
   */
  function SyntheticPost(now: int, userDraw: nat, contentDraw: nat,
                         likesDraw: nat, sharesDraw: nat, commentsDraw: nat): (p: Post)
    requires userDraw < 1000 && contentDraw < |AlertContent|
    requires likesDraw < 500 && sharesDraw < 200 && commentsDraw < 100
    ensures p.id == p.timestamp == now
    ensures p.classification == HighlySuspicious
    ensures p.location == "Unknown" && p.platform == Some("Telegram")
    ensures p.hashtags == AlertHashtags && p.content in AlertContent
    ensures p.engagement.Some?
    ensures 100 <= p.engagement.value.likes < 600
    ensures 50 <= p.engagement.value.shares < 250
    ensures 20 <= p.engagement.value.comments < 120
  {
    Post(now, AlertUser(userDraw), AlertAvatar, AlertContent[contentDraw], AlertHashtags, now,
         HighlySuspicious, "Unknown", Some("Telegram"),
         Some(Engagement(likesDraw + 100, sharesDraw + 50, commentsDraw + 20)))
  }

  /** A synthetic post in front of any list raises the alert count by one. */
  lemma SyntheticRaisesAlerts(now: int, userDraw: nat, contentDraw: nat,
                              likesDraw: nat, sharesDraw: nat, commentsDraw: nat, posts: seq<Post>)
    requires userDraw < 1000 && contentDraw < |AlertContent|
    requires likesDraw < 500 && sharesDraw < 200 && commentsDraw < 100
    ensures AlertCount([SyntheticPost(now, userDraw, contentDraw, likesDraw, sharesDraw, commentsDraw)] + posts)
         == AlertCount(posts) + 1
  {
    CountOfCons(SyntheticPost(now, userDraw, contentDraw, likesDraw, sharesDraw, commentsDraw), posts, HighlySuspicious);
  }

  // ------------------------------------------------ classification update

  /** `prev.map(post => post.id === id ? { ...post, classification } : post)`. */
  function Reclassify(posts: seq<Post>, id: int, c: Classification): (r: seq<Post>)
    ensures |r| == |posts|
  {
    seq(|posts|, i requires 0 <= i < |posts| =>
      if posts[i].id == id then posts[i].(classification := c) else posts[i])
  }

  /**
   * The list keeps its length and its order: every post keeps its place
   * and every field but its label, the posts with the id carry the new
   * label, and the others are untouched.
   */
  lemma ReclassifySpec(posts: seq<Post>, id: int, c: Classification, i: nat)
    requires i < |posts|
    ensures Reclassify(posts, id, c)[i].(classification := posts[i].classification) == posts[i]
    ensures posts[i].id == id ==> Reclassify(posts, id, c)[i].classification == c
    ensures posts[i].id != id ==> Reclassify(posts, id, c)[i] == posts[i]
  {
  }

  /** An id that no post carries leaves the list as it was. */
  lemma ReclassifyMissing(posts: seq<Post>, id: int, c: Classification)
    requires forall i :: 0 <= i < |posts| ==> posts[i].id != id
    ensures Reclassify(posts, id, c) == posts
  {
  }

  /** Of two updates of the same id the later one wins. */
  lemma ReclassifyLastWins(posts: seq<Post>, id: int, c: Classification, c': Classification)
    ensures Reclassify(Reclassify(posts, id, c), id, c') == Reclassify(posts, id, c')
  {
  }

  /** Applying the same update twice is applying it once. */
  lemma ReclassifyIdempotent(posts: seq<Post>, id: int, c: Classification)
    ensures Reclassify(Reclassify(posts, id, c), id, c) == Reclassify(posts, id, c)
  {
    ReclassifyLastWins(posts, id, c, c);
  }

  /** Updates of different ids do not interfere. */
  lemma ReclassifyCommutes(posts: seq<Post>, id: int, c: Classification, id': int, c': Classification)
    requires id != id'
    ensures Reclassify(Reclassify(posts, id, c), id', c') == Reclassify(Reclassify(posts, id', c'), id, c)
  {
  }

  // ---------------------------------------------------------- page switch

  /** `renderCurrentPage`: the page shown for an id, the Overview for any other string. */
  function RenderedPage(currentPage: string): Page
  {
    if currentPage == "overview" then OverviewPage
    else if currentPage == "posts" then PostsPage
    else if currentPage == "alerts" then AlertsPage
    else if currentPage == "analytics" then AnalyticsPage
    else if currentPage == "settings" then SettingsPage
    else OverviewPage
  }

  /**
   * Each page's id renders that page, and an id renders a page whose id it
   * is exactly when it is one of the five; anything else falls back to
   * the Overview.
   */
  lemma RenderedPageSpec(p: Page, currentPage: string)
    ensures RenderedPage(PageId(p)) == p
    ensures PageId(RenderedPage(currentPage)) == currentPage <==> currentPage in PageIds()
    ensures currentPage !in PageIds() ==> RenderedPage(currentPage) == OverviewPage
  {
  }

  // --------------------------------------------------------------- store

  /** What the toast notifications announce, kept as a log. */
  datatype Notice =
    | HighRiskDetected(user: string, preview: string)
    | ClassificationUpdated(classification: Classification)

  /** `content.substring(0, 50)`. */
  function Preview(content: string): (r: string)
    ensures |r| <= 50 && r <= content
    ensures |content| <= 50 ==> r == content
  {
    if |content| <= 50 then content else content[..50]
  }

  class Dashboard {
    var currentPage: string
    var posts: seq<Post>
    var filters: FilterState
    ghost var notices: seq<Notice>

    /** The store opens on the Overview with the seed posts and no filter. */
    constructor()
      ensures currentPage == "overview" && RenderedPage(currentPage) == OverviewPage
      ensures posts == MockPosts && filters == EmptyFilter && notices == []
    {
      currentPage := "overview";
      posts := MockPosts;
      filters := EmptyFilter;
      notices := [];
    }

    /** One timer tick: a synthetic high-risk post goes in front of the list. */
    method Tick(now: int, userDraw: nat, contentDraw: nat, likesDraw: nat, sharesDraw: nat, commentsDraw: nat)
      requires userDraw < 1000 && contentDraw < |AlertContent|
      requires likesDraw < 500 && sharesDraw < 200 && commentsDraw < 100
      modifies this
      ensures posts == [SyntheticPost(now, userDraw, contentDraw, likesDraw, sharesDraw, commentsDraw)] + old(posts)
      ensures |posts| == |old(posts)| + 1 && posts[1..] == old(posts)
      ensures AlertCount(posts) == AlertCount(old(posts)) + 1
      ensures currentPage == old(currentPage) && filters == old(filters)
      ensures notices == old(notices) + [HighRiskDetected(posts[0].user, Preview(posts[0].content))]
    {
      var p := SyntheticPost(now, userDraw, contentDraw, likesDraw, sharesDraw, commentsDraw);
      SyntheticRaisesAlerts(now, userDraw, contentDraw, likesDraw, sharesDraw, commentsDraw, posts);
      posts := [p] + posts;
      notices := notices + [HighRiskDetected(p.user, Preview(p.content))];
    }

    /** `updatePostClassification`. */
    method UpdatePostClassification(id: int, c: Classification)
      modifies this
      ensures posts == Reclassify(old(posts), id, c)
      ensures currentPage == old(currentPage) && filters == old(filters)
      ensures notices == old(notices) + [ClassificationUpdated(c)]
    {
      posts := Reclassify(posts, id, c);
      notices := notices + [ClassificationUpdated(c)];
    }

    /** `clearFilters`: back to the record the store started with. */
    method ClearFilters()
      modifies this
      ensures filters == EmptyFilter
      ensures currentPage == old(currentPage) && posts == old(posts) && notices == old(notices)
    {
      filters := EmptyFilter;
    }

    /** `setFilters`, as the pages call it. */
    method SetFilters(f: FilterState)
      modifies this
      ensures filters == f
      ensures currentPage == old(currentPage) && posts == old(posts) && notices == old(notices)
    {
      filters := f;
    }

    /** `setCurrentPage`, as a sidebar click calls it with the item's id. */
    method SetCurrentPage(page: string)
      modifies this
      ensures currentPage == page
      ensures posts == old(posts) && filters == old(filters) && notices == old(notices)
    {
      currentPage := page;
    }
  }

  /** Clearing the filters twice leaves them as clearing once does. */
  method ClearFiltersTwice(d: Dashboard)
    modifies d
    ensures d.filters == EmptyFilter && d.posts == old(d.posts)
  {
    d.ClearFilters();
    var once := d.filters;
    d.ClearFilters();
    assert d.filters == once;
  }

  /** A sidebar click on item `i` makes that item, and only it, active and renders its page. */
  method ClickNavItem(d: Dashboard, i: nat)
    requires i < 5
    modifies d
    ensures IsActive(d.currentPage, NavigationItems(d.posts)[i])
    ensures forall j :: 0 <= j < 5 && j != i ==> !IsActive(d.currentPage, NavigationItems(d.posts)[j])
    ensures RenderedPage(d.currentPage) == AllPages[i]
    ensures d.posts == old(d.posts) && d.filters == old(d.filters)
  {
    var items := NavigationItems(d.posts);
    d.SetCurrentPage(items[i].id);
    forall j | 0 <= j < 5 && j != i
      ensures !IsActive(d.currentPage, NavigationItems(d.posts)[j])
    {
      AtMostOneActive(d.posts, d.currentPage, i, j);
    }
    RenderedPageSpec(AllPages[i], d.currentPage);
  }
}
