/**
 * The Analytics page (src/components/pages/AnalyticsPage.tsx): the
 * `analytics` memo (platform and location histograms, 24 hourly buckets,
 * engagement totals), the location hotspot list and the hashtag chart.
 *
 * `new Date(t).getHours()` reads the local time zone; it becomes the
 * parameter `hourOf`, whose results are hours of the day.
 */
module Analytics {
  import opened Types
  import opened Collections
  import opened MockData
  import opened PostsPage

  // --------------------------------------------------- platform histogram

  lemma PlatformNamesSnoc(posts: seq<Post>, i: nat)
    requires i < |posts|
    ensures PlatformNames(posts[..i + 1]) == PlatformNames(posts[..i]) +
      (if HasPlatform(posts[i]) then [posts[i].platform.value] else [])
  {
    assert posts[..i + 1][..i] == posts[..i];
  }

  /**
   * The `platforms` reduce: every post with a truthy platform bumps that
   * platform's entry of the dictionary.
   */
  method CountPlatforms(posts: seq<Post>) returns (acc: seq<(string, nat)>)
    ensures acc == Tally(PlatformNames(posts))
  {
    acc := [];
    var i := 0;
    while i < |posts|
      invariant 0 <= i <= |posts|
      invariant acc == Tally(PlatformNames(posts[..i]))
    {
      PlatformNamesSnoc(posts, i);
      if HasPlatform(posts[i]) {
        TallySnoc(PlatformNames(posts[..i]), posts[i].platform.value);
        acc := Bump(acc, posts[i].platform.value);
        assert acc == Tally(PlatformNames(posts[..i + 1]));
      } else {
        assert PlatformNames(posts[..i + 1]) == PlatformNames(posts[..i]);
      }
      i := i + 1;
    }
    assert posts[..i] == posts;
  }

  /** `p.platform === x`. */
  function OnPlatform(x: string): Post -> bool
  {
    (p: Post) => p.platform == Some(x)
  }

  /** A platform name is counted once per post that carries it. */
  lemma {:induction false} PlatformNamesCount(posts: seq<Post>, x: string)
    requires x != ""
    ensures Occurrences(PlatformNames(posts), x) == |Filter(posts, OnPlatform(x))|
  {
    if posts != [] {
      var n := |posts| - 1;
      var last := posts[n];
      var tail := if HasPlatform(last) then [last.platform.value] else [];
      PlatformNamesCount(posts[..n], x);
      assert posts == posts[..n] + [last];
      FilterAppend(posts[..n], [last], OnPlatform(x));
      OccurrencesAppend(PlatformNames(posts[..n]), tail, x);
      assert tail == [x] <==> last.platform == Some(x);
    }
  }

  /** One name per post with a truthy platform. */
  lemma {:induction false} PlatformNamesLength(posts: seq<Post>)
    ensures |PlatformNames(posts)| == |Filter(posts, HasPlatform)|
  {
    if posts != [] {
      var n := |posts| - 1;
      PlatformNamesLength(posts[..n]);
      assert posts == posts[..n] + [posts[n]];
      FilterAppend(posts[..n], [posts[n]], HasPlatform);
    }
  }

  /**
   * The platform histogram: one entry per named platform, in order of first
   * appearance, holding the number of posts on it; posts without a platform
   * are not counted, so the values add up to the number of posts with one.
   */
  lemma PlatformHistogramSpec(posts: seq<Post>, x: string)
    ensures Keys(Tally(PlatformNames(posts))) == Dedupe(PlatformNames(posts))
    ensures x in Keys(Tally(PlatformNames(posts))) <==>
      x != "" && exists k :: 0 <= k < |posts| && posts[k].platform == Some(x)
    ensures x != "" ==> Get(Tally(PlatformNames(posts)), x) == |Filter(posts, OnPlatform(x))|
    ensures SumCounts(Tally(PlatformNames(posts))) == |Filter(posts, HasPlatform)|
  {
    TallyCounts(PlatformNames(posts));
    PlatformNamesMember(posts, x);
    TallyGet(PlatformNames(posts), x);
    if x != "" {
      PlatformNamesCount(posts, x);
    }
    TallySum(PlatformNames(posts));
    PlatformNamesLength(posts);
  }

  // --------------------------------------------------- location histogram

  /** `post.location && post.location !== 'Unknown'`. */
  predicate KnownLocation(p: Post)
  {
    Truthy(p.location) && p.location != "Unknown"
  }

  /** The locations the histogram counts, in post order. */
  function LocationNames(posts: seq<Post>): seq<string>
  {
    if posts == [] then []
    else
      var last := posts[|posts| - 1];
      LocationNames(posts[..|posts| - 1]) + (if KnownLocation(last) then [last.location] else [])
  }

  lemma LocationNamesSnoc(posts: seq<Post>, i: nat)
    requires i < |posts|
    ensures LocationNames(posts[..i + 1]) == LocationNames(posts[..i]) +
      (if KnownLocation(posts[i]) then [posts[i].location] else [])
  {
    assert posts[..i + 1][..i] == posts[..i];
  }

  /** The `locations` reduce, filling its dictionary in place. */
  method CountLocations(posts: seq<Post>) returns (acc: seq<(string, nat)>)
    ensures acc == Tally(LocationNames(posts))
  {
    acc := [];
    var i := 0;
    while i < |posts|
      invariant 0 <= i <= |posts|
      invariant acc == Tally(LocationNames(posts[..i]))
    {
      LocationNamesSnoc(posts, i);
      if KnownLocation(posts[i]) {
        TallySnoc(LocationNames(posts[..i]), posts[i].location);
        acc := Bump(acc, posts[i].location);
        assert acc == Tally(LocationNames(posts[..i + 1]));
      } else {
        assert LocationNames(posts[..i + 1]) == LocationNames(posts[..i]);
      }
      i := i + 1;
    }
    assert posts[..i] == posts;
  }

  /** `p.location === x`. */
  function AtLocation(x: string): Post -> bool
  {
    (p: Post) => p.location == x
  }

  /** Neither the empty location nor `'Unknown'` is ever counted. */
  lemma {:induction false} LocationNamesMember(posts: seq<Post>, x: string)
    ensures x in LocationNames(posts) <==>
      x != "" && x != "Unknown" && exists k :: 0 <= k < |posts| && posts[k].location == x
  {
    if posts != [] {
      var n := |posts| - 1;
      LocationNamesMember(posts[..n], x);
      assert forall k :: 0 <= k < n ==> posts[..n][k] == posts[k];
    }
  }

  /** A counted location is counted once per post placed there. */
  lemma {:induction false} LocationNamesCount(posts: seq<Post>, x: string)
    requires x != "" && x != "Unknown"
    ensures Occurrences(LocationNames(posts), x) == |Filter(posts, AtLocation(x))|
  {
    if posts != [] {
      var n := |posts| - 1;
      var last := posts[n];
      var tail := if KnownLocation(last) then [last.location] else [];
      LocationNamesCount(posts[..n], x);
      assert posts == posts[..n] + [last];
      FilterAppend(posts[..n], [last], AtLocation(x));
      OccurrencesAppend(LocationNames(posts[..n]), tail, x);
      assert tail == [x] <==> last.location == x;
    }
  }

  /**
   * The location histogram: one entry per location other than `''` and
   * `'Unknown'`, in order of first appearance, holding the number of posts
   * placed there.
   */
  lemma LocationHistogramSpec(posts: seq<Post>, x: string)
    ensures Keys(Tally(LocationNames(posts))) == Dedupe(LocationNames(posts))
    ensures x in Keys(Tally(LocationNames(posts))) <==>
      x != "" && x != "Unknown" && exists k :: 0 <= k < |posts| && posts[k].location == x
    ensures x != "" && x != "Unknown" ==> Get(Tally(LocationNames(posts)), x) == |Filter(posts, AtLocation(x))|
    ensures x == "Unknown" ==> Get(Tally(LocationNames(posts)), x) == 0
  {
    TallyCounts(LocationNames(posts));
    LocationNamesMember(posts, x);
    TallyGet(LocationNames(posts), x);
    if x != "" && x != "Unknown" {
      LocationNamesCount(posts, x);
    }
  }

  // ------------------------------------------------------- hourly buckets

  /** An hour of the day, as `getHours()` reports it. */
  type Hour = h: int | 0 <= h < 24

  /** The hour of each post, in post order. */
  function Hours(posts: seq<Post>, hourOf: int -> Hour): (r: seq<int>)
    ensures |r| == |posts|
    ensures forall i :: 0 <= i < |r| ==> r[i] == hourOf(posts[i].timestamp)
  {
    seq(|posts|, i requires 0 <= i < |posts| => hourOf(posts[i].timestamp))
  }

  /** The `hourlyActivity` reduce: each post bumps the entry of its hour. */
  method CountHours(posts: seq<Post>, hourOf: int -> Hour) returns (acc: seq<(int, nat)>)
    ensures acc == Tally(Hours(posts, hourOf))
  {
    acc := [];
    var i := 0;
    while i < |posts|
      invariant 0 <= i <= |posts|
      invariant acc == Tally(Hours(posts[..i], hourOf))
    {
      var h := hourOf(posts[i].timestamp);
      assert Hours(posts[..i + 1], hourOf) == Hours(posts[..i], hourOf) + [h];
      TallySnoc(Hours(posts[..i], hourOf), h);
      acc := Bump(acc, h);
      i := i + 1;
    }
    assert posts[..i] == posts;
  }

  /** One bar of the hourly chart; `caption` is the source's `label` field (`label` is a Dafny keyword). */
  datatype HourBucket = HourBucket(hour: nat, posts: nat, caption: string)

  /** `` `${i.toString().padStart(2, '0')}:00` ``. */
  function HourLabel(h: Hour): string
  {
    PadStart(NatToString(h), 2, '0') + ":00"
  }

  /** The label is the hour in two digits, zero-padded, then `":00"`. */
  lemma HourLabelDigits(h: Hour)
    ensures HourLabel(h) == [DigitChar(h / 10), DigitChar(h % 10)] + ":00"
    ensures DigitsValue(HourLabel(h)[..2]) == h
  {
    NatToStringValue(h);
    if h >= 10 {
      assert NatToString(h / 10) == [DigitChar(h / 10)];
    }
  }

  /** `Array.from({ length: 24 }, ...)` over the hour dictionary. */
  function HourlyActivity(acc: seq<(int, nat)>): seq<HourBucket>
  {
    seq(24, i requires 0 <= i < 24 => HourBucket(i, Get(acc, i), HourLabel(i)))
  }

  /** The number of elements of `s` below `n`, counted value by value. */
  function CountBelow(s: seq<int>, n: nat): nat
  {
    if n == 0 then 0 else CountBelow(s, n - 1) + Occurrences(s, n - 1)
  }

  lemma {:induction false} CountBelowSnoc(s: seq<int>, x: int, n: nat)
    ensures CountBelow(s + [x], n) == CountBelow(s, n) + (if 0 <= x < n then 1 else 0)
  {
    if n > 0 {
      CountBelowSnoc(s, x, n - 1);
      OccurrencesAppend(s, [x], n - 1);
    }
  }

  /** When every element lies in `[0, n)`, counting value by value counts them all. */
  lemma {:induction false} CountBelowAll(s: seq<int>, n: nat)
    requires forall i :: 0 <= i < |s| ==> 0 <= s[i] < n
    ensures CountBelow(s, n) == |s|
  {
    if s == [] {
      CountBelowEmpty(n);
    } else {
      var init := s[..|s| - 1];
      assert s == init + [s[|s| - 1]];
      CountBelowAll(init, n);
      CountBelowSnoc(init, s[|s| - 1], n);
    }
  }

  lemma {:induction false} CountBelowEmpty(n: nat)
    ensures CountBelow([], n) == 0
  {
    if n > 0 {
      CountBelowEmpty(n - 1);
    }
  }

  /** The posts of a run of buckets added up. */
  function BucketTotal(b: seq<HourBucket>): nat
  {
    if b == [] then 0 else BucketTotal(b[..|b| - 1]) + b[|b| - 1].posts
  }

  lemma {:induction false} BucketTotalPrefix(posts: seq<Post>, hourOf: int -> Hour, n: nat)
    requires n <= 24
    ensures BucketTotal(HourlyActivity(Tally(Hours(posts, hourOf)))[..n]) == CountBelow(Hours(posts, hourOf), n)
  {
    var b := HourlyActivity(Tally(Hours(posts, hourOf)));
    if n > 0 {
      BucketTotalPrefix(posts, hourOf, n - 1);
      assert b[..n][..n - 1] == b[..n - 1];
      TallyGet(Hours(posts, hourOf), n - 1);
    }
  }

  /**
   * There are 24 buckets; bucket `i` is hour `i`, labelled `"ii:00"`, and
   * holds the number of posts in that hour (0 when there is none); the
   * buckets add up to the number of posts.
   */
  lemma HourlyActivitySpec(posts: seq<Post>, hourOf: int -> Hour, i: nat)
    requires i < 24
    ensures |HourlyActivity(Tally(Hours(posts, hourOf)))| == 24
    ensures HourlyActivity(Tally(Hours(posts, hourOf)))[i].hour == i
    ensures HourlyActivity(Tally(Hours(posts, hourOf)))[i].caption == [DigitChar(i / 10), DigitChar(i % 10)] + ":00"
    ensures HourlyActivity(Tally(Hours(posts, hourOf)))[i].posts == Occurrences(Hours(posts, hourOf), i)
    ensures HourlyActivity(Tally(Hours(posts, hourOf)))[i].posts == 0 <==>
      forall k :: 0 <= k < |posts| ==> hourOf(posts[k].timestamp) != i
    ensures BucketTotal(HourlyActivity(Tally(Hours(posts, hourOf)))) == |posts|
  {
    var hs := Hours(posts, hourOf);
    var b := HourlyActivity(Tally(hs));
    TallyGet(hs, i);
    HourLabelDigits(i);
    BucketTotalPrefix(posts, hourOf, 24);
    assert b[..24] == b;
    CountBelowAll(hs, 24);
  }

  /** `Math.max(...hourlyActivity.map(h => h.posts))`: the busiest bucket's count. */
  function PeakPosts(buckets: seq<HourBucket>): (m: nat)
    requires |buckets| > 0
    ensures forall i :: 0 <= i < |buckets| ==> buckets[i].posts <= m
    ensures exists i :: 0 <= i < |buckets| && buckets[i].posts == m
  {
    if |buckets| == 1 then buckets[0].posts
    else
      var rest := PeakPosts(buckets[1..]);
      assert forall i :: 1 <= i < |buckets| ==> buckets[i] == buckets[1..][i - 1];
      if buckets[0].posts >= rest then buckets[0].posts else rest
  }

  /**
   * The "Peak Activity" figure is at most the number of posts, and it is
   * zero exactly when there are no posts.
   */
  lemma PeakActivitySpec(posts: seq<Post>, hourOf: int -> Hour)
    ensures PeakPosts(HourlyActivity(Tally(Hours(posts, hourOf)))) <= |posts|
    ensures PeakPosts(HourlyActivity(Tally(Hours(posts, hourOf)))) == 0 <==> |posts| == 0
  {
    var b := HourlyActivity(Tally(Hours(posts, hourOf)));
    var m := PeakPosts(b);
    var i :| 0 <= i < 24 && b[i].posts == m;
    HourlyActivitySpec(posts, hourOf, i);
    if |posts| > 0 {
      var h: nat := hourOf(posts[0].timestamp);
      HourlyActivitySpec(posts, hourOf, h);
    }
  }

  // ---------------------------------------------------- engagement totals

  /** The componentwise sum of two engagement records. */
  function Add(a: Engagement, b: Engagement): Engagement
  {
    Engagement(a.likes + b.likes, a.shares + b.shares, a.comments + b.comments)
  }

  /** The `{ likes: 0, shares: 0, comments: 0 }` start of the reduce. */
  function NoEngagement(): Engagement { Engagement(0, 0, 0) }

  /** What one post adds to the totals: its record, or nothing when it has none. */
  function EngagementOfPost(p: Post): Engagement
  {
    if p.engagement.Some? then p.engagement.value else NoEngagement()
  }

  /** The engagement totals of a list of posts. */
  function EngagementOf(posts: seq<Post>): Engagement
  {
    if |posts| == 0 then NoEngagement() else Add(EngagementOfPost(posts[0]), EngagementOf(posts[1..]))
  }

  /** The zero record is the unit of `Add`. */
  lemma AddUnit(x: Engagement)
    ensures Add(NoEngagement(), x) == x && Add(x, NoEngagement()) == x
  {
  }

  /** `Add` associates. */
  lemma AddAssociates(x: Engagement, y: Engagement, z: Engagement)
    ensures Add(x, Add(y, z)) == Add(Add(x, y), z)
  {
  }

  /** The totals of two runs of posts add up. */
  lemma {:induction false} EngagementOfAppend(a: seq<Post>, b: seq<Post>)
    ensures EngagementOf(a + b) == Add(EngagementOf(a), EngagementOf(b))
  {
    if |a| == 0 {
      assert a + b == b;
      AddUnit(EngagementOf(b));
    } else {
      EngagementOfAppend(a[1..], b);
      EngagementOfCons(a, b);
    }
  }

  /** The step of the induction above: taking the first post off `a`. */
  lemma EngagementOfCons(a: seq<Post>, b: seq<Post>)
    requires |a| > 0
    requires EngagementOf(a[1..] + b) == Add(EngagementOf(a[1..]), EngagementOf(b))
    ensures EngagementOf(a + b) == Add(EngagementOf(a), EngagementOf(b))
  {
    assert (a + b)[0] == a[0] && (a + b)[1..] == a[1..] + b;
    AddAssociates(EngagementOfPost(a[0]), EngagementOf(a[1..]), EngagementOf(b));
  }

  /** The `totalEngagement` reduce, adding into its record in place. */
  method TotalEngagement(posts: seq<Post>) returns (total: Engagement)
    ensures total == EngagementOf(posts)
  {
    var likes: nat, shares: nat, comments: nat := 0, 0, 0;
    var i := 0;
    while i < |posts|
      invariant 0 <= i <= |posts|
      invariant Engagement(likes, shares, comments) == EngagementOf(posts[..i])
    {
      assert posts[..i + 1] == posts[..i] + [posts[i]];
      EngagementOfAppend(posts[..i], [posts[i]]);
      assert [posts[i]][1..] == [];
      match posts[i].engagement {
        case Some(e) =>
          likes := likes + e.likes;
          shares := shares + e.shares;
          comments := comments + e.comments;
        case None =>
      }
      i := i + 1;
    }
    assert posts[..i] == posts;
    total := Engagement(likes, shares, comments);
  }

  /** `post.engagement` is set. */
  predicate Engaged(p: Post)
  {
    p.engagement.Some?
  }

  /**
   * Posts without an engagement record do not change the totals, and the
   * empty list totals zero.
   */
  lemma {:induction false} EngagementSkipsBare(posts: seq<Post>)
    ensures EngagementOf(Filter(posts, Engaged)) == EngagementOf(posts)
    ensures posts == [] ==> EngagementOf(posts) == NoEngagement()
  {
    if posts != [] {
      var head, rest := posts[0], posts[1..];
      EngagementSkipsBare(rest);
      if Engaged(head) {
        assert Filter(posts, Engaged) == [head] + Filter(rest, Engaged);
        assert ([head] + Filter(rest, Engaged))[1..] == Filter(rest, Engaged);
      } else {
        assert Filter(posts, Engaged) == Filter(rest, Engaged);
      }
    }
  }

  /** Every engaged post's counters are part of the totals. */
  lemma {:induction false} EngagementBounds(posts: seq<Post>, k: nat)
    requires k < |posts| && posts[k].engagement.Some?
    ensures posts[k].engagement.value.likes <= EngagementOf(posts).likes
    ensures posts[k].engagement.value.shares <= EngagementOf(posts).shares
    ensures posts[k].engagement.value.comments <= EngagementOf(posts).comments
  {
    assert posts == posts[..k] + posts[k..];
    assert posts[k..] == [posts[k]] + posts[k + 1..];
    EngagementOfAppend(posts[..k], posts[k..]);
    EngagementOfAppend([posts[k]], posts[k + 1..]);
    assert [posts[k]][..0] == [];
  }

  // ------------------------------------------------------------- hotspots

  /**
   * The location list sorted by count, largest first (stable), and cut to
   * eight: the "Geographic Hotspots" panel.
   */
  function Hotspots(posts: seq<Post>): seq<(string, nat)>
  {
    Prefix(Ranked(LocationNames(posts)), 8)
  }

  /**
   * The panel shows eight locations, or all of them when there are fewer,
   * largest count first, none twice, each with its number of posts.
   */
  lemma HotspotsSpec(posts: seq<Post>)
    ensures |Hotspots(posts)| == if |Dedupe(LocationNames(posts))| <= 8 then |Dedupe(LocationNames(posts))| else 8
    ensures forall i, j :: 0 <= i < j < |Hotspots(posts)| ==> Hotspots(posts)[i].1 >= Hotspots(posts)[j].1
    ensures forall i, j :: 0 <= i < j < |Hotspots(posts)| ==> Hotspots(posts)[i].0 != Hotspots(posts)[j].0
  {
    var h := Hotspots(posts);
    RankedLength(LocationNames(posts));
    forall i, j | 0 <= i < j < |h| ensures h[i].0 != h[j].0 {
      RankedDistinct(LocationNames(posts), i, j);
    }
  }

  /** Each hotspot is a real location other than `'Unknown'`, with the number of posts placed there. */
  lemma HotspotEntry(posts: seq<Post>, i: nat)
    requires i < |Hotspots(posts)|
    ensures Hotspots(posts)[i].0 != "" && Hotspots(posts)[i].0 != "Unknown"
    ensures Hotspots(posts)[i].1 == |Filter(posts, AtLocation(Hotspots(posts)[i].0))| >= 1
  {
    var x := Hotspots(posts)[i].0;
    var k := RankedEntry(LocationNames(posts), i);
    LocationNamesMember(posts, x);
    LocationNamesCount(posts, x);
  }

  /**
   * Every counted location is either on the panel or left off a full panel
   * with no more posts than the last one shown.
   */
  lemma HotspotsAreTop(posts: seq<Post>, x: string)
    requires x in LocationNames(posts)
    ensures (exists i :: 0 <= i < |Hotspots(posts)| && Hotspots(posts)[i].0 == x) ||
      (|Hotspots(posts)| == 8 && Occurrences(LocationNames(posts), x) <= Hotspots(posts)[7].1)
  {
    var r := Ranked(LocationNames(posts));
    var m := RankedFind(LocationNames(posts), x);
    if m < |Hotspots(posts)| {
      assert Hotspots(posts)[m].0 == x;
    } else {
      assert r[7].1 >= r[m].1;
    }
  }

  // ------------------------------------------------------- hashtag chart

  /** `topHashtags.slice(0, 6)`: the chart takes the first six entries of the report. */
  function HashtagChart(top: seq<HashtagCount>): seq<HashtagCount>
  {
    Prefix(top, 6)
  }

  /**
   * Over the hashtag report of any post list, the chart shows six bars, or
   * every counted hashtag when fewer, the report's leaders in its order.
   */
  lemma HashtagChartSpec(posts: seq<Post>)
    ensures |HashtagChart(TopHashtagsOf(posts))| ==
      if |Dedupe(HostileTags(posts))| <= 6 then |Dedupe(HostileTags(posts))| else 6
    ensures forall i :: 0 <= i < |HashtagChart(TopHashtagsOf(posts))| ==>
      HashtagChart(TopHashtagsOf(posts))[i] == TopHashtagsOf(posts)[i]
    ensures forall i, j :: 0 <= i < j < |HashtagChart(TopHashtagsOf(posts))| ==>
      HashtagChart(TopHashtagsOf(posts))[i].count >= HashtagChart(TopHashtagsOf(posts))[j].count
  {
    TopHashtagsLength(posts);
    TopHashtagsSorted(posts);
  }
}
