/**
 * The Alerts page (src/components/pages/AlertsPage.tsx): the high-risk
 * posts sorted newest first, the four figures of the alert summary, the
 * "most recent alert" time and the "most active location".
 *
 * `Date.now()` becomes the parameter `now`, read once for the whole list.
 */
module Alerts {
  import opened Types
  import opened Collections
  import opened MockData
  import opened MockSeed
  import opened Overview

  /** The sort key of `highRiskPosts`: the post time in epoch milliseconds. */
  function Timestamp(p: Post): int
  {
    p.timestamp
  }

  /**
   * `highRiskPosts`: the Highly Suspicious posts, stably sorted by
   * timestamp, newest first.
   */
  function HighRiskPosts(posts: seq<Post>): seq<Post>
  {
    SortDescBy(Filter(posts, Labelled(HighlySuspicious)), Timestamp)
  }

  /**
   * The list holds exactly the Highly Suspicious posts, each as often as the
   * store does, newest first.
   */
  lemma HighRiskPostsSpec(posts: seq<Post>)
    ensures multiset(HighRiskPosts(posts)) == multiset(Filter(posts, Labelled(HighlySuspicious)))
    ensures forall p :: p in HighRiskPosts(posts) <==> p in posts && p.classification == HighlySuspicious
    ensures forall i, j :: 0 <= i < j < |HighRiskPosts(posts)| ==>
      HighRiskPosts(posts)[i].timestamp >= HighRiskPosts(posts)[j].timestamp
  {
    var hs := Filter(posts, Labelled(HighlySuspicious));
    var hr := HighRiskPosts(posts);
    forall p ensures p in hr <==> p in hs {
      assert p in hr <==> p in multiset(hr);
      assert p in hs <==> p in multiset(hs);
    }
    forall i, j | 0 <= i < j < |hr| ensures hr[i].timestamp >= hr[j].timestamp {
      assert Timestamp(hr[i]) >= Timestamp(hr[j]);
    }
  }

  /** Posts with the same timestamp keep their store order. */
  lemma HighRiskPostsStable(posts: seq<Post>, t: int)
    ensures WithKey(HighRiskPosts(posts), Timestamp, t) ==
            WithKey(Filter(posts, Labelled(HighlySuspicious)), Timestamp, t)
  {
    SortDescByStable(Filter(posts, Labelled(HighlySuspicious)), Timestamp, t);
  }

  /** One day in milliseconds, `24 * 60 * 60 * 1000`. */
  const DayMs: int := 86400000

  /** `postTime > dayAgo`: posted within the last day. */
  function Within24h(now: int): Post -> bool
  {
    (p: Post) => p.timestamp > now - DayMs
  }

  /** Highly Suspicious and posted within the last day. */
  function RecentAlert(now: int): Post -> bool
  {
    (p: Post) => p.classification == HighlySuspicious && p.timestamp > now - DayMs
  }

  /** `.map(p => p.location)`. */
  function Locations(posts: seq<Post>): (r: seq<string>)
    ensures |r| == |posts|
    ensures forall i :: 0 <= i < |r| ==> r[i] == posts[i].location
  {
    seq(|posts|, i requires 0 <= i < |posts| => posts[i].location)
  }

  /** `.map(p => p.platform)`; an absent platform is the value `undefined`. */
  function Platforms(posts: seq<Post>): (r: seq<Option<string>>)
    ensures |r| == |posts|
    ensures forall i :: 0 <= i < |r| ==> r[i] == posts[i].platform
  {
    seq(|posts|, i requires 0 <= i < |posts| => posts[i].platform)
  }

  /** `l !== 'Unknown'`. */
  function Known(l: string): bool
  {
    l != "Unknown"
  }

  /** The figures of the `alertStats` memo. */
  datatype AlertStats = AlertStats(
    totalAlerts: nat,
    last24h: nat,
    affectedLocations: nat,
    activePlatforms: nat)

  /** The `alertStats` memo at time `now`. */
  function AlertStatsOf(posts: seq<Post>, now: int): AlertStats
  {
    var hr := HighRiskPosts(posts);
    AlertStats(
      |hr|,
      |Filter(hr, Within24h(now))|,
      |Filter(Dedupe(Locations(hr)), Known)|,
      |Dedupe(Platforms(hr))|)
  }

  /** The locations of the Highly Suspicious posts, `'Unknown'` left out. */
  function AffectedLocations(posts: seq<Post>): set<string>
  {
    set p | p in posts && p.classification == HighlySuspicious && p.location != "Unknown" :: p.location
  }

  /** The platform values of the Highly Suspicious posts, absence included. */
  function ActivePlatforms(posts: seq<Post>): set<Option<string>>
  {
    set p | p in posts && p.classification == HighlySuspicious :: p.platform
  }

  /**
   * The alert total is the number of Highly Suspicious posts, and the day's
   * count is the number of those posted strictly after `now - 24h`, so it
   * never exceeds the total.
   */
  lemma AlertCounts(posts: seq<Post>, now: int)
    ensures AlertStatsOf(posts, now).totalAlerts == |Filter(posts, Labelled(HighlySuspicious))|
    ensures AlertStatsOf(posts, now).last24h == |Filter(posts, RecentAlert(now))|
    ensures AlertStatsOf(posts, now).last24h <= AlertStatsOf(posts, now).totalAlerts
  {
    var hs := Filter(posts, Labelled(HighlySuspicious));
    var hr := HighRiskPosts(posts);
    FilterCountPermutation(hr, hs, Within24h(now));
    FilterSameTest(hs, Within24h(now), RecentAlert(now));
    FilterNarrow(posts, Labelled(HighlySuspicious), RecentAlert(now));
  }

  /** A location is listed exactly when some post has it. */
  lemma LocationsMember(posts: seq<Post>, l: string)
    ensures l in Locations(posts) <==> exists p :: p in posts && p.location == l
  {
    if l in Locations(posts) {
      var i :| 0 <= i < |posts| && Locations(posts)[i] == l;
      assert posts[i] in posts;
    }
    if p :| p in posts && p.location == l {
      var i :| 0 <= i < |posts| && posts[i] == p;
      assert Locations(posts)[i] == l;
    }
  }

  /** A platform value is listed exactly when some post has it. */
  lemma PlatformsMember(posts: seq<Post>, v: Option<string>)
    ensures v in Platforms(posts) <==> exists p :: p in posts && p.platform == v
  {
    if v in Platforms(posts) {
      var i :| 0 <= i < |posts| && Platforms(posts)[i] == v;
      assert posts[i] in posts;
    }
    if p :| p in posts && p.platform == v {
      var i :| 0 <= i < |posts| && posts[i] == p;
      assert Platforms(posts)[i] == v;
    }
  }

  /** `affectedLocations` counts the distinct known locations of the alerts. */
  lemma AffectedLocationsCount(posts: seq<Post>, now: int)
    ensures AlertStatsOf(posts, now).affectedLocations == |AffectedLocations(posts)|
  {
    var hr := HighRiskPosts(posts);
    var d := Filter(Dedupe(Locations(hr)), Known);
    FilterDistinct(Dedupe(Locations(hr)), Known);
    DistinctCardinality(d);
    forall l ensures l in d <==> l in AffectedLocations(posts) {
      HighRiskPostsSpec(posts);
      LocationsMember(hr, l);
    }
    assert (set l | l in d) == AffectedLocations(posts);
  }

  /** `activePlatforms` counts the distinct platform values of the alerts, absence being one. */
  lemma ActivePlatformsCount(posts: seq<Post>, now: int)
    ensures AlertStatsOf(posts, now).activePlatforms == |ActivePlatforms(posts)|
  {
    var hr := HighRiskPosts(posts);
    var d := Dedupe(Platforms(hr));
    DistinctCardinality(d);
    forall v ensures v in d <==> v in ActivePlatforms(posts) {
      HighRiskPostsSpec(posts);
      PlatformsMember(hr, v);
    }
    assert (set v | v in d) == ActivePlatforms(posts);
  }

  /** `highRiskPosts[0]?.timestamp`: absent when there is no alert. */
  function MostRecentAlert(posts: seq<Post>): Option<int>
  {
    var hr := HighRiskPosts(posts);
    if hr == [] then None else Some(hr[0].timestamp)
  }

  /**
   * The most recent alert time is absent exactly when no post is Highly
   * Suspicious, and otherwise is the latest timestamp among them.
   */
  lemma MostRecentAlertSpec(posts: seq<Post>)
    ensures MostRecentAlert(posts).None? <==> forall p :: p in posts ==> p.classification != HighlySuspicious
    ensures MostRecentAlert(posts).Some? ==>
      (exists p :: p in posts && p.classification == HighlySuspicious &&
        p.timestamp == MostRecentAlert(posts).value)
    ensures forall p :: p in posts && p.classification == HighlySuspicious ==>
      MostRecentAlert(posts).Some? && p.timestamp <= MostRecentAlert(posts).value
  {
    HighRiskPostsSpec(posts);
    var hr := HighRiskPosts(posts);
    if hr != [] {
      assert hr[0] in hr;
    }
    forall p | p in posts && p.classification == HighlySuspicious
      ensures hr != [] && p.timestamp <= hr[0].timestamp
    {
      SortDescByHeadIsMax(Filter(posts, Labelled(HighlySuspicious)), Timestamp, p);
    }
  }

  // -------------------------------------------------- most active location

  /**
   * The "most active location": the locations of `highRiskPosts` counted
   * in a dictionary, its entries sorted by count (largest first, stable),
   * the first key taken, and `'Unknown'` when there is none or it is empty.
   */
  function MostActiveLocationOf(highRisk: seq<Post>): string
  {
    var ranked := Ranked(Locations(highRisk));
    if ranked != [] && ranked[0].0 != "" then ranked[0].0 else "Unknown"
  }

  /** The `reduce` that fills the dictionary, then the sort and the lookup. */
  method MostActiveLocation(highRisk: seq<Post>) returns (location: string)
    ensures location == MostActiveLocationOf(highRisk)
  {
    var acc: seq<(string, nat)> := [];
    var i := 0;
    while i < |highRisk|
      invariant 0 <= i <= |highRisk|
      invariant acc == Tally(Locations(highRisk[..i]))
    {
      assert Locations(highRisk[..i + 1]) == Locations(highRisk[..i]) + [highRisk[i].location];
      TallySnoc(Locations(highRisk[..i]), highRisk[i].location);
      acc := Bump(acc, highRisk[i].location);
      i := i + 1;
    }
    assert highRisk[..i] == highRisk;
    var ranked := SortDescBy(acc, EntryCount);
    if ranked != [] && ranked[0].0 != "" {
      location := ranked[0].0;
    } else {
      location := "Unknown";
    }
  }

  /** With no alert the fallback `'Unknown'` is shown. */
  lemma MostActiveLocationEmpty()
    ensures MostActiveLocationOf([]) == "Unknown"
  {
    assert Locations([]) == [];
  }

  /**
   * The first key of the sorted dictionary is a location of an alert, no
   * location has more alerts, and among the locations with as many it is
   * the first one met in `highRiskPosts`. That key is what is shown,
   * except that an empty location falls back to `'Unknown'` through `||`.
   */
  lemma MostActiveLocationIsTop(highRisk: seq<Post>, p: Post)
    requires p in highRisk
    ensures Ranked(Locations(highRisk)) != []
    ensures Ranked(Locations(highRisk))[0].0 in Locations(highRisk)
    ensures Occurrences(Locations(highRisk), p.location) <=
            Occurrences(Locations(highRisk), Ranked(Locations(highRisk))[0].0)
    ensures Occurrences(Locations(highRisk), p.location) ==
            Occurrences(Locations(highRisk), Ranked(Locations(highRisk))[0].0) ==>
      IndexOf(Locations(highRisk), Ranked(Locations(highRisk))[0].0) <= IndexOf(Locations(highRisk), p.location)
    ensures Ranked(Locations(highRisk))[0].0 == "" ==> MostActiveLocationOf(highRisk) == "Unknown"
    ensures Ranked(Locations(highRisk))[0].0 != "" ==> MostActiveLocationOf(highRisk) == Ranked(Locations(highRisk))[0].0
  {
    var ls := Locations(highRisk);
    var i :| 0 <= i < |highRisk| && highRisk[i] == p;
    assert ls[i] == p.location;
    var ranked := Ranked(ls);
    var m := RankedFind(ls, p.location);
    var k := RankedEntry(ls, 0);
    if m > 0 && ranked[m].1 == ranked[0].1 {
      RankedTies(ls, 0, m);
    }
  }

  // ------------------------------------------------------ the seed set

  /** `.map(p => p.id)`. */
  function Ids(posts: seq<Post>): (r: seq<int>)
    ensures |r| == |posts|
    ensures forall i :: 0 <= i < |r| ==> r[i] == posts[i].id
  {
    seq(|posts|, i requires 0 <= i < |posts| => posts[i].id)
  }

  /** Clearing the texts of a concatenation, part by part. */
  lemma BlankedAppend(a: seq<Post>, b: seq<Post>)
    ensures Blanked(a + b) == Blanked(a) + Blanked(b)
  {
  }

  /** Filtering by label commutes with clearing the texts. */
  lemma {:induction false} FilterBlanked(posts: seq<Post>, c: Classification)
    ensures Filter(Blanked(posts), Labelled(c)) == Blanked(Filter(posts, Labelled(c)))
  {
    if posts != [] {
      var rest := posts[1..];
      FilterBlanked(rest, c);
      assert posts == [posts[0]] + rest;
      BlankedAppend([posts[0]], rest);
      var head := if posts[0].classification == c then [posts[0]] else [];
      assert Filter(posts, Labelled(c)) == head + Filter(rest, Labelled(c));
      BlankedAppend(head, Filter(rest, Labelled(c)));
      assert Blanked(posts)[0] == Blank(posts[0]);
      assert Blanked(posts)[1..] == Blanked(rest);
    }
  }

  /** The post times of a list, in order. */
  function Timestamps(posts: seq<Post>): (r: seq<int>)
    ensures |r| == |posts|
    ensures forall i :: 0 <= i < |r| ==> r[i] == posts[i].timestamp
  {
    seq(|posts|, i requires 0 <= i < |posts| => posts[i].timestamp)
  }

  /** Clearing the texts keeps ids, labels, times and locations. */
  lemma ColumnsBlanked(posts: seq<Post>)
    ensures Ids(Blanked(posts)) == Ids(posts)
    ensures Labels(Blanked(posts)) == Labels(posts)
    ensures Timestamps(Blanked(posts)) == Timestamps(posts)
    ensures Locations(Blanked(posts)) == Locations(posts)
  {
  }

  /** The seed ids, times and locations, newest post first. */
  const SeedIdColumn: seq<int> := [1, 2, 3, 4, 5, 6, 7, 8, 9, 10, 11, 12]
  const SeedTimes: seq<int> := [1724927400000, 1724924700000, 1724919600000, 1724915700000,
    1724913000000, 1724910300000, 1724905200000, 1724884200000, 1724876100000, 1724870700000,
    1724862600000, 1724854800000]
  const SeedLocations: seq<string> := ["Delhi, India", "Mumbai, India", "Lahore, Pakistan",
    "Bengaluru, India", "Unknown", "Mumbai, India", "Chennai, India", "Toronto, Canada",
    "Mumbai, India", "Unknown", "Kolkata, India", "Unknown"]

  lemma SeedRowIds()
    ensures Ids(SeedRows) == SeedIdColumn
  {
  }

  lemma SeedRowTimes()
    ensures Timestamps(SeedRows) == SeedTimes
  {
  }

  lemma SeedRowLocations()
    ensures Locations(SeedRows) == SeedLocations
  {
  }

  /** The filter over a pair, spelled out. */
  lemma FilterPair(x: Post, y: Post, keep: Post -> bool)
    ensures Filter([x, y], keep) == (if keep(x) then [x] else []) + (if keep(y) then [y] else [])
  {
    assert [x, y][1..] == [y];
  }

  /** The seed's labels, position by position. */
  lemma SeedLabelsAt(posts: seq<Post>)
    requires Labels(posts) == SeedLabels
    ensures |posts| == 12
    ensures posts[0].classification == Safe && posts[1].classification == Suspicious
    ensures posts[2].classification == HighlySuspicious && posts[3].classification == Safe
    ensures posts[4].classification == HighlySuspicious && posts[5].classification == Suspicious
    ensures posts[6].classification == Safe && posts[7].classification == HighlySuspicious
    ensures posts[8].classification == Safe && posts[9].classification == HighlySuspicious
    ensures posts[10].classification == Safe && posts[11].classification == HighlySuspicious
  {
    assert Labels(posts)[0] == posts[0].classification && Labels(posts)[1] == posts[1].classification;
    assert Labels(posts)[2] == posts[2].classification && Labels(posts)[3] == posts[3].classification;
    assert Labels(posts)[4] == posts[4].classification && Labels(posts)[5] == posts[5].classification;
    assert Labels(posts)[6] == posts[6].classification && Labels(posts)[7] == posts[7].classification;
    assert Labels(posts)[8] == posts[8].classification && Labels(posts)[9] == posts[9].classification;
    assert Labels(posts)[10] == posts[10].classification && Labels(posts)[11] == posts[11].classification;
  }

  /** A filter over twelve elements, two at a time. */
  lemma FilterTwelve(s: seq<Post>, keep: Post -> bool)
    requires |s| == 12
    ensures Filter(s, keep) == Filter([s[0], s[1]], keep) + Filter([s[2], s[3]], keep)
      + Filter([s[4], s[5]], keep) + Filter([s[6], s[7]], keep)
      + Filter([s[8], s[9]], keep) + Filter([s[10], s[11]], keep)
  {
    var c0, c1, c2 := s[..2], s[2..4], s[4..6];
    var c3, c4, c5 := s[6..8], s[8..10], s[10..];
    assert s == c0 + c1 + c2 + c3 + c4 + c5;
    assert c0 == [s[0], s[1]] && c1 == [s[2], s[3]] && c2 == [s[4], s[5]];
    assert c3 == [s[6], s[7]] && c4 == [s[8], s[9]] && c5 == [s[10], s[11]];
    FilterAppend(c0 + c1 + c2 + c3 + c4, c5, keep);
    FilterAppend(c0 + c1 + c2 + c3, c4, keep);
    FilterAppend(c0 + c1 + c2, c3, keep);
    FilterAppend(c0 + c1, c2, keep);
    FilterAppend(c0, c1, keep);
  }

  /** The pairs of the seed, each filtered by the Highly Suspicious label. */
  lemma SeedPairsHighRisk(ps: seq<Post>)
    requires |ps| == 12
    requires ps[0].classification == Safe && ps[1].classification == Suspicious
    requires ps[2].classification == HighlySuspicious && ps[3].classification == Safe
    requires ps[4].classification == HighlySuspicious && ps[5].classification == Suspicious
    requires ps[6].classification == Safe && ps[7].classification == HighlySuspicious
    requires ps[8].classification == Safe && ps[9].classification == HighlySuspicious
    requires ps[10].classification == Safe && ps[11].classification == HighlySuspicious
    ensures Filter([ps[0], ps[1]], Labelled(HighlySuspicious)) == []
    ensures Filter([ps[2], ps[3]], Labelled(HighlySuspicious)) == [ps[2]]
    ensures Filter([ps[4], ps[5]], Labelled(HighlySuspicious)) == [ps[4]]
    ensures Filter([ps[6], ps[7]], Labelled(HighlySuspicious)) == [ps[7]]
    ensures Filter([ps[8], ps[9]], Labelled(HighlySuspicious)) == [ps[9]]
    ensures Filter([ps[10], ps[11]], Labelled(HighlySuspicious)) == [ps[11]]
  {
    var hs := Labelled(HighlySuspicious);
    FilterPair(ps[0], ps[1], hs);
    FilterPair(ps[2], ps[3], hs);
    FilterPair(ps[4], ps[5], hs);
    FilterPair(ps[6], ps[7], hs);
    FilterPair(ps[8], ps[9], hs);
    FilterPair(ps[10], ps[11], hs);
  }

  /** Six filtered pairs, five of them holding one element and the first none, joined. */
  lemma JoinPairs(ps: seq<Post>, a: seq<Post>, b: seq<Post>, c: seq<Post>, d: seq<Post>, e: seq<Post>, g: seq<Post>)
    requires |ps| == 12
    requires a == [] && b == [ps[2]] && c == [ps[4]] && d == [ps[7]] && e == [ps[9]] && g == [ps[11]]
    ensures a + b + c + d + e + g == [ps[2], ps[4], ps[7], ps[9], ps[11]]
  {
  }

  /** With the seed's labels, the Highly Suspicious posts are those at positions 2, 4, 7, 9 and 11. */
  lemma SeedLabelsHighRisk(posts: seq<Post>)
    requires Labels(posts) == SeedLabels
    ensures |posts| == 12
    ensures Filter(posts, Labelled(HighlySuspicious)) == [posts[2], posts[4], posts[7], posts[9], posts[11]]
  {
    SeedLabelsAt(posts);
    var hs := Labelled(HighlySuspicious);
    var a, b, c := Filter([posts[0], posts[1]], hs), Filter([posts[2], posts[3]], hs), Filter([posts[4], posts[5]], hs);
    var d, e, g := Filter([posts[6], posts[7]], hs), Filter([posts[8], posts[9]], hs), Filter([posts[10], posts[11]], hs);
    FilterTwelve(posts, hs);
    SeedPairsHighRisk(posts);
    JoinPairs(posts, a, b, c, d, e, g);
  }

  /** Five alerts with falling times are already in the page's order. */
  lemma FiveNewestFirst(a: Post, b: Post, c: Post, d: Post, e: Post)
    requires a.timestamp >= b.timestamp >= c.timestamp >= d.timestamp >= e.timestamp
    ensures SortDescBy([a, b, c, d, e], Timestamp) == [a, b, c, d, e]
  {
    assert SortedDescBy([a, b, c, d, e], Timestamp);
    SortDescBySorted([a, b, c, d, e], Timestamp);
  }

  /** With the seed's labels and times, the alerts are the posts at 2, 4, 7, 9 and 11, in that order. */
  lemma SeedLikeOrder(posts: seq<Post>)
    requires Labels(posts) == SeedLabels && Timestamps(posts) == SeedTimes
    ensures |posts| == 12
    ensures HighRiskPosts(posts) == [posts[2], posts[4], posts[7], posts[9], posts[11]]
  {
    SeedLabelsHighRisk(posts);
    var ts := Timestamps(posts);
    assert ts[2] == posts[2].timestamp && ts[4] == posts[4].timestamp && ts[7] == posts[7].timestamp;
    assert ts[9] == posts[9].timestamp && ts[11] == posts[11].timestamp;
    FiveNewestFirst(posts[2], posts[4], posts[7], posts[9], posts[11]);
  }

  /** Ids and locations of five posts. */
  lemma ColumnsOfFive(a: Post, b: Post, c: Post, d: Post, e: Post)
    ensures Ids([a, b, c, d, e]) == [a.id, b.id, c.id, d.id, e.id]
    ensures Locations([a, b, c, d, e]) == [a.location, b.location, c.location, d.location, e.location]
  {
  }

  /** Any list with the seed's labels, ids and times has the seed's alerts: posts 3, 5, 8, 10 and 12. */
  lemma SeedLikeHighRisk(posts: seq<Post>)
    requires Labels(posts) == SeedLabels && Ids(posts) == SeedIdColumn && Timestamps(posts) == SeedTimes
    ensures Ids(HighRiskPosts(posts)) ==
      [SeedIdColumn[2], SeedIdColumn[4], SeedIdColumn[7], SeedIdColumn[9], SeedIdColumn[11]]
  {
    SeedLikeOrder(posts);
    var ids := Ids(posts);
    assert ids[2] == posts[2].id && ids[4] == posts[4].id && ids[7] == posts[7].id;
    assert ids[9] == posts[9].id && ids[11] == posts[11].id;
    ColumnsOfFive(posts[2], posts[4], posts[7], posts[9], posts[11]);
  }

  /** The locations of those alerts, in the same order. */
  lemma SeedLikeAlertLocations(posts: seq<Post>)
    requires Labels(posts) == SeedLabels && Timestamps(posts) == SeedTimes && Locations(posts) == SeedLocations
    ensures Locations(HighRiskPosts(posts)) ==
      [SeedLocations[2], SeedLocations[4], SeedLocations[7], SeedLocations[9], SeedLocations[11]]
  {
    SeedLikeOrder(posts);
    var ls := Locations(posts);
    assert ls[2] == posts[2].location && ls[4] == posts[4].location && ls[7] == posts[7].location;
    assert ls[9] == posts[9].location && ls[11] == posts[11].location;
    ColumnsOfFive(posts[2], posts[4], posts[7], posts[9], posts[11]);
  }

  /** When one value occurs three times among five and the other two once, it is ranked first. */
  lemma ThreeOfFiveLeads<K(!new)>(ls: seq<K>, a: K, u: K, b: K)
    requires ls == [a, u, b, u, u] && a != u && b != u
    ensures Ranked(ls)[0].0 == u
  {
    var top := Ranked(ls)[0].0;
    assert ls == [a, u, b] + [u, u];
    assert [a, u, b] == [a, u] + [b] && [a, u] == [a] + [u] && [u, u] == [u] + [u];
    OccurrencesAppend([a, u, b], [u, u], u);
    OccurrencesAppend([a, u], [b], u);
    OccurrencesAppend([a], [u], u);
    OccurrencesAppend([u], [u], u);
    OccurrencesAppend([a, u, b], [u, u], top);
    OccurrencesAppend([a, u], [b], top);
    OccurrencesAppend([a], [u], top);
    OccurrencesAppend([u], [u], top);
    RankedHeadIsMax(ls, u);
    var k := RankedEntry(ls, 0);
  }

  /**
   * Any list that differs from the seed only in its texts has the seed's
   * alerts, posts 3, 5, 8, 10 and 12 in that order, and its most active
   * location is `'Unknown'`, with three of them.
   */
  lemma SeedLikeAlerts(posts: seq<Post>)
    requires Blanked(posts) == SeedRows
    ensures Ids(HighRiskPosts(posts)) == [3, 5, 8, 10, 12]
    ensures MostActiveLocationOf(HighRiskPosts(posts)) == "Unknown"
  {
    ColumnsBlanked(posts);
    SeedRowLabels();
    SeedRowIds();
    SeedRowTimes();
    SeedRowLocations();
    SeedLikeHighRisk(posts);
    SeedLikeAlertLocations(posts);
    var ls := Locations(HighRiskPosts(posts));
    assert ls == [SeedLocations[2], SeedLocations[4], SeedLocations[7], SeedLocations[4], SeedLocations[4]];
    ThreeOfFiveLeads(ls, SeedLocations[2], SeedLocations[4], SeedLocations[7]);
  }

  /** On the seed set the alerts are posts 3, 5, 8, 10 and 12, and the most active location is `'Unknown'`. */
  lemma SeedAlerts()
    ensures Ids(HighRiskPosts(MockPosts)) == [3, 5, 8, 10, 12]
    ensures MostActiveLocationOf(HighRiskPosts(MockPosts)) == "Unknown"
  {
    SeedRowsMatch();
    SeedLikeAlerts(MockPosts);
  }
}
