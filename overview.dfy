/**
 * The Overview page (src/components/pages/OverviewPage.tsx): the label
 * counts, the threat level derived from them, the pie chart's three slices
 * and the "Recent High-Risk Activity" list, all computed from the live
 * post list.
 */
module Overview {
  import opened Types
  import opened Collections
  import opened MockData
  import opened MockSeed

  /** `posts.filter(p => p.classification === c).length`. */
  function CountOf(posts: seq<Post>, c: Classification): nat
  {
    |Filter(posts, Labelled(c))|
  }

  /** Counting over a list with one more post in front. */
  lemma CountOfCons(p: Post, posts: seq<Post>, c: Classification)
    ensures CountOf([p] + posts, c) == CountOf(posts, c) + (if p.classification == c then 1 else 0)
  {
    assert ([p] + posts)[1..] == posts;
  }

  /** Every post carries exactly one of the three labels. */
  lemma {:induction false} CountsPartition(posts: seq<Post>)
    ensures CountOf(posts, Safe) + CountOf(posts, Suspicious) + CountOf(posts, HighlySuspicious) == |posts|
  {
    if posts != [] {
      CountsPartition(posts[1..]);
      assert posts == [posts[0]] + posts[1..];
      CountOfCons(posts[0], posts[1..], Safe);
      CountOfCons(posts[0], posts[1..], Suspicious);
      CountOfCons(posts[0], posts[1..], HighlySuspicious);
    }
  }

  datatype ThreatLevel = Low | Medium | High

  /** `highlySuspicious > 5 ? 'High' : suspicious > 10 ? 'Medium' : 'Low'`. */
  function ThreatLevelOf(highlySuspicious: nat, suspicious: nat): ThreatLevel
  {
    if highlySuspicious > 5 then High
    else if suspicious > 10 then Medium
    else Low
  }

  /** The three levels, each with the exact counts that produce it. */
  lemma ThreatLevelCases(hs: nat, susp: nat)
    ensures ThreatLevelOf(hs, susp) == High <==> hs >= 6
    ensures ThreatLevelOf(hs, susp) == Medium <==> hs <= 5 && susp >= 11
    ensures ThreatLevelOf(hs, susp) == Low <==> hs <= 5 && susp <= 10
  {
  }

  /** The order of severity. */
  function Severity(t: ThreatLevel): nat
  {
    match t
    case Low => 0
    case Medium => 1
    case High => 2
  }

  /** More flagged posts never lower the threat level. */
  lemma ThreatLevelMonotone(hs: nat, susp: nat, hs': nat, susp': nat)
    requires hs <= hs' && susp <= susp'
    ensures Severity(ThreatLevelOf(hs, susp)) <= Severity(ThreatLevelOf(hs', susp'))
  {
  }

  /** The figures of the page's `stats` memo. */
  datatype Stats = Stats(
    totalPosts: nat,
    safePosts: nat,
    suspiciousPosts: nat,
    highlySuspiciousPosts: nat,
    threatLevel: ThreatLevel)

  /** The `stats` memo. */
  function StatsOf(posts: seq<Post>): (s: Stats)
    ensures s.safePosts + s.suspiciousPosts + s.highlySuspiciousPosts == s.totalPosts == |posts|
    ensures s.threatLevel == ThreatLevelOf(s.highlySuspiciousPosts, s.suspiciousPosts)
  {
    CountsPartition(posts);
    var safe := CountOf(posts, Safe);
    var suspicious := CountOf(posts, Suspicious);
    var highlySuspicious := CountOf(posts, HighlySuspicious);
    Stats(|posts|, safe, suspicious, highlySuspicious, ThreatLevelOf(highlySuspicious, suspicious))
  }

  /** One slice of the pie chart: the label and its count. */
  datatype Slice = Slice(name: string, value: nat)

  /** `pieData`: Safe, Suspicious, Highly Suspicious, in that order. */
  function PieData(posts: seq<Post>): (r: seq<Slice>)
    ensures |r| == 3
    ensures forall i :: 0 <= i < 3 ==>
      r[i] == Slice(ClassificationName(AllClassifications[i]), CountOf(posts, AllClassifications[i]))
    ensures r[0].value + r[1].value + r[2].value == |posts|
  {
    var s := StatsOf(posts);
    [Slice("Safe", s.safePosts), Slice("Suspicious", s.suspiciousPosts),
     Slice("Highly Suspicious", s.highlySuspiciousPosts)]
  }

  /** The "Recent High-Risk Activity" list: the first three high-risk posts of the store. */
  function RecentHighRisk(posts: seq<Post>): seq<Post>
  {
    Prefix(Filter(posts, Labelled(HighlySuspicious)), 3)
  }

  /**
   * The list holds three high-risk posts, or all of them when there are
   * fewer, in store order (newest first, since new posts are prepended).
   * They are the FIRST high-risk posts of the store: the list is a prefix
   * of all high-risk posts, and a high-risk post with fewer than three
   * high-risk posts before it is shown.
   */
  lemma RecentHighRiskSpec(posts: seq<Post>)
    ensures |RecentHighRisk(posts)| == if CountOf(posts, HighlySuspicious) < 3 then CountOf(posts, HighlySuspicious) else 3
    ensures forall i :: 0 <= i < |RecentHighRisk(posts)| ==> RecentHighRisk(posts)[i].classification == HighlySuspicious
    ensures IsSubsequence(RecentHighRisk(posts), posts)
    ensures RecentHighRisk(posts) <= Filter(posts, Labelled(HighlySuspicious))
    ensures forall i ::
      (0 <= i < |posts| && posts[i].classification == HighlySuspicious && CountOf(posts[..i], HighlySuspicious) < 3)
      ==> posts[i] in RecentHighRisk(posts)
  {
    var h := Filter(posts, Labelled(HighlySuspicious));
    FilterIsSubsequence(posts, Labelled(HighlySuspicious));
    PrefixIsSubsequence(h, 3);
    SubsequenceTransitive(RecentHighRisk(posts), h, posts);
    forall i | 0 <= i < |posts| && posts[i].classification == HighlySuspicious &&
      CountOf(posts[..i], HighlySuspicious) < 3
      ensures posts[i] in RecentHighRisk(posts)
    {
      HighRiskAtRank(posts, i);
    }
  }

  /** A high-risk post at store index `i` sits in the high-risk list at its rank among them. */
  lemma HighRiskAtRank(posts: seq<Post>, i: nat)
    requires i < |posts| && posts[i].classification == HighlySuspicious
    ensures CountOf(posts[..i], HighlySuspicious) < |Filter(posts, Labelled(HighlySuspicious))|
    ensures Filter(posts, Labelled(HighlySuspicious))[CountOf(posts[..i], HighlySuspicious)] == posts[i]
  {
    var hs := Labelled(HighlySuspicious);
    assert posts == posts[..i] + ([posts[i]] + posts[i + 1..]);
    FilterAppend(posts[..i], [posts[i]] + posts[i + 1..], hs);
    FilterAppend([posts[i]], posts[i + 1..], hs);
    assert Filter([posts[i]], hs) == [posts[i]];
  }

  // ------------------------------------------------------ the seed set

  /** Counting by label does not look at the cleared texts. */
  lemma {:induction false} CountOfBlanked(posts: seq<Post>, c: Classification)
    ensures CountOf(Blanked(posts), c) == CountOf(posts, c)
  {
    if posts != [] {
      CountOfBlanked(posts[1..], c);
      assert posts == [posts[0]] + posts[1..];
      assert Blanked(posts) == [Blank(posts[0])] + Blanked(posts[1..]);
      CountOfCons(posts[0], posts[1..], c);
      CountOfCons(Blank(posts[0]), Blanked(posts[1..]), c);
    }
  }

  /** The labels of a list of posts, in order. */
  function Labels(posts: seq<Post>): (r: seq<Classification>)
    ensures |r| == |posts|
  {
    seq(|posts|, i requires 0 <= i < |posts| => posts[i].classification)
  }

  /** A label count is the label's multiplicity among the labels. */
  lemma {:induction false} CountOfLabels(posts: seq<Post>, c: Classification)
    ensures CountOf(posts, c) == multiset(Labels(posts))[c]
  {
    if posts != [] {
      CountOfLabels(posts[1..], c);
      assert posts == [posts[0]] + posts[1..];
      CountOfCons(posts[0], posts[1..], c);
      assert Labels(posts) == [posts[0].classification] + Labels(posts[1..]);
    }
  }

  /** The seed labels, newest post first. */
  const SeedLabels: seq<Classification> := [Safe, Suspicious, HighlySuspicious, Safe, HighlySuspicious,
    Suspicious, Safe, HighlySuspicious, Safe, HighlySuspicious, Safe, HighlySuspicious]

  lemma SeedRowLabels()
    ensures Labels(SeedRows) == SeedLabels
  {
  }

  lemma SeedLabelCounts()
    ensures multiset(SeedLabels)[Safe] == 5
    ensures multiset(SeedLabels)[Suspicious] == 2
    ensures multiset(SeedLabels)[HighlySuspicious] == 5
  {
  }

  lemma SeedRowsCounts()
    ensures CountOf(SeedRows, Safe) == 5
    ensures CountOf(SeedRows, Suspicious) == 2
    ensures CountOf(SeedRows, HighlySuspicious) == 5
  {
    SeedRowLabels();
    SeedLabelCounts();
    CountOfLabels(SeedRows, Safe);
    CountOfLabels(SeedRows, Suspicious);
    CountOfLabels(SeedRows, HighlySuspicious);
  }

  /**
   * The seed set holds 5 Safe, 2 Suspicious and 5 Highly Suspicious posts,
   * so the Overview opens on a Low threat level.
   */
  lemma SeedStats()
    ensures StatsOf(MockPosts) == Stats(12, 5, 2, 5, Low)
  {
    SeedRowsMatch();
    SeedRowsCounts();
    CountOfBlanked(MockPosts, Safe);
    CountOfBlanked(MockPosts, Suspicious);
    CountOfBlanked(MockPosts, HighlySuspicious);
  }

  /** One more high-risk post in front of the seed set raises the level to High. */
  lemma SeedPlusHighRiskIsHigh(p: Post)
    requires p.classification == HighlySuspicious
    ensures StatsOf([p] + MockPosts).threatLevel == High
  {
    SeedStats();
    CountOfCons(p, MockPosts, HighlySuspicious);
  }
}
