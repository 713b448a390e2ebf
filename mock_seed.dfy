/**
 * Facts about the twelve seed posts the dashboard starts from, and about
 * what `getTopHashtags` reports on them.
 *
 * The seed posts carry long free-text fields (author, avatar URL, content)
 * that no fact below depends on.  The facts are first proved about
 * `SeedRows`, the seed list with those fields cleared, and then carried
 * over to `MockPosts` through `SeedRowsMatch`.
 */
module MockSeed {
  import opened Types
  import opened Collections
  import opened MockData

  /** A post with its author, avatar and content cleared. */
  function Blank(p: Post): Post
  {
    p.(user := "", avatar := "", content := "")
  }

  /** Every post of a list, blanked. */
  function Blanked(posts: seq<Post>): (r: seq<Post>)
    ensures |r| == |posts|
    ensures forall i :: 0 <= i < |r| ==> r[i] == Blank(posts[i])
  {
    seq(|posts|, i requires 0 <= i < |posts| => Blank(posts[i]))
  }

  /** The seed list with author, avatar and content cleared. */
  const SeedRows: seq<Post> := [
    Post(id := 1, user := "", avatar := "", content := "", hashtags := ["#IndiaRising", "#Development", "#ProudIndian"], timestamp := 1724927400000, classification := Safe, location := "Delhi, India", platform := Some("Twitter"), engagement := Some(Engagement(245, 34, 67))),
    Post(id := 2, user := "", avatar := "", content := "", hashtags := ["#WakeUpIndia", "#MediaBias", "#HiddenAgenda"], timestamp := 1724924700000, classification := Suspicious, location := "Mumbai, India", platform := Some("Facebook"), engagement := Some(Engagement(89, 156, 203))),
    Post(id := 3, user := "", avatar := "", content := "", hashtags := ["#KashmirBleeds", "#UNIntervention", "#HumanRights"], timestamp := 1724919600000, classification := HighlySuspicious, location := "Lahore, Pakistan", platform := Some("Twitter"), engagement := Some(Engagement(1247, 892, 445))),
    Post(id := 4, user := "", avatar := "", content := "", hashtags := ["#MakeInIndia", "#TechIndia", "#Innovation"], timestamp := 1724915700000, classification := Safe, location := "Bengaluru, India", platform := Some("LinkedIn"), engagement := Some(Engagement(567, 89, 123))),
    Post(id := 5, user := "", avatar := "", content := "", hashtags := ["#FalseFlag", "#ConspiracyTruth", "#WakeUp"], timestamp := 1724913000000, classification := HighlySuspicious, location := "Unknown", platform := Some("Telegram"), engagement := Some(Engagement(678, 1023, 234))),
    Post(id := 6, user := "", avatar := "", content := "", hashtags := ["#BorderSecurity", "#TransparencyNeeded", "#CitizenRights"], timestamp := 1724910300000, classification := Suspicious, location := "Mumbai, India", platform := Some("Twitter"), engagement := Some(Engagement(234, 156, 89))),
    Post(id := 7, user := "", avatar := "", content := "", hashtags := ["#GreenIndia", "#ClimateAction", "#SolarPower"], timestamp := 1724905200000, classification := Safe, location := "Chennai, India", platform := Some("Instagram"), engagement := Some(Engagement(445, 67, 101))),
    Post(id := 8, user := "", avatar := "", content := "", hashtags := ["#SaveIndianMinorities", "#InternationalAwareness", "#HumanRights"], timestamp := 1724884200000, classification := HighlySuspicious, location := "Toronto, Canada", platform := Some("Twitter"), engagement := Some(Engagement(892, 1456, 667))),
    Post(id := 9, user := "", avatar := "", content := "", hashtags := ["#StockMarket", "#Investment", "#IndianEconomy"], timestamp := 1724876100000, classification := Safe, location := "Mumbai, India", platform := Some("LinkedIn"), engagement := Some(Engagement(678, 123, 89))),
    Post(id := 10, user := "", avatar := "", content := "", hashtags := ["#LeakedEvidence", "#SystematicOppression", "#TruthRevealed"], timestamp := 1724870700000, classification := HighlySuspicious, location := "Unknown", platform := Some("Telegram"), engagement := Some(Engagement(1234, 2156, 543))),
    Post(id := 11, user := "", avatar := "", content := "", hashtags := ["#CricketIndia", "#TeamIndia", "#SportsUnity"], timestamp := 1724862600000, classification := Safe, location := "Kolkata, India", platform := Some("Facebook"), engagement := Some(Engagement(1567, 234, 345))),
    Post(id := 12, user := "", avatar := "", content := "", hashtags := ["#CyberWarfare", "#DigitalJihad", "#ExposeTruth"], timestamp := 1724854800000, classification := HighlySuspicious, location := "Unknown", platform := Some("Dark Web Forums"), engagement := Some(Engagement(445, 789, 156)))]

  /** `SeedRows` is the seed list, field for field, bar the cleared texts. */
  lemma SeedRowsMatch()
    ensures Blanked(MockPosts) == SeedRows
  {
  }

  /** The hashtags counted depend on labels and hashtags only. */
  lemma {:induction false} HostileTagsBlanked(posts: seq<Post>)
    ensures HostileTags(Blanked(posts)) == HostileTags(posts)
  {
    if posts != [] {
      var n := |posts| - 1;
      assert Blanked(posts)[..n] == Blanked(posts[..n]);
      HostileTagsBlanked(posts[..n]);
    }
  }

  /** The seed ids are 1 to 12, in order, hence distinct. */
  lemma SeedIds()
    ensures |MockPosts| == 12
    ensures forall i :: 0 <= i < 12 ==> MockPosts[i].id == i + 1
  {
    SeedRowsMatch();
    assert forall i :: 0 <= i < 12 ==> MockPosts[i].id == Blank(MockPosts[i]).id == SeedRows[i].id;
  }

  /** The hashtags counted on the first 4 seed rows. */
  lemma SeedHostileRows1To4()
    ensures HostileTags(SeedRows[..4]) == SeedRows[1].hashtags + SeedRows[2].hashtags
  {
    assert SeedRows[..0] == [];
    HostileTagsSnoc(SeedRows, 0);
    assert HostileTags(SeedRows[..1]) == [];
    HostileTagsSnoc(SeedRows, 1);
    assert HostileTags(SeedRows[..2]) == SeedRows[1].hashtags;
    HostileTagsSnoc(SeedRows, 2);
    assert HostileTags(SeedRows[..3]) == SeedRows[1].hashtags + SeedRows[2].hashtags;
    HostileTagsSnoc(SeedRows, 3);
    assert HostileTags(SeedRows[..4]) == SeedRows[1].hashtags + SeedRows[2].hashtags;
  }

  /** The hashtags counted on the first 8 seed rows. */
  lemma SeedHostileRows5To8()
    ensures HostileTags(SeedRows[..8]) == SeedRows[1].hashtags + SeedRows[2].hashtags + SeedRows[4].hashtags + SeedRows[5].hashtags + SeedRows[7].hashtags
  {
    SeedHostileRows1To4();
    HostileTagsSnoc(SeedRows, 4);
    assert HostileTags(SeedRows[..5]) == SeedRows[1].hashtags + SeedRows[2].hashtags + SeedRows[4].hashtags;
    HostileTagsSnoc(SeedRows, 5);
    assert HostileTags(SeedRows[..6]) == SeedRows[1].hashtags + SeedRows[2].hashtags + SeedRows[4].hashtags + SeedRows[5].hashtags;
    HostileTagsSnoc(SeedRows, 6);
    assert HostileTags(SeedRows[..7]) == SeedRows[1].hashtags + SeedRows[2].hashtags + SeedRows[4].hashtags + SeedRows[5].hashtags;
    HostileTagsSnoc(SeedRows, 7);
    assert HostileTags(SeedRows[..8]) == SeedRows[1].hashtags + SeedRows[2].hashtags + SeedRows[4].hashtags + SeedRows[5].hashtags + SeedRows[7].hashtags;
  }

  /** The hashtags counted on the first 12 seed rows. */
  lemma SeedHostileRows9To12()
    ensures HostileTags(SeedRows[..12]) == SeedRows[1].hashtags + SeedRows[2].hashtags + SeedRows[4].hashtags + SeedRows[5].hashtags + SeedRows[7].hashtags + SeedRows[9].hashtags + SeedRows[11].hashtags
  {
    SeedHostileRows5To8();
    HostileTagsSnoc(SeedRows, 8);
    assert HostileTags(SeedRows[..9]) == SeedRows[1].hashtags + SeedRows[2].hashtags + SeedRows[4].hashtags + SeedRows[5].hashtags + SeedRows[7].hashtags;
    HostileTagsSnoc(SeedRows, 9);
    assert HostileTags(SeedRows[..10]) == SeedRows[1].hashtags + SeedRows[2].hashtags + SeedRows[4].hashtags + SeedRows[5].hashtags + SeedRows[7].hashtags + SeedRows[9].hashtags;
    HostileTagsSnoc(SeedRows, 10);
    assert HostileTags(SeedRows[..11]) == SeedRows[1].hashtags + SeedRows[2].hashtags + SeedRows[4].hashtags + SeedRows[5].hashtags + SeedRows[7].hashtags + SeedRows[9].hashtags;
    HostileTagsSnoc(SeedRows, 11);
    assert HostileTags(SeedRows[..12]) == SeedRows[1].hashtags + SeedRows[2].hashtags + SeedRows[4].hashtags + SeedRows[5].hashtags + SeedRows[7].hashtags + SeedRows[9].hashtags + SeedRows[11].hashtags;
  }

  /** The hashtags counted on the seed rows, in visiting order. */
  lemma SeedRowsHostileTags()
    ensures HostileTags(SeedRows) == SeedHostileBefore + ["#HumanRights"] + SeedHostileAfter
  {
    SeedHostileRows9To12();
    assert SeedRows[..12] == SeedRows;
  }

  /** The non-Safe seed hashtags up to the second use of `#HumanRights`. */
  const SeedHostileBefore: seq<string> := [
    "#WakeUpIndia", "#MediaBias", "#HiddenAgenda",
    "#KashmirBleeds", "#UNIntervention", "#HumanRights",
    "#FalseFlag", "#ConspiracyTruth", "#WakeUp",
    "#BorderSecurity", "#TransparencyNeeded", "#CitizenRights",
    "#SaveIndianMinorities", "#InternationalAwareness"]

  /** The non-Safe seed hashtags after the second use of `#HumanRights`. */
  const SeedHostileAfter: seq<string> := [
    "#LeakedEvidence", "#SystematicOppression", "#TruthRevealed",
    "#CyberWarfare", "#DigitalJihad", "#ExposeTruth"]

  /** The hashtags `getTopHashtags` counts on the seed set, in visiting order. */
  lemma SeedHostileTags()
    ensures HostileTags(MockPosts) == SeedHostileBefore + ["#HumanRights"] + SeedHostileAfter
  {
    SeedRowsHostileTags();
    SeedRowsMatch();
    HostileTagsBlanked(MockPosts);
  }

  /** The report on a list is the report on its blanked rows. */
  lemma TopHashtagsBlanked(posts: seq<Post>)
    ensures TopHashtagsOf(Blanked(posts)) == TopHashtagsOf(posts)
  {
    HostileTagsBlanked(posts);
  }

  /** Apart from `#HumanRights`, no seed hashtag of a non-Safe post repeats. */
  lemma SeedTagsDistinct()
    ensures Distinct(SeedHostileBefore + SeedHostileAfter)
    ensures "#HumanRights" in SeedHostileBefore
  {
    assert SeedHostileBefore[5] == "#HumanRights";
  }

  /** `#IndiaRising` is used on a Safe seed post only. */
  lemma SeedTagsLackIndiaRising()
    ensures "#IndiaRising" !in SeedHostileBefore + ["#HumanRights"] + SeedHostileAfter
  {
  }

  /** Only `#HumanRights` is used twice on the non-Safe seed posts. */
  lemma SeedOccurrences(tag: string)
    ensures Occurrences(SeedHostileBefore + ["#HumanRights"] + SeedHostileAfter, tag) ==
      if tag == "#HumanRights" then 2 else if tag in SeedHostileBefore + SeedHostileAfter then 1 else 0
  {
    var a, b, hr := SeedHostileBefore, SeedHostileAfter, ["#HumanRights"];
    OccurrencesAppend(a + hr, b, tag);
    OccurrencesAppend(a, hr, tag);
    OccurrencesAppend(a, b, tag);
    SeedTagsDistinct();
    DistinctOccurrences(a + b, tag);
    assert Occurrences(hr, tag) == if tag == "#HumanRights" then 1 else 0 by {
      assert hr[..0] == [];
    }
    if tag == "#HumanRights" {
      assert Occurrences(a, tag) > 0;
    }
  }

  /** Twenty different hashtags are counted on the seed set. */
  lemma SeedDistinctTagCount()
    ensures |Dedupe(SeedHostileBefore + ["#HumanRights"] + SeedHostileAfter)| == 20
  {
    var h := SeedHostileBefore + ["#HumanRights"] + SeedHostileAfter;
    var s := SeedHostileBefore + SeedHostileAfter;
    SeedTagsDistinct();
    assert (set x | x in s) == (set x | x in h);
    DistinctCardinality(s);
    DistinctCardinality(Dedupe(h));
    assert (set x | x in Dedupe(h)) == (set x | x in h);
  }

  /**
   * Any list whose non-Safe posts use the seed hashtags reports ten
   * entries, `("#HumanRights", 2)` first.
   */
  lemma SeedTagsTopHashtagsHead(posts: seq<Post>)
    requires HostileTags(posts) == SeedHostileBefore + ["#HumanRights"] + SeedHostileAfter
    ensures |TopHashtagsOf(posts)| == 10
    ensures TopHashtagsOf(posts)[0] == HashtagCount("#HumanRights", 2)
  {
    var h := HostileTags(posts);
    SeedDistinctTagCount();
    TopHashtagsLength(posts);
    SeedOccurrences("#HumanRights");
    RankedHeadIsMax(h, "#HumanRights");
    TopHashtagsCounts(posts, 0);
    SeedOccurrences(TopHashtagsOf(posts)[0].hashtag);
  }

  /** Nor is `#IndiaRising`, which is not among the seed hashtags counted. */
  lemma SeedTagsTopHashtagsSkip(posts: seq<Post>, i: nat)
    requires HostileTags(posts) == SeedHostileBefore + ["#HumanRights"] + SeedHostileAfter
    requires i < |TopHashtagsOf(posts)|
    ensures TopHashtagsOf(posts)[i].hashtag != "#IndiaRising"
  {
    TopHashtagsCounts(posts, i);
    SeedTagsLackIndiaRising();
  }

  /**
   * On the seed set the report holds ten entries and opens with
   * `("#HumanRights", 2)`; `#IndiaRising`, used only on a Safe post, is
   * not reported.
   */
  lemma SeedTopHashtags()
    ensures |TopHashtagsOf(MockPosts)| == 10
    ensures TopHashtagsOf(MockPosts)[0] == HashtagCount("#HumanRights", 2)
    ensures forall i :: 0 <= i < 10 ==> TopHashtagsOf(MockPosts)[i].hashtag != "#IndiaRising"
  {
    SeedHostileTags();
    SeedTagsTopHashtagsHead(MockPosts);
    forall i | 0 <= i < 10 ensures TopHashtagsOf(MockPosts)[i].hashtag != "#IndiaRising" {
      SeedTagsTopHashtagsSkip(MockPosts, i);
    }
  }
}
