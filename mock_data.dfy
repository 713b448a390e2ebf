/**
 * The seed posts the store starts from, and `getTopHashtags`, which counts
 * the hashtags of every seed post not labelled Safe
 * (src/data/mockData.ts).
 */
module MockData {
  import opened Types
  import opened Collections

  /**
   * The twelve hand-written sample posts, newest first (`mockPosts`).  Each
   * post is its own constant so that a proof about one field of the list does
   * not have to unfold every long content string.
   */
  const MockPosts: seq<Post> :=
    [Seed1, Seed2, Seed3, Seed4, Seed5, Seed6, Seed7, Seed8, Seed9, Seed10, Seed11, Seed12]

  const Seed1 := Post(
    id := 1, user := "Patriot_1947",
    avatar := "https://api.dicebear.com/7.x/initials/svg?seed=P&backgroundColor=10b981",
    content := "Proud of our nation's progress in technology and infrastructure! India is rising on the global stage. #IndiaRising #Development #ProudIndian",
    hashtags := ["#IndiaRising", "#Development", "#ProudIndian"],
    timestamp := 1724927400000, classification := Safe, location := "Delhi, India",
    platform := Some("Twitter"), engagement := Some(Engagement(245, 34, 67)))

  const Seed2 := Post(
    id := 2, user := "TruthSeeker_999",
    avatar := "https://api.dicebear.com/7.x/initials/svg?seed=T&backgroundColor=f59e0b",
    content := "Why is the mainstream media not covering the real issues? There's a hidden agenda to divide our society. People need to wake up! #WakeUpIndia #MediaBias",
    hashtags := ["#WakeUpIndia", "#MediaBias", "#HiddenAgenda"],
    timestamp := 1724924700000, classification := Suspicious, location := "Mumbai, India",
    platform := Some("Facebook"), engagement := Some(Engagement(89, 156, 203)))

  const Seed3 := Post(
    id := 3, user := "GlobalVoice_2024",
    avatar := "https://api.dicebear.com/7.x/initials/svg?seed=G&backgroundColor=ef4444",
    content := "The international community must intervene immediately in Kashmir. Human rights violations are happening daily and the world is silent! #KashmirBleeds #UNIntervention #HumanRights",
    hashtags := ["#KashmirBleeds", "#UNIntervention", "#HumanRights"],
    timestamp := 1724919600000, classification := HighlySuspicious, location := "Lahore, Pakistan",
    platform := Some("Twitter"), engagement := Some(Engagement(1247, 892, 445)))

  const Seed4 := Post(
    id := 4, user := "TechieNilesh",
    avatar := "https://api.dicebear.com/7.x/initials/svg?seed=N&backgroundColor=3b82f6",
    content := "India's tech sector is absolutely booming! So many opportunities for young engineers. The startup ecosystem is thriving. #MakeInIndia #TechIndia #Innovation",
    hashtags := ["#MakeInIndia", "#TechIndia", "#Innovation"],
    timestamp := 1724915700000, classification := Safe, location := "Bengaluru, India",
    platform := Some("LinkedIn"), engagement := Some(Engagement(567, 89, 123)))

  const Seed5 := Post(
    id := 5, user := "Anonymous_X7",
    avatar := "https://api.dicebear.com/7.x/initials/svg?seed=A&backgroundColor=6b7280",
    content := "They are planning something big to destabilize the entire country. Don't trust the official narrative. The truth is being hidden from us! #FalseFlag #ConspiracyTruth",
    hashtags := ["#FalseFlag", "#ConspiracyTruth", "#WakeUp"],
    timestamp := 1724913000000, classification := HighlySuspicious, location := "Unknown",
    platform := Some("Telegram"), engagement := Some(Engagement(678, 1023, 234)))

  const Seed6 := Post(
    id := 6, user := "RealTalk_Mumbai",
    avatar := "https://api.dicebear.com/7.x/initials/svg?seed=R&backgroundColor=f59e0b",
    content := "Is our government being completely transparent about the border situation with our neighbors? We deserve answers as citizens. #BorderSecurity #TransparencyNeeded",
    hashtags := ["#BorderSecurity", "#TransparencyNeeded", "#CitizenRights"],
    timestamp := 1724910300000, classification := Suspicious, location := "Mumbai, India",
    platform := Some("Twitter"), engagement := Some(Engagement(234, 156, 89)))

  const Seed7 := Post(
    id := 7, user := "EcoWarrior_Greta",
    avatar := "https://api.dicebear.com/7.x/initials/svg?seed=E&backgroundColor=10b981",
    content := "Fantastic initiative by the Indian government for renewable energy! Solar and wind power investments are game-changing. #GreenIndia #ClimateAction #SolarPower",
    hashtags := ["#GreenIndia", "#ClimateAction", "#SolarPower"],
    timestamp := 1724905200000, classification := Safe, location := "Chennai, India",
    platform := Some("Instagram"), engagement := Some(Engagement(445, 67, 101)))

  const Seed8 := Post(
    id := 8, user := "JusticeForAll_2024",
    avatar := "https://api.dicebear.com/7.x/initials/svg?seed=J&backgroundColor=ef4444",
    content := "Minorities are not safe in India anymore. The international community needs to witness what's really happening here. #SaveIndianMinorities #InternationalAwareness",
    hashtags := ["#SaveIndianMinorities", "#InternationalAwareness", "#HumanRights"],
    timestamp := 1724884200000, classification := HighlySuspicious, location := "Toronto, Canada",
    platform := Some("Twitter"), engagement := Some(Engagement(892, 1456, 667)))

  const Seed9 := Post(
    id := 9, user := "MarketGuru_BSE",
    avatar := "https://api.dicebear.com/7.x/initials/svg?seed=M&backgroundColor=3b82f6",
    content := "Indian stock markets showing incredible resilience and growth! Nifty and Sensex breaking records. Great time for long-term investments. #StockMarket #Investment #IndianEconomy",
    hashtags := ["#StockMarket", "#Investment", "#IndianEconomy"],
    timestamp := 1724876100000, classification := Safe, location := "Mumbai, India",
    platform := Some("LinkedIn"), engagement := Some(Engagement(678, 123, 89)))

  const Seed10 := Post(
    id := 10, user := "InfoWar_Specialist",
    avatar := "https://api.dicebear.com/7.x/initials/svg?seed=I&backgroundColor=ef4444",
    content := "LEAKED: Evidence of systematic oppression by Indian forces. This video proves everything (link removed for safety). The truth must come out! #LeakedEvidence #SystematicOppression",
    hashtags := ["#LeakedEvidence", "#SystematicOppression", "#TruthRevealed"],
    timestamp := 1724870700000, classification := HighlySuspicious, location := "Unknown",
    platform := Some("Telegram"), engagement := Some(Engagement(1234, 2156, 543)))

  const Seed11 := Post(
    id := 11, user := "SportsFan_India",
    avatar := "https://api.dicebear.com/7.x/initials/svg?seed=S&backgroundColor=10b981",
    content := "What an incredible performance by our cricket team! Making the nation proud on the international stage. Sports unity brings us together! #CricketIndia #TeamIndia #SportsUnity",
    hashtags := ["#CricketIndia", "#TeamIndia", "#SportsUnity"],
    timestamp := 1724862600000, classification := Safe, location := "Kolkata, India",
    platform := Some("Facebook"), engagement := Some(Engagement(1567, 234, 345)))

  const Seed12 := Post(
    id := 12, user := "CyberJihadi_2024",
    avatar := "https://api.dicebear.com/7.x/initials/svg?seed=C&backgroundColor=ef4444",
    content := "The digital infrastructure is vulnerable. Time to expose the weaknesses in their cyber defense systems. #CyberWarfare #DigitalJihad #ExposeTruth",
    hashtags := ["#CyberWarfare", "#DigitalJihad", "#ExposeTruth"],
    timestamp := 1724854800000, classification := HighlySuspicious, location := "Unknown",
    platform := Some("Dark Web Forums"), engagement := Some(Engagement(445, 789, 156)))

  /** A hashtag with its number of uses, as `getTopHashtags` reports it. */
  datatype HashtagCount = HashtagCount(hashtag: string, count: nat)

  /** The hashtags of the posts not labelled Safe, in post order. */
  function HostileTags(posts: seq<Post>): seq<string>
  {
    if posts == [] then []
    else
      var last := posts[|posts| - 1];
      HostileTags(posts[..|posts| - 1]) + (if last.classification != Safe then last.hashtags else [])
  }

  /** `.map(([hashtag, count]) => ({ hashtag, count }))`. */
  function AsHashtagCounts(entries: seq<(string, nat)>): (r: seq<HashtagCount>)
    ensures |r| == |entries|
    ensures forall i :: 0 <= i < |r| ==> r[i] == HashtagCount(entries[i].0, entries[i].1)
  {
    seq(|entries|, i requires 0 <= i < |entries| => HashtagCount(entries[i].0, entries[i].1))
  }

  /**
   * What `getTopHashtags` reports for a given post list: the hashtag counts
   * over the non-Safe posts, stably sorted by count, largest first, cut to ten.
   */
  function TopHashtagsOf(posts: seq<Post>): seq<HashtagCount>
  {
    AsHashtagCounts(Prefix(Ranked(HostileTags(posts)), 10))
  }

  /**
   * The nested `forEach` loops of `getTopHashtags`: every hashtag of every
   * non-Safe post bumps its entry in the counting dictionary.
   */
  method CountHostileHashtags(posts: seq<Post>) returns (counts: seq<(string, nat)>)
    ensures counts == Tally(HostileTags(posts))
  {
    counts := [];
    var i := 0;
    while i < |posts|
      invariant 0 <= i <= |posts|
      invariant counts == Tally(HostileTags(posts[..i]))
    {
      HostileTagsSnoc(posts, i);
      if posts[i].classification != Safe {
        counts := BumpEach(counts, HostileTags(posts[..i]), posts[i].hashtags);
        assert HostileTags(posts[..i + 1]) == HostileTags(posts[..i]) + posts[i].hashtags;
        assert counts == Tally(HostileTags(posts[..i + 1]));
      } else {
        assert HostileTags(posts[..i + 1]) == HostileTags(posts[..i]);
        assert counts == Tally(HostileTags(posts[..i + 1]));
      }
      i := i + 1;
    }
    assert posts[..i] == posts;
  }

  /** The inner `forEach`: bumps the entry of each hashtag of one post. */
  method BumpEach(counts: seq<(string, nat)>, ghost seen: seq<string>, tags: seq<string>)
      returns (r: seq<(string, nat)>)
    requires counts == Tally(seen)
    ensures r == Tally(seen + tags)
  {
    r := counts;
    var j := 0;
    assert seen + tags[..j] == seen;
    while j < |tags|
      invariant 0 <= j <= |tags|
      invariant r == Tally(seen + tags[..j])
    {
      assert seen + tags[..j + 1] == (seen + tags[..j]) + [tags[j]];
      TallySnoc(seen + tags[..j], tags[j]);
      r := Bump(r, tags[j]);
      j := j + 1;
    }
    assert tags[..j] == tags;
  }

  lemma HostileTagsSnoc(posts: seq<Post>, i: nat)
    requires i < |posts|
    ensures HostileTags(posts[..i + 1]) == HostileTags(posts[..i]) +
      (if posts[i].classification != Safe then posts[i].hashtags else [])
  {
    assert posts[..i + 1][..i] == posts[..i];
  }

  /** `getTopHashtags()`: it reads the seed constant, never the live store. */
  method GetTopHashtags() returns (top: seq<HashtagCount>)
    ensures top == TopHashtagsOf(MockPosts)
  {
    var counts := CountHostileHashtags(MockPosts);
    var ranked := SortDescBy(counts, EntryCount);
    top := AsHashtagCounts(Prefix(ranked, 10));
  }

  // ------------------------------------------------ properties of the report

  /** A hashtag is counted exactly when some non-Safe post carries it. */
  lemma {:induction false} HostileTagsMember(posts: seq<Post>, t: string)
    ensures t in HostileTags(posts) <==>
      exists k :: (0 <= k < |posts| && posts[k].classification != Safe && t in posts[k].hashtags)
  {
    if posts != [] {
      var n := |posts| - 1;
      HostileTagsMember(posts[..n], t);
      assert forall k :: 0 <= k < n ==> posts[..n][k] == posts[k];
    }
  }

  /**
   * Each reported count is the number of uses of that hashtag across the
   * non-Safe posts, and is at least one.
   */
  lemma TopHashtagsCounts(posts: seq<Post>, i: nat)
    requires i < |TopHashtagsOf(posts)|
    ensures TopHashtagsOf(posts)[i].count == Occurrences(HostileTags(posts), TopHashtagsOf(posts)[i].hashtag)
    ensures TopHashtagsOf(posts)[i].count >= 1
  {
    var k := RankedEntry(HostileTags(posts), i);
  }

  /** Hashtags used only on Safe posts never appear in the report. */
  lemma TopHashtagsSkipSafe(posts: seq<Post>, i: nat)
    requires i < |TopHashtagsOf(posts)|
    ensures exists k :: (0 <= k < |posts| && posts[k].classification != Safe &&
      TopHashtagsOf(posts)[i].hashtag in posts[k].hashtags)
  {
    var k := RankedEntry(HostileTags(posts), i);
    HostileTagsMember(posts, TopHashtagsOf(posts)[i].hashtag);
  }

  /**
   * The report holds ten entries, or every counted hashtag when fewer than
   * ten were counted.
   */
  lemma TopHashtagsLength(posts: seq<Post>)
    ensures |TopHashtagsOf(posts)| == if |Dedupe(HostileTags(posts))| <= 10 then |Dedupe(HostileTags(posts))| else 10
  {
    RankedLength(HostileTags(posts));
  }

  /** The report lists the largest count first. */
  lemma TopHashtagsSorted(posts: seq<Post>)
    ensures forall i, j :: 0 <= i < j < |TopHashtagsOf(posts)| ==>
      TopHashtagsOf(posts)[i].count >= TopHashtagsOf(posts)[j].count
  {
    var r := Ranked(HostileTags(posts));
    var top := TopHashtagsOf(posts);
    forall i, j | 0 <= i < j < |top| ensures top[i].count >= top[j].count {
      assert r[i].1 >= r[j].1;
    }
  }

  /** No hashtag is reported twice. */
  lemma TopHashtagsDistinct(posts: seq<Post>)
    ensures forall i, j :: 0 <= i < j < |TopHashtagsOf(posts)| ==>
      TopHashtagsOf(posts)[i].hashtag != TopHashtagsOf(posts)[j].hashtag
  {
    var top := TopHashtagsOf(posts);
    forall i, j | 0 <= i < j < |top| ensures top[i].hashtag != top[j].hashtag {
      RankedDistinct(HostileTags(posts), i, j);
    }
  }

  /**
   * Ties keep first-seen order: of two reported hashtags with equal counts,
   * the one listed first was used first.
   */
  lemma TopHashtagsTiesFirstSeen(posts: seq<Post>, i: nat, j: nat)
    requires i < j < |TopHashtagsOf(posts)|
    requires TopHashtagsOf(posts)[i].count == TopHashtagsOf(posts)[j].count
    ensures TopHashtagsOf(posts)[i].hashtag in HostileTags(posts)
    ensures TopHashtagsOf(posts)[j].hashtag in HostileTags(posts)
    ensures IndexOf(HostileTags(posts), TopHashtagsOf(posts)[i].hashtag) <
            IndexOf(HostileTags(posts), TopHashtagsOf(posts)[j].hashtag)
  {
    RankedTies(HostileTags(posts), i, j);
  }

  /**
   * Nothing left out of a full report outranks what it holds: a hashtag of a
   * non-Safe post is either reported or left off a full report with no more
   * uses than the last one reported.
   */
  lemma TopHashtagsAreTop(posts: seq<Post>, tag: string)
    requires tag in HostileTags(posts)
    ensures (exists i :: 0 <= i < |TopHashtagsOf(posts)| && TopHashtagsOf(posts)[i].hashtag == tag) ||
      (|TopHashtagsOf(posts)| == 10 && Occurrences(HostileTags(posts), tag) <= TopHashtagsOf(posts)[9].count)
  {
    var r := Ranked(HostileTags(posts));
    var m := RankedFind(HostileTags(posts), tag);
    if m < |TopHashtagsOf(posts)| {
      assert TopHashtagsOf(posts)[m].hashtag == tag;
    } else {
      assert r[9].1 >= r[m].1;
    }
  }
}
