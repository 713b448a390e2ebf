/**
 * The Posts page (src/components/pages/PostsPage.tsx): the four-way filter
 * over the live post list, the controls that edit the filter record, the
 * hashtag and platform menus, and the collapsible filter panel.
 *
 * `toLowerCase` is a parameter `lower`: the model does not fix a case
 * mapping, and the properties that need one state what they assume of it.
 */
module PostsPage {
  import opened Types
  import opened Collections

  // ------------------------------------------------------ substring search

  /** `p` is a prefix of `s`. */
  predicate IsPrefixOf(p: string, s: string)
  {
    |p| <= |s| && s[..|p|] == p
  }

  /** `s.includes(part)`: `part` occurs contiguously somewhere in `s`. */
  predicate Includes(s: string, part: string)
    decreases |s|
  {
    IsPrefixOf(part, s) || (s != [] && Includes(s[1..], part))
  }

  /** `part` occurs in `s` starting at position `i`. */
  predicate OccursAt(s: string, part: string, i: int)
  {
    0 <= i <= |s| - |part| && s[i..i + |part|] == part
  }

  /** `Includes` agrees with the definition by position. */
  lemma {:induction false} IncludesAt(s: string, part: string)
    ensures Includes(s, part) <==> exists i :: OccursAt(s, part, i)
  {
    if IsPrefixOf(part, s) {
      assert OccursAt(s, part, 0);
    } else if s != [] {
      IncludesAt(s[1..], part);
      if Includes(s[1..], part) {
        var i :| OccursAt(s[1..], part, i);
        assert s[i + 1..i + 1 + |part|] == s[1..][i..i + |part|];
        assert OccursAt(s, part, i + 1);
      }
      if i :| OccursAt(s, part, i) {
        assert i > 0;
        assert s[1..][i - 1..i - 1 + |part|] == s[i..i + |part|];
        assert OccursAt(s[1..], part, i - 1);
      }
    }
  }

  /** Every string includes the empty string and itself. */
  lemma IncludesTrivial(s: string)
    ensures Includes(s, "")
    ensures Includes(s, s)
  {
    assert IsPrefixOf("", s);
    assert IsPrefixOf(s, s);
  }

  // ---------------------------------------------------------- the filter

  /**
   * The search box: an empty term matches everything; otherwise the
   * lower-cased term must occur in the lower-cased content, author or one
   * of the hashtags.
   */
  predicate MatchesSearch(p: Post, term: string, lower: string -> string)
  {
    term == "" ||
    Includes(lower(p.content), lower(term)) ||
    Includes(lower(p.user), lower(term)) ||
    exists k :: 0 <= k < |p.hashtags| && Includes(lower(p.hashtags[k]), lower(term))
  }

  /** The classification menu compares the label's text exactly. */
  predicate MatchesClassification(p: Post, name: string)
  {
    name == "" || ClassificationName(p.classification) == name
  }

  /** The platform menu compares exactly; a post without a platform never matches a chosen one. */
  predicate MatchesPlatform(p: Post, platform: string)
  {
    platform == "" || p.platform == Some(platform)
  }

  /** The hashtag menu and chips need the exact tag among the post's hashtags. */
  predicate MatchesHashtag(p: Post, tag: string)
  {
    tag == "" || tag in p.hashtags
  }

  /** A post is listed when it passes all four tests; `dateRange` is never consulted. */
  predicate Matches(p: Post, f: FilterState, lower: string -> string)
  {
    MatchesSearch(p, f.searchTerm, lower) &&
    MatchesClassification(p, f.classification) &&
    MatchesPlatform(p, f.platform) &&
    MatchesHashtag(p, f.hashtag)
  }

  /** The filter's test as a function value, for `Array.prototype.filter`. */
  function Test(f: FilterState, lower: string -> string): Post -> bool
  {
    (p: Post) => Matches(p, f, lower)
  }

  /** `filteredPosts`. */
  function FilteredPosts(posts: seq<Post>, f: FilterState, lower: string -> string): seq<Post>
  {
    Filter(posts, Test(f, lower))
  }

  /** The listed posts are posts of the store, in store order. */
  lemma FilteredPostsInOrder(posts: seq<Post>, f: FilterState, lower: string -> string)
    ensures IsSubsequence(FilteredPosts(posts, f, lower), posts)
    ensures |FilteredPosts(posts, f, lower)| <= |posts|
  {
    FilterIsSubsequence(posts, Test(f, lower));
  }

  /** A post is listed exactly when it is in the store and passes every test. */
  lemma FilteredPostsMember(posts: seq<Post>, f: FilterState, lower: string -> string, p: Post)
    ensures p in FilteredPosts(posts, f, lower) <==>
      p in posts && MatchesSearch(p, f.searchTerm, lower) &&
      (f.classification != "" ==> ClassificationName(p.classification) == f.classification) &&
      (f.platform != "" ==> p.platform == Some(f.platform)) &&
      (f.hashtag != "" ==> f.hashtag in p.hashtags)
  {
  }

  /** With every field cleared the whole store is listed, whatever the date range. */
  lemma FilteredPostsCleared(posts: seq<Post>, dateRange: string, lower: string -> string)
    ensures FilteredPosts(posts, EmptyFilter.(dateRange := dateRange), lower) == posts
  {
    FilterKeepAll(posts, Test(EmptyFilter.(dateRange := dateRange), lower));
  }

  /** The date range field has no effect on the list. */
  lemma FilteredPostsIgnoreDateRange(posts: seq<Post>, f: FilterState, d: string, lower: string -> string)
    ensures FilteredPosts(posts, f.(dateRange := d), lower) == FilteredPosts(posts, f, lower)
  {
    FilterSameTest(posts, Test(f.(dateRange := d), lower), Test(f, lower));
  }

  /**
   * Choosing a label alone lists exactly the posts carrying it; a non-empty
   * label text that is none of the three lists nothing.
   */
  lemma FilteredPostsByLabel(posts: seq<Post>, name: string, lower: string -> string)
    ensures forall c :: name == ClassificationName(c) ==>
      FilteredPosts(posts, EmptyFilter.(classification := name), lower) ==
      Filter(posts, Labelled(c))
    ensures name != "" && (forall c :: name != ClassificationName(c)) ==>
      FilteredPosts(posts, EmptyFilter.(classification := name), lower) == []
  {
    var f := EmptyFilter.(classification := name);
    forall c | name == ClassificationName(c)
      ensures FilteredPosts(posts, f, lower) == Filter(posts, Labelled(c))
    {
      FilterSameTest(posts, Test(f, lower), Labelled(c));
    }
    if name != "" && forall c :: name != ClassificationName(c) {
      forall p | p in posts ensures !Test(f, lower)(p) {
        assert name != ClassificationName(p.classification);
        assert !MatchesClassification(p, f.classification);
      }
      FilterSameTest(posts, Test(f, lower), (p: Post) => false);
      NothingPasses(posts);
    }
  }

  lemma {:induction false} NothingPasses(posts: seq<Post>)
    ensures Filter(posts, (p: Post) => false) == []
  {
    if posts != [] {
      NothingPasses(posts[1..]);
    }
  }

  /**
   * `f` asks at least what `g` asks when each field of `g` is either empty
   * or equal to the same field of `f`.
   */
  predicate Tightens(f: FilterState, g: FilterState)
  {
    (g.searchTerm == "" || g.searchTerm == f.searchTerm) &&
    (g.classification == "" || g.classification == f.classification) &&
    (g.platform == "" || g.platform == f.platform) &&
    (g.hashtag == "" || g.hashtag == f.hashtag)
  }

  /**
   * Tightening the filter only removes posts: the tighter list is the
   * looser list filtered again.
   */
  lemma FilteredPostsNarrow(posts: seq<Post>, f: FilterState, g: FilterState, lower: string -> string)
    requires Tightens(f, g)
    ensures FilteredPosts(posts, f, lower) == Filter(FilteredPosts(posts, g, lower), Test(f, lower))
    ensures IsSubsequence(FilteredPosts(posts, f, lower), FilteredPosts(posts, g, lower))
  {
    FilterNarrow(posts, Test(g, lower), Test(f, lower));
    FilterIsSubsequence(FilteredPosts(posts, g, lower), Test(f, lower));
  }

  /**
   * The search ignores case: searching for a term or for its lower-cased
   * form lists the same posts, provided lower-casing is idempotent and
   * maps only the empty term to the empty string.
   */
  lemma SearchIgnoresCase(p: Post, term: string, lower: string -> string)
    requires lower(lower(term)) == lower(term)
    requires lower(term) == "" <==> term == ""
    ensures MatchesSearch(p, lower(term), lower) == MatchesSearch(p, term, lower)
  {
  }

  // ------------------------------------------------- editing the filter

  /** The four filter fields the page's controls edit. */
  datatype FilterField = SearchTerm | Label | Platform | Hashtag

  function Field(f: FilterState, k: FilterField): string
  {
    match k
    case SearchTerm => f.searchTerm
    case Label => f.classification
    case Platform => f.platform
    case Hashtag => f.hashtag
  }

  /**
   * `setFilters({ ...filters, <field>: v })`, as the search box, the three
   * menus, a hashtag chip on a post (with `Hashtag`) and the close button of
   * an active-filter chip (with `""`) do.
   */
  function SetField(f: FilterState, k: FilterField, v: string): (g: FilterState)
    ensures Field(g, k) == v
    ensures forall k' :: k' != k ==> Field(g, k') == Field(f, k')
    ensures g.dateRange == f.dateRange
  {
    match k
    case SearchTerm => f.(searchTerm := v)
    case Label => f.(classification := v)
    case Platform => f.(platform := v)
    case Hashtag => f.(hashtag := v)
  }

  /** Writing back a field's own value changes nothing; a second write wins. */
  lemma SetFieldLaws(f: FilterState, k: FilterField, v: string, w: string)
    ensures SetField(f, k, Field(f, k)) == f
    ensures SetField(SetField(f, k, v), k, w) == SetField(f, k, w)
  {
  }

  /** After clicking a hashtag chip every listed post carries that hashtag. */
  lemma HashtagChipNarrows(posts: seq<Post>, f: FilterState, tag: string, lower: string -> string)
    requires tag != ""
    ensures forall p :: p in FilteredPosts(posts, SetField(f, Hashtag, tag), lower) ==> tag in p.hashtags
  {
  }

  /** Closing an active-filter chip never hides a post that was listed. */
  lemma ClearingFieldWidens(posts: seq<Post>, f: FilterState, k: FilterField, lower: string -> string)
    ensures IsSubsequence(FilteredPosts(posts, f, lower), FilteredPosts(posts, SetField(f, k, ""), lower))
  {
    FilteredPostsNarrow(posts, f, SetField(f, k, ""), lower);
  }

  // ------------------------------------------------------ hashtag menu

  /** Every hashtag of every post, post by post. */
  function HashtagsOf(posts: seq<Post>): seq<string>
  {
    if posts == [] then [] else HashtagsOf(posts[..|posts| - 1]) + posts[|posts| - 1].hashtags
  }

  lemma {:induction false} HashtagsOfMember(posts: seq<Post>, tag: string)
    ensures tag in HashtagsOf(posts) <==> exists k :: 0 <= k < |posts| && tag in posts[k].hashtags
  {
    if posts != [] {
      var n := |posts| - 1;
      HashtagsOfMember(posts[..n], tag);
      assert forall k :: 0 <= k < n ==> posts[..n][k] == posts[k];
    }
  }

  lemma HashtagsOfSnoc(posts: seq<Post>, i: nat)
    requires i < |posts|
    ensures HashtagsOf(posts[..i + 1]) == HashtagsOf(posts[..i]) + posts[i].hashtags
  {
    assert posts[..i + 1][..i] == posts[..i];
  }

  /** `allHashtags`: the distinct hashtags of the store, in string order. */
  function AllHashtagsOf(posts: seq<Post>): seq<string>
  {
    SortStrings(Dedupe(HashtagsOf(posts)))
  }

  /** The menu lists each hashtag used on any post once, in ascending order. */
  lemma AllHashtagsSpec(posts: seq<Post>, tag: string)
    ensures StrictlyAscending(AllHashtagsOf(posts))
    ensures tag in AllHashtagsOf(posts) <==> exists k :: 0 <= k < |posts| && tag in posts[k].hashtags
  {
    HashtagsOfMember(posts, tag);
  }

  /**
   * The `forEach` loops that fill the hashtag `Set`, then
   * `Array.from(...).sort()`.
   */
  method AllHashtags(posts: seq<Post>) returns (r: seq<string>)
    ensures r == AllHashtagsOf(posts)
  {
    var seen: seq<string> := [];
    var i := 0;
    while i < |posts|
      invariant 0 <= i <= |posts|
      invariant seen == Dedupe(HashtagsOf(posts[..i]))
    {
      seen := AddEach(seen, HashtagsOf(posts[..i]), posts[i].hashtags);
      HashtagsOfSnoc(posts, i);
      i := i + 1;
    }
    assert posts[..i] == posts;
    r := SortStrings(seen);
  }

  /** The inner `forEach`: `hashtags.add(tag)` for each tag of one post. */
  method AddEach(seen: seq<string>, ghost before: seq<string>, tags: seq<string>) returns (r: seq<string>)
    requires seen == Dedupe(before)
    ensures r == Dedupe(before + tags)
  {
    r := seen;
    var j := 0;
    assert before + tags[..0] == before;
    while j < |tags|
      invariant 0 <= j <= |tags|
      invariant r == Dedupe(before + tags[..j])
    {
      assert before + tags[..j + 1] == (before + tags[..j]) + [tags[j]];
      DedupeSnoc(before + tags[..j], tags[j]);
      if tags[j] !in r {
        r := r + [tags[j]];
      }
      j := j + 1;
    }
    assert tags[..j] == tags;
  }

  /** `allHashtags.slice(0, 20)`: what the hashtag menu offers. */
  function HashtagMenu(posts: seq<Post>): seq<string>
  {
    Prefix(AllHashtagsOf(posts), 20)
  }

  /**
   * The menu offers at most twenty hashtags, and a hashtag left out comes
   * after every one offered.
   */
  lemma HashtagMenuFirstTwenty(posts: seq<Post>, tag: string)
    requires tag in AllHashtagsOf(posts) && tag !in HashtagMenu(posts)
    ensures |HashtagMenu(posts)| == 20
    ensures forall i :: 0 <= i < 20 ==> StrLt(HashtagMenu(posts)[i], tag)
  {
    var all := AllHashtagsOf(posts);
    var m :| 0 <= m < |all| && all[m] == tag;
    assert m >= 20;
  }

  // ----------------------------------------------------- platform menu

  /** `posts.map(p => p.platform).filter(Boolean)`. */
  function PlatformNames(posts: seq<Post>): seq<string>
  {
    if posts == [] then []
    else
      var last := posts[|posts| - 1];
      PlatformNames(posts[..|posts| - 1]) + (if HasPlatform(last) then [last.platform.value] else [])
  }

  lemma {:induction false} PlatformNamesMember(posts: seq<Post>, x: string)
    ensures x in PlatformNames(posts) <==> x != "" && exists k :: 0 <= k < |posts| && posts[k].platform == Some(x)
  {
    if posts != [] {
      var n := |posts| - 1;
      PlatformNamesMember(posts[..n], x);
      assert forall k :: 0 <= k < n ==> posts[..n][k] == posts[k];
    }
  }

  /** `platforms`: the distinct non-empty platform names, in string order. */
  function PlatformsOf(posts: seq<Post>): seq<string>
  {
    SortStrings(Dedupe(PlatformNames(posts)))
  }

  /** The platform menu lists each named platform once, in ascending order. */
  lemma PlatformsSpec(posts: seq<Post>, x: string)
    ensures StrictlyAscending(PlatformsOf(posts))
    ensures x in PlatformsOf(posts) <==> x != "" && exists k :: 0 <= k < |posts| && posts[k].platform == Some(x)
  {
    PlatformNamesMember(posts, x);
  }

  /** Choosing a platform from the menu always leaves some post listed (when nothing else is set). */
  lemma PlatformMenuChoiceNonEmpty(posts: seq<Post>, x: string, lower: string -> string)
    requires x in PlatformsOf(posts)
    ensures FilteredPosts(posts, EmptyFilter.(platform := x), lower) != []
  {
    PlatformsSpec(posts, x);
    var k :| 0 <= k < |posts| && posts[k].platform == Some(x);
    assert Matches(posts[k], EmptyFilter.(platform := x), lower);
    assert posts[k] in FilteredPosts(posts, EmptyFilter.(platform := x), lower);
  }

  // ------------------------------------------------------ filter panel

  /** The page's local `showFilters` switch. */
  class FilterPanel {
    var showFilters: bool

    /** The panel starts closed. */
    constructor()
      ensures !showFilters
    {
      showFilters := false;
    }

    /** The Filters button flips the panel. */
    method Toggle()
      modifies this
      ensures showFilters == !old(showFilters)
    {
      showFilters := !showFilters;
    }
  }
}
