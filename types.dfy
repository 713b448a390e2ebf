/**
 * The data model of the dashboard: the post record, its classification
 * label, the filter record and the (unused) statistics record.
 *
 * Timestamps are epoch milliseconds (what `new Date(t).getTime()` yields),
 * not ISO strings.  Optional TypeScript fields (`platform?`, `engagement?`)
 * become `Option` values.
 */
module Types {

  datatype Option<T> = None | Some(value: T)

  /** The three labels a post can carry; there is no fourth. */
  datatype Classification = Safe | Suspicious | HighlySuspicious

  /** The label as the source spells it; the filter compares against this text. */
  function ClassificationName(c: Classification): string
  {
    match c
    case Safe => "Safe"
    case Suspicious => "Suspicious"
    case HighlySuspicious => "Highly Suspicious"
  }

  /** Every classification, in the order the pages list them. */
  const AllClassifications: seq<Classification> := [Safe, Suspicious, HighlySuspicious]

  lemma ClassificationsAreThree(c: Classification)
    ensures c in AllClassifications
    ensures |AllClassifications| == 3
    ensures forall i, j :: 0 <= i < j < 3 ==>
      ClassificationName(AllClassifications[i]) != ClassificationName(AllClassifications[j])
  {
  }

  /** When present, an engagement record carries all three counters. */
  datatype Engagement = Engagement(likes: nat, shares: nat, comments: nat)

  /** One observed social-media item.  `hashtags` is required (possibly empty). */
  datatype Post = Post(
    id: int,
    user: string,
    avatar: string,
    content: string,
    hashtags: seq<string>,
    timestamp: int,
    classification: Classification,
    location: string,
    platform: Option<string>,
    engagement: Option<Engagement>)

  /** The five filter fields; the empty string means "no constraint". */
  datatype FilterState = FilterState(
    searchTerm: string,
    hashtag: string,
    classification: string,
    dateRange: string,
    platform: string)

  /** The filter record with every field cleared. */
  const EmptyFilter := FilterState("", "", "", "", "")

  /** Declared by the source but computed nowhere. */
  datatype DashboardStats = DashboardStats(
    totalPosts: nat,
    safePosts: nat,
    suspiciousPosts: nat,
    highlySuspiciousPosts: nat,
    alertsToday: nat)

  /** The test `p => p.classification === c`, as a function value. */
  function Labelled(c: Classification): Post -> bool
  {
    (p: Post) => p.classification == c
  }

  /** JavaScript truthiness of a string: only the empty string is falsy. */
  predicate Truthy(s: string)
  {
    s != ""
  }

  /** JavaScript truthiness of an optional string (`undefined` is falsy). */
  predicate HasPlatform(p: Post)
  {
    p.platform.Some? && Truthy(p.platform.value)
  }
}
