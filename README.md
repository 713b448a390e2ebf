# vigil-matrix dashboard core, modelled in Dafny

vigil-matrix is a client-side dashboard for monitoring social-media posts.
It has no backend. It keeps a small in-memory store: the post list, the
filter record and the current page. A timer prepends a synthetic
"Highly Suspicious" post every fifteen seconds. Every page computes its own
derived views from that store.

This project models the store and those views and proves what they promise.
Each module follows one source file:

- `Types` (`types.dfy`) holds the post, classification, engagement and filter records.
- `Collections` (`collections.dfy`) holds the JavaScript built-ins the core relies on:
  - `filter` and `slice`;
  - a `Set` as a first-seen, duplicate-free sequence;
  - a `{}` counting dictionary as an insertion-ordered association list;
  - the stable numeric `sort` and the default string `sort`;
  - `toString` and `padStart`.
- `MockData` and `MockSeed` (`mock_data.dfy`, `mock_seed.dfy`) hold the twelve seed posts and `getTopHashtags`.
- `PostsPage`, `Overview`, `Alerts` and `Analytics` hold the views of the four data pages.
- `Pages`, `Sidebar`, `Header` and `Dashboard` hold the page ids, the navigation and header logic, and the store class with its mutations.

Code that fills a dictionary or a record inside `forEach` or `reduce` is
modelled as a `method` with a loop. Each such method is proved equal to a
specification function, and the properties are proved about that function.
The store is the class `Dashboard.Dashboard`. Each of its methods states the
whole new state.

Some values come from the browser and are not modelled: hour-of-day,
lower-casing, the clock and the random draws. Each is a parameter, as
"## Left out" lists.

## Model

| member | source | states |
|---|---|---|
| Types.ClassificationsAreThree | src/types/index.ts:1 | Every classification is one of Safe, Suspicious and Highly Suspicious, and those three are distinct. |
| Collections.Filter | src/components/pages/OverviewPage.tsx:19-21 | `filter` keeps exactly the elements that pass the test, each of them passes, and the result is no longer than the input. |
| Collections.FilterIsSubsequence | src/components/pages/PostsPage.tsx:28 | A filtered list is an order-preserving subsequence of its input. |
| Collections.Dedupe | src/components/pages/PostsPage.tsx:48-52 | The contents of a `Set` built from a list have the same members as the list and no duplicates. |
| Collections.DedupeSize | src/components/pages/AlertsPage.tsx:32-33 | A `Set`'s size is the number of distinct values added to it. |
| Collections.DedupeFirstSeen | src/components/pages/AlertsPage.tsx:32-33 | A `Set` lists its values in the order they were first added. |
| Collections.Bump | src/data/mockData.ts:180 | `acc[k] = (acc[k] \|\| 0) + 1`: a present key's count goes up by one in place, a new key is appended with count 1, and every other entry is unchanged. |
| Collections.TallyCounts | src/data/mockData.ts:175-183 | The counting dictionary's keys are the distinct values in first-seen order, and each count is that value's number of occurrences. |
| Collections.TallyGet | src/components/pages/AnalyticsPage.tsx:71 | `dict[k] \|\| 0` reads the number of occurrences of `k`, and 0 for a key never counted. |
| Collections.TallySum | src/components/pages/AnalyticsPage.tsx:37-42 | The counts of a counting dictionary add up to the number of values counted. |
| Collections.TallyCountsPositive | src/data/mockData.ts:180 | Every count in a counting dictionary is at least 1, and its key was counted. |
| Collections.SortDescBy | src/components/pages/AlertsPage.tsx:22 | The numeric `sort` with `b - a` is a permutation of its input and is non-increasing by the key. |
| Collections.SortDescByStable | src/components/pages/AlertsPage.tsx:22 | The sort is stable: elements with the same key keep their relative order. |
| Collections.SortDescBySorted | src/components/pages/AlertsPage.tsx:22 | A list that is already ordered is left as it is. |
| Collections.SortDescByHeadIsMax | src/components/pages/AlertsPage.tsx:266 | After the sort, the first element has the largest key. |
| Collections.SortStrings | src/components/pages/PostsPage.tsx:52 | The default string `sort` of distinct strings is strictly ascending by code unit and keeps the same members. |
| Collections.Ranked | src/data/mockData.ts:185-186 | `Object.entries` of a counting dictionary, sorted by count, is non-increasing by count. |
| Collections.RankedEntry | src/data/mockData.ts:185-186 | Each ranked entry is an entry of the dictionary, and its count is the occurrences of its key, at least 1. |
| Collections.RankedFind | src/data/mockData.ts:185-186 | Every counted value has an entry among the ranked entries, carrying its occurrences. |
| Collections.RankedLength | src/data/mockData.ts:185-186 | There is one ranked entry per distinct value. |
| Collections.RankedDistinct | src/data/mockData.ts:185-186 | No key appears twice among the ranked entries. |
| Collections.RankedHeadIsMax | src/components/pages/AlertsPage.tsx:266 | The first ranked entry has the largest count of any value. |
| Collections.RankedTies | src/data/mockData.ts:186 | Entries with equal counts stay in the order their keys were first seen. |
| Collections.StableTies | src/data/mockData.ts:186 | In a stable sort of distinct elements, two elements with equal keys keep the order they had in the input. |
| Collections.NatToStringValue | src/components/pages/AnalyticsPage.tsx:72 | `n.toString()` reads back to `n`, starts with '0' only for 0, and is one digit exactly when `n < 10`. |
| Collections.PadStart | src/components/pages/AnalyticsPage.tsx:72 | `padStart(n, c)` gives length `max(\|s\|, n)`, ends with `s`, and is `c` before it. |
| MockData.CountHostileHashtags | src/data/mockData.ts:175-183 | The nested `forEach` leaves the dictionary equal to the tally of the hashtags of the non-Safe posts. |
| MockData.BumpEach | src/data/mockData.ts:179-181 | The inner `forEach` extends the tally by one post's hashtags. |
| MockData.GetTopHashtags | src/data/mockData.ts:174-189 | The result is the top-hashtag view of the constant seed list, so nothing done to the store changes it. |
| MockData.HostileTagsMember | src/data/mockData.ts:177-179 | A tag is counted exactly when some non-Safe post carries it. |
| MockData.TopHashtagsCounts | src/data/mockData.ts:177-183 | Each reported count is the tag's number of occurrences across non-Safe posts, and at least 1. |
| MockData.TopHashtagsSkipSafe | src/data/mockData.ts:178 | Every reported tag comes from a non-Safe post. |
| MockData.TopHashtagsLength | src/data/mockData.ts:187 | The list has ten entries, or one per distinct counted tag when there are fewer. |
| MockData.TopHashtagsSorted | src/data/mockData.ts:186 | Counts are non-increasing. |
| MockData.TopHashtagsDistinct | src/data/mockData.ts:185 | No tag is reported twice. |
| MockData.TopHashtagsTiesFirstSeen | src/data/mockData.ts:185-186 | Tags with equal counts appear in first-seen order. |
| MockData.TopHashtagsAreTop | src/data/mockData.ts:185-187 | A counted tag is either reported, or the list is full and the tag's count is at most the tenth count. |
| MockSeed.SeedIds | src/data/mockData.ts:3-148 | The seed holds 12 posts with ids 1 to 12, in that order. |
| MockSeed.SeedRowsMatch | src/data/mockData.ts:3-148 | Apart from the user, avatar and content texts, the seed equals the table of seed rows the seed proofs use. |
| MockSeed.SeedHostileTags | src/data/mockData.ts:177-183 | The hashtags counted on the seed, in counting order. |
| MockSeed.SeedTagsLackIndiaRising | src/data/mockData.ts:178 | `#IndiaRising`, which only Safe posts carry, is never counted. |
| MockSeed.SeedDistinctTagCount | src/data/mockData.ts:177-183 | The seed's non-Safe posts carry 20 distinct hashtags. |
| MockSeed.SeedTopHashtags | src/data/mockData.ts:185-187 | On the seed, the list has 10 entries, starts with `('#HumanRights', 2)` and lacks `#IndiaRising`. |
| PostsPage.IncludesAt | src/components/pages/PostsPage.tsx:30 | `includes` holds exactly when the part occurs at some position. |
| PostsPage.FilteredPostsInOrder | src/components/pages/PostsPage.tsx:28 | The filtered view is an order-preserving subsequence of the posts, so it is no longer than they are. |
| PostsPage.FilteredPostsMember | src/components/pages/PostsPage.tsx:28-44 | A post is shown exactly when it is in the store and all four predicates hold: search, exact label, exact platform (an absent platform fails a non-empty filter), and hashtag membership. |
| PostsPage.FilteredPostsCleared | src/components/pages/PostsPage.tsx:29-41 | With every field empty, whatever the date range, every post is shown. |
| PostsPage.FilteredPostsIgnoreDateRange | src/components/pages/PostsPage.tsx:28-44 | The `dateRange` field never changes the view. |
| PostsPage.FilteredPostsByLabel | src/components/pages/PostsPage.tsx:34-35 | A label filter keeps exactly the posts with that label, and a non-empty name that is no label keeps none. |
| PostsPage.FilteredPostsNarrow | src/components/pages/PostsPage.tsx:28-44 | Constraining more fields refilters the wider view, so the result is a subsequence of it. |
| PostsPage.SearchIgnoresCase | src/components/pages/PostsPage.tsx:29-32 | Search gives the same answer for a term and its lower-cased form. |
| PostsPage.SetField | src/components/pages/PostsPage.tsx:113 | `setFilters({ ...filters, k: v })` sets field `k` to `v` and leaves the other fields, `dateRange` among them, unchanged. |
| PostsPage.SetFieldLaws | src/components/pages/PostsPage.tsx:199-279 | Writing a field's own value changes nothing, and the later of two writes to one field wins. |
| PostsPage.HashtagChipNarrows | src/components/pages/PostsPage.tsx:113 | After a hashtag chip is clicked, every shown post carries that tag. |
| PostsPage.ClearingFieldWidens | src/components/pages/PostsPage.tsx:255-279 | Clearing one field can only add posts to the view, never remove any. |
| PostsPage.AllHashtagsSpec | src/components/pages/PostsPage.tsx:47-53 | The hashtag options are strictly ascending, so duplicate-free, and are exactly the tags carried by some post. |
| PostsPage.AllHashtags | src/components/pages/PostsPage.tsx:48-52 | The `forEach` loops into the `Set`, then the sort, compute exactly the hashtag options. |
| PostsPage.AddEach | src/components/pages/PostsPage.tsx:50 | The inner loop adds one post's tags to the `Set`. |
| PostsPage.HashtagMenuFirstTwenty | src/components/pages/PostsPage.tsx:243 | A tag left out of the menu means the menu holds 20 tags, all ordered before it. |
| PostsPage.PlatformNamesMember | src/components/pages/PostsPage.tsx:56 | A platform is counted exactly when it is non-empty and set on some post. |
| PostsPage.PlatformsSpec | src/components/pages/PostsPage.tsx:55-58 | The platform options are strictly ascending and are exactly the non-empty platforms set on some post. |
| PostsPage.PlatformMenuChoiceNonEmpty | src/components/pages/PostsPage.tsx:221 | When no other filter field is set, picking any offered platform leaves at least one post in view. |
| PostsPage.FilterPanel.constructor | src/components/pages/PostsPage.tsx:25 | The filter panel starts closed. |
| PostsPage.FilterPanel.Toggle | src/components/pages/PostsPage.tsx:180 | The Filters button flips the panel. |
| Overview.CountOfCons | src/components/pages/OverviewPage.tsx:19-21 | A post in front of the list adds one to its own label's count and nothing to the others. |
| Overview.CountsPartition | src/components/pages/OverviewPage.tsx:19-24 | The three label counts add up to the number of posts. |
| Overview.ThreatLevelCases | src/components/pages/OverviewPage.tsx:28 | The level is High iff more than 5 are highly suspicious; otherwise Medium iff more than 10 are suspicious; otherwise Low. |
| Overview.ThreatLevelMonotone | src/components/pages/OverviewPage.tsx:28 | More flagged posts never lower the level. |
| Overview.StatsOf | src/components/pages/OverviewPage.tsx:18-30 | Safe plus Suspicious plus Highly Suspicious equals the total, which is the post count, and the level follows the rule. |
| Overview.PieData | src/components/pages/OverviewPage.tsx:34-38 | Three slices, Safe, Suspicious and Highly Suspicious in that order, each with its count; the values sum to the post count. |
| Overview.RecentHighRiskSpec | src/components/pages/OverviewPage.tsx:261-263 | Three Highly Suspicious posts, or all of them when there are fewer, in store order. They are the first ones: the list is a prefix of the Highly Suspicious posts, and every Highly Suspicious post with fewer than three before it is shown. |
| Overview.SeedStats | src/data/mockData.ts:11-143 | The seed has 5 Safe, 2 Suspicious and 5 Highly Suspicious posts, so the level is Low. |
| Overview.SeedPlusHighRiskIsHigh | src/components/pages/OverviewPage.tsx:28 | One more Highly Suspicious post in front of the seed makes the level High. |
| Alerts.HighRiskPostsSpec | src/components/pages/AlertsPage.tsx:19-23 | `highRiskPosts` is a permutation of the Highly Suspicious posts and contains exactly them, sorted newest first. |
| Alerts.HighRiskPostsStable | src/components/pages/AlertsPage.tsx:22 | Posts with the same timestamp keep their store order. |
| Alerts.AlertCounts | src/components/pages/AlertsPage.tsx:26-36 | `totalAlerts` is the number of Highly Suspicious posts; `last24h` counts those strictly newer than `now` minus 24h, so it is at most the total. |
| Alerts.LocationsMember | src/components/pages/AlertsPage.tsx:32 | A location is listed exactly when some post has it. |
| Alerts.PlatformsMember | src/components/pages/AlertsPage.tsx:33 | A platform value, absence included, is listed exactly when some post has it. |
| Alerts.AffectedLocationsCount | src/components/pages/AlertsPage.tsx:32-38 | `affectedLocations` is the number of distinct locations of the alerts other than `'Unknown'`. |
| Alerts.ActivePlatformsCount | src/components/pages/AlertsPage.tsx:33-39 | `activePlatforms` is the number of distinct platform values of the alerts, an absent platform counting as one value. |
| Alerts.MostRecentAlertSpec | src/components/pages/AlertsPage.tsx:254 | The first alert's time is absent exactly when there is no alert, and otherwise is the latest alert timestamp. |
| Alerts.MostActiveLocation | src/components/pages/AlertsPage.tsx:260-266 | The `reduce` into a dictionary, then the sort and `[0]?.[0] \|\| 'Unknown'`, computes the specified location. |
| Alerts.MostActiveLocationEmpty | src/components/pages/AlertsPage.tsx:266 | With no alerts the location shown is `'Unknown'`. |
| Alerts.MostActiveLocationIsTop | src/components/pages/AlertsPage.tsx:260-266 | The first key of the sorted dictionary belongs to an alert and no location has more alerts; of those with as many, it is the first met. `'Unknown'` counts like any other location. That key is shown, except that an empty location is shown as `'Unknown'`. |
| Alerts.SeedAlerts | src/components/pages/AlertsPage.tsx:20-22 | On the seed, the alerts are ids 3, 5, 8, 10 and 12 in that order, and the most active location is `'Unknown'`. |
| Analytics.CountPlatforms | src/components/pages/AnalyticsPage.tsx:37-42 | The `reduce` leaves the dictionary equal to the tally of the truthy platforms. |
| Analytics.PlatformNamesCount | src/components/pages/AnalyticsPage.tsx:37-42 | A platform's count is the number of posts on that platform. |
| Analytics.PlatformNamesLength | src/components/pages/AnalyticsPage.tsx:38 | Exactly the posts with a truthy platform are counted. |
| Analytics.PlatformHistogramSpec | src/components/pages/AnalyticsPage.tsx:37-42 | The histogram has one entry per non-empty platform in use, in first-seen order, each with its post count; the values sum to the number of posts with a truthy platform. |
| Analytics.CountLocations | src/components/pages/AnalyticsPage.tsx:44-49 | The `reduce` leaves the dictionary equal to the tally of the known locations. |
| Analytics.LocationNamesMember | src/components/pages/AnalyticsPage.tsx:45 | A location is counted exactly when it is non-empty, not `'Unknown'`, and some post has it. |
| Analytics.LocationNamesCount | src/components/pages/AnalyticsPage.tsx:44-49 | A known location's count is the number of posts there. |
| Analytics.LocationHistogramSpec | src/components/pages/AnalyticsPage.tsx:44-49 | One entry per known location, in first-seen order, each with its post count; `'Unknown'` and empty locations get none. |
| Analytics.CountHours | src/components/pages/AnalyticsPage.tsx:51-55 | The `reduce` leaves the dictionary equal to the tally of the posts' hours. |
| Analytics.HourLabelDigits | src/components/pages/AnalyticsPage.tsx:72 | A bucket label is the two-digit, zero-padded hour followed by `":00"`, and its digits read back to the hour. |
| Analytics.HourlyActivitySpec | src/components/pages/AnalyticsPage.tsx:69-73 | There are exactly 24 buckets. Bucket `i` has hour `i`, its label, and the number of posts in hour `i`, which is 0 exactly when no post falls in that hour. The buckets sum to the number of posts. |
| Analytics.PeakPosts | src/components/pages/AnalyticsPage.tsx:142 | `Math.max` over the buckets is at least every bucket's count and equals one of them. |
| Analytics.PeakActivitySpec | src/components/pages/AnalyticsPage.tsx:142 | The peak is at most the number of posts, and it is 0 exactly when there are no posts. |
| Analytics.EngagementOfAppend | src/components/pages/AnalyticsPage.tsx:57-64 | The totals of two runs of posts add up componentwise. |
| Analytics.TotalEngagement | src/components/pages/AnalyticsPage.tsx:57-64 | The `reduce` that adds into its record in place computes the engagement totals. |
| Analytics.EngagementSkipsBare | src/components/pages/AnalyticsPage.tsx:58-64 | Posts without engagement add nothing, so the totals are the componentwise sum over the posts that have it; an empty list gives all zeros. |
| Analytics.EngagementBounds | src/components/pages/AnalyticsPage.tsx:57-64 | Each post's likes, shares and comments are part of the totals. |
| Analytics.HotspotsSpec | src/components/pages/AnalyticsPage.tsx:327-329 | The hotspot list has at most 8 entries, one per known location when there are fewer, sorted non-increasing by count, with no location twice. |
| Analytics.HotspotEntry | src/components/pages/AnalyticsPage.tsx:327-329 | Each hotspot is a known location, and its value is its post count, at least 1. |
| Analytics.HotspotsAreTop | src/components/pages/AnalyticsPage.tsx:327-329 | A known location is either shown, or all 8 places are taken and its count is at most the eighth count. |
| Analytics.HashtagChartSpec | src/components/pages/AnalyticsPage.tsx:289 | The hashtag chart shows the first six top hashtags, in the same order and with the same counts. |
| Pages.PageIds | src/components/Dashboard.tsx:13 | The five page ids in sidebar order, each being its page's id. |
| Pages.PageIdsDistinct | src/components/Dashboard.tsx:13 | Every page has an id in the list, and distinct pages have distinct ids. |
| Sidebar.AlertCount | src/components/Sidebar.tsx:22 | `alertCount` is the number of Highly Suspicious posts and is at most the post count. |
| Sidebar.AlertCountZero | src/components/Sidebar.tsx:22 | The alert count is 0 exactly when no post is Highly Suspicious. |
| Sidebar.NavigationItems | src/components/Sidebar.tsx:24-30 | There are five items, carrying the page ids in sidebar order. |
| Sidebar.NavigationItemsSpec | src/components/Sidebar.tsx:24-30 | The items are, in order, overview, posts, alerts, analytics and settings. Posts counts the posts and alerts counts the alerts. The other three have no count, and no count exceeds the post total. |
| Sidebar.AtMostOneActive | src/components/Sidebar.tsx:63 | An item is active exactly when the current page is its id, so at most one item is active. |
| Sidebar.DangerBadge | src/components/Sidebar.tsx:81-86 | Only the alerts badge can turn red. It does so exactly when that item is not active and some post is Highly Suspicious. |
| Sidebar.SidebarState.constructor | src/components/Sidebar.tsx:20 | The sidebar starts expanded. |
| Sidebar.SidebarState.ToggleCollapse | src/components/Sidebar.tsx:52 | The menu button flips the collapsed state. |
| Sidebar.ToggleTwice | src/components/Sidebar.tsx:52 | Pressing the button twice restores the state. |
| Header.Lookup | src/components/Header.tsx:21 | An object-literal lookup finds a value exactly when some entry has the key, and then returns that entry's value. |
| Header.LookupUnique | src/components/Header.tsx:21 | With unique keys, looking up entry `i`'s key gives entry `i`'s value. |
| Header.TablesKeyedByPages | src/components/Header.tsx:14-31 | Both tables have five unique keys, which are the page ids in sidebar order. |
| Header.TablesNonEmpty | src/components/Header.tsx:14-31 | Every title and description is non-empty, and no title is `'Dashboard'`. |
| Header.KnownPage | src/components/Header.tsx:13-33 | A page id gets its own table title and a non-empty description. |
| Header.UnknownPage | src/components/Header.tsx:21-32 | Any other id gets the title `'Dashboard'` and the description `''`. |
| Header.PageTitleSpec | src/components/Header.tsx:13-22 | The five ids map to their fixed titles, and the title is `'Dashboard'` exactly when the id is not a page id. |
| Header.PageTitlesDistinct | src/components/Header.tsx:14-20 | Distinct pages have distinct titles. |
| Header.PageDescriptionSpec | src/components/Header.tsx:24-33 | The description is non-empty exactly when the id is a page id. |
| Header.BellBadgeSpec | src/components/Header.tsx:59 | The bell badge shows exactly when some post is Highly Suspicious. |
| Dashboard.AlertUser | src/components/Dashboard.tsx:40 | The synthetic user is `AlertBot_` followed by decimal digits that read back to the drawn number. |
| Dashboard.AlertUserInjective | src/components/Dashboard.tsx:40 | Distinct draws give distinct user names. |
| Dashboard.SyntheticPost | src/components/Dashboard.tsx:38-53 | The synthetic post has id and timestamp both equal to the tick's time. It is Highly Suspicious, in `'Unknown'`, on Telegram, with the three fixed hashtags and one of the four texts. Its likes are in [100,600), shares in [50,250) and comments in [20,120). |
| Dashboard.SyntheticRaisesAlerts | src/components/Dashboard.tsx:55 | Prepending a synthetic post raises the alert count by exactly one. |
| Dashboard.Reclassify | src/components/Dashboard.tsx:72-74 | The update keeps the list's length. |
| Dashboard.ReclassifySpec | src/components/Dashboard.tsx:72-74 | Every post keeps its place and every field but its label. Posts with the id get the new label, and the others are untouched. |
| Dashboard.ReclassifyMissing | src/components/Dashboard.tsx:72-74 | An id that no post has leaves the list unchanged, with no failure. |
| Dashboard.ReclassifyLastWins | src/components/Dashboard.tsx:73 | Of two updates to the same id, the later one wins. |
| Dashboard.ReclassifyIdempotent | src/components/Dashboard.tsx:73 | Applying the same update twice is the same as applying it once. |
| Dashboard.ReclassifyCommutes | src/components/Dashboard.tsx:72-74 | Updates to different ids can be applied in either order. |
| Dashboard.RenderedPageSpec | src/components/Dashboard.tsx:100-113 | Each page id renders its page. An id renders a page with that same id exactly when it is one of the five; anything else renders the Overview. |
| Dashboard.Preview | src/components/Dashboard.tsx:59 | `substring(0, 50)` is a prefix of at most 50 characters and is the whole text when the text is that short. |
| Dashboard.Dashboard.constructor | src/components/Dashboard.tsx:16-25 | The store opens on the Overview with the seed posts, all five filter fields empty, and no notifications. |
| Dashboard.Dashboard.Tick | src/components/Dashboard.tsx:38-64 | The synthetic post is put in front and the old posts follow unchanged and in order, so the count grows by exactly one and the alert count by one. Page and filters are unchanged, and one high-risk notification is logged. |
| Dashboard.Dashboard.UpdatePostClassification | src/components/Dashboard.tsx:70-77 | The posts become the reclassified list, page and filters are unchanged, and one notification is logged. |
| Dashboard.Dashboard.ClearFilters | src/components/Dashboard.tsx:79-87 | The filters become the initial all-empty record, and nothing else changes. |
| Dashboard.Dashboard.SetFilters | src/components/Dashboard.tsx:93 | The pages' `setFilters` replaces the filter record and nothing else. |
| Dashboard.Dashboard.SetCurrentPage | src/components/Dashboard.tsx:120 | The page becomes the given string, whatever it is, and nothing else changes. |
| Dashboard.ClearFiltersTwice | src/components/Dashboard.tsx:79-87 | Clearing the filters is idempotent. |
| Dashboard.ClickNavItem | src/components/Sidebar.tsx:68 | Clicking item `i` makes it the only active item and renders its page, and the posts and filters are unchanged. |

## Left out

- All JSX rendering, CSS classes, charts and icons are left out, because they are view markup. Only the conditions that choose a badge, a fallback or a highlight are modelled.
- The `sonner` toasts are kept only as the ghost `notices` log of `Dashboard.Dashboard`. The toast's "View" action is not modelled, because it is a callback into a foreign UI library that only calls `setCurrentPage('alerts')`.
- The `setInterval` / `clearInterval` lifecycle is left out. One tick is the method `Tick`.
- `Math.random`, `Date.now` and `new Date()` are left out. `Tick` takes the floored draws and the current time in milliseconds as parameters, with the ranges `Math.random` guarantees. One time value serves as both the id and the timestamp, although the source reads the clock twice.
- Nothing guarantees that a synthetic post's id is unique in the store, because it is a time value.
- `getHours()` depends on the local time zone, so the hour of a timestamp is a parameter `hourOf` with results in [0, 24).
- `toLowerCase` is a parameter `lower`. Unicode case mapping is not modelled.
- `toLocaleString` is left out, because it only formats values for display.
- Timestamps are epoch milliseconds rather than ISO-8601 strings. Date parsing, `NaN` and Invalid Date are not modelled.
- `generateChartData` and `threatLevelData` are left out, because they are random and use floating-point arithmetic.
- The bar-width percentages are left out, because they use floating-point arithmetic.
- src/components/pages/SettingsPage.tsx is not part of this model. It only binds form fields and simulates a save.
- src/components/interfaces.ts is not part of this model. It only declares types.
- The `isLoading` flag is left out. The store only hands it to the pages, and no core logic reads it.
- JavaScript numbers are modelled as unbounded integers. Counts and totals cannot overflow here, whereas in JavaScript they would lose precision past 2^53.
- String order is the order of Dafny characters. It matches JavaScript's UTF-16 code-unit order only for characters in the Basic Multilingual Plane.
- `Object.entries` lists integer-like keys before the others in ascending order. The model keeps plain insertion order. No platform, location or hashtag in the seed is integer-like, and the hourly dictionary is only read key by key.
- JavaScript objects also find inherited prototype properties, and the model does not capture this:
  - `titles[page]` and `descriptions[page]` also find keys such as `constructor`, whereas the lookup tables in the model hold only their five entries.
  - The `{}` counting dictionaries for platforms and locations (src/components/pages/AnalyticsPage.tsx:37-49) and for the most active location (src/components/pages/AlertsPage.tsx:262-264) are affected as well. For a platform or location named `constructor` or `toString`, `acc[k] || 0` reads an inherited function and `+ 1` builds a string. For `__proto__`, the assignment is ignored and the key never appears.
  - Collections.Bump and Collections.Tally count every key alike, so they match the source only for names that are not prototype properties.
  - `getTopHashtags` is not affected, because every hashtag starts with `#`.
- Analytics.Hotspots: the source sorts `analytics.locations` in place inside render. The model sorts a copy, so the later reuse of the sorted array is not captured. The array is rebuilt by the memo whenever the posts change.
- Analytics.HotspotsAreTop and MockData.TopHashtagsAreTop state the top-N property as "shown, or the list is full and no larger than the last shown". They do not also state the index a missing entry would have had.
- MockSeed.SeedRowsMatch: the seed proofs work on the seed with the user, avatar and content texts cleared. Only the id, label, timestamp, location, platform, hashtags and engagement facts about the seed are proved.
