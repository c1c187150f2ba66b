# Signal: a Dafny model of the dashboard's core

Signal is a single-page dashboard prototype. It discovers social posts
("signals") that match a user's interests, lets the user bookmark them, save
queries and browse the search history, and keeps everything in the browser's
local storage. This project models the core of that application in Dafny and
proves properties of the model:

- **The local data store** (`utils/storage.ts`). It holds three independent
  collections: saved searches, the search history log and the bookmarked
  post ids. `Storage.Store` is a class with one field per storage key. Every
  mutator rewrites its own collection whole and leaves the other two alone.
  A key that holds nothing yet is `None`, which each getter reads as its
  default: the saved-search seed, the generated 42-entry history seed, or no
  bookmarks.
- **The seed data** (`constants.ts`). This covers the six fixture posts, the
  two seed saved searches and the random seed history. The history's random
  offsets are a parameter (`jitter`).
- **The filter and aggregation engine** of the Discovery and Bookmarks views
  (`PostFilters`, `Discovery`, `Bookmarks`). It covers:
  - the visible posts under a text query, a category tab and an engagement
    threshold;
  - the per-tab counts, which leave the category predicate out;
  - the page state the views keep: posts with bookmark flags, the loading
    flag and the stored preferences.
- **The dashboard** (`Dashboard`): the history narrowed to a time window, its
  total, the chart buckets built by loops (`Dashboard.ChartData`), the growth
  label and the greeting.
- **The discovery client's post-processing** (`SignalService`): the request
  text, the fallback for a missing reply text, the fail-soft error paths, the
  per-index ids, the avatar and the single source URL per batch.
- **Routing and the onboarding gate** (`App`) and **what a result card
  shows** (`ResultCard`): the badge colour, the video duration label and the
  bookmark icon.

Strings are `seq<char>`. Times are whole epoch milliseconds (`int`). The
current time is a parameter: `now`, or one parameter per clock reading.

Some behaviours of the program that the model keeps as they are:

- `saveSearch` does not reject a blank query; only the Discovery view guards it
  (`Storage.Store.SaveSearch`, `Discovery.DiscoveryPage.HandleSaveSearch`).
- The bookmarks are an array of ids. Toggling a present id removes every copy
  of it, and toggling an absent id appends it at the end. A double toggle
  restores the membership of every id, and restores the exact list when the
  id was absent at first (`Storage.ToggleBookmarkTwice`).
- New history entries and new saved searches go to the front of their list.
- The type of a post's category admits `All`, so the `All` count is the sum
  of the four category counts only when no post has category `All`.
- The discovery client does not check the fields of the items it gets back.
  A failed call or a reply that is not an array of items gives no posts;
  any other reply gives one post per item.
- The clock is read separately for each id and stamp: twice in `logSearch`
  and once per item in `discoverSignals`. Each reading is its own parameter.
- The router ignores letter case and trailing slashes when it matches a path.

## Model

| member | source | states |
|---|---|---|
| Seqs.Filter | pages/Discovery.tsx:68-74 | `Array.filter`: the result keeps exactly the elements satisfying the predicate, each with its multiplicity, and is never longer than the input |
| Seqs.FilterIsSubsequence | pages/Discovery.tsx:68-74 | filtering preserves the input order: the result is a subsequence of the input |
| Seqs.FilterKeepsAll | pages/Discovery.tsx:68-74 | filtering with a predicate every element satisfies returns the input unchanged |
| Seqs.FilterFilter | pages/Discovery.tsx:58-63 | filtering a filtered list equals filtering once by the conjunction, which is how a tab count equals the length of that tab's list |
| Text.IndexOf | pages/Discovery.tsx:52-53 | `indexOf`: the position of the first occurrence of a pattern, or none when it occurs nowhere |
| Text.Contains | pages/Discovery.tsx:52-53 | `includes`; `Text.ContainsIff` states when it holds |
| Text.ContainsIff | pages/Discovery.tsx:52-53 | `includes` holds exactly when the pattern occurs at some position |
| Text.LowerChar | pages/Discovery.tsx:52-53 | `toLowerCase` on one character: ASCII capitals map to their lower-case letter, every other character is unchanged |
| Text.ToLower | pages/Discovery.tsx:52-53 | lower-casing keeps the length and maps every character by `Text.LowerChar` |
| Text.TrimEndChar | App.tsx:31-44 | the result is a prefix of the input that does not end in the given character, and only copies of that character were dropped |
| Text.TrimStart | pages/Discovery.tsx:42 | the result is a suffix of the input, starts with a non-whitespace character, and only whitespace was dropped |
| Text.TrimEnd | pages/Discovery.tsx:42 | the result is a prefix of the input, ends with a non-whitespace character, and only whitespace was dropped |
| Text.Trim | pages/Discovery.tsx:83 | `trim()`, the composition of `Text.TrimStart` and `Text.TrimEnd`; `Text.TrimEmptyIffBlank` states when it is empty |
| Text.TrimEmptyIffBlank | pages/Discovery.tsx:83 | `trim()` is empty exactly when the string is all whitespace, which is the blank-query guard |
| Text.Decimal | utils/storage.ts:17 | a number written in decimal: at least one digit, all digits, a single digit exactly for numbers below ten; `Text.DecimalValue` states that the digits spell the number |
| Text.DecimalValue | utils/storage.ts:17 | the digits spell the number in base ten, as `Text.DigitsValue` reads them most significant first, and the rendering starts with '0' only for 0, so there are no leading zeros |
| Text.DecimalInjective | utils/storage.ts:31 | distinct numbers are written differently, so time-derived ids differ when the times do |
| Text.RemoveFirst | features/search/ResultCard.tsx:61 | `replace(']', '')`: a string without the character is unchanged; otherwise the result is the string with its first occurrence of the character taken out (`Text.RemovedAt`) |
| Text.RemoveFirstAfter | features/search/ResultCard.tsx:61 | `replace(']', '')` removes only the first `]`: with no `]` before it, the text on both sides is kept |
| Text.SecondPiece | features/search/ResultCard.tsx:61 | `split(sep)[1]`: the text that starts right after the first separator and runs, with no separator starting inside it, up to the second separator or the end |
| Constants.InitialSearchLogs | constants.ts:84-91 | 42 seed entries; `Constants.InitialSearchLogsShape` gives their ids, queries and stamps |
| Constants.InitialSearchLogsShape | constants.ts:84-91 | the seed history has 42 entries `init-i` with pairwise distinct ids, cycling through the four seed queries, each stamped within the 30 days before load time |
| Constants.MockPostsIds | constants.ts:4-77 | there are six fixture posts with ids "1" to "6" |
| Constants.MockPostsDistinctIds | constants.ts:4-77 | no two fixture posts share an id |
| Constants.MockPostsHandles | constants.ts:4-77 | every fixture handle starts with `@` |
| Constants.MockPostsKinds | constants.ts:4-77 | the fixture categories are lead, thread, link, lead, video, video, in file order |
| Constants.MockPostsVideoMarker | constants.ts:4-77 | a fixture post's content carries the `[Video: ` marker exactly when the post is a video |
| Constants.InitialSavedSearchesShape | constants.ts:79-82 | the saved-search seed is `s1` with alerts on, then `s2` with alerts off |
| Storage.WithoutSearch | utils/storage.ts:45 | no entry with the id survives and the list does not grow; `Storage.WithoutSearchKeepsOthers` gives the rest |
| Storage.ToggleAlert | utils/storage.ts:52-54 | the list keeps its length; `Storage.ToggleAlertEffect` gives what changes |
| Storage.ToggleBookmark | utils/storage.ts:66-69 | an absent id is appended at the end; a present one is removed with all its copies, keeping the other ids in order and with their multiplicities; so the id is present afterwards exactly when it was absent |
| Storage.WithoutSearchKeepsOthers | utils/storage.ts:43-48 | removing a saved search keeps, in order and with their multiplicities, exactly the entries with another id |
| Storage.WithoutSearchIdempotent | utils/storage.ts:43-48 | removing the same id twice gives the same list as removing it once |
| Storage.WithoutAbsentSearch | utils/storage.ts:43-48 | removing an id that no entry has leaves the list unchanged |
| Storage.ToggleAlertEffect | utils/storage.ts:50-57 | toggling alerts keeps the length and every other field, and flips `alertsEnabled` exactly on the entries with that id |
| Storage.ToggleAlertTwice | utils/storage.ts:50-57 | toggling the alert of the same id twice restores the list |
| Storage.ToggleBookmarkMembership | utils/storage.ts:64-72 | after a bookmark toggle the id is present exactly when it was absent before, and every other id keeps its membership |
| Storage.ToggleBookmarkTwice | utils/storage.ts:64-72 | a double toggle restores the membership of every id, and restores the very list when the id was absent |
| Storage.Store.constructor | utils/storage.ts:5-7 | a fresh store has all three keys empty and holds the seed history generated at load time |
| Storage.Store.GetSavedSearches | utils/storage.ts:9-12 | the stored saved searches, or the two-entry seed when none are stored |
| Storage.Store.GetSearchHistory | utils/storage.ts:38-41 | the stored history, or the generated seed when none is stored |
| Storage.Store.GetBookmarkedPostIds | utils/storage.ts:59-62 | the stored bookmark ids, or none |
| Storage.Store.SaveSearch | utils/storage.ts:14-26 | returns a new entry with id `s-<now>`, `lastRun` "Just now" and alerts off; prepends it to the current list, so the head of the list has the saved query; the other collections are unchanged |
| Storage.Store.LogSearch | utils/storage.ts:28-36 | prepends one entry whose id carries the first clock reading and whose stamp is the second, so the history grows by exactly one; the other collections are unchanged |
| Storage.Store.RemoveSavedSearch | utils/storage.ts:43-48 | stores and returns the current list without the entries with that id; the other collections are unchanged |
| Storage.Store.ToggleSearchAlert | utils/storage.ts:50-57 | stores and returns the current list with the alert flag of the entries with that id flipped; the other collections are unchanged |
| Storage.Store.TogglePostBookmark | utils/storage.ts:64-72 | stores and returns the toggled bookmark list; the other collections are unchanged |
| Storage.SaveTwice | utils/storage.ts:14-26 | saving one query twice keeps both entries, newest first, above the old list, with no de-duplication; the two ids coincide exactly when both saves happened in the same millisecond |
| PostFilters.MatchesFilter | pages/Discovery.tsx:71 | the tab predicate: the `All` tab admits every post and any other tab the posts of its category; `PostFilters.CountsOfTab` uses it |
| PostFilters.CountsOf | pages/Discovery.tsx:58-64 | the `All` count is the length of the base list and every category count is at most that |
| PostFilters.CountsOfTab | pages/Discovery.tsx:58-64 | each tab's count is the number of base results that tab's category predicate admits |
| PostFilters.CountsPartition | pages/Discovery.tsx:58-63 | when no post has type `All`, the `All` count is the sum of the four category counts |
| Discovery.MatchesSearch | pages/Discovery.tsx:52-53 | the content or the author name contains the query, both lower-cased; its meaning is used through `Discovery.BaseResults` and `Discovery.FilteredPostsMeaning` |
| Discovery.BaseResults | pages/Discovery.tsx:51-56 | a post is a base result exactly when it matches the query and meets the threshold |
| Discovery.DiscoveryCounts | pages/Discovery.tsx:50-65 | the `All` count is the number of base results, never more than the number of posts |
| Discovery.FilteredPosts | pages/Discovery.tsx:67-75 | a post is visible exactly when it is a base result on the active tab, which ties the list to the counts |
| Discovery.FilteredPostsMeaning | pages/Discovery.tsx:67-75 | the visible posts are a subsequence of the posts, and a post is visible exactly when it meets the case-insensitive text match, the tab and the engagement threshold |
| Discovery.FilteredPostsUnfiltered | pages/Discovery.tsx:67-75 | with an empty query, the `All` tab and a threshold no post falls below, every post is visible, in order |
| Discovery.CountsAgreeWithTabs | pages/Discovery.tsx:50-75 | each tab's count equals the number of posts that tab shows |
| Discovery.CountsPartitionAll | pages/Discovery.tsx:50-65 | when no post has type `All`, the `All` count is the sum of the four category counts |
| Discovery.WithSavedFlags | pages/Discovery.tsx:31-35 | every post keeps all its fields except `isSaved`, which becomes membership of its id in the bookmarks |
| Discovery.FlipSaved | pages/Discovery.tsx:79 | every post keeps all its fields except `isSaved`, which flips exactly on the posts with that id |
| Discovery.FlipSavedKeepsAgreement | pages/Discovery.tsx:77-80 | if every flag agreed with the bookmarks before, every flag agrees with the toggled bookmarks after the flip |
| Discovery.IntentFilter | pages/Discovery.tsx:25-28 | the Leads intent opens the Leads tab and the Long-form intent the Threads tab; any other intent opens All |
| Discovery.AiInsightsText | pages/Discovery.tsx:89-97 | the Leads line exactly for the Leads intent, the thread line exactly for the Long-form intent, and the default line otherwise, including when there are no preferences |
| Discovery.DiscoveryPage.constructor | pages/Discovery.tsx:12-18 | the view starts with an empty query, the All tab, threshold 0, no posts, loading, no confirmation and no preferences |
| Discovery.DiscoveryPage.Load | pages/Discovery.tsx:20-37 | stored preferences are adopted along with their intent's tab; absent ones change neither; the posts become the fixture posts with flags that agree with the bookmarks; loading ends |
| Discovery.DiscoveryPage.HandleSaveResult | pages/Discovery.tsx:77-80 | the bookmark is toggled in the store and the posts with that id are flipped; flags that agreed with the bookmarks still agree; nothing else changes |
| Discovery.DiscoveryPage.HandleSaveSearch | pages/Discovery.tsx:82-87 | a blank query changes nothing; otherwise the query is saved at the head of the saved searches and the confirmation shows |
| Discovery.DiscoveryPage.CommitPendingLog | pages/Discovery.tsx:39-47 | while the view is loading, or with a blank query, the history is unchanged; otherwise exactly one entry for the query is prepended, with the id and stamp of the two clock readings |
| Discovery.ThresholdScenario | pages/Discovery.tsx:67-75 | for a lead with 10 likes and a video with 60 and a threshold of 50, only the video shows, and only the All and Video counts are one |
| Bookmarks.BookmarkedPosts | pages/Bookmarks.tsx:20-22 | no more posts than the catalogue, all marked saved; `Bookmarks.BookmarkedPostsMeaning` gives which ones |
| Bookmarks.Engaged | pages/Bookmarks.tsx:29 | the base list: no longer than the posts, holding exactly the posts that meet the threshold |
| Bookmarks.BookmarksCounts | pages/Bookmarks.tsx:28-37 | the `All` count is the number of posts that meet the threshold, with no text query; `Bookmarks.BookmarksCountsAgreeWithTabs` ties each count to its tab |
| Bookmarks.BookmarksFiltered | pages/Bookmarks.tsx:39-45 | a post is visible exactly when it meets the threshold and is on the active tab |
| Bookmarks.WithoutPost | pages/Bookmarks.tsx:49 | no post with the id is left and the view does not grow |
| Bookmarks.BookmarkedPostsMeaning | pages/Bookmarks.tsx:17-26 | the view holds, in order, exactly the fixture posts whose id is bookmarked, each marked saved |
| Bookmarks.BookmarksFilteredMeaning | pages/Bookmarks.tsx:39-45 | the visible posts are a subsequence, and a post is visible exactly when it is on the tab and meets the threshold |
| Bookmarks.BookmarksCountsAgreeWithTabs | pages/Bookmarks.tsx:28-45 | each tab's count equals the number of posts that tab shows |
| Bookmarks.BookmarksUnfiltered | pages/Bookmarks.tsx:39-45 | on the All tab with a threshold no post falls below, every post shows |
| Bookmarks.WithoutPostMeaning | pages/Bookmarks.tsx:47-50 | unsaving drops exactly the posts with that id and keeps the rest in order; if every post on view was bookmarked, every post left is bookmarked in the toggled list |
| Bookmarks.BookmarksPage.constructor | pages/Bookmarks.tsx:12-15 | the view starts on the All tab, threshold 0, no posts, loading |
| Bookmarks.BookmarksPage.Load | pages/Bookmarks.tsx:17-26 | the posts become the bookmarked fixture posts, all saved and bookmarked; loading ends |
| Bookmarks.BookmarksPage.HandleToggleSave | pages/Bookmarks.tsx:47-50 | the bookmark is toggled in the store and the post leaves the view; the view stays all-bookmarked; the other collections are unchanged |
| Dashboard.WindowMs | pages/Dashboard.tsx:35-39 | the preset windows last 24 hours, 48 hours, 7 days and 30 days, in milliseconds |
| Dashboard.FilteredHistory | pages/Dashboard.tsx:31-47 | the window's logs come from the history and are never more than it; the two lemmas below give which ones |
| Dashboard.TotalSearches | pages/Dashboard.tsx:49 | the number of logs in the window, never more than the history holds |
| Dashboard.FilteredHistoryPreset | pages/Dashboard.tsx:31-47 | a preset window keeps, in order, exactly the logs stamped at or after `now` minus the window |
| Dashboard.FilteredHistoryCustom | pages/Dashboard.tsx:40-43 | the custom range is inclusive at both ends; an empty start reads as 0 and an empty end as `now` |
| Dashboard.SeedHistoryWindows | pages/Dashboard.tsx:31-47 | at load time the 30-day window keeps the whole seed history, and the 24-hour window keeps exactly the seed entries at most one day old |
| Dashboard.ChartData | pages/Dashboard.tsx:52-95 | the 24h, 7d and 30d charts count the whole history in their hour, day and week buckets; the 48h and custom charts split the window's total into seven segments |
| Dashboard.HourBuckets | pages/Dashboard.tsx:56-63 | six buckets; `Dashboard.HourBucketsShape` and `Dashboard.HourBucketsCover` give their labels and span |
| Dashboard.DayBuckets | pages/Dashboard.tsx:64-73 | seven buckets, one per local day of the last seven days, computed by the calendar parameter |
| Dashboard.WeekBuckets | pages/Dashboard.tsx:74-81 | five buckets; `Dashboard.WeekBucketsShape` gives their titles and bounds, and `Dashboard.WeekBucketsCover` their span |
| Dashboard.Segments | pages/Dashboard.tsx:82-89 | seven segments; `Dashboard.SegmentsSplitTotal` gives their values |
| Dashboard.HourBucketsShape | pages/Dashboard.tsx:56-63 | there are six 4-hour buckets labelled 0h to 20h, each ending where the next starts, spanning from 27 to 3 hours before `now` |
| Dashboard.HourBucketsCover | pages/Dashboard.tsx:56-63 | an instant falls in some 24h bucket exactly when it lies between 27 and 3 hours before `now`: the last three hours are not charted |
| Dashboard.BoundaryCountedTwice | pages/Dashboard.tsx:91-94 | a log stamped exactly on a boundary between two 24h buckets is counted in both, because both bounds are inclusive |
| Dashboard.WeekBucketsShape | pages/Dashboard.tsx:74-81 | titles W1 to W5, oldest first; bucket k runs from 5 - k weeks to 4 - k weeks before `now`, so the first starts 35 days back and the last ends at `now` |
| Dashboard.WeekBucketsCover | pages/Dashboard.tsx:74-81 | there are five adjacent week buckets, and an instant falls in one exactly when it lies within 35 days before `now` |
| Dashboard.InBucket | pages/Dashboard.tsx:91-94 | a stamp is in a bucket when it lies between the bucket's start and end, both included; `Dashboard.BoundaryCountedTwice` shows the consequence |
| Dashboard.BucketCount | pages/Dashboard.tsx:91-94 | the number of logs in a bucket, at most the whole history, and zero exactly when no log lies in it |
| Dashboard.Tally | pages/Dashboard.tsx:91-94 | one chart point per bucket, with the bucket's title and a value bounded by the history's length |
| Dashboard.SegmentsSplitTotal | pages/Dashboard.tsx:82-89 | the seven segments add up to the total; the first six get `total / 7` each and the last also takes the remainder |
| Dashboard.GrowthRate | pages/Dashboard.tsx:98-102 | "+18%" exactly for 24h, "+12%" exactly for 7d, and "+4%" for every other window |
| Dashboard.WelcomeMessage | pages/Dashboard.tsx:110-114 | the leads greeting exactly for the Leads intent, the expert-content greeting exactly for the Long-form intent, and the default otherwise, including when there are no preferences |
| SignalService.RequestText | ai/signalService.ts:26 | the request text; `SignalService.RequestTextMentions` gives what it names |
| SignalService.RequestTextMentions | ai/signalService.ts:26 | the request names the query and the intent, or "General" when the intent is missing or empty |
| SignalService.ResponseText | ai/signalService.ts:50 | a missing or empty reply text is read as "[]"; any other text is passed on unchanged |
| SignalService.SourceUrl | ai/signalService.ts:54-55 | the first chunk's web uri when that chunk has a web entry, and no URL when there are no chunks or the first has no web entry |
| SignalService.DiscoverSignals | ai/signalService.ts:23-67 | a failed call or an undecodable reply yields no posts; a decoded reply yields its decoded items normalised, one post per item |
| SignalService.EmptyReplyYieldsNothing | ai/signalService.ts:50-63 | a reply that decodes to zero items yields no posts |
| SignalService.MissingTextYieldsNothing | ai/signalService.ts:50-51 | a reply without text yields no posts when "[]" decodes to the empty array |
| SignalService.Normalize | ai/signalService.ts:57-63 | one post per decoded item; `SignalService.NormalizeFields` gives each post's fields |
| SignalService.Avatar | ai/signalService.ts:60 | the avatar URL contains the author's handle |
| SignalService.ToPost | ai/signalService.ts:57-63 | one item's post; `SignalService.NormalizeFields` gives its fields |
| SignalService.PostId | ai/signalService.ts:59 | an id starting with `ai-`; `SignalService.PostIdInjective` shows that distinct time and index pairs give distinct ids |
| SignalService.NormalizeFields | ai/signalService.ts:57-63 | one post per item, in order, with the item's fields copied through, id `ai-<time>-<index>` built from the clock reading for that item, the handle-keyed avatar URL, not saved, and the batch's source URL |
| SignalService.PostIdInjective | ai/signalService.ts:59 | two ids are equal exactly when both their times and their indices are |
| SignalService.BatchIdsDistinct | ai/signalService.ts:59 | the ids of one batch are pairwise distinct |
| SignalService.SharedSourceUrl | ai/signalService.ts:54-62 | every post of a batch carries the same source URL: the first chunk's uri, or none when there are no chunks |
| App.LoadPrefs | App.tsx:15-18 | the stored preferences, or "not onboarded, no intent" on a first visit |
| App.GateRoutes | App.tsx:31-39 | "/" shows the dashboard exactly when onboarded and otherwise redirects to onboarding; "/onboarding" redirects to "/" exactly when onboarded and otherwise shows onboarding |
| App.AtMostOneRedirect | App.tsx:31-39 | following a redirect always lands on a page, so the two gated routes never loop |
| App.RoutePath | App.tsx:31-44 | the path as the router compares it: lower-cased, with trailing slashes dropped, never longer than the path |
| App.Gated | App.tsx:31-39 | the paths the two onboarding-gated routes match: "/onboarding" in any case, and "/" (one or more slashes); `App.RedirectTargetPaths` and `App.GateRoutes` use it |
| App.Route | App.tsx:31-44 | only the two gated paths redirect, each to the other, "/" exactly when onboarded; the dashboard is shown only to an onboarded user and the onboarding page only to one who is not |
| App.RouteVariants | App.tsx:31-44 | "/Discovery" and "/discovery/" show Discovery, "/Onboarding" is gated like "/onboarding", and "//" renders like "/" |
| App.OtherRoutesIgnorePrefs | App.tsx:40-44 | every path the gate does not match renders the same whatever the preferences, and shows a page exactly when its case-folded, slash-trimmed form is one of the five listed paths |
| App.AppState.constructor | App.tsx:15-22 | the shell starts with the loaded preferences and persists them |
| App.AppState.HandleOnboard | App.tsx:24-26 | onboarding records the intent, marks the user onboarded, persists that, and from then on "/" shows the dashboard and "/onboarding" redirects home |
| ResultCard.IsVideo | features/search/ResultCard.tsx:19 | a post is a video when its type is `Video`; `ResultCard.Card` states what follows from it |
| ResultCard.Badge | features/search/ResultCard.tsx:41-46 | green exactly for leads, blue exactly for threads, indigo exactly for videos, and purple for links and anything else |
| ResultCard.VideoLabel | features/search/ResultCard.tsx:61 | the duration label; "Play" for content without the marker (its other case is stated by `ResultCard.VideoLabelBetweenMarkers`) |
| ResultCard.VideoLabelBetweenMarkers | features/search/ResultCard.tsx:61 | for any content with the marker, the label is the piece from just past the first marker up to the second marker or the end, with the first `]` of that piece removed when it has one |
| ResultCard.BracketBeforeMarker | features/search/ResultCard.tsx:61 | a `[` before the marker does not change the label: `[1] [Video: 3:00]` is labelled "3:00" |
| ResultCard.VideoLabelPlay | features/search/ResultCard.tsx:61 | any content without the `[Video: ` marker is labelled "Play", whatever other brackets it holds |
| ResultCard.VideoLabelOf | features/search/ResultCard.tsx:61 | for content `intro [Video: d] tail` with no other bracket, the label is `d` followed by the tail |
| ResultCard.FixtureVideoLabels | features/search/ResultCard.tsx:61 | the two fixture videos are labelled "12:45" and "0:45" |
| ResultCard.Card | features/search/ResultCard.tsx:19-83 | a card shows a video label exactly for video posts, a solid bookmark exactly for saved ones, its category badge, and passes the post's own id to the save handler |
| ResultCard.FixtureCardsLabelled | features/search/ResultCard.tsx:55-64 | a fixture card shows a video label exactly when its content has the marker, and the two labels are "12:45" and "0:45" |

## Left out

- The markup, styling, icons and animations of every view and component. `ResultCard.Card` keeps only what a card shows that depends on the post.
- The pages Alerts, Settings, SavedSearches and Onboarding, and the components SearchChart, Layout, UpgradeModal, EmptyStateIllustration and ResultSkeleton, because they are presentational. The store operations that SavedSearches calls are modelled in `Storage.Store`.
- `localStorage` and JSON serialisation. Each key is an `Option` field of `Storage.Store`. Malformed stored data and storage write failures are not modelled: the source does not handle them and lets them throw.
- `Date.now()` and `Math.random()`. Each clock reading is a parameter: `now`, the two readings of `Storage.Store.LogSearch`, and the per-item `clock` of `SignalService.Normalize`. The seed history's random offsets are a parameter `jitter`: 42 whole milliseconds, each below 30 days. In the source only the seed history is fractional (`Math.random()` times 30 days); the other stamps are whole milliseconds.
- Dashboard.ChartData: the 7-day buckets rely on the local calendar (`getDay`, `setHours`). They are abstracted as a parameter `calendar` that maps an instant to the day containing it, with its weekday name.
- Dashboard.FilteredHistoryCustom: date parsing of the custom-range inputs is not modelled. The range is given as optional milliseconds, and an invalid date, which the source turns into NaN, is not represented.
- The dashboard's `alertsSent` figure, because it depends on `Math.random()` alone.
- The remote generative-search call in `discoverSignals` and its system prompt. The reply, or its absence when the call throws, is a parameter of `SignalService.DiscoverSignals`.
- `JSON.parse` of the reply. It is a parameter `decode` that returns the decoded items or `None`. Items whose fields are missing or mistyped are not represented: the source copies them through unchecked, and decoded items are typed here.
- The discovery client is not wired into any view. The Discovery view never calls `discoverSignals` (its Analyze button has no handler), so the discovered posts are not wired into `Discovery.DiscoveryPage`.
- The 600 ms debounce timer in Discovery. `Discovery.DiscoveryPage.CommitPendingLog` models what the timer does when it fires; the cancellation of pending timers is not modelled.
- The 2-second timer that hides the "Saved!" confirmation after `Discovery.DiscoveryPage.HandleSaveSearch`.
- The `MOCK_POSTS` import of both views. It is the `catalog` field, which the constructors set to `Constants.MockPosts`.
- Text.ToLower: ASCII letters only; Unicode case mapping is not modelled.
- Text.IsWhitespace: covers the ASCII white space, no-break space, the byte-order mark and the line and paragraph separators; the other Unicode space separators (category Zs) that `trim()` also removes are not listed.
- App.Route: the router's case-insensitive match is modelled on ASCII letters only, and percent-decoding of the path is not modelled.
- Concurrency of overlapping discovery calls, because the source runs them on a single event loop without coordination.
