/** The Discovery view (pages/Discovery.tsx): the fixture posts with their
    bookmark flags, a text query, a category tab and an engagement threshold. */
module Discovery {
  import opened Wrappers
  import opened Text
  import opened Seqs
  import opened Types
  import opened Constants
  import opened Storage
  import opened PostFilters

  /** Content or author name contains the query, ignoring case. */
  predicate MatchesSearch(p: Post, query: string) {
    Contains(ToLower(p.content), ToLower(query)) || Contains(ToLower(p.authorName), ToLower(query))
  }

  /** The posts passing the text query and the engagement threshold. */
  function BaseResults(posts: seq<Post>, query: string, minEngagement: int): (r: seq<Post>)
    ensures forall p :: p in r <==> p in posts && MatchesSearch(p, query) && p.likes >= minEngagement
  {
    Filter((p: Post) => MatchesSearch(p, query) && p.likes >= minEngagement, posts)
  }

  /** `filterCounts`: the category predicate is left out of the base. */
  function DiscoveryCounts(posts: seq<Post>, query: string, minEngagement: int): (c: FilterCounts)
    ensures c.all == |BaseResults(posts, query, minEngagement)| <= |posts|
  {
    CountsOf(BaseResults(posts, query, minEngagement))
  }

  /** `filteredPosts`: text match AND category AND engagement. */
  function FilteredPosts(posts: seq<Post>, query: string, f: ContentType, minEngagement: int): (r: seq<Post>)
    ensures forall p :: p in r <==> p in BaseResults(posts, query, minEngagement) && (f == All || p.kind == f)
  {
    Filter((p: Post) => MatchesSearch(p, query) && MatchesFilter(f, p) && p.likes >= minEngagement, posts)
  }

  /** The visible posts are an order-preserving subsequence of the posts,
      and a post is visible exactly when it meets all three conditions. */
  lemma FilteredPostsMeaning(posts: seq<Post>, query: string, f: ContentType, minEngagement: int)
    ensures var r := FilteredPosts(posts, query, f, minEngagement);
      && IsSubsequence(r, posts)
      && forall p :: p in r <==>
           p in posts && MatchesSearch(p, query) && (f == All || p.kind == f) && p.likes >= minEngagement
  {
    FilterIsSubsequence((p: Post) => MatchesSearch(p, query) && MatchesFilter(f, p) && p.likes >= minEngagement, posts);
  }

  /** With an empty query, the `All` tab and a threshold no post falls
      below, every post is visible, in order. */
  lemma FilteredPostsUnfiltered(posts: seq<Post>, minEngagement: int)
    requires forall i :: 0 <= i < |posts| ==> posts[i].likes >= minEngagement
    ensures FilteredPosts(posts, "", All, minEngagement) == posts
  {
    forall p | p in posts ensures MatchesSearch(p, "") {
      ContainsEmpty(ToLower(p.content));
    }
    FilterKeepsAll((p: Post) => MatchesSearch(p, "") && MatchesFilter(All, p) && p.likes >= minEngagement, posts);
  }

  /** Each tab's count is the number of posts that tab would show. */
  lemma CountsAgreeWithTabs(posts: seq<Post>, query: string, minEngagement: int, f: ContentType)
    ensures DiscoveryCounts(posts, query, minEngagement).Get(f) == |FilteredPosts(posts, query, f, minEngagement)|
  {
    var base := BaseResults(posts, query, minEngagement);
    CountsOfTab(base, f);
    FilterFilter((p: Post) => MatchesFilter(f, p), (p: Post) => MatchesSearch(p, query) && p.likes >= minEngagement,
      (p: Post) => MatchesSearch(p, query) && MatchesFilter(f, p) && p.likes >= minEngagement, posts);
  }

  /** When every post has one of the four real categories, `All` is the sum
      of the four category counts. */
  lemma CountsPartitionAll(posts: seq<Post>, query: string, minEngagement: int)
    requires forall i :: 0 <= i < |posts| ==> posts[i].kind != All
    ensures var c := DiscoveryCounts(posts, query, minEngagement);
      c.all == c.leads + c.threads + c.links + c.video
  {
    var base := BaseResults(posts, query, minEngagement);
    forall i | 0 <= i < |base| ensures base[i].kind != All {
      assert base[i] in posts;
    }
    CountsPartition(base);
  }

  /** Each post's saved flag is its id's membership in the bookmark ids. */
  predicate SavedFlagsAgree(posts: seq<Post>, ids: seq<string>) {
    forall i :: 0 <= i < |posts| ==> posts[i].isSaved == (posts[i].id in ids)
  }

  /** The load effect's `MOCK_POSTS.map(p => ({ ...p, isSaved: ids.includes(p.id) }))`. */
  function WithSavedFlags(posts: seq<Post>, ids: seq<string>): (r: seq<Post>)
    ensures |r| == |posts| && SavedFlagsAgree(r, ids)
    ensures forall i :: 0 <= i < |r| ==> r[i].(isSaved := posts[i].isSaved) == posts[i]
  {
    seq(|posts|, i requires 0 <= i < |posts| => posts[i].(isSaved := posts[i].id in ids))
  }

  /** handleSaveResult's `prev.map(p => p.id === id ? { ...p, isSaved: !p.isSaved } : p)`. */
  function FlipSaved(posts: seq<Post>, id: string): (r: seq<Post>)
    ensures |r| == |posts|
    ensures forall i :: 0 <= i < |r| ==> r[i].(isSaved := posts[i].isSaved) == posts[i]
    ensures forall i :: 0 <= i < |r| ==> (r[i].isSaved != posts[i].isSaved <==> posts[i].id == id)
  {
    seq(|posts|, i requires 0 <= i < |posts| =>
      if posts[i].id == id then posts[i].(isSaved := !posts[i].isSaved) else posts[i])
  }

  /** Flipping the flags of the posts with an id while the id is toggled in
      the bookmarks keeps every flag in agreement with the bookmarks. */
  lemma FlipSavedKeepsAgreement(posts: seq<Post>, ids: seq<string>, id: string)
    requires SavedFlagsAgree(posts, ids)
    ensures SavedFlagsAgree(FlipSaved(posts, id), ToggleBookmark(ids, id))
  {
    ToggleBookmarkMembership(ids, id);
  }

  /** The tab a stored search intent opens on. */
  function IntentFilter(intent: Option<Intent>): (f: ContentType)
    ensures f == Leads <==> intent == Some(LeadsIntent)
    ensures f == Threads <==> intent == Some(LongForm)
    ensures f == All <==> !(intent == Some(LeadsIntent) || intent == Some(LongForm))
  {
    if intent == Some(LeadsIntent) then Leads
    else if intent == Some(LongForm) then Threads
    else All
  }

  const LeadsInsight := "Leads matching 'SaaS outreach' are trending right now. We found 3 high-probability signals for you."
  const LongFormInsight := "Thread activity is up 12% in the tech sector. Focus on expert breakdowns for best reach."
  const DefaultInsight := "Based on your filters, we see high intent in the B2B SaaS space today across multiple channels."

  /** The insight line, chosen by the stored intent: the default one when
      there are no preferences, no intent, or the "Both" intent. */
  function AiInsightsText(prefs: Option<UserPreferences>): (r: string)
    ensures r == LeadsInsight <==> prefs.Some? && prefs.value.searchIntent == Some(LeadsIntent)
    ensures r == LongFormInsight <==> prefs.Some? && prefs.value.searchIntent == Some(LongForm)
    ensures r == DefaultInsight <==>
      prefs.None? || (prefs.value.searchIntent != Some(LeadsIntent) && prefs.value.searchIntent != Some(LongForm))
  {
    if prefs.Some? && prefs.value.searchIntent == Some(LeadsIntent) then LeadsInsight
    else if prefs.Some? && prefs.value.searchIntent == Some(LongForm) then LongFormInsight
    else DefaultInsight
  }

  /** The view's state. `isSaved` is the short "Saved!" confirmation shown
      after saving the query. */
  class DiscoveryPage {
    var searchQuery: string
    var activeFilter: ContentType
    var minEngagement: int
    var posts: seq<Post>
    var isLoading: bool
    var isSaved: bool
    var userPrefs: Option<UserPreferences>
    const store: Store
    /** The post catalogue the view draws from: the fixture posts. */
    const catalog: seq<Post>

    constructor (store: Store)
      ensures this.store == store && catalog == MockPosts
      ensures searchQuery == "" && activeFilter == All && minEngagement == 0 && posts == []
      ensures isLoading && !isSaved && userPrefs == None
    {
      this.store, catalog := store, MockPosts;
      searchQuery, activeFilter, minEngagement, posts := "", All, 0, [];
      isLoading, isSaved, userPrefs := true, false, None;
    }

    /** The load effect: adopt the stored preferences and their tab, and show
        the fixture posts flagged by the current bookmarks. */
    method Load(storedPrefs: Option<UserPreferences>)
      modifies this
      ensures storedPrefs.Some? ==> userPrefs == storedPrefs && activeFilter == IntentFilter(storedPrefs.value.searchIntent)
      ensures storedPrefs.None? ==> userPrefs == old(userPrefs) && activeFilter == old(activeFilter)
      ensures posts == WithSavedFlags(catalog, store.GetBookmarkedPostIds())
      ensures SavedFlagsAgree(posts, store.GetBookmarkedPostIds())
      ensures !isLoading
      ensures searchQuery == old(searchQuery) && minEngagement == old(minEngagement) && isSaved == old(isSaved)
    {
      if storedPrefs.Some? {
        userPrefs := storedPrefs;
        activeFilter := IntentFilter(storedPrefs.value.searchIntent);
      }
      var bookmarkedIds := store.GetBookmarkedPostIds();
      posts := WithSavedFlags(catalog, bookmarkedIds);
      isLoading := false;
    }

    /** handleSaveResult: toggle the bookmark and flip the flags of the posts
        with that id; flags that agreed with the bookmarks still agree. */
    method HandleSaveResult(id: string)
      modifies this, store
      ensures store.bookmarks == Some(ToggleBookmark(old(store.GetBookmarkedPostIds()), id))
      ensures store.savedSearches == old(store.savedSearches) && store.searchHistory == old(store.searchHistory)
      ensures posts == FlipSaved(old(posts), id)
      ensures old(SavedFlagsAgree(posts, store.GetBookmarkedPostIds())) ==> SavedFlagsAgree(posts, store.GetBookmarkedPostIds())
      ensures searchQuery == old(searchQuery) && activeFilter == old(activeFilter)
      ensures minEngagement == old(minEngagement) && isLoading == old(isLoading)
      ensures isSaved == old(isSaved) && userPrefs == old(userPrefs)
    {
      ghost var before := store.GetBookmarkedPostIds();
      ghost var agreed := SavedFlagsAgree(posts, before);
      var _ := store.TogglePostBookmark(id);
      if agreed {
        FlipSavedKeepsAgreement(posts, before, id);
      }
      posts := FlipSaved(posts, id);
    }

    /** handleSaveSearch: a blank query saves nothing. */
    method HandleSaveSearch(now: nat)
      modifies this`isSaved, store`savedSearches
      ensures IsBlank(searchQuery) ==> store.savedSearches == old(store.savedSearches) && isSaved == old(isSaved)
      ensures !IsBlank(searchQuery) ==>
        store.savedSearches == Some([SavedSearch("s-" + Decimal(now), searchQuery, "Just now", false)]
                                    + old(store.GetSavedSearches()))
        && isSaved
      ensures store.searchHistory == old(store.searchHistory) && store.bookmarks == old(store.bookmarks)
    {
      TrimEmptyIffBlank(searchQuery);
      if Trim(searchQuery) == "" {
        return;
      }
      var _ := store.SaveSearch(searchQuery, now);
      isSaved := true;
    }

    /** The debounced history effect once its quiet period has passed: the
        query is logged unless the view is still loading or the query is
        blank. `idTime` and `stampTime` are the two clock readings of the
        store's logSearch. */
    method CommitPendingLog(idTime: nat, stampTime: nat)
      modifies store`searchHistory
      ensures (isLoading || IsBlank(searchQuery)) ==> store.searchHistory == old(store.searchHistory)
      ensures !(isLoading || IsBlank(searchQuery)) ==>
        store.searchHistory == Some([SearchLog("log-" + Decimal(idTime), searchQuery, stampTime)] + old(store.GetSearchHistory()))
      ensures store.savedSearches == old(store.savedSearches) && store.bookmarks == old(store.bookmarks)
    {
      if isLoading {
        return;
      }
      TrimEmptyIffBlank(searchQuery);
      if Trim(searchQuery) != "" {
        store.LogSearch(searchQuery, idTime, stampTime);
      }
    }
  }

  /** The scenario of a low-engagement lead and a popular video with a
      threshold of 50: only the video shows, and only the `All` and `Video`
      tabs count one post. */
  lemma ThresholdScenario(lead: Post, video: Post)
    requires lead.likes == 10 && lead.kind == Leads
    requires video.likes == 60 && video.kind == Video
    ensures FilteredPosts([lead, video], "", All, 50) == [video]
    ensures DiscoveryCounts([lead, video], "", 50) == FilterCounts(1, 0, 0, 0, 1)
  {
    ContainsEmpty(ToLower(lead.content));
    ContainsEmpty(ToLower(video.content));
    assert [lead, video][1..] == [video];
    assert [video][1..] == [];
    assert FilteredPosts([], "", All, 50) == [];
    assert FilteredPosts([video], "", All, 50) == [video];
  }
}
