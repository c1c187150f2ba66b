/** The Bookmarks view (pages/Bookmarks.tsx): the bookmarked fixture posts,
    a category tab and an engagement threshold; no text query. */
module Bookmarks {
  import opened Wrappers
  import opened Seqs
  import opened Types
  import opened Constants
  import opened Storage
  import opened PostFilters

  /** The load effect's `MOCK_POSTS.filter(p => ids.includes(p.id)).map(p => ({ ...p, isSaved: true }))`. */
  function BookmarkedPosts(posts: seq<Post>, ids: seq<string>): (r: seq<Post>)
    ensures |r| <= |posts|
    ensures forall i :: 0 <= i < |r| ==> r[i].isSaved
  {
    var kept := Filter((p: Post) => p.id in ids, posts);
    seq(|kept|, i requires 0 <= i < |kept| => kept[i].(isSaved := true))
  }

  /** Every post on view is saved and bookmarked. */
  predicate AllBookmarked(view: seq<Post>, ids: seq<string>) {
    forall i :: 0 <= i < |view| ==> view[i].isSaved && view[i].id in ids
  }

  /** The loaded posts are exactly the given posts whose id is bookmarked,
      in their order, each marked saved. */
  lemma BookmarkedPostsMeaning(posts: seq<Post>, ids: seq<string>)
    ensures var kept := Filter((p: Post) => p.id in ids, posts);
      var r := BookmarkedPosts(posts, ids);
      && IsSubsequence(kept, posts)
      && (forall p :: p in kept <==> p in posts && p.id in ids)
      && |r| == |kept|
      && (forall i :: 0 <= i < |r| ==> r[i] == kept[i].(isSaved := true))
      && AllBookmarked(r, ids)
  {
    var kept := Filter((p: Post) => p.id in ids, posts);
    FilterIsSubsequence((p: Post) => p.id in ids, posts);
    forall i | 0 <= i < |kept| ensures kept[i].id in ids {
      assert kept[i] in kept;
    }
  }

  /** The posts at or above the engagement threshold. */
  function Engaged(posts: seq<Post>, minEngagement: int): (r: seq<Post>)
    ensures |r| <= |posts|
    ensures forall p :: p in r <==> p in posts && p.likes >= minEngagement
  {
    Filter((p: Post) => p.likes >= minEngagement, posts)
  }

  /** `filterCounts`: the threshold alone, with no text query. */
  function BookmarksCounts(posts: seq<Post>, minEngagement: int): (c: FilterCounts)
    ensures c.all == |Engaged(posts, minEngagement)| <= |posts|
  {
    CountsOf(Engaged(posts, minEngagement))
  }

  /** `filteredPosts`: category AND engagement. */
  function BookmarksFiltered(posts: seq<Post>, f: ContentType, minEngagement: int): (r: seq<Post>)
    ensures forall p :: p in r <==> p in Engaged(posts, minEngagement) && (f == All || p.kind == f)
  {
    Filter((p: Post) => MatchesFilter(f, p) && p.likes >= minEngagement, posts)
  }

  /** The visible posts are an order-preserving subsequence, and a post is
      visible exactly when it is on the tab and meets the threshold. */
  lemma BookmarksFilteredMeaning(posts: seq<Post>, f: ContentType, minEngagement: int)
    ensures var r := BookmarksFiltered(posts, f, minEngagement);
      && IsSubsequence(r, posts)
      && forall p :: p in r <==> p in posts && (f == All || p.kind == f) && p.likes >= minEngagement
  {
    FilterIsSubsequence((p: Post) => MatchesFilter(f, p) && p.likes >= minEngagement, posts);
  }

  /** Each tab's count is the number of posts that tab would show. */
  lemma BookmarksCountsAgreeWithTabs(posts: seq<Post>, minEngagement: int, f: ContentType)
    ensures BookmarksCounts(posts, minEngagement).Get(f) == |BookmarksFiltered(posts, f, minEngagement)|
  {
    CountsOfTab(Engaged(posts, minEngagement), f);
    FilterFilter((p: Post) => MatchesFilter(f, p), (p: Post) => p.likes >= minEngagement,
      (p: Post) => MatchesFilter(f, p) && p.likes >= minEngagement, posts);
  }

  /** On the `All` tab with a threshold no post falls below, every post shows. */
  lemma BookmarksUnfiltered(posts: seq<Post>, minEngagement: int)
    requires forall i :: 0 <= i < |posts| ==> posts[i].likes >= minEngagement
    ensures BookmarksFiltered(posts, All, minEngagement) == posts
  {
    FilterKeepsAll((p: Post) => MatchesFilter(All, p) && p.likes >= minEngagement, posts);
  }

  /** handleToggleSave's `prev.filter(p => p.id !== id)`. */
  function WithoutPost(posts: seq<Post>, id: string): (r: seq<Post>)
    ensures |r| <= |posts|
    ensures forall p :: p in r ==> p.id != id
  {
    Filter((p: Post) => p.id != id, posts)
  }

  /** Unsaving a post drops every post with its id and keeps the others in
      order; the posts left on view are all still bookmarked. */
  lemma WithoutPostMeaning(view: seq<Post>, ids: seq<string>, id: string)
    ensures var r := WithoutPost(view, id);
      && IsSubsequence(r, view)
      && (forall p :: p in r <==> p in view && p.id != id)
    ensures AllBookmarked(view, ids) ==> AllBookmarked(WithoutPost(view, id), ToggleBookmark(ids, id))
  {
    var r := WithoutPost(view, id);
    FilterIsSubsequence((p: Post) => p.id != id, view);
    ToggleBookmarkMembership(ids, id);
    if AllBookmarked(view, ids) {
      forall i | 0 <= i < |r| ensures r[i].isSaved && r[i].id in ToggleBookmark(ids, id) {
        assert r[i] in r;
        var j :| 0 <= j < |view| && view[j] == r[i];
      }
    }
  }

  /** The view's state. */
  class BookmarksPage {
    var activeFilter: ContentType
    var minEngagement: int
    var posts: seq<Post>
    var isLoading: bool
    const store: Store
    /** The post catalogue the view draws from: the fixture posts. */
    const catalog: seq<Post>

    constructor (store: Store)
      ensures this.store == store && catalog == MockPosts
      ensures activeFilter == All && minEngagement == 0 && posts == [] && isLoading
    {
      this.store, catalog := store, MockPosts;
      activeFilter, minEngagement, posts, isLoading := All, 0, [], true;
    }

    /** The load effect: show the bookmarked fixture posts. */
    method Load()
      modifies this`posts, this`isLoading
      ensures posts == BookmarkedPosts(catalog, store.GetBookmarkedPostIds())
      ensures AllBookmarked(posts, store.GetBookmarkedPostIds())
      ensures !isLoading
    {
      var bookmarkedIds := store.GetBookmarkedPostIds();
      BookmarkedPostsMeaning(catalog, bookmarkedIds);
      posts := BookmarkedPosts(catalog, bookmarkedIds);
      isLoading := false;
    }

    /** handleToggleSave: toggle the bookmark and drop the post from view. */
    method HandleToggleSave(id: string)
      modifies this`posts, store`bookmarks
      ensures store.bookmarks == Some(ToggleBookmark(old(store.GetBookmarkedPostIds()), id))
      ensures posts == WithoutPost(old(posts), id)
      ensures old(AllBookmarked(posts, store.GetBookmarkedPostIds())) ==> AllBookmarked(posts, store.GetBookmarkedPostIds())
      ensures store.savedSearches == old(store.savedSearches) && store.searchHistory == old(store.searchHistory)
    {
      ghost var before := store.GetBookmarkedPostIds();
      WithoutPostMeaning(posts, before, id);
      var _ := store.TogglePostBookmark(id);
      posts := WithoutPost(posts, id);
    }
  }
}
