/** The local data store (utils/storage.ts): three independent collections,
    each kept under its own localStorage key and rewritten whole by every
    mutator. */
module Storage {
  import opened Wrappers
  import opened Text
  import opened Seqs
  import opened Types
  import opened Constants

  /** `searches.filter(s => s.id !== id)`. */
  function WithoutSearch(searches: seq<SavedSearch>, id: string): (r: seq<SavedSearch>)
    ensures |r| <= |searches|
    ensures forall s :: s in r ==> s.id != id
  {
    Filter((s: SavedSearch) => s.id != id, searches)
  }

  /** `searches.map(s => s.id === id ? { ...s, alertsEnabled: !s.alertsEnabled } : s)`. */
  function ToggleAlert(searches: seq<SavedSearch>, id: string): (r: seq<SavedSearch>)
    ensures |r| == |searches|
  {
    seq(|searches|, i requires 0 <= i < |searches| =>
      if searches[i].id == id then searches[i].(alertsEnabled := !searches[i].alertsEnabled)
      else searches[i])
  }

  /** The bookmark toggle: remove every occurrence of a present id, append an
      absent one at the end. */
  function ToggleBookmark(ids: seq<string>, id: string): (r: seq<string>)
    ensures |r| <= |ids| + 1
    ensures id in r <==> id !in ids
    ensures id !in ids ==> r == ids + [id]
    ensures id in ids ==> IsSubsequence(r, ids) && multiset(r) == multiset(ids)[id := 0]
  {
    if id in ids then
      var r := Filter((x: string) => x != id, ids);
      FilterIsSubsequence((x: string) => x != id, ids);
      assert forall x :: multiset(r)[x] == multiset(ids)[id := 0][x];
      r
    else ids + [id]
  }

  /** Removing keeps exactly the entries with another id, in order, with
      their multiplicities. */
  lemma WithoutSearchKeepsOthers(searches: seq<SavedSearch>, id: string)
    ensures var r := WithoutSearch(searches, id);
      && IsSubsequence(r, searches)
      && (forall s :: s in r <==> s in searches && s.id != id)
      && (forall s: SavedSearch :: s.id != id ==> multiset(r)[s] == multiset(searches)[s])
  {
    FilterIsSubsequence((s: SavedSearch) => s.id != id, searches);
  }

  /** Removing an id twice is removing it once. */
  lemma WithoutSearchIdempotent(searches: seq<SavedSearch>, id: string)
    ensures WithoutSearch(WithoutSearch(searches, id), id) == WithoutSearch(searches, id)
  {
    FilterKeepsAll((s: SavedSearch) => s.id != id, WithoutSearch(searches, id));
  }

  /** Removing an id that no entry has changes nothing. */
  lemma WithoutAbsentSearch(searches: seq<SavedSearch>, id: string)
    requires forall i :: 0 <= i < |searches| ==> searches[i].id != id
    ensures WithoutSearch(searches, id) == searches
  {
    FilterKeepsAll((s: SavedSearch) => s.id != id, searches);
  }

  /** Toggling alerts keeps the length and every field but `alertsEnabled`,
      which flips exactly on the entries with that id. */
  lemma ToggleAlertEffect(searches: seq<SavedSearch>, id: string)
    ensures var r := ToggleAlert(searches, id);
      && |r| == |searches|
      && forall i :: 0 <= i < |r| ==>
           && r[i].id == searches[i].id && r[i].query == searches[i].query
           && r[i].lastRun == searches[i].lastRun
           && (r[i].alertsEnabled != searches[i].alertsEnabled <==> searches[i].id == id)
  {
  }

  /** Toggling alerts twice restores the list. */
  lemma ToggleAlertTwice(searches: seq<SavedSearch>, id: string)
    ensures ToggleAlert(ToggleAlert(searches, id), id) == searches
  {
    var r := ToggleAlert(ToggleAlert(searches, id), id);
    assert forall i :: 0 <= i < |r| ==> r[i] == searches[i];
  }

  /** After a toggle `id` is present exactly when it was absent; every other
      id keeps its membership. */
  lemma ToggleBookmarkMembership(ids: seq<string>, id: string)
    ensures id in ToggleBookmark(ids, id) <==> id !in ids
    ensures forall x :: x != id ==> (x in ToggleBookmark(ids, id) <==> x in ids)
  {
  }

  /** Toggling twice restores membership of every id, and restores the very
      list when `id` was absent at first. */
  lemma ToggleBookmarkTwice(ids: seq<string>, id: string)
    ensures forall x :: x in ToggleBookmark(ToggleBookmark(ids, id), id) <==> x in ids
    ensures id !in ids ==> ToggleBookmark(ToggleBookmark(ids, id), id) == ids
  {
    ToggleBookmarkMembership(ids, id);
    ToggleBookmarkMembership(ToggleBookmark(ids, id), id);
    if id !in ids {
      FilterKeepsAll((x: string) => x != id, ids);
      assert Filter((x: string) => x != id, ids + [id]) == Filter((x: string) => x != id, ids) by {
        FilterAppendRejected(ids, id);
      }
    }
  }

  lemma {:induction false} FilterAppendRejected(ids: seq<string>, id: string)
    ensures Filter((x: string) => x != id, ids + [id]) == Filter((x: string) => x != id, ids)
    decreases |ids|
  {
    if ids == [] {
      assert ids + [id] == [id];
    } else {
      assert (ids + [id])[1..] == ids[1..] + [id];
      FilterAppendRejected(ids[1..], id);
    }
  }

  /** The three collections. `None` is a key that holds nothing yet, which
      each getter reads as its seed default. */
  class Store {
    var savedSearches: Option<seq<SavedSearch>>
    var searchHistory: Option<seq<SearchLog>>
    var bookmarks: Option<seq<string>>
    /** INITIAL_SEARCH_LOGS, fixed when the module is loaded. */
    const historySeed: seq<SearchLog>

    constructor (loadTime: int, jitter: seq<nat>)
      requires IsSeedJitter(jitter)
      ensures savedSearches == None && searchHistory == None && bookmarks == None
      ensures historySeed == InitialSearchLogs(loadTime, jitter)
    {
      savedSearches, searchHistory, bookmarks := None, None, None;
      historySeed := InitialSearchLogs(loadTime, jitter);
    }

    /** getSavedSearches: the stored list, or the seed when none is stored. */
    function GetSavedSearches(): (r: seq<SavedSearch>)
      reads this
      ensures savedSearches.Some? ==> r == savedSearches.value
      ensures savedSearches.None? ==> r == InitialSavedSearches
    {
      savedSearches.GetOr(InitialSavedSearches)
    }

    /** getSearchHistory: the stored log, or the generated seed. */
    function GetSearchHistory(): (r: seq<SearchLog>)
      reads this
      ensures searchHistory.Some? ==> r == searchHistory.value
      ensures searchHistory.None? ==> r == historySeed
    {
      searchHistory.GetOr(historySeed)
    }

    /** getBookmarkedPostIds: the stored ids, or none. */
    function GetBookmarkedPostIds(): (r: seq<string>)
      reads this
      ensures bookmarks.Some? ==> r == bookmarks.value
      ensures bookmarks.None? ==> r == []
    {
      bookmarks.GetOr([])
    }

    /** saveSearch: prepends a fresh entry, with no blank check and no
        de-duplication, and returns it. */
    method SaveSearch(query: string, now: nat) returns (entry: SavedSearch)
      modifies this`savedSearches
      ensures entry == SavedSearch("s-" + Decimal(now), query, "Just now", false)
      ensures savedSearches == Some([entry] + old(GetSavedSearches()))
      ensures GetSavedSearches()[0].query == query
      ensures searchHistory == old(searchHistory) && bookmarks == old(bookmarks)
    {
      entry := SavedSearch("s-" + Decimal(now), query, "Just now", false);
      savedSearches := Some([entry] + GetSavedSearches());
    }

    /** logSearch: prepends one entry. The source reads the clock twice,
        once for the id (`idTime`) and once for the stamp (`stampTime`). */
    method LogSearch(query: string, idTime: nat, stampTime: nat)
      modifies this`searchHistory
      ensures searchHistory == Some([SearchLog("log-" + Decimal(idTime), query, stampTime)] + old(GetSearchHistory()))
      ensures |GetSearchHistory()| == |old(GetSearchHistory())| + 1
      ensures savedSearches == old(savedSearches) && bookmarks == old(bookmarks)
    {
      searchHistory := Some([SearchLog("log-" + Decimal(idTime), query, stampTime)] + GetSearchHistory());
    }

    /** removeSavedSearch: drops every entry with the id and returns the rest. */
    method RemoveSavedSearch(id: string) returns (updated: seq<SavedSearch>)
      modifies this`savedSearches
      ensures updated == WithoutSearch(old(GetSavedSearches()), id)
      ensures savedSearches == Some(updated)
      ensures searchHistory == old(searchHistory) && bookmarks == old(bookmarks)
    {
      updated := WithoutSearch(GetSavedSearches(), id);
      savedSearches := Some(updated);
    }

    /** toggleSearchAlert: flips the alert flag of the entries with the id. */
    method ToggleSearchAlert(id: string) returns (updated: seq<SavedSearch>)
      modifies this`savedSearches
      ensures updated == ToggleAlert(old(GetSavedSearches()), id)
      ensures savedSearches == Some(updated)
      ensures searchHistory == old(searchHistory) && bookmarks == old(bookmarks)
    {
      updated := ToggleAlert(GetSavedSearches(), id);
      savedSearches := Some(updated);
    }

    /** togglePostBookmark: removes a present id, appends an absent one. */
    method TogglePostBookmark(id: string) returns (updated: seq<string>)
      modifies this`bookmarks
      ensures updated == ToggleBookmark(old(GetBookmarkedPostIds()), id)
      ensures bookmarks == Some(updated)
      ensures savedSearches == old(savedSearches) && searchHistory == old(searchHistory)
    {
      updated := ToggleBookmark(GetBookmarkedPostIds(), id);
      bookmarks := Some(updated);
    }
  }

  /** Saving the same query twice keeps both entries, newest first. Two saves
      in the same millisecond share an id; saves at different times do not. */
  method SaveTwice(store: Store, query: string, t1: nat, t2: nat)
    modifies store`savedSearches
    ensures |store.GetSavedSearches()| == |old(store.GetSavedSearches())| + 2
    ensures store.GetSavedSearches()[0].query == query && store.GetSavedSearches()[1].query == query
    ensures store.GetSavedSearches()[2..] == old(store.GetSavedSearches())
    ensures store.GetSavedSearches()[0].id == store.GetSavedSearches()[1].id <==> t1 == t2
  {
    var first := store.SaveSearch(query, t1);
    var second := store.SaveSearch(query, t2);
    if second.id == first.id {
      assert second.id[2..] == Decimal(t2) && first.id[2..] == Decimal(t1);
      DecimalInjective(t1, t2);
    }
  }
}
