/** The filter-and-count scheme the Discovery and Bookmarks views share:
    the category tabs and the per-category counts over a base list. */
module PostFilters {
  import opened Seqs
  import opened Types

  /** The count shown on each tab. */
  datatype FilterCounts = FilterCounts(all: nat, leads: nat, threads: nat, links: nat, video: nat) {
    /** The count shown on tab `f`. */
    function Get(f: ContentType): nat {
      match f
      case All => all
      case Leads => leads
      case Threads => threads
      case Links => links
      case Video => video
    }
  }

  /** `activeFilter === 'All' || post.type === activeFilter`. */
  predicate MatchesFilter(f: ContentType, p: Post) {
    f == All || p.kind == f
  }

  /** `p => p.type === k`. */
  function OfKind(k: ContentType): Post -> bool {
    (p: Post) => p.kind == k
  }

  /** The `filterCounts` object over an already filtered base list. */
  function CountsOf(base: seq<Post>): (c: FilterCounts)
    ensures c.all == |base|
    ensures c.leads <= |base| && c.threads <= |base| && c.links <= |base| && c.video <= |base|
  {
    FilterCounts(|base|, |Filter(OfKind(Leads), base)|, |Filter(OfKind(Threads), base)|,
      |Filter(OfKind(Links), base)|, |Filter(OfKind(Video), base)|)
  }

  /** Tab `f`'s count is the number of base posts that tab shows. */
  lemma CountsOfTab(base: seq<Post>, f: ContentType)
    ensures CountsOf(base).Get(f) == |Filter((p: Post) => MatchesFilter(f, p), base)|
  {
    if f == All {
      FilterKeepsAll((p: Post) => MatchesFilter(f, p), base);
    } else {
      FilterCongruent((p: Post) => MatchesFilter(f, p), OfKind(f), base);
    }
  }

  /** When no post carries the pseudo-category `All`, the four category
      counts add up to the `All` count. */
  lemma {:induction false} CountsPartition(base: seq<Post>)
    requires forall i :: 0 <= i < |base| ==> base[i].kind != All
    ensures var c := CountsOf(base); c.all == c.leads + c.threads + c.links + c.video
    decreases |base|
  {
    if base != [] {
      CountsPartition(base[1..]);
    }
  }
}
