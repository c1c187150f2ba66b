/** The post-processing half of the discovery client (ai/signalService.ts):
    turning the provider's decoded reply, or a failure, into posts. The
    remote call itself, and the JSON decoder, are parameters. */
module SignalService {
  import opened Wrappers
  import opened Text
  import opened Types

  /** One decoded item of the provider's JSON array. */
  datatype RawSignal = RawSignal(
    authorName: string,
    authorHandle: string,
    content: string,
    likes: int,
    replies: int,
    kind: ContentType,
    timestamp: string)

  datatype Web = Web(uri: Option<string>)
  datatype GroundingChunk = GroundingChunk(web: Option<Web>)

  /** What the provider call returns: its text, which may be missing, and
      the grounding chunks of the first candidate (empty when absent). */
  datatype ProviderReply = ProviderReply(text: Option<string>, groundingChunks: seq<GroundingChunk>)

  /** The request sent to the provider; a missing or empty intent reads as
      "General". */
  function RequestText(query: string, intent: Option<string>): string {
    var category := if intent.None? || intent.value == "" then "General" else intent.value;
    "Search for the latest activity on X (Twitter) about: " + query + ". Intent category: " + category
      + ". Return 4-5 high-quality matches."
  }

  /** The request embeds the query and the intent category. */
  lemma RequestTextMentions(query: string, intent: Option<string>)
    ensures Contains(RequestText(query, intent), query)
    ensures intent.Some? && intent.value != "" ==> Contains(RequestText(query, intent), intent.value)
    ensures intent.None? || intent.value == "" ==> Contains(RequestText(query, intent), "General")
  {
    var category := if intent.None? || intent.value == "" then "General" else intent.value;
    var head := "Search for the latest activity on X (Twitter) about: ";
    var tail := ". Return 4-5 high-quality matches.";
    var middle := ". Intent category: ";
    assert RequestText(query, intent) == head + query + (middle + category + tail);
    ContainsInfix(head, query, middle + category + tail);
    assert RequestText(query, intent) == (head + query + middle) + category + tail;
    ContainsInfix(head + query + middle, category, tail);
  }

  /** The text handed to the decoder: a missing or empty text reads as "[]". */
  function ResponseText(text: Option<string>): (r: string)
    ensures text.None? || text.value == "" ==> r == "[]"
    ensures text.Some? && text.value != "" ==> r == text.value
  {
    if text.Some? && text.value != "" then text.value else "[]"
  }

  /** The attribution link: the first grounding chunk's web uri, if any. */
  function SourceUrl(chunks: seq<GroundingChunk>): (r: Option<string>)
    ensures chunks == [] ==> r.None?
    ensures r.Some? ==> chunks[0].web.Some? && chunks[0].web.value.uri == r
    ensures |chunks| > 0 && chunks[0].web.Some? ==> r == chunks[0].web.value.uri
    ensures |chunks| > 0 && chunks[0].web.None? ==> r.None?
  {
    if |chunks| > 0 && chunks[0].web.Some? then chunks[0].web.value.uri else None
  }

  /** The id of the item at `index`, built from the time read for it. */
  function PostId(time: nat, index: nat): (r: string)
    ensures |r| > 3 && r[..3] == "ai-"
  {
    "ai-" + Decimal(time) + "-" + Decimal(index)
  }

  /** The avatar URL, keyed by the author's handle. */
  function Avatar(handle: string): (r: string)
    ensures Contains(r, handle)
  {
    ContainsInfix("https://picsum.photos/seed/", handle, "/100/100");
    "https://picsum.photos/seed/" + handle + "/100/100"
  }

  function ToPost(sig: RawSignal, index: nat, url: Option<string>, time: nat): Post {
    Post(PostId(time, index), sig.authorHandle, sig.authorName, Avatar(sig.authorHandle), sig.content,
         sig.likes, sig.replies, sig.timestamp, false, sig.kind, url)
  }

  /** The `map` over the decoded items. `clock(i)` is the time the source
      reads while building item `i`'s id: the clock is read once per item. */
  function Normalize(raws: seq<RawSignal>, chunks: seq<GroundingChunk>, clock: nat -> nat): (r: seq<Post>)
    ensures |r| == |raws|
  {
    var url := SourceUrl(chunks);
    seq(|raws|, i requires 0 <= i < |raws| => ToPost(raws[i], i, url, clock(i)))
  }

  /** `discoverSignals` after the provider call: `reply` is `None` when the
      call failed and `decode` returns `None` when the text is not a JSON
      array of signals; every failure yields no posts. */
  function DiscoverSignals(reply: Option<ProviderReply>, decode: string -> Option<seq<RawSignal>>, clock: nat -> nat): (r: seq<Post>)
    ensures reply.None? ==> r == []
    ensures reply.Some? && decode(ResponseText(reply.value.text)).None? ==> r == []
    ensures reply.Some? && decode(ResponseText(reply.value.text)).Some? ==>
      |r| == |decode(ResponseText(reply.value.text)).value|
    ensures reply.Some? && decode(ResponseText(reply.value.text)).Some? ==>
      r == Normalize(decode(ResponseText(reply.value.text)).value, reply.value.groundingChunks, clock)
  {
    if reply.None? then []
    else match decode(ResponseText(reply.value.text))
      case None => []
      case Some(raws) => Normalize(raws, reply.value.groundingChunks, clock)
  }

  /** A reply whose text decodes to zero items yields no posts. */
  lemma EmptyReplyYieldsNothing(reply: ProviderReply, decode: string -> Option<seq<RawSignal>>, clock: nat -> nat)
    requires decode(ResponseText(reply.text)) == Some([])
    ensures DiscoverSignals(Some(reply), decode, clock) == []
  {
  }

  /** A reply without text decodes as the empty array and yields no posts. */
  lemma MissingTextYieldsNothing(reply: ProviderReply, decode: string -> Option<seq<RawSignal>>, clock: nat -> nat)
    requires reply.text.None? || reply.text.value == ""
    requires decode("[]") == Some([])
    ensures DiscoverSignals(Some(reply), decode, clock) == []
  {
  }

  /** One post per raw item, in order: the item's fields copied through, a
      per-index id, the avatar built from the handle, not saved, and the
      batch's single source url. */
  lemma NormalizeFields(raws: seq<RawSignal>, chunks: seq<GroundingChunk>, clock: nat -> nat)
    ensures var r := Normalize(raws, chunks, clock);
      && |r| == |raws|
      && forall i :: 0 <= i < |r| ==>
        && r[i].authorName == raws[i].authorName && r[i].authorHandle == raws[i].authorHandle
        && r[i].content == raws[i].content && r[i].likes == raws[i].likes
        && r[i].replies == raws[i].replies && r[i].kind == raws[i].kind
        && r[i].timestamp == raws[i].timestamp
        && r[i].id == "ai-" + Decimal(clock(i)) + "-" + Decimal(i)
        && r[i].avatar == "https://picsum.photos/seed/" + raws[i].authorHandle + "/100/100"
        && !r[i].isSaved
        && r[i].sourceUrl == SourceUrl(chunks)
  {
    var r := Normalize(raws, chunks, clock);
    forall i | 0 <= i < |r| ensures r[i] == ToPost(raws[i], i, SourceUrl(chunks), clock(i)) {
    }
  }

  /** Digit strings joined by '-' split back uniquely: the first '-' ends
      the left part. */
  lemma DashSplit(a: string, x: string, b: string, y: string)
    requires forall k :: 0 <= k < |a| ==> '0' <= a[k] <= '9'
    requires forall k :: 0 <= k < |b| ==> '0' <= b[k] <= '9'
    requires a + "-" + x == b + "-" + y
    ensures a == b && x == y
  {
    var s := a + "-" + x;
    assert s[|a|] == '-';
    assert s[|b|] == '-';
    assert forall k :: 0 <= k < |a| ==> s[k] == a[k];
    assert forall k :: 0 <= k < |b| ==> s[k] == b[k];
    assert |a| == |b|;
    assert a == s[..|a|] == b;
    assert x == s[|a| + 1..] == y;
  }

  /** A common prefix cancels. */
  lemma PrefixCancel(p: string, x: string, y: string)
    requires p + x == p + y
    ensures x == y
  {
    assert x == (p + x)[|p|..];
    assert y == (p + y)[|p|..];
  }

  /** An id splits back into its two digit strings. */
  lemma IdPartsInjective(t1: string, i1: string, t2: string, i2: string)
    requires forall k :: 0 <= k < |t1| ==> '0' <= t1[k] <= '9'
    requires forall k :: 0 <= k < |t2| ==> '0' <= t2[k] <= '9'
    requires "ai-" + t1 + "-" + i1 == "ai-" + t2 + "-" + i2
    ensures t1 == t2 && i1 == i2
  {
    assert "ai-" + t1 + "-" + i1 == "ai-" + (t1 + "-" + i1);
    assert "ai-" + t2 + "-" + i2 == "ai-" + (t2 + "-" + i2);
    PrefixCancel("ai-", t1 + "-" + i1, t2 + "-" + i2);
    DashSplit(t1, i1, t2, i2);
  }

  /** Two ids are equal exactly when both the time and the index are. */
  lemma PostIdInjective(n1: nat, i1: nat, n2: nat, i2: nat)
    ensures PostId(n1, i1) == PostId(n2, i2) <==> n1 == n2 && i1 == i2
  {
    if PostId(n1, i1) == PostId(n2, i2) {
      IdPartsInjective(Decimal(n1), Decimal(i1), Decimal(n2), Decimal(i2));
      DecimalInjective(n1, n2);
      DecimalInjective(i1, i2);
    }
  }

  /** The ids of one batch are pairwise distinct. */
  lemma BatchIdsDistinct(raws: seq<RawSignal>, chunks: seq<GroundingChunk>, clock: nat -> nat, i: nat, j: nat)
    requires i < j < |raws|
    ensures Normalize(raws, chunks, clock)[i].id != Normalize(raws, chunks, clock)[j].id
  {
    PostIdInjective(clock(i), i, clock(j), j);
  }

  /** Every post of a batch carries the same source url: the first chunk's
      uri when there are chunks, and none otherwise. */
  lemma SharedSourceUrl(raws: seq<RawSignal>, chunks: seq<GroundingChunk>, clock: nat -> nat, i: nat, j: nat)
    requires i < |raws| && j < |raws|
    ensures Normalize(raws, chunks, clock)[i].sourceUrl == Normalize(raws, chunks, clock)[j].sourceUrl
    ensures chunks == [] ==> Normalize(raws, chunks, clock)[i].sourceUrl.None?
    ensures chunks != [] && chunks[0].web.Some? ==> Normalize(raws, chunks, clock)[i].sourceUrl == chunks[0].web.value.uri
  {
    NormalizeFields(raws, chunks, clock);
  }
}
