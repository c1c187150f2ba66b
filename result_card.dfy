/** What one result card shows of a post (features/search/ResultCard.tsx),
    without its markup. */
module ResultCard {
  import opened Wrappers
  import opened Text
  import opened Types
  import opened Constants

  predicate IsVideo(p: Post) {
    p.kind == Video
  }

  datatype BadgeColor = Green | Blue | Indigo | Purple

  /** The colour of the category badge. */
  function Badge(kind: ContentType): (c: BadgeColor)
    ensures c == Green <==> kind == Leads
    ensures c == Blue <==> kind == Threads
    ensures c == Indigo <==> kind == Video
    ensures c == Purple <==> kind == Links || kind == All
  {
    match kind
    case Leads => Green
    case Threads => Blue
    case Video => Indigo
    case _ => Purple
  }

  /** The duration label of a video card: the text after the first video
      marker, up to a second marker, with its first ']' removed; "Play"
      when the content has no marker. */
  function VideoLabel(content: string): (r: string)
    ensures !Contains(content, VideoMarker) ==> r == "Play"
  {
    if Contains(content, VideoMarker) then RemoveFirst(SecondPiece(content, VideoMarker), ']') else "Play"
  }

  /** Content without the video marker is labelled "Play". */
  lemma VideoLabelPlay(content: string)
    requires !Contains(content, VideoMarker)
    ensures VideoLabel(content) == "Play"
  {
  }

  /** `j` ends the piece of `content` that starts at `i`: no marker starts
      inside it, and the content ends or a second marker starts at `j`. */
  ghost predicate PieceEnd(content: string, i: nat, j: nat) {
    i <= j <= |content|
    && (forall k :: i <= k < j ==> !OccursAt(content, VideoMarker, k))
    && (j == |content| || OccursAt(content, VideoMarker, j))
  }

  /** `shown` is `piece` with its first ']' removed, or `piece` itself when
      it has none. */
  ghost predicate LabelOfPiece(piece: string, shown: string) {
    && (']' !in piece ==> shown == piece)
    && (']' in piece ==> exists k: nat :: RemovedAt(piece, ']', k, shown))
  }

  /** The label of any content with the marker: the piece from just past the
      first marker to the second marker or the end, with its first ']'
      removed. */
  lemma VideoLabelBetweenMarkers(content: string)
    requires Contains(content, VideoMarker)
    ensures var i := IndexOf(content, VideoMarker).value + |VideoMarker|;
      exists j: nat :: PieceEnd(content, i, j) && LabelOfPiece(content[i..j], VideoLabel(content))
  {
    var i: nat := IndexOf(content, VideoMarker).value + |VideoMarker|;
    var p := SecondPiece(content, VideoMarker);
    var j: nat := i + |p|;
    assert p == content[i..j];
    assert PieceEnd(content, i, j);
    assert LabelOfPiece(p, RemoveFirst(p, ']'));
    assert VideoLabel(content) == RemoveFirst(p, ']');
    assert PieceEnd(content, i, j) && LabelOfPiece(content[i..j], VideoLabel(content));
  }

  /** A '[' before the marker does not end the intro: "[1] [Video: 3:00]"
      is labelled "3:00". */
  lemma BracketBeforeMarker()
    ensures VideoLabel("[1] " + VideoMarker + "3:00]") == "3:00"
  {
    var content := "[1] " + VideoMarker + "3:00]";
    assert OccursAt(content, VideoMarker, 4);
    forall k | 0 <= k < 4 ensures !OccursAt(content, VideoMarker, k) {
      if k == 0 {
        assert content[1] != VideoMarker[1];
      } else if OccursAt(content, VideoMarker, k) {
        OccursAtHead(content, VideoMarker, k);
      }
    }
    assert IndexOf(content, VideoMarker) == Some(4);
    var rest := content[4 + |VideoMarker|..];
    assert rest == "3:00]";
    NotContainsWithoutHead(rest, VideoMarker);
    RemoveFirstAfter("3:00", ']', "");
    assert rest == "3:00" + [']'] + "";
  }

  /** For `intro + "[Video: " + lbl + "]" + tail` with no '[' outside the
      marker and no ']' in the label, the card shows `lbl + tail`. */
  lemma VideoLabelOf(intro: string, lbl: string, tail: string)
    requires '[' !in intro && '[' !in lbl && ']' !in lbl && '[' !in tail
    ensures VideoLabel(intro + VideoMarker + lbl + "]" + tail) == lbl + tail
  {
    var s := intro + VideoMarker + lbl + "]" + tail;
    var rest := lbl + "]" + tail;
    assert s == intro + VideoMarker + rest;
    IndexOfAfterPrefix(intro, VideoMarker, rest);
    assert s[|intro| + |VideoMarker|..] == rest;
    assert '[' !in rest;
    NotContainsWithoutHead(rest, VideoMarker);
    assert lbl + "]" + tail == lbl + [']'] + tail;
    RemoveFirstAfter(lbl, ']', tail);
  }

  /** The two fixture videos are labelled "12:45" and "0:45". */
  lemma FixtureVideoLabels()
    ensures VideoLabel(MockPosts[4].content) == "12:45"
    ensures VideoLabel(MockPosts[5].content) == "0:45"
  {
    MockPostsContents();
    Intro5WithoutBracket();
    VideoLabelOf(Post5Intro, "12:45", "");
    assert Post5Content == Post5Intro + VideoMarker + "12:45" + "]" + "";
    Intro6WithoutBracket();
    VideoLabelOf(Post6Intro, "0:45", "");
    assert Post6Content == Post6Intro + VideoMarker + "0:45" + "]" + "";
  }

  /** What a card shows: the video overlay and its label for video posts
      only, the badge, whether the bookmark icon is solid, and the id its
      bookmark button passes to the save handler. */
  datatype CardView = CardView(
    videoLabel: Option<string>,
    badge: BadgeColor,
    bookmarkSolid: bool,
    saveTarget: string,
    likes: int,
    replies: int)

  function Card(p: Post): (v: CardView)
    ensures v.videoLabel.Some? <==> IsVideo(p)
    ensures v.bookmarkSolid <==> p.isSaved
    ensures v.saveTarget == p.id
    ensures v.badge == Badge(p.kind)
  {
    CardView(if IsVideo(p) then Some(VideoLabel(p.content)) else None, Badge(p.kind), p.isSaved, p.id, p.likes, p.replies)
  }

  /** Each fixture card shows a video label exactly when its content carries
      the marker, and then not "Play". */
  lemma FixtureCardsLabelled()
    ensures forall i :: 0 <= i < |MockPosts| ==>
      (Card(MockPosts[i]).videoLabel.Some? <==> Contains(MockPosts[i].content, VideoMarker))
    ensures Card(MockPosts[4]).videoLabel == Some("12:45") && Card(MockPosts[5]).videoLabel == Some("0:45")
  {
    MockPostsVideoMarker();
    FixtureVideoLabels();
  }
}
