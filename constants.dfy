/** The seed data of constants.ts: the fixture posts, the saved-search seed
    and the generated search-history seed. */
module Constants {
  import opened Wrappers
  import opened Text
  import opened Types

  /** The marker a video post's content carries before its duration. */
  const VideoMarker := "[Video: "

  // The post texts are written as sums of short literals grouped into
  // parts: the verifier reasons character by character about each literal,
  // so facts about a text are proved part by part.
  const Post1Part1 :=
    "Looking for a "
    + "specialized CRM that "
    + "handles high-volume "
  const Post1Part2 :=
    "B2B outreach without "
    + "the bloat of "
    + "Salesforce. Any "
  const Post1Part3 :=
    "recommendations for "
    + "lean teams? #SaaS "
    + "#Growth"
  const Post1Content := Post1Part1 + Post1Part2 + Post1Part3
  const Post2Part1 :=
    "1/12: How we scaled "
    + "our search discovery "
    + "tool to 10k users in "
  const Post2Part2 :=
    "3 months with 0 "
    + "spend. A thread on "
    + "intent-based "
    + "marketing. \U{1F9F5}"
  const Post2Content := Post2Part1 + Post2Part2
  const Post3Part1 :=
    "Just published: 'The "
    + "Future of Real-time "
    + "Search "
  const Post3Part2 :=
    "Infrastructure'. Read "
    + "it here: "
    + "signal.com/blog/future-search"
  const Post3Content := Post3Part1 + Post3Part2
  const Post4Part1 :=
    "Does anyone know a "
    + "tool that tracks "
    + "'buying intent' "
  const Post4Part2 :=
    "keywords on X? "
    + "Looking for something "
    + "like Attio but for "
    + "social signals."
  const Post4Content := Post4Part1 + Post4Part2
  const Post5IntroPart1 :=
    "Check out my latest "
    + "breakdown of the new "
    + "X video algorithms. "
  const Post5IntroPart2 :=
    "Long-form video is "
    + "officially taking "
    + "over the timeline! \U{1F3A5} "
  const Post5Intro := Post5IntroPart1 + Post5IntroPart2
  const Post6IntroPart1 :=
    "3 tips to hook your "
    + "audience in the first "
    + "3 seconds of your X "
  const Post6IntroPart2 :=
    "videos. \U{26A1}\U{FE0F} "
    + "#VideoMarketing "
    + "#GrowthHacking "
  const Post6Intro := Post6IntroPart1 + Post6IntroPart2
  const Post5Content := Post5Intro + VideoMarker + "12:45" + "]"
  const Post6Content := Post6Intro + VideoMarker + "0:45" + "]"

  const MockPost1 := Post("1", "@startup_founder", "Alex Rivers", "https://picsum.photos/seed/alex/100/100",
      Post1Content, 42, 12, "2h ago", false, Leads, None)
  const MockPost2 := Post("2", "@marketing_wiz", "Sarah Chen", "https://picsum.photos/seed/sarah/100/100",
      Post2Content, 850, 45, "5h ago", true, Threads, None)
  const MockPost3 := Post("3", "@dev_insights", "Jordan Smith", "https://picsum.photos/seed/jordan/100/100",
      Post3Content, 120, 8, "1d ago", false, Links, None)
  const MockPost4 := Post("4", "@product_guy", "David Miller", "https://picsum.photos/seed/david/100/100",
      Post4Content, 15, 32, "4h ago", false, Leads, None)
  const MockPost5 := Post("5", "@video_pro", "Marcus Vlogs", "https://picsum.photos/seed/marcus/100/100",
      Post5Content, 340, 28, "3h ago", false, Video, None)
  const MockPost6 := Post("6", "@short_form_king", "Leo Sparks", "https://picsum.photos/seed/leo/100/100",
      Post6Content, 1200, 156, "30m ago", false, Video, None)

  const MockPosts: seq<Post> := [MockPost1, MockPost2, MockPost3, MockPost4, MockPost5, MockPost6]

  const InitialSavedSearches: seq<SavedSearch> := [
    SavedSearch("s1", "CRM recommendations", "10m ago", true),
    SavedSearch("s2", "buying intent tool", "1h ago", false)
  ]

  const HourMs := 60 * 60 * 1000
  const DayMs := 24 * HourMs

  const SeedQueries: seq<string> := ["SaaS leads", "CRM tools", "X discovery", "intent signal"]

  const SeedLogCount := 42

  /** The random part of each seed timestamp: `Math.random() * 30 * day`,
      taken as a whole number of milliseconds in [0, 30 days). */
  predicate IsSeedJitter(jitter: seq<nat>) {
    |jitter| == SeedLogCount && forall i :: 0 <= i < |jitter| ==> jitter[i] < 30 * DayMs
  }

  /** INITIAL_SEARCH_LOGS, generated at load time `now`. */
  function InitialSearchLogs(now: int, jitter: seq<nat>): (r: seq<SearchLog>)
    requires IsSeedJitter(jitter)
    ensures |r| == SeedLogCount
  {
    seq(SeedLogCount, i requires 0 <= i < SeedLogCount =>
      SearchLog("init-" + Decimal(i), SeedQueries[i % 4], now - jitter[i]))
  }

  /** The seed history has 42 entries `init-i` with pairwise distinct ids,
      cycling through the four seed queries, each stamped within the 30 days
      before `now`. */
  lemma InitialSearchLogsShape(now: int, jitter: seq<nat>)
    requires IsSeedJitter(jitter)
    ensures var logs := InitialSearchLogs(now, jitter);
      && |logs| == 42
      && (forall i :: 0 <= i < |logs| ==>
            logs[i].id == "init-" + Decimal(i) && logs[i].query == SeedQueries[i % 4]
            && now - 30 * DayMs < logs[i].timestamp <= now)
      && (forall i, j :: 0 <= i < j < |logs| ==> logs[i].id != logs[j].id)
  {
    var logs := InitialSearchLogs(now, jitter);
    forall i, j | 0 <= i < j < |logs| ensures logs[i].id != logs[j].id {
      if logs[i].id == logs[j].id {
        assert logs[i].id[5..] == Decimal(i);
        assert logs[j].id[5..] == Decimal(j);
        DecimalInjective(i, j);
      }
    }
  }

  /** Six fixture posts with ids "1" to "6". */
  lemma MockPostsIds()
    ensures |MockPosts| == 6
    ensures forall i :: 0 <= i < 6 ==> MockPosts[i].id == Decimal(i + 1)
  {
    assert MockPosts[0].id == "1" && MockPosts[1].id == "2" && MockPosts[2].id == "3";
    assert MockPosts[3].id == "4" && MockPosts[4].id == "5" && MockPosts[5].id == "6";
  }

  /** No two fixture posts share an id. */
  lemma MockPostsDistinctIds()
    ensures forall i, j :: 0 <= i < j < |MockPosts| ==> MockPosts[i].id != MockPosts[j].id
  {
    MockPostsIds();
    forall i, j | 0 <= i < j < |MockPosts| ensures MockPosts[i].id != MockPosts[j].id {
      if MockPosts[i].id == MockPosts[j].id {
        DecimalInjective(i + 1, j + 1);
      }
    }
  }

  /** Every fixture handle starts with '@'. */
  lemma MockPostsHandles()
    ensures forall i :: 0 <= i < |MockPosts| ==> |MockPosts[i].authorHandle| > 0 && MockPosts[i].authorHandle[0] == '@'
  {
  }

  /** The fixture categories: two leads, a thread, a link and two videos. */
  lemma MockPostsKinds()
    ensures |MockPosts| == 6
    ensures MockPosts[0].kind == Leads && MockPosts[1].kind == Threads && MockPosts[2].kind == Links
    ensures MockPosts[3].kind == Leads && MockPosts[4].kind == Video && MockPosts[5].kind == Video
  {
  }

  lemma MockPostsContents()
    ensures MockPosts[0].content == Post1Content && MockPosts[1].content == Post2Content
    ensures MockPosts[2].content == Post3Content && MockPosts[3].content == Post4Content
    ensures MockPosts[4].content == Post5Content && MockPosts[5].content == Post6Content
  {
  }

  // None of the four non-video texts holds a '[', and neither video intro
  // does. Each literal part gets its own lemma, and each text is assembled
  // from its parts: one lemma over a whole text of a few hundred characters
  // costs the verifier about as much as its resource limit.
  lemma Post1Part1WithoutBracket()
    ensures '[' !in Post1Part1
  {
  }

  lemma Post1Part2WithoutBracket()
    ensures '[' !in Post1Part2
  {
  }

  lemma Post1Part3WithoutBracket()
    ensures '[' !in Post1Part3
  {
  }

  lemma Text1WithoutBracket()
    ensures '[' !in Post1Content
  {
    Post1Part1WithoutBracket();
    Post1Part2WithoutBracket();
    Post1Part3WithoutBracket();
  }

  lemma Post2Part1WithoutBracket()
    ensures '[' !in Post2Part1
  {
  }

  lemma Post2Part2WithoutBracket()
    ensures '[' !in Post2Part2
  {
  }

  lemma Text2WithoutBracket()
    ensures '[' !in Post2Content
  {
    Post2Part1WithoutBracket();
    Post2Part2WithoutBracket();
  }

  lemma Post3Part1WithoutBracket()
    ensures '[' !in Post3Part1
  {
  }

  lemma Post3Part2WithoutBracket()
    ensures '[' !in Post3Part2
  {
  }

  lemma Text3WithoutBracket()
    ensures '[' !in Post3Content
  {
    Post3Part1WithoutBracket();
    Post3Part2WithoutBracket();
  }

  lemma Post4Part1WithoutBracket()
    ensures '[' !in Post4Part1
  {
  }

  lemma Post4Part2WithoutBracket()
    ensures '[' !in Post4Part2
  {
  }

  lemma Text4WithoutBracket()
    ensures '[' !in Post4Content
  {
    Post4Part1WithoutBracket();
    Post4Part2WithoutBracket();
  }

  lemma Post5IntroPart1WithoutBracket()
    ensures '[' !in Post5IntroPart1
  {
  }

  lemma Post5IntroPart2WithoutBracket()
    ensures '[' !in Post5IntroPart2
  {
  }

  lemma Intro5WithoutBracket()
    ensures '[' !in Post5Intro
  {
    Post5IntroPart1WithoutBracket();
    Post5IntroPart2WithoutBracket();
  }

  lemma Post6IntroPart1WithoutBracket()
    ensures '[' !in Post6IntroPart1
  {
  }

  lemma Post6IntroPart2WithoutBracket()
    ensures '[' !in Post6IntroPart2
  {
  }

  lemma Intro6WithoutBracket()
    ensures '[' !in Post6Intro
  {
    Post6IntroPart1WithoutBracket();
    Post6IntroPart2WithoutBracket();
  }

  lemma TextsWithoutMarker()
    ensures !Contains(Post1Content, VideoMarker) && !Contains(Post2Content, VideoMarker)
    ensures !Contains(Post3Content, VideoMarker) && !Contains(Post4Content, VideoMarker)
  {
    Text1WithoutBracket();
    NotContainsWithoutHead(Post1Content, VideoMarker);
    Text2WithoutBracket();
    NotContainsWithoutHead(Post2Content, VideoMarker);
    Text3WithoutBracket();
    NotContainsWithoutHead(Post3Content, VideoMarker);
    Text4WithoutBracket();
    NotContainsWithoutHead(Post4Content, VideoMarker);
  }

  lemma VideoTextsWithMarker()
    ensures Contains(Post5Content, VideoMarker) && Contains(Post6Content, VideoMarker)
  {
    var p5, p6 := Post5Intro, Post6Intro;
    ContainsInfix(p5, VideoMarker, "12:45" + "]");
    assert Post5Content == p5 + VideoMarker + ("12:45" + "]");
    ContainsInfix(p6, VideoMarker, "0:45" + "]");
    assert Post6Content == p6 + VideoMarker + ("0:45" + "]");
  }

  /** Exactly the two `Video` fixture posts carry the video marker. */
  lemma MockPostsVideoMarker()
    ensures forall i :: 0 <= i < |MockPosts| ==>
      (Contains(MockPosts[i].content, VideoMarker) <==> MockPosts[i].kind == Video)
  {
    TextsWithoutMarker();
    VideoTextsWithMarker();
    MockPostsKinds();
    MockPostsContents();
    forall i | 0 <= i < |MockPosts|
      ensures Contains(MockPosts[i].content, VideoMarker) <==> MockPosts[i].kind == Video
    {
      if i == 0 {} else if i == 1 {} else if i == 2 {} else if i == 3 {} else if i == 4 {} else {}
    }
  }

  /** The saved-search seed: `s1` with alerts on, `s2` with alerts off. */
  lemma InitialSavedSearchesShape()
    ensures |InitialSavedSearches| == 2
    ensures InitialSavedSearches[0].id == "s1" && InitialSavedSearches[0].alertsEnabled
    ensures InitialSavedSearches[1].id == "s2" && !InitialSavedSearches[1].alertsEnabled
  {
  }
}
