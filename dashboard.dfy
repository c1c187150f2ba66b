/** The Dashboard view (pages/Dashboard.tsx): the search history narrowed to
    a time window, its total, and the chart data. Times are epoch
    milliseconds; `now` is a parameter. */
module Dashboard {
  import opened Wrappers
  import opened Text
  import opened Seqs
  import opened Types
  import opened Constants

  const WeekMs := 7 * DayMs

  /** The custom range as the date inputs give it: `None` for an empty input. */
  datatype DateRange = DateRange(start: Option<int>, end: Option<int>)

  /** The length of a preset window in milliseconds. */
  function WindowMs(f: TimeFilter): (w: int)
    requires f != Custom
    ensures f == Last24h ==> w == 86_400_000
    ensures f == Last48h ==> w == 172_800_000
    ensures f == Last7d ==> w == 604_800_000
    ensures f == Last30d ==> w == 2_592_000_000
  {
    match f
    case Last24h => 24 * 60 * 60 * 1000
    case Last48h => 48 * 60 * 60 * 1000
    case Last7d => 7 * 24 * 60 * 60 * 1000
    case Last30d => 30 * 24 * 60 * 60 * 1000
  }

  /** `filteredHistory`. */
  function FilteredHistory(history: seq<SearchLog>, f: TimeFilter, range: DateRange, now: int): (r: seq<SearchLog>)
    ensures |r| <= |history|
    ensures forall l :: l in r ==> l in history
  {
    if f == Custom then
      var start := range.start.GetOr(0);
      var end := range.end.GetOr(now);
      Filter((l: SearchLog) => l.timestamp >= start && l.timestamp <= end, history)
    else
      var threshold := now - WindowMs(f);
      Filter((l: SearchLog) => l.timestamp >= threshold, history)
  }

  /** A preset window keeps, in order, exactly the logs stamped at or after
      `now` minus the window. */
  lemma FilteredHistoryPreset(history: seq<SearchLog>, f: TimeFilter, range: DateRange, now: int)
    requires f != Custom
    ensures var r := FilteredHistory(history, f, range, now);
      && IsSubsequence(r, history)
      && forall l :: l in r <==> l in history && l.timestamp >= now - WindowMs(f)
  {
    var threshold := now - WindowMs(f);
    FilterIsSubsequence((l: SearchLog) => l.timestamp >= threshold, history);
  }

  /** The custom range is inclusive at both ends; an empty start reads as 0
      and an empty end as `now`. */
  lemma FilteredHistoryCustom(history: seq<SearchLog>, range: DateRange, now: int)
    ensures var r := FilteredHistory(history, Custom, range, now);
      var start := if range.start.Some? then range.start.value else 0;
      var end := if range.end.Some? then range.end.value else now;
      && IsSubsequence(r, history)
      && forall l :: l in r <==> l in history && start <= l.timestamp <= end
  {
    var start := range.start.GetOr(0);
    var end := range.end.GetOr(now);
    FilterIsSubsequence((l: SearchLog) => l.timestamp >= start && l.timestamp <= end, history);
  }

  /** At load time the 30-day window keeps the whole seed history, and the
      24-hour window keeps exactly the seed logs of the last day. */
  lemma SeedHistoryWindows(loadTime: int, jitter: seq<nat>, range: DateRange)
    requires IsSeedJitter(jitter)
    ensures var seed := InitialSearchLogs(loadTime, jitter);
      && FilteredHistory(seed, Last30d, range, loadTime) == seed
      && forall i :: 0 <= i < |seed| ==>
           (seed[i] in FilteredHistory(seed, Last24h, range, loadTime) <==> jitter[i] <= DayMs)
  {
    var seed := InitialSearchLogs(loadTime, jitter);
    InitialSearchLogsShape(loadTime, jitter);
    FilterKeepsAll((l: SearchLog) => l.timestamp >= loadTime - WindowMs(Last30d), seed);
  }

  /** `totalSearches`. */
  function TotalSearches(history: seq<SearchLog>, f: TimeFilter, range: DateRange, now: int): (n: nat)
    ensures n <= |history|
  {
    |FilteredHistory(history, f, range, now)|
  }

  datatype Bucket = Bucket(title: string, start: int, end: int)
  datatype ChartPoint = ChartPoint(title: string, value: nat)

  /** Bucket bounds are inclusive at both ends. */
  predicate InBucket(b: Bucket, t: int) {
    t >= b.start && t <= b.end
  }

  /** The number of logs of the whole history whose timestamp lies in `b`. */
  function BucketCount(history: seq<SearchLog>, b: Bucket): (n: nat)
    ensures n <= |history|
    ensures n == 0 <==> forall i :: 0 <= i < |history| ==> !InBucket(b, history[i].timestamp)
  {
    var r := Filter((l: SearchLog) => InBucket(b, l.timestamp), history);
    assert r != [] ==> r[0] in r;
    assert forall i :: 0 <= i < |history| ==> history[i] in history;
    |r|
  }

  /** One chart point per bucket, counting the logs inside it. */
  function Tally(buckets: seq<Bucket>, history: seq<SearchLog>): (r: seq<ChartPoint>)
    ensures |r| == |buckets|
    ensures forall i :: 0 <= i < |r| ==> r[i].title == buckets[i].title && r[i].value <= |history|
  {
    seq(|buckets|, i requires 0 <= i < |buckets| => ChartPoint(buckets[i].title, BucketCount(history, buckets[i])))
  }

  /** The 24h buckets, oldest first: bucket k spans four hours ending
      23 - 4k hours before `now`. */
  function HourBuckets(now: int): (r: seq<Bucket>)
    ensures |r| == 6
  {
    seq(6, k requires 0 <= k < 6 => Bucket(Decimal(4 * k) + "h", now - (27 - 4 * k) * HourMs, now - (23 - 4 * k) * HourMs))
  }

  /** The 30d buckets W1..W5, oldest first: bucket k is the week ending
      4 - k weeks before `now`. */
  function WeekBuckets(now: int): (r: seq<Bucket>)
    ensures |r| == 5
  {
    seq(5, k requires 0 <= k < 5 => Bucket("W" + Decimal(k + 1), now - (5 - k) * WeekMs, now - (4 - k) * WeekMs))
  }

  /** The 7d buckets: the local calendar day of each of the last seven
      days, oldest first. `calendar(t)` is the day containing instant `t`:
      its weekday name, local midnight and 23:59:59.999. */
  function DayBuckets(now: int, calendar: int -> Bucket): (r: seq<Bucket>)
    ensures |r| == 7
  {
    seq(7, k requires 0 <= k < 7 => calendar(now - (6 - k) * DayMs))
  }

  /** The fallback chart: seven segments P1..P7 sharing `total`, the
      remainder going to the last. */
  function Segments(total: nat): (r: seq<ChartPoint>)
    ensures |r| == 7
  {
    seq(7, i requires 0 <= i < 7 => ChartPoint("P" + Decimal(i + 1), total / 7 + (if i == 6 then total % 7 else 0)))
  }

  function Values(points: seq<ChartPoint>): seq<nat> {
    seq(|points|, i requires 0 <= i < |points| => points[i].value)
  }

  /** `chartData`. */
  method ChartData(history: seq<SearchLog>, f: TimeFilter, range: DateRange, now: int, calendar: int -> Bucket)
    returns (points: seq<ChartPoint>)
    ensures f == Last24h ==> points == Tally(HourBuckets(now), history)
    ensures f == Last7d ==> points == Tally(DayBuckets(now, calendar), history)
    ensures f == Last30d ==> points == Tally(WeekBuckets(now), history)
    ensures f == Last48h || f == Custom ==> points == Segments(TotalSearches(history, f, range, now))
  {
    var buckets: seq<Bucket> := [];
    if f == Last24h {
      var i := 23;
      while i >= 0
        invariant i == 23 - 4 * |buckets| && |buckets| <= 6
        invariant buckets == HourBuckets(now)[..|buckets|]
      {
        buckets := buckets + [Bucket(Decimal(23 - i) + "h", now - (i + 4) * 60 * 60 * 1000, now - i * 60 * 60 * 1000)];
        i := i - 4;
      }
    } else if f == Last7d {
      var i := 6;
      while i >= 0
        invariant i == 6 - |buckets| && |buckets| <= 7
        invariant buckets == DayBuckets(now, calendar)[..|buckets|]
      {
        buckets := buckets + [calendar(now - i * 24 * 60 * 60 * 1000)];
        i := i - 1;
      }
    } else if f == Last30d {
      var i := 4;
      while i >= 0
        invariant i == 4 - |buckets| && |buckets| <= 5
        invariant buckets == WeekBuckets(now)[..|buckets|]
      {
        buckets := buckets + [Bucket("W" + Decimal(4 - i + 1), now - (i + 1) * 7 * 24 * 60 * 60 * 1000,
                                     now - i * 7 * 24 * 60 * 60 * 1000)];
        i := i - 1;
      }
    } else {
      return Segments(TotalSearches(history, f, range, now));
    }
    points := Tally(buckets, history);
  }

  /** Six 4-hour buckets labelled 0h to 20h; each ends where the next
      starts. */
  lemma HourBucketsShape(now: int)
    ensures var b := HourBuckets(now);
      && |b| == 6
      && [b[0].title, b[1].title, b[2].title, b[3].title, b[4].title, b[5].title] == ["0h", "4h", "8h", "12h", "16h", "20h"]
      && (forall k :: 0 <= k < 6 ==> b[k].end - b[k].start == 4 * HourMs)
      && (forall k :: 0 <= k < 5 ==> b[k].end == b[k + 1].start)
      && b[0].start == now - 27 * HourMs && b[5].end == now - 3 * HourMs
  {
    var b := HourBuckets(now);
    assert b[0].title == Decimal(0) + "h" == "0h";
    assert b[1].title == Decimal(4) + "h" == "4h";
    assert b[2].title == Decimal(8) + "h" == "8h";
    assert Decimal(12) == Decimal(1) + [Digit(2)] == "12";
    assert b[3].title == "12h";
    assert Decimal(16) == Decimal(1) + [Digit(6)] == "16";
    assert b[4].title == "16h";
    assert Decimal(20) == Decimal(2) + [Digit(0)] == "20";
    assert b[5].title == "20h";
  }

  /** Together the 24h buckets cover exactly [now - 27h, now - 3h]: the last
      three hours are in no bucket. */
  lemma HourBucketsCover(now: int, t: int)
    ensures (exists k :: 0 <= k < 6 && InBucket(HourBuckets(now)[k], t)) <==> now - 27 * HourMs <= t <= now - 3 * HourMs
  {
    var b := HourBuckets(now);
    if now - 27 * HourMs <= t <= now - 3 * HourMs {
      var k := (t - (now - 27 * HourMs)) / (4 * HourMs);
      if k > 5 {
        k := 5;
      }
      assert InBucket(b[k], t);
    }
  }

  /** A log stamped exactly on a shared boundary counts in both adjacent
      buckets. */
  lemma BoundaryCountedTwice(now: int, k: nat)
    requires k < 5
    ensures InBucket(HourBuckets(now)[k], now - (23 - 4 * k) * HourMs)
    ensures InBucket(HourBuckets(now)[k + 1], now - (23 - 4 * k) * HourMs)
  {
  }

  /** Five one-week buckets labelled W1 to W5, oldest first: bucket k runs
      from 5 - k weeks to 4 - k weeks before `now`. */
  lemma WeekBucketsShape(now: int)
    ensures var b := WeekBuckets(now);
      && |b| == 5
      && [b[0].title, b[1].title, b[2].title, b[3].title, b[4].title] == ["W1", "W2", "W3", "W4", "W5"]
      && (forall k :: 0 <= k < 5 ==> b[k].start == now - (5 - k) * WeekMs && b[k].end == now - (4 - k) * WeekMs)
      && b[0].start == now - 35 * DayMs && b[4].end == now
  {
    var b := WeekBuckets(now);
    assert b[0].title == "W" + Decimal(1) == "W1";
    assert b[1].title == "W" + Decimal(2) == "W2";
    assert b[2].title == "W" + Decimal(3) == "W3";
    assert b[3].title == "W" + Decimal(4) == "W4";
    assert b[4].title == "W" + Decimal(5) == "W5";
  }

  /** Five one-week buckets W1..W5 reaching back 35 days: the 30d chart
      counts the whole history, so logs older than 30 days still show in
      W1. */
  lemma WeekBucketsCover(now: int, t: int)
    ensures |WeekBuckets(now)| == 5
    ensures forall k :: 0 <= k < 4 ==> WeekBuckets(now)[k].end == WeekBuckets(now)[k + 1].start
    ensures (exists k :: 0 <= k < 5 && InBucket(WeekBuckets(now)[k], t)) <==> now - 35 * DayMs <= t <= now
  {
    var b := WeekBuckets(now);
    if now - 35 * DayMs <= t <= now {
      var k := (t - (now - 35 * DayMs)) / WeekMs;
      if k > 4 {
        k := 4;
      }
      assert InBucket(b[k], t);
    }
  }

  lemma {:induction false} SumConstant(s: seq<nat>, q: nat)
    requires forall i :: 0 <= i < |s| ==> s[i] == q
    ensures Sum(s) == |s| * q
    decreases |s|
  {
    if s != [] {
      SumConstant(s[1..], q);
    }
  }

  /** The seven segments add up to the total; the first six get an equal
      share and the last also takes the remainder. */
  lemma SegmentsSplitTotal(total: nat)
    ensures var v := Values(Segments(total));
      && |v| == 7
      && (forall i :: 0 <= i < 6 ==> v[i] == total / 7)
      && v[6] == total / 7 + total % 7
      && Sum(v) == total
  {
    var v := Values(Segments(total));
    assert v == v[..6] + [v[6]];
    SumConstant(v[..6], total / 7);
    SumAppend(v[..6], [v[6]]);
    assert Sum([v[6]]) == v[6];
  }

  /** The growth figure, by time filter. */
  function GrowthRate(f: TimeFilter): (r: string)
    ensures r == "+18%" <==> f == Last24h
    ensures r == "+12%" <==> f == Last7d
    ensures r == "+4%" <==> f != Last24h && f != Last7d
  {
    if f == Last24h then "+18%" else if f == Last7d then "+12%" else "+4%"
  }

  const LeadsWelcome := "Welcome back. We're prioritizing high-intent leads for you today."
  const LongFormWelcome := "Welcome back. Expert content and industry threads are ready for discovery."
  const DefaultWelcome := "Welcome back. Here's what happened with your signals across the platform."

  /** The greeting, by the stored search intent: the default one when there
      are no preferences, no intent, or the "Both" intent. */
  function WelcomeMessage(prefs: Option<UserPreferences>): (r: string)
    ensures r == DefaultWelcome <==>
      prefs.None? || (prefs.value.searchIntent != Some(LeadsIntent) && prefs.value.searchIntent != Some(LongForm))
    ensures r == LeadsWelcome <==> prefs.Some? && prefs.value.searchIntent == Some(LeadsIntent)
    ensures r == LongFormWelcome <==> prefs.Some? && prefs.value.searchIntent == Some(LongForm)
  {
    if prefs.Some? && prefs.value.searchIntent == Some(LeadsIntent) then
      LeadsWelcome
    else if prefs.Some? && prefs.value.searchIntent == Some(LongForm) then
      LongFormWelcome
    else
      DefaultWelcome
  }
}
