/** `get_unified_sentiment` of the backend: blend the three per-source
    averages, smooth Reddit's daily series (volume weighting, rolling mean
    and std, count-gated band, trend) and attach the market snapshot. The
    collaborators' answers arrive as `Feeds`; the news analyzer and the
    fundamentals fetcher are not part of this model, so their results are
    inputs too. */
module Unified {
  import opened Base
  import opened Daily
  import opened Smoothing
  import Enhanced
  import Reddit
  import Twitter
  import StockData

  /** The fundamentals fetcher's `pe` and `eps`. */
  datatype Fundamentals = Fundamentals(pe: Option<real>, eps: Option<real>)

  /** What the collaborators answer for one symbol: the fetched Reddit posts
      (the search may raise, and nothing in the analyzer catches it), the
      scripted Twitter searches, the news analyzer's average (or failure),
      the scripted price reads, and the raw price history and fundamentals,
      either of which may raise. */
  datatype Feeds = Feeds(
    posts: Call<seq<Enhanced.Post>>,
    search: nat -> Twitter.SearchOutcome,
    news: Result<real>,
    quote: nat -> StockData.FetchOutcome,
    history: Call<StockData.PriceHistory>,
    fundamentals: Call<Fundamentals>)

  /** The `sources` map: each source's average, 0 for a failed or disabled
      source. Reddit's average is NaN when every post failed the quality
      gate. */
  datatype SourceScores = SourceScores(reddit: Option<real>, twitter: real, news: real)

  /** The day-indexed part of the snapshot; every series shares one index
      starting on day `first`. */
  datatype Smoothed = Smoothed(
    first: int,
    daily: seq<Option<real>>,
    counts: seq<nat>,
    rollingMean: seq<Option<real>>,
    ciLower: seq<Option<real>>,
    ciUpper: seq<Option<real>>,
    trend: Trend)

  datatype Snapshot = Snapshot(
    average: Option<real>,
    sources: SourceScores,
    smoothed: Smoothed,
    postCount: nat,
    history: StockData.PriceHistory,
    currentPrice: real,
    currency: string,
    pe: Option<real>,
    eps: Option<real>)

  const DefaultWindow: int := 5

  /** pandas refuses a rolling window shorter than `min_periods`. */
  function WindowError(window: int): string {
    "min_periods 3 must be <= window " + IntToString(window)
  }

  /** Reading `price_res['data']` from a failure dictionary. */
  const MissingDataError: string := "'data'"
  /** Reading `price_res['data']` when the fetcher returned `None`. */
  const NoPriceResultError: string := "'NoneType' object is not subscriptable"

  // ---------- blend ----------

  function RedditScore(rd: Result<Reddit.Report>): (s: Option<real>)
    ensures rd.Err? ==> s == Some(0.0)
    ensures rd.Ok? ==> s == rd.value.average
  {
    if rd.Ok? then rd.value.average else Some(0.0)
  }

  /** A disabled source is the empty dictionary: it reports no success. */
  function TwitterScore(enabled: bool, tw: Result<Twitter.Summary>): (s: real)
    ensures !enabled || tw.Err? ==> s == 0.0
    ensures enabled && tw.Ok? ==> s == tw.value.average
  {
    if enabled && tw.Ok? then tw.value.average else 0.0
  }

  function NewsScore(nw: Result<real>): (s: real)
    ensures nw.Err? ==> s == 0.0
    ensures nw.Ok? ==> s == nw.value
  {
    if nw.Ok? then nw.value else 0.0
  }

  /** `np.mean` of the three scores; a NaN score makes the mean NaN. */
  function Blend(s: SourceScores): (avg: Option<real>)
    ensures avg.None? <==> s.reddit.None?
  {
    if s.reddit.None? then None else Some((s.reddit.value + s.twitter + s.news) / 3.0)
  }

  /** The divisor is always three: the blend times three is the sum of the
      scores, whatever failed or was disabled. */
  lemma BlendFixedDivisor(s: SourceScores)
    requires s.reddit.Some?
    ensures Blend(s).value * 3.0 == s.reddit.value + s.twitter + s.news
  {
  }

  /** The blend of a single working source is a third of its average. */
  lemma BlendOfOnlyNews(rd: Result<Reddit.Report>, tw: Result<Twitter.Summary>, enabled: bool, news: real)
    requires rd.Err? && (!enabled || tw.Err?)
    ensures Blend(SourceScores(RedditScore(rd), TwitterScore(enabled, tw), NewsScore(Ok(news)))) == Some(news / 3.0)
  {
  }

  // ---------- smoothing ----------

  /** The smoothing half of `get_unified_sentiment`: weight Reddit's daily
      series by its counts, roll, gate the band, label the trend. */
  function Smooth(series: Series, window: int, stdOf: seq<real> -> real): (s: Smoothed)
    requires window >= MinPeriods
    ensures |s.daily| == |series.buckets| && |s.counts| == |series.buckets|
    ensures |s.rollingMean| == |series.buckets|
    ensures |s.ciLower| == |series.buckets| && |s.ciUpper| == |series.buckets|
  {
    var counts := series.Counts();
    var weighted := VolumeWeighted(series.Means(), counts);
    var rm := RollingMean(weighted, window);
    var band := ConfidenceBand(rm, RollingStd(weighted, window, stdOf), counts);
    Smoothed(series.first, weighted, counts, rm, band.lower, band.upper, TrendOf(rm))
  }

  /** The whole of `get_unified_sentiment`: the Reddit search first, whose
      raise escapes before anything else runs; then the rest of the call. */
  function GetUnifiedSentiment(symbol: string, window: int, includeTwitter: bool, feeds: Feeds,
                               stdOf: seq<real> -> real): (r: Call<Snapshot>)
    ensures feeds.posts.Raised? ==> r == Raised(feeds.posts.message)
    ensures feeds.posts.Returned? && window < MinPeriods ==> r == Raised(WindowError(window))
    ensures r.Returned? ==> feeds.posts.Returned? && window >= MinPeriods
  {
    if feeds.posts.Raised? then Raised(feeds.posts.message)
    else AfterFetch(symbol, window, includeTwitter, feeds.posts.value, feeds, stdOf)
  }

  /** `get_unified_sentiment` once Reddit's posts are in: the sources, then
      the rolling statistics (which raise for a window below three), then the
      price, the history and the fundamentals, any of which may raise, and
      finally the read of the price's `data`, which raises when the price
      fetch failed. */
  function AfterFetch(symbol: string, window: int, includeTwitter: bool, posts: seq<Enhanced.Post>,
                      feeds: Feeds, stdOf: seq<real> -> real): (r: Call<Snapshot>)
    ensures window < MinPeriods ==> r == Raised(WindowError(window))
  {
    var rd := Reddit.Analyze(symbol, posts);
    var scores := SourceScores(
      RedditScore(rd),
      TwitterScore(includeTwitter, Twitter.Expected(feeds.search).result),
      NewsScore(feeds.news));
    var series := if rd.Ok? then rd.value.daily else EmptySeries;
    if window < MinPeriods then Raised(WindowError(window))
    else
      var smoothed := Smooth(series, window, stdOf);
      var price := StockData.Expected(StockData.DefaultRetries, StockData.DefaultDelay, feeds.quote).result;
      if price.Raised? then Raised(price.message)
      else if feeds.history.Raised? then Raised(feeds.history.message)
      else if feeds.fundamentals.Raised? then Raised(feeds.fundamentals.message)
      else if price.value.None? then Raised(NoPriceResultError)
      else if price.value.value.Err? then Raised(MissingDataError)
      else
        var quote := price.value.value.value;
        Returned(Snapshot(
          average := Blend(scores),
          sources := scores,
          smoothed := smoothed,
          postCount := if rd.Ok? then rd.value.postCount else 0,
          history := StockData.History(feeds.history.value),
          currentPrice := quote.currentPrice,
          currency := quote.currency,
          pe := feeds.fundamentals.value.pe,
          eps := feeds.fundamentals.value.eps))
  }

  // ---------- properties of the smoothing ----------

  /** Wherever the band is shown it brackets the rolling mean. */
  lemma SmoothedBandBrackets(series: Series, window: int, stdOf: seq<real> -> real, d: nat)
    requires window >= MinPeriods && IsSampleStd(stdOf)
    requires d < |series.buckets|
    ensures var s := Smooth(series, window, stdOf);
            s.ciLower[d].Some? ==>
              && s.rollingMean[d].Some? && s.ciUpper[d].Some?
              && s.ciLower[d].value <= s.rollingMean[d].value <= s.ciUpper[d].value
  {
    var counts := series.Counts();
    var weighted := VolumeWeighted(series.Means(), counts);
    var rm := RollingMean(weighted, window);
    var rs := RollingStd(weighted, window, stdOf);
    RollingStdNonNegative(weighted, window, stdOf, d);
    if ConfidenceBand(rm, rs, counts).lower[d].Some? {
      BandBracketsMean(rm, rs, counts, d);
    }
  }

  /** The band is shown on a day exactly when the day had at least five posts
      and a rolling mean. */
  lemma SmoothedBandGate(series: Series, window: int, stdOf: seq<real> -> real, d: nat)
    requires window >= MinPeriods && d < |series.buckets|
    ensures var s := Smooth(series, window, stdOf);
            && (s.ciLower[d].Some? <==> series.buckets[d].Count() >= MinDailyPosts && s.rollingMean[d].Some?)
            && (s.ciUpper[d].Some? <==> s.ciLower[d].Some?)
  {
  }

  /** On a resampled series, the weighted daily sentiment is missing exactly
      on the days without posts. */
  lemma WeightedMissingOnEmptyDays(obs: seq<Obs>, window: int, stdOf: seq<real> -> real, d: nat)
    requires window >= MinPeriods && d < |Resample(obs).buckets|
    ensures Smooth(Resample(obs), window, stdOf).daily[d].None? <==> Resample(obs).buckets[d].Count() == 0
  {
    ResampleEmptyDays(obs, d);
  }

  // ---------- properties of the snapshot ----------

  /** A price fetch that returns its failure dictionary makes the snapshot
      raise `KeyError('data')` once history and fundamentals have come
      back. */
  lemma FailedPriceRaises(symbol: string, window: int, includeTwitter: bool, feeds: Feeds,
                          stdOf: seq<real> -> real, msg: string)
    requires window >= MinPeriods
    requires StockData.Expected(StockData.DefaultRetries, StockData.DefaultDelay, feeds.quote).result
               == Returned(Some(Err(msg)))
    requires feeds.posts.Returned? && feeds.history.Returned? && feeds.fundamentals.Returned?
    ensures GetUnifiedSentiment(symbol, window, includeTwitter, feeds, stdOf) == Raised(MissingDataError)
  {
  }

  /** A snapshot carries the blend of its sources, Reddit's post count (0 when
      Reddit failed), the smoothed Reddit series and the quote's price and
      currency. */
  lemma SnapshotContents(symbol: string, window: int, includeTwitter: bool, feeds: Feeds,
                         stdOf: seq<real> -> real)
    ensures var r := GetUnifiedSentiment(symbol, window, includeTwitter, feeds, stdOf);
            r.Returned? ==>
            var (snap, rd) := (r.value, Reddit.Analyze(symbol, feeds.posts.value));
            && window >= MinPeriods
            && snap.average == Blend(snap.sources)
            && snap.postCount == (if rd.Ok? then |Enhanced.FilterLowQuality(feeds.posts.value)| else 0)
            && snap.smoothed == Smooth(if rd.Ok? then rd.value.daily else EmptySeries, window, stdOf)
            && snap.sources.twitter == (if includeTwitter && Twitter.Expected(feeds.search).result.Ok?
                                        then Twitter.Expected(feeds.search).result.value.average else 0.0)
  {
    if feeds.posts.Returned? {
      AfterFetchContents(symbol, window, includeTwitter, feeds.posts.value, feeds, stdOf);
    }
  }

  /** `SnapshotContents` once Reddit's posts are in. */
  lemma AfterFetchContents(symbol: string, window: int, includeTwitter: bool, posts: seq<Enhanced.Post>,
                           feeds: Feeds, stdOf: seq<real> -> real)
    ensures var r := AfterFetch(symbol, window, includeTwitter, posts, feeds, stdOf);
            r.Returned? ==>
            var (snap, rd) := (r.value, Reddit.Analyze(symbol, posts));
            && window >= MinPeriods
            && snap.average == Blend(snap.sources)
            && snap.postCount == (if rd.Ok? then |Enhanced.FilterLowQuality(posts)| else 0)
            && snap.smoothed == Smooth(if rd.Ok? then rd.value.daily else EmptySeries, window, stdOf)
            && snap.sources.twitter == (if includeTwitter && Twitter.Expected(feeds.search).result.Ok?
                                        then Twitter.Expected(feeds.search).result.value.average else 0.0)
  {
  }

  /** A snapshot's price and currency come from a successful quote, and its
      history has no timezone. */
  lemma SnapshotMarket(symbol: string, window: int, includeTwitter: bool, feeds: Feeds,
                       stdOf: seq<real> -> real)
    ensures var r := GetUnifiedSentiment(symbol, window, includeTwitter, feeds, stdOf);
            r.Returned? ==>
            var snap := r.value;
            var price := StockData.Expected(StockData.DefaultRetries, StockData.DefaultDelay, feeds.quote).result;
            && price.Returned? && price.value.Some? && price.value.value.Ok?
            && snap.currentPrice == price.value.value.value.currentPrice
            && snap.currency == price.value.value.value.currency
            && snap.history.tz.None?
  {
    if feeds.posts.Returned? {
      AfterFetchMarket(symbol, window, includeTwitter, feeds.posts.value, feeds, stdOf);
    }
  }

  /** `SnapshotMarket` once Reddit's posts are in. */
  lemma AfterFetchMarket(symbol: string, window: int, includeTwitter: bool, posts: seq<Enhanced.Post>,
                         feeds: Feeds, stdOf: seq<real> -> real)
    ensures var r := AfterFetch(symbol, window, includeTwitter, posts, feeds, stdOf);
            r.Returned? ==>
            var snap := r.value;
            var price := StockData.Expected(StockData.DefaultRetries, StockData.DefaultDelay, feeds.quote).result;
            && price.Returned? && price.value.Some? && price.value.value.Ok?
            && snap.currentPrice == price.value.value.value.currentPrice
            && snap.currency == price.value.value.value.currency
            && snap.history.tz.None?
  {
    var r := AfterFetch(symbol, window, includeTwitter, posts, feeds, stdOf);
    if r.Returned? {
      var price := StockData.Expected(StockData.DefaultRetries, StockData.DefaultDelay, feeds.quote).result;
      assert price.Returned? && price.value.Some? && price.value.value.Ok?;
      var quote := price.value.value.value;
      assert r.value.currentPrice == quote.currentPrice && r.value.currency == quote.currency;
    }
  }

  /** When Reddit fails every series is empty, the trend is neutral and the
      post count is 0. */
  lemma RedditFailureEmptiesSeries(symbol: string, window: int, includeTwitter: bool, feeds: Feeds,
                                   stdOf: seq<real> -> real)
    requires feeds.posts == Returned([])
    ensures var r := GetUnifiedSentiment(symbol, window, includeTwitter, feeds, stdOf);
            r.Returned? ==>
            var snap := r.value;
            && |snap.smoothed.daily| == 0 && |snap.smoothed.rollingMean| == 0
            && snap.smoothed.trend == Neutral
            && snap.postCount == 0
            && snap.sources.reddit == Some(0.0)
  {
  }

  /** Reddit posts that all fail the quality gate make Reddit's average NaN,
      and with it the blended average. */
  lemma FullyFilteredRedditPoisonsBlend(symbol: string, window: int, includeTwitter: bool, feeds: Feeds,
                                        stdOf: seq<real> -> real)
    requires feeds.posts.Returned? && |feeds.posts.value| > 0
    requires forall i :: 0 <= i < |feeds.posts.value| ==> !Enhanced.PassesGate(feeds.posts.value[i])
    ensures GetUnifiedSentiment(symbol, window, includeTwitter, feeds, stdOf).Returned? ==>
              GetUnifiedSentiment(symbol, window, includeTwitter, feeds, stdOf).value.average.None?
  {
    Reddit.FullyFilteredStillSucceeds(symbol, feeds.posts.value);
  }
}
