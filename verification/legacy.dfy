/** The earlier variant under `src/models`: a Reddit analyzer that reports no
    daily series in its answer, and a unified score that averages only the
    sources that answered and fails when none did. Its Twitter and news
    collaborators are called through an `analyze` method, while the
    analyzers in `src/models/twitter_sentiment.py` and
    `src/models/news_sentiment.py` define only `analyze_sentiment`; their
    answers are inputs, a raise included. */
module Legacy {
  import opened Base
  import opened Enhanced
  import Daily
  import Reddit

  // ---------- Reddit, earlier variant ----------

  /** The earlier analyzer's success dictionary: no daily fields. */
  datatype LegacyReport = LegacyReport(
    average: Option<real>,
    postCount: nat,
    distribution: map<Reddit.Polarity, nat>,
    topPosts: seq<Post>)

  /** `analyze`: the empty check on the fetched posts, then the quality
      filter, then the mean, count, distribution and top five of what was
      kept. */
  function Analyze(symbol: string, posts: seq<Post>): (r: Result<LegacyReport>)
    ensures r.Err? <==> |posts| == 0
    ensures r.Err? ==> r.error == Reddit.NoPostsError(symbol)
    ensures r.Ok? ==> r.value.postCount == |FilterLowQuality(posts)|
  {
    if |posts| == 0 then Err(Reddit.NoPostsError(symbol))
    else Ok(Summarize(FilterLowQuality(posts)))
  }

  /** The success dictionary built from the posts that passed the gate. */
  function Summarize(kept: seq<Post>): (rep: LegacyReport)
    ensures rep.postCount == |kept|
  {
    LegacyReport(
      average := Reddit.AverageOf(kept),
      postCount := |kept|,
      distribution := Reddit.Distribution(Reddit.Sentiments(kept)),
      topPosts := Reddit.TopPosts(kept, Reddit.TopPostCount))
  }

  /** The earlier analyzer answers what the backend analyzer answers, less
      the daily series: same success condition, error text, average, count,
      distribution and top posts. */
  lemma AgreesWithBackend(symbol: string, posts: seq<Post>)
    ensures Analyze(symbol, posts).Ok? <==> Reddit.Analyze(symbol, posts).Ok?
    ensures Analyze(symbol, posts).Err? ==> Analyze(symbol, posts).error == Reddit.Analyze(symbol, posts).error
    ensures Analyze(symbol, posts).Ok? ==>
              var (l, b) := (Analyze(symbol, posts).value, Reddit.Analyze(symbol, posts).value);
              && l.average == b.average && l.postCount == b.postCount
              && l.distribution == b.distribution && l.topPosts == b.topPosts
  {
  }

  /** The average is the mean of the kept posts' sentiment, undefined only
      when the filter kept nothing. */
  lemma SummaryAverage(kept: seq<Post>)
    ensures Summarize(kept).average.None? <==> |kept| == 0
    ensures Summarize(kept).average.Some? ==>
              Summarize(kept).average.value * (|kept| as real) == Sum(Reddit.Sentiments(kept))
  {
    Reddit.AverageTimesCount(kept);
  }

  /** The distribution sums to the post count, and at most five posts are
      listed, each a kept one. */
  lemma SummaryCounts(kept: seq<Post>)
    ensures var rep := Summarize(kept);
            && Reddit.CountIn(rep.distribution, Reddit.Positive) + Reddit.CountIn(rep.distribution, Reddit.Negative)
               + Reddit.CountIn(rep.distribution, Reddit.Neutral) == |kept|
            && |rep.topPosts| <= Reddit.TopPostCount
            && forall p :: p in rep.topPosts ==> p in kept
  {
    Reddit.SummaryTopPosts(kept);
  }

  /** One call of `analyze` on an analyzer object. The object starts with an
      empty series (`Reddit.FreshAnalyzer`); a successful call stores the
      daily means of the kept posts, a failed one leaves it alone. */
  function AnalyzeOn(a: Reddit.Analyzer, symbol: string, posts: seq<Post>): (res: (Reddit.Analyzer, Result<LegacyReport>))
    ensures res.1 == Analyze(symbol, posts)
    ensures res.1.Err? ==> res.0 == a
    ensures res.1.Ok? ==>
              var series := Daily.Resample(Reddit.Observations(FilterLowQuality(posts)));
              res.0.lastDaily == series.Means() && res.0.lastFirst == series.first
  {
    var r := Analyze(symbol, posts);
    if r.Err? then (a, r)
    else
      var series := Reddit.DailyOf(FilterLowQuality(posts));
      (Reddit.Analyzer(series.first, series.Means()), r)
  }

  /** Both variants leave the analyzer object in the same state. */
  lemma StateAgreesWithBackend(a: Reddit.Analyzer, symbol: string, posts: seq<Post>)
    ensures AnalyzeOn(a, symbol, posts).0 == Reddit.AnalyzeOn(a, symbol, posts).0
  {
  }

  // ---------- unified score, earlier variant ----------

  const NoSourcesError: string := "No sentiment sources available."

  /** The `sources` map. Reddit's entry is `get('average_sentiment')`: absent
      (`None`) after a failure, and otherwise the average, itself missing
      (NaN) when the filter kept nothing. Twitter's and news's entries are
      their raw answers. */
  datatype LegacySources = LegacySources(reddit: Option<Option<real>>, twitter: Option<real>, news: Option<real>)

  /** The success dictionary; `average` is missing when an included value
      is NaN. */
  datatype LegacySnapshot = LegacySnapshot(average: Option<real>, sourceCount: nat, sources: LegacySources)

  /** The values appended to `sources`, in order: Reddit's average on
      success, then each of the Twitter and news answers that is not
      `None`. */
  function Included(rd: Result<LegacyReport>, twitter: Option<real>, news: Option<real>): (vals: seq<Option<real>>)
    ensures |vals| == (if rd.Ok? then 1 else 0) + (if twitter.Some? then 1 else 0) + (if news.Some? then 1 else 0)
    ensures forall i :: 0 <= i < |vals| && (i > 0 || rd.Err?) ==> vals[i].Some?
  {
    (if rd.Ok? then [rd.value.average] else [])
    + (if twitter.Some? then [twitter] else [])
    + (if news.Some? then [news] else [])
  }

  predicate AllDefined(vals: seq<Option<real>>) {
    forall i :: 0 <= i < |vals| ==> vals[i].Some?
  }

  /** `float(np.mean(sources))`: the mean of the values, NaN if any is. */
  function NumpyMean(vals: seq<Option<real>>): (m: Option<real>)
    requires |vals| > 0
    ensures m.None? <==> exists i :: 0 <= i < |vals| && vals[i].None?
  {
    if AllDefined(vals) then Some(Mean(Observed(vals))) else None
  }

  /** A defined mean times the number of values is their sum: `np.mean`
      divides by every value, none being skipped. */
  lemma NumpyMeanTimesCount(vals: seq<Option<real>>)
    requires |vals| > 0
    ensures NumpyMean(vals).Some? ==>
              && |Observed(vals)| == |vals|
              && NumpyMean(vals).value * (|vals| as real) == Sum(Observed(vals))
  {
    if AllDefined(vals) {
      ObservedAllSome(vals);
      MeanTimesLength(Observed(vals), |vals|);
    }
  }

  /** A defined mean lies within any bounds the values keep. */
  lemma NumpyMeanWithin(vals: seq<Option<real>>, lo: real, hi: real)
    requires |vals| > 0
    requires forall i :: 0 <= i < |vals| && vals[i].Some? ==> lo <= vals[i].value <= hi
    ensures NumpyMean(vals).Some? ==> lo <= NumpyMean(vals).value <= hi
  {
    if AllDefined(vals) {
      ObservedAllSome(vals);
      var obs := Observed(vals);
      assert forall i :: 0 <= i < |obs| ==> lo <= obs[i] <= hi by {
        forall i | 0 <= i < |obs|
          ensures lo <= obs[i] <= hi
        {
          assert obs[i] == vals[i].value;
        }
      }
      MeanBounds(obs, lo, hi);
    }
  }

  /** The answer once every collaborator has returned: Reddit's report and
      the Twitter and news values. */
  function Combine(rd: Result<LegacyReport>, twitter: Option<real>, news: Option<real>): (r: Result<LegacySnapshot>)
    ensures r.Err? <==> rd.Err? && twitter.None? && news.None?
    ensures r.Err? ==> r.error == NoSourcesError
    ensures r.Ok? ==> 1 <= r.value.sourceCount <= 3
    ensures r.Ok? ==> r.value.sourceCount == (if rd.Ok? then 1 else 0) + (if twitter.Some? then 1 else 0) + (if news.Some? then 1 else 0)
    ensures r.Ok? ==> (r.value.sources.reddit.Some? <==> rd.Ok?)
    ensures r.Ok? && rd.Ok? ==> r.value.sources.reddit.value == rd.value.average
    ensures r.Ok? ==> r.value.sources.twitter == twitter && r.value.sources.news == news
  {
    var vals := Included(rd, twitter, news);
    if |vals| == 0 then Err(NoSourcesError)
    else
      var reddit := if rd.Ok? then Some(rd.value.average) else None;
      Ok(LegacySnapshot(NumpyMean(vals), |vals|, LegacySources(reddit, twitter, news)))
  }

  /** `get_unified_sentiment` of the earlier variant. Reddit is asked first,
      and a raise from its search escapes before the other calls; then a
      raise from the Twitter or news call escapes, the Twitter one first. */
  function GetUnifiedSentiment(symbol: string, posts: Call<seq<Post>>, twitter: Call<Option<real>>,
                               news: Call<Option<real>>): (r: Call<Result<LegacySnapshot>>)
    ensures posts.Raised? ==> r == Raised(posts.message)
    ensures posts.Returned? && twitter.Raised? ==> r == Raised(twitter.message)
    ensures posts.Returned? && twitter.Returned? && news.Raised? ==> r == Raised(news.message)
    ensures posts.Returned? && twitter.Returned? && news.Returned? ==>
              r == Returned(Combine(Analyze(symbol, posts.value), twitter.value, news.value))
  {
    if posts.Raised? then Raised(posts.message)
    else
      var rd := Analyze(symbol, posts.value);
      if twitter.Raised? then Raised(twitter.message)
      else if news.Raised? then Raised(news.message)
      else Returned(Combine(rd, twitter.value, news.value))
  }

  /** The call fails exactly when Reddit found no posts and neither other
      source answered, and then with the no-sources error. */
  lemma NoSourcesIff(symbol: string, posts: seq<Post>, twitter: Option<real>, news: Option<real>)
    ensures GetUnifiedSentiment(symbol, Returned(posts), Returned(twitter), Returned(news)) == Returned(Err(NoSourcesError))
            <==> |posts| == 0 && twitter.None? && news.None?
  {
  }

  /** The value scored for a Reddit report in a sum: its average, or 0 when
      Reddit failed and so contributed nothing. */
  function RedditTerm(rd: Result<LegacyReport>): real
    requires rd.Ok? ==> rd.value.average.Some?
  {
    if rd.Ok? then rd.value.average.value else 0.0
  }

  /** With every included value defined, the average times the source count
      is the sum of the included values: the divisor counts only the sources
      that answered. */
  lemma AverageOverPresentSources(rd: Result<LegacyReport>, twitter: Option<real>, news: Option<real>)
    requires Combine(rd, twitter, news).Ok?
    requires rd.Ok? ==> rd.value.average.Some?
    ensures var snap := Combine(rd, twitter, news).value;
            && snap.average.Some?
            && snap.average.value * (snap.sourceCount as real) == RedditTerm(rd) + twitter.GetOr(0.0) + news.GetOr(0.0)
  {
    var vals := Included(rd, twitter, news);
    ObservedAllSome(vals);
    MeanTimesLength(Observed(vals), |vals|);
    SumIncluded(rd, twitter, news);
  }

  /** A Reddit average that is NaN makes the whole average NaN. */
  lemma NaNRedditPoisonsAverage(rd: Result<LegacyReport>, twitter: Option<real>, news: Option<real>)
    requires rd.Ok? && rd.value.average.None?
    ensures Combine(rd, twitter, news).Ok?
    ensures Combine(rd, twitter, news).value.average.None?
  {
    var vals := Included(rd, twitter, news);
    assert vals[0].None?;
  }

  /** With all three sources answering, the earlier variant's average agrees
      with the fixed-divisor blend; with fewer, the two differ by the ratio
      of the divisors: the earlier average times the source count equals
      the fixed-divisor blend times three. */
  lemma ContrastWithFixedDivisor(rd: Result<LegacyReport>, twitter: Option<real>, news: Option<real>)
    requires Combine(rd, twitter, news).Ok?
    requires rd.Ok? ==> rd.value.average.Some?
    ensures var snap := Combine(rd, twitter, news).value;
            var fixedBlend := (RedditTerm(rd) + twitter.GetOr(0.0) + news.GetOr(0.0)) / 3.0;
            && snap.average.value * (snap.sourceCount as real) == fixedBlend * 3.0
            && (snap.sourceCount == 3 ==> snap.average.value == fixedBlend)
  {
    AverageOverPresentSources(rd, twitter, news);
  }

  lemma ObservedAllSome(vals: seq<Option<real>>)
    requires AllDefined(vals)
    ensures |Observed(vals)| == |vals|
    ensures forall i :: 0 <= i < |vals| ==> Observed(vals)[i] == vals[i].value
  {
    if |vals| > 0 {
      ObservedAllSome(vals[1..]);
      assert vals == [vals[0]] + vals[1..];
      ObservedAppend([vals[0]], vals[1..]);
    }
  }

  lemma SumIncluded(rd: Result<LegacyReport>, twitter: Option<real>, news: Option<real>)
    requires rd.Ok? ==> rd.value.average.Some?
    ensures AllDefined(Included(rd, twitter, news))
    ensures Sum(Observed(Included(rd, twitter, news)))
            == (if rd.Ok? then rd.value.average.value else 0.0) + twitter.GetOr(0.0) + news.GetOr(0.0)
  {
    var a := if rd.Ok? then [rd.value.average] else [];
    var b := if twitter.Some? then [twitter] else [];
    var c := if news.Some? then [news] else [];
    ObservedAppend(a + b, c);
    ObservedAppend(a, b);
    SumAppend(Observed(a) + Observed(b), Observed(c));
    SumAppend(Observed(a), Observed(b));
  }
}
