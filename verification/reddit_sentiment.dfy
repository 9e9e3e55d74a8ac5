/** The Reddit analyzer (backend variant): score and filter the fetched posts,
    then summarise them as an overall mean, a polarity distribution, the five
    most up-voted posts and daily mean/count series. The search itself is
    not modelled: the submissions it yields are an input, and each becomes a
    post whose text is the cleaned title and body. */
module Reddit {
  import opened Base
  import opened Enhanced
  import opened Daily
  import TextClean

  // ---------- fetched rows ----------

  /** A submission as the search yields it: title, body, up-votes, creation
      day, and the VADER compound polarity of the row's cleaned text. */
  datatype Submission = Submission(title: string, selftext: string, score: int, day: int, compound: real)

  /** `_fetch_posts`'s row: the text is `"{title} {selftext}"` cleaned. */
  function PostOf(s: Submission): (p: Post)
    ensures IsSubseq(p.text, s.title + " " + s.selftext)
    ensures forall i :: 0 <= i < |p.text| ==> TextClean.Kept(p.text[i])
    ensures p.score == s.score && p.day == s.day && p.compound == s.compound
  {
    TextClean.CleanIsSubsequence(s.title + " " + s.selftext);
    Post(TextClean.Clean(s.title + " " + s.selftext), s.score, s.day, s.compound)
  }

  /** `_fetch_posts`: one row per submission, in the search's order. */
  function FetchPosts(subs: seq<Submission>): (posts: seq<Post>)
    ensures |posts| == |subs|
    ensures forall i :: 0 <= i < |subs| ==> posts[i] == PostOf(subs[i])
  {
    seq(|subs|, i requires 0 <= i < |subs| => PostOf(subs[i]))
  }

  datatype Polarity = Positive | Negative | Neutral

  /** The distribution's label of one sentiment value. */
  function PolarityOf(v: real): (p: Polarity)
    ensures p == Positive <==> v > 0.0
    ensures p == Negative <==> v < 0.0
  {
    if v > 0.0 then Positive else if v < 0.0 then Negative else Neutral
  }

  function CountPolarity(vals: seq<real>, p: Polarity): nat
  {
    if |vals| == 0 then 0
    else (if PolarityOf(vals[0]) == p then 1 else 0) + CountPolarity(vals[1..], p)
  }

  /** The three labels partition the values. */
  lemma {:induction false} PolarityCountsSum(vals: seq<real>)
    ensures CountPolarity(vals, Positive) + CountPolarity(vals, Negative) + CountPolarity(vals, Neutral) == |vals|
  {
    if |vals| > 0 {
      PolarityCountsSum(vals[1..]);
    }
  }

  /** A label is counted exactly when some value carries it. */
  lemma {:induction false} CountPolarityPositiveIff(vals: seq<real>, p: Polarity)
    ensures CountPolarity(vals, p) > 0 <==> exists i :: 0 <= i < |vals| && PolarityOf(vals[i]) == p
  {
    if |vals| > 0 {
      CountPolarityPositiveIff(vals[1..], p);
      if CountPolarity(vals[1..], p) > 0 {
        var i :| 0 <= i < |vals[1..]| && PolarityOf(vals[1..][i]) == p;
        assert vals[i + 1] == vals[1..][i];
      }
      if exists i :: 0 <= i < |vals| && PolarityOf(vals[i]) == p {
        var i :| 0 <= i < |vals| && PolarityOf(vals[i]) == p;
        if i > 0 {
          assert vals[1..][i - 1] == vals[i];
        }
      }
    }
  }

  function CountIn(dist: map<Polarity, nat>, p: Polarity): nat {
    if p in dist then dist[p] else 0
  }

  /** `value_counts().to_dict()` of the labels: a label is a key only when it
      occurs. */
  function Distribution(vals: seq<real>): (dist: map<Polarity, nat>)
    ensures forall p :: CountIn(dist, p) == CountPolarity(vals, p)
    ensures forall p :: p in dist ==> dist[p] > 0
    ensures CountIn(dist, Positive) + CountIn(dist, Negative) + CountIn(dist, Neutral) == |vals|
  {
    PolarityCountsSum(vals);
    map p | p in {Positive, Negative, Neutral} && CountPolarity(vals, p) > 0 :: CountPolarity(vals, p)
  }

  /** A label is a key of the distribution exactly when some value carries it. */
  lemma DistributionKeys(vals: seq<real>, p: Polarity)
    ensures p in Distribution(vals) <==> exists i :: 0 <= i < |vals| && PolarityOf(vals[i]) == p
  {
    CountPolarityPositiveIff(vals, p);
    assert CountIn(Distribution(vals), p) == CountPolarity(vals, p);
  }

  predicate Descending(s: seq<Post>) {
    forall i, j :: 0 <= i < j < |s| ==> s[i].score >= s[j].score
  }

  predicate ScoresAtMost(s: seq<Post>, b: int) {
    forall k :: 0 <= k < |s| ==> s[k].score <= b
  }

  /** Insert `x` before the first post that does not outscore it, so that a
      post of equal score already present stays behind `x`. */
  function Insert(x: Post, s: seq<Post>): (r: seq<Post>)
    ensures |r| == |s| + 1
    ensures multiset(r) == multiset(s) + multiset{x}
  {
    if |s| == 0 || s[0].score <= x.score then [x] + s
    else
      assert s == [s[0]] + s[1..];
      [s[0]] + Insert(x, s[1..])
  }

  lemma {:induction false} InsertBound(x: Post, s: seq<Post>, b: int)
    requires ScoresAtMost(s, b) && x.score <= b
    ensures ScoresAtMost(Insert(x, s), b)
  {
    if |s| > 0 && s[0].score > x.score {
      InsertBound(x, s[1..], b);
      assert Insert(x, s) == [s[0]] + Insert(x, s[1..]);
    }
  }

  lemma {:induction false} InsertDescending(x: Post, s: seq<Post>)
    requires Descending(s)
    ensures Descending(Insert(x, s))
  {
    if |s| > 0 && s[0].score > x.score {
      InsertDescending(x, s[1..]);
      InsertBound(x, s[1..], s[0].score);
      var t := Insert(x, s[1..]);
      var r := [s[0]] + t;
      assert Insert(x, s) == r;
      forall i, j | 0 <= i < j < |r|
        ensures r[i].score >= r[j].score
      {
        assert r[j] == t[j - 1];
        if i > 0 {
          assert r[i] == t[i - 1];
        }
      }
    } else {
      var r := [x] + s;
      forall i, j | 0 <= i < j < |r|
        ensures r[i].score >= r[j].score
      {
        assert r[j] == s[j - 1];
        if i > 0 {
          assert r[i] == s[i - 1];
        }
      }
    }
  }

  /** `sort_values('score', ascending=False)` with a stable sort: each post
      goes in front of the later posts it does not score below. */
  function SortByScore(s: seq<Post>): (r: seq<Post>)
    ensures |r| == |s|
    ensures multiset(r) == multiset(s)
  {
    if |s| == 0 then []
    else
      assert s == [s[0]] + s[1..];
      Insert(s[0], SortByScore(s[1..]))
  }

  lemma {:induction false} SortByScoreDescending(s: seq<Post>)
    ensures Descending(SortByScore(s))
  {
    if |s| > 0 {
      SortByScoreDescending(s[1..]);
      InsertDescending(s[0], SortByScore(s[1..]));
    }
  }

  /** `nlargest(n, 'score')`, which with `keep='first'` selects what a stable
      descending sort puts first: the first `n` posts of that order. */
  function TopPosts(posts: seq<Post>, n: nat): (top: seq<Post>)
    ensures |top| == if n < |posts| then n else |posts|
    ensures multiset(top) <= multiset(posts)
  {
    var sorted := SortByScore(posts);
    var m := if n < |posts| then n else |posts|;
    assert sorted == sorted[..m] + sorted[m..];
    sorted[..m]
  }

  lemma InTopIsIn(posts: seq<Post>, n: nat, y: Post)
    requires y in TopPosts(posts, n)
    ensures y in posts
  {
    assert y in multiset(TopPosts(posts, n));
  }

  /** The selected posts come in descending order of score. */
  lemma TopPostsDescending(posts: seq<Post>, n: nat)
    ensures Descending(TopPosts(posts, n))
  {
    SortByScoreDescending(posts);
  }

  /** No post left out scores more than a post selected: a post that occurs
      more often in the input than among the selected scores at most what any
      selected post scores. */
  lemma TopPostsDominate(posts: seq<Post>, n: nat, x: Post, y: Post)
    requires multiset(TopPosts(posts, n))[x] < multiset(posts)[x]
    requires y in TopPosts(posts, n)
    ensures x.score <= y.score
  {
    var sorted := SortByScore(posts);
    SortByScoreDescending(posts);
    var m := |TopPosts(posts, n)|;
    SplitMultiset(sorted, m);
    PrefixDominates(sorted, m, x, y);
  }

  lemma SplitMultiset(s: seq<Post>, m: nat)
    requires m <= |s|
    ensures multiset(s) == multiset(s[..m]) + multiset(s[m..])
  {
    assert s == s[..m] + s[m..];
  }

  /** In a descending order, a post after position `m` scores at most what
      any post before it scores. */
  lemma PrefixDominates(sorted: seq<Post>, m: nat, x: Post, y: Post)
    requires Descending(sorted) && m <= |sorted|
    requires x in multiset(sorted[m..]) && y in sorted[..m]
    ensures x.score <= y.score
  {
    var p :| 0 <= p < |sorted[m..]| && sorted[m..][p] == x;
    var l :| 0 <= l < m && sorted[..m][l] == y;
    assert sorted[l] == y && sorted[m + p] == x;
  }

  const TopPostCount: nat := 5

  /** The analyzer's output when it reports success. */
  datatype Report = Report(
    average: Option<real>,
    postCount: nat,
    distribution: map<Polarity, nat>,
    topPosts: seq<Post>,
    daily: Series)

  function Sentiment(p: Post): real {
    Score(p.text, p.compound)
  }

  /** The punctuation adjustment never applies to a fetched row: cleaning
      has removed every `!` and `?`, so the score is 0.7 times the polarity
      plus the length bonus, or 0 for an empty text. */
  lemma FetchedSentimentUnadjusted(s: Submission)
    ensures Punctuation(PostOf(s).text) == 0.0
    ensures var p := PostOf(s);
            Sentiment(p) == if |p.text| == 0 then 0.0 else 0.7 * p.compound + (|p.text| as real) / 10000.0
  {
    TextClean.CleanDropsMarks(s.title + " " + s.selftext);
  }

  function Sentiments(posts: seq<Post>): (vals: seq<real>)
    ensures |vals| == |posts|
    ensures forall i :: 0 <= i < |posts| ==> vals[i] == Sentiment(posts[i])
  {
    seq(|posts|, i requires 0 <= i < |posts| => Sentiment(posts[i]))
  }

  /** Each post as a dated sentiment value. */
  function Observations(posts: seq<Post>): (obs: seq<Obs>)
    ensures |obs| == |posts|
    ensures forall i :: 0 <= i < |posts| ==> obs[i] == Obs(posts[i].day, Sentiment(posts[i]))
    ensures Values(obs) == Sentiments(posts)
  {
    seq(|posts|, i requires 0 <= i < |posts| => Obs(posts[i].day, Sentiment(posts[i])))
  }

  function NoPostsError(symbol: string): string {
    "No Reddit posts for " + symbol
  }

  /** The overall average sentiment of the kept posts (NaN when none). */
  function AverageOf(kept: seq<Post>): Option<real> {
    MeanOf(Sentiments(kept))
  }

  /** The daily mean and count series of the kept posts. */
  function DailyOf(kept: seq<Post>): Series {
    Resample(Observations(kept))
  }

  /** The success dictionary built from the posts that passed the gate. */
  function Summarize(kept: seq<Post>): (rep: Report)
    ensures rep.postCount == |kept|
  {
    Report(
      average := AverageOf(kept),
      postCount := |kept|,
      distribution := Distribution(Sentiments(kept)),
      topPosts := TopPosts(kept, TopPostCount),
      daily := DailyOf(kept))
  }

  /** `analyze_sentiment`. The empty check looks at the fetched posts, before
      the quality filter. */
  function Analyze(symbol: string, posts: seq<Post>): (r: Result<Report>)
    ensures r.Err? <==> |posts| == 0
    ensures r.Err? ==> r.error == NoPostsError(symbol)
    ensures r.Ok? ==> r.value.postCount == |FilterLowQuality(posts)|
  {
    if |posts| == 0 then Err(NoPostsError(symbol))
    else Ok(Summarize(FilterLowQuality(posts)))
  }

  /** A fetch whose every post fails the gate still reports success, with no
      posts, an empty daily index and an undefined (NaN) average. */
  lemma FullyFilteredStillSucceeds(symbol: string, posts: seq<Post>)
    requires |posts| > 0
    requires forall i :: 0 <= i < |posts| ==> !PassesGate(posts[i])
    ensures Analyze(symbol, posts).Ok?
    ensures Analyze(symbol, posts).value.postCount == 0
    ensures Analyze(symbol, posts).value.average.None?
    ensures |Analyze(symbol, posts).value.daily.buckets| == 0
  {
  }

  /** The average is the unweighted mean of the kept posts' sentiment,
      undefined only when nothing was kept. */
  lemma AverageTimesCount(kept: seq<Post>)
    ensures AverageOf(kept).None? <==> |kept| == 0
    ensures AverageOf(kept).Some? ==> AverageOf(kept).value * (|kept| as real) == Sum(Sentiments(kept))
  {
    if |kept| > 0 {
      MeanTimesCount(Sentiments(kept));
    }
  }

  /** The daily counts add up to the post count. */
  lemma DailyCountsSum(kept: seq<Post>)
    ensures TotalCount(DailyOf(kept).buckets) == |kept|
  {
    ResampleCountsSum(Observations(kept));
  }

  /** The distribution's counts add up to the post count. */
  lemma DistributionSum(kept: seq<Post>)
    ensures var dist := Summarize(kept).distribution;
            CountIn(dist, Positive) + CountIn(dist, Negative) + CountIn(dist, Neutral) == |kept|
  {
  }

  /** At most five top posts, every one of them a kept post. */
  lemma SummaryTopPosts(kept: seq<Post>)
    ensures |Summarize(kept).topPosts| == (if |kept| < TopPostCount then |kept| else TopPostCount)
    ensures forall p :: p in Summarize(kept).topPosts ==> p in kept
  {
    forall p | p in Summarize(kept).topPosts
      ensures p in kept
    {
      InTopIsIn(kept, TopPostCount, p);
    }
  }

  /** The overall average is the mean of the daily means weighted by the
      daily counts. */
  lemma AverageIsCountWeightedDailyMean(kept: seq<Post>)
    requires |kept| > 0
    ensures AverageOf(kept).value * (|kept| as real) == WeightedTotal(DailyOf(kept).buckets)
  {
    ResampleTotalsMatch(Observations(kept));
    AverageTimesCount(kept);
  }

  /** Every kept post falls on a day of the daily index. */
  lemma DailyIndexCoversKeptPosts(kept: seq<Post>)
    ensures forall i :: 0 <= i < |kept| ==>
              DailyOf(kept).first <= kept[i].day < DailyOf(kept).first + |DailyOf(kept).buckets|
  {
    var obs := Observations(kept);
    ResampleCovers(obs);
    assert forall i :: 0 <= i < |kept| ==> obs[i].day == kept[i].day;
  }

  /** A day's count is zero, and its mean missing, exactly when no kept post
      falls on it. */
  lemma DailyEmptyDays(kept: seq<Post>, d: nat)
    requires d < |DailyOf(kept).buckets|
    ensures DailyOf(kept).buckets[d].Count() == 0 <==>
              forall i :: 0 <= i < |kept| ==> kept[i].day != DailyOf(kept).first + d
    ensures DailyOf(kept).buckets[d].Average().None? <==> DailyOf(kept).buckets[d].Count() == 0
  {
    var obs := Observations(kept);
    ResampleEmptyDays(obs, d);
    assert forall i :: 0 <= i < |kept| ==> obs[i].day == kept[i].day;
  }

  /** The analyzer object's one piece of state: the daily-mean series of the
      last successful call, read back by `daily_series()`. */
  datatype Analyzer = Analyzer(lastFirst: int, lastDaily: seq<Option<real>>)

  /** A freshly constructed analyzer holds an empty series. */
  const FreshAnalyzer: Analyzer := Analyzer(0, [])

  /** One call of `analyze_sentiment` on an analyzer object: the result, and
      the object as the call leaves it. */
  function AnalyzeOn(a: Analyzer, symbol: string, posts: seq<Post>): (res: (Analyzer, Result<Report>))
    ensures res.1 == Analyze(symbol, posts)
    ensures res.1.Err? ==> res.0 == a
    ensures res.1.Ok? ==> res.0.lastDaily == res.1.value.daily.Means()
                          && res.0.lastFirst == res.1.value.daily.first
  {
    var r := Analyze(symbol, posts);
    if r.Err? then (a, r)
    else (Analyzer(r.value.daily.first, r.value.daily.Means()), r)
  }

  /** `daily_series()`. */
  function DailySeries(a: Analyzer): seq<Option<real>> {
    a.lastDaily
  }

  /** `daily_series()` after a call reads the daily means of that call when it
      succeeded, and what it read before when it failed. */
  lemma DailySeriesAfterCall(a: Analyzer, symbol: string, posts: seq<Post>)
    ensures var (a', r) := AnalyzeOn(a, symbol, posts);
            && (r.Ok? ==> |DailySeries(a')| == |r.value.daily.buckets|
                          && forall d :: 0 <= d < |DailySeries(a')| ==> DailySeries(a')[d] == r.value.daily.buckets[d].Average())
            && (r.Err? ==> DailySeries(a') == DailySeries(a))
  {
  }
}
