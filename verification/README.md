# Stock sentiment aggregation: a Dafny model

This project models the sentiment pipeline of a stock-sentiment service and proves properties about it. The pipeline has these stages:

- **Scoring and filtering.** Each fetched Reddit post is scored and passed through a quality gate.
- **Reddit analyzer.** It summarises the posts that pass the gate. It reports a mean, a polarity distribution, the five most up-voted posts, and a daily mean series with a daily count series.
- **Twitter analyzer.** It searches with exponential back-off on rate limits and averages the tweets it finds.
- **Market-data fetcher.** It retries a quote read with a fixed delay. It also strips the timezone from the price history.
- **Unified snapshot.** It blends the per-source averages with a fixed divisor of three. It then volume-weights Reddit's daily series, computes a trailing rolling mean and standard deviation with `min_periods=3`, gates a ±1 std band on days with at least five posts, and labels the trend Bullish, Bearish or Neutral from the last defined rolling mean.
- **`/analyze` endpoint.** It reads the request defaults, pairs each day's sentiment with the next day's price return for the correlation, and turns any exception into a 500.

The older variants under `src/models` are modelled too. Their unified score averages only the sources that answered.

## How things are represented

- **Day-indexed series.** A pandas series indexed by day is a contiguous run of days: a first day key plus a sequence with one entry per day. NaN is `None`.
- **Daily buckets.** `Daily.Series` keeps each day's group of scores, so the daily mean and the daily count always share one index.
- **External services.** Reddit, tweepy, NewsAPI and yfinance are inputs. They appear either as the list of records they return or as a scripted function from the attempt number to what that attempt did.
- **Retry loops.** Both loops are `method`s that follow the source loop. Each is proved equal to a declarative `Expected` function, and the properties are lemmas about `Expected`.
- **Sleeps.** They are recorded as numbers.
- **Functions needing a square root.** The rolling standard deviation and the Pearson coefficient are function parameters: `stdOf` and `corrOf`.
- **The std contract.** `Smoothing.IsSampleStd` says that `stdOf` returns the non-negative root of the sample variance (`ddof=1`).
- **VADER.** The `compound` polarity is carried by each post or tweet as a number.

## Behaviour of the code worth knowing

The model follows the code in each of these cases.

- **The blend divisor.** The unified average always divides by three (`backend/models/unified_sentiment.py:36`), even with Twitter disabled: a disabled or failed source counts as a 0.
- **The band gate.** The band is shown when the day has at least five posts *and* a rolling mean. Subtracting from a NaN mean gives NaN, so both conditions are needed.
- **Reddit's empty check.** It looks at the fetched posts, before the quality filter. A fetch whose every post fails the gate therefore reports success, with no posts and a NaN average. That NaN makes the blended average NaN (`Unified.FullyFilteredRedditPoisonsBlend`).
- **Punctuation in Reddit posts.** The scorer adds 0.1 for a `!` and takes 0.1 off for a `?`, but a Reddit row's text has been cleaned, and cleaning deletes both characters. The adjustment never applies to a Reddit post (`Reddit.FetchedSentimentUnadjusted`).
- **Failures that end in a 500.** The snapshot reads `price_res['data']` unconditionally. A failed quote raises `KeyError('data')`, and a `None` result raises a `TypeError`. A window below three makes pandas raise. Reddit's search runs outside any `try`, so a raise from it (a network or authentication error, say) escapes first. In each case `/analyze` answers 500.
- **Encoding the response.** The `JSONResponse` is built inside the `try`, and Starlette encodes it there with `allow_nan=False`. The encoder refuses a NaN and a pandas Timestamp key, and every series' `to_dict()` is keyed by Timestamps. A payload with sentiment days therefore cannot be encoded, and without them the correlation is NaN. So with such an encoder `/analyze` answers 500 on every request (`Api.StrictEncodingNeverAnswers200`). The encoder is a parameter of the model; `Api.RejectsUnencodable` is the only thing assumed of it.
- **The correlation fallback.** `float(corr or 0)` does not replace NaN, because NaN is truthy. An undefined correlation is passed on as NaN, not as 0 (`Api.OrZero`).
- **The older unified variant.** It calls `twitter.analyze` and `news.analyze`. The analyzers in `src/models/twitter_sentiment.py` and `src/models/news_sentiment.py` define only `analyze_sentiment`, so with them the call raises. The model takes those two answers as inputs, a raise included.
- **The older Reddit analyzer.** It imports `models.enhanced_sentiment`, which is not part of this model. Its scorer and gate are modelled as the backend's.

## Model

| member | source | states |
|---|---|---|
| TextClean.Clean | backend/models/reddit_sentiment.py:21-22 | the cleaned text holds only word and whitespace characters and is never longer than the input |
| TextClean.CleanIsSubsequence | backend/models/reddit_sentiment.py:22 | the cleaned text is obtained from the input by deleting characters |
| TextClean.CleanKeepsPlain | backend/models/reddit_sentiment.py:22 | text made only of word and whitespace characters, with no `http` followed by a non-space, comes back unchanged |
| TextClean.CleanFixedPointIffPlain | src/models/reddit_sentiment.py:18-19 | the cleaner leaves a text unchanged exactly when the text is plain in that sense, in both directions |
| TextClean.CleanLengthKeptOnlyWhenPlain | backend/models/reddit_sentiment.py:22 | a cleaning that deletes nothing happens only to plain text |
| TextClean.CleanDropsMarks | backend/models/reddit_sentiment.py:22 | no `!` or `?` survives cleaning |
| TextClean.CleanNotIdempotent | backend/models/reddit_sentiment.py:22 | `ht!tpx` cleans to `httpx`, which a second cleaning empties, so the cleaner is not idempotent |
| Enhanced.QualityScore | backend/models/enhanced_sentiment.py:26-30 | the quality is non-negative and at most 1 for a polarity in [-1, 1]; a short, unpopular post scores at most 0.4, and a long, popular one at least 0.6 |
| Enhanced.FilterLowQuality | backend/models/enhanced_sentiment.py:32-34 | each post occurs among the kept ones as often as in the input if its quality exceeds 0.5, and otherwise not at all |
| Enhanced.FilterIsSubsequence | backend/models/enhanced_sentiment.py:34 | the kept posts keep their original order |
| Enhanced.FilterMembership | backend/models/enhanced_sentiment.py:18 | a post is kept exactly when it is in the input and its quality is strictly above 0.5 |
| Enhanced.ShortUnpopularDropped | backend/models/enhanced_sentiment.py:26-34 | a post of at most 100 characters and score at most 10 is never kept |
| Enhanced.LongPopularKept | backend/models/enhanced_sentiment.py:26-34 | a post of more than 100 characters and score above 10 is always kept |
| Enhanced.Punctuation | backend/models/enhanced_sentiment.py:42-43 | the punctuation adjustment lies in [-0.1, 0.1] and is 0 when both `!` and `?` occur |
| Enhanced.Score | backend/models/enhanced_sentiment.py:37-44 | the empty text scores 0; otherwise the score is 0.7 × polarity + length / 10000 + the punctuation adjustment, and it is bounded by -0.8 and 0.8 + length / 10000 |
| Enhanced.ScoreCanExceedOne | backend/models/enhanced_sentiment.py:40-44 | nothing clamps the score: a long, exclaiming, fully positive text scores above 1 |
| Enhanced.MixedPunctuationCancels | backend/models/enhanced_sentiment.py:42-43 | with both `!` and `?` present the score is 0.7 × polarity + length / 10000 |
| Daily.Resample | backend/models/reddit_sentiment.py:48-50 | the daily index runs from the earliest to the latest post's day and is empty only without posts, and each day holds exactly that day's scores |
| Daily.ResampleCovers | backend/models/reddit_sentiment.py:49 | every post's day lies on the daily index |
| Daily.ResampleEmptyDays | backend/models/reddit_sentiment.py:49-50 | a day's count is 0 exactly when no post falls on it, and its mean is missing exactly then |
| Daily.ResampleFirstDayOccupied | backend/models/reddit_sentiment.py:49 | the first day of the index has a post |
| Daily.ResampleLastDayOccupied | backend/models/reddit_sentiment.py:49 | the last day of the index has a post |
| Daily.ResampleCountsSum | backend/models/reddit_sentiment.py:50 | the daily counts add up to the number of posts |
| Daily.ResampleTotalsMatch | backend/models/reddit_sentiment.py:49-50 | the sum over days of count × mean is the sum of all scores |
| Reddit.PostOf | backend/models/reddit_sentiment.py:28-34 | a row's text is obtained from `"{title} {selftext}"` by deleting characters, holds only word and whitespace characters, and the row keeps the submission's score, day and polarity |
| Reddit.FetchPosts | backend/models/reddit_sentiment.py:24-36 | one row per submission, in the search's order |
| Reddit.FetchedSentimentUnadjusted | backend/models/reddit_sentiment.py:30-44 | a fetched row's score has no punctuation adjustment: it is 0 for an empty text and otherwise 0.7 × polarity + length / 10000 |
| Reddit.PolarityOf | backend/models/reddit_sentiment.py:56 | a value is labelled positive exactly when above 0 and negative exactly when below 0 |
| Reddit.PolarityCountsSum | backend/models/reddit_sentiment.py:54-57 | the three label counts add up to the number of values |
| Reddit.Distribution | backend/models/reddit_sentiment.py:54-58 | each label maps to its count, only labels that occur are keys, and the counts add up to the number of posts |
| Reddit.DistributionKeys | backend/models/reddit_sentiment.py:57 | a label is a key exactly when some value carries it |
| Reddit.SortByScore | backend/models/reddit_sentiment.py:59 | the sort is a permutation of its input |
| Reddit.SortByScoreDescending | backend/models/reddit_sentiment.py:59 | the sort is in descending order of score |
| Reddit.TopPosts | backend/models/reddit_sentiment.py:59 | the selection has min(n, number of posts) entries, all drawn from the input |
| Reddit.TopPostsDescending | backend/models/reddit_sentiment.py:59 | the selected posts are in descending order of score |
| Reddit.TopPostsDominate | backend/models/reddit_sentiment.py:59 | no post left out scores more than a selected post |
| Reddit.Analyze | backend/models/reddit_sentiment.py:38-69 | the analysis fails exactly when no posts were fetched, with `No Reddit posts for <symbol>`; otherwise the post count is the number of posts the gate kept |
| Reddit.FullyFilteredStillSucceeds | backend/models/reddit_sentiment.py:40-45 | posts that all fail the gate still give success, with no posts, an empty daily index and a NaN average |
| Reddit.AverageTimesCount | backend/models/reddit_sentiment.py:63-64 | the average is missing only when nothing was kept, and it times the post count is the sum of the kept sentiments |
| Reddit.AverageIsCountWeightedDailyMean | backend/models/reddit_sentiment.py:49-63 | the average is the count-weighted mean of the daily means |
| Reddit.DailyCountsSum | backend/models/reddit_sentiment.py:50 | the daily counts add up to the post count |
| Reddit.DistributionSum | backend/models/reddit_sentiment.py:54-58 | the distribution's counts add up to the post count |
| Reddit.SummaryTopPosts | backend/models/reddit_sentiment.py:59 | the success dictionary built by `Reddit.Summarize` lists min(5, number kept) top posts, each of them a kept post |
| Reddit.DailyIndexCoversKeptPosts | backend/models/reddit_sentiment.py:48-50 | every kept post's day lies on the daily index |
| Reddit.DailyEmptyDays | backend/models/reddit_sentiment.py:49-50 | a day's count is 0, and its mean missing, exactly when no kept post falls on it |
| Reddit.AnalyzeOn | backend/models/reddit_sentiment.py:51 | a successful call stores its daily means in the analyzer, and a failed call leaves it unchanged |
| Reddit.DailySeriesAfterCall | backend/models/reddit_sentiment.py:71-72 | `daily_series()` reads the daily means of the last successful call |
| Twitter.AnalyzeSentiment | backend/models/twitter_sentiment.py:28-59 | the loop as written makes the same calls and sleeps and gives the same result as the declarative account |
| Twitter.Answer | backend/models/twitter_sentiment.py:36-57 | an attempt fails exactly on an exception or an empty result, with the exception's text or `No tweets found` |
| Twitter.FirstAnswered | backend/models/twitter_sentiment.py:28 | the first attempt not rate-limited, with every attempt before it rate-limited |
| Twitter.Backoff | backend/models/twitter_sentiment.py:54 | after the k-th rate limit the delay is 2^k seconds |
| Twitter.Expected | backend/models/twitter_sentiment.py:28-59 | the reference account of a call makes between one and three searches, and sleeps the back-off delays of the rate limits before the first attempt not rate-limited |
| Twitter.AttemptsBounded | backend/models/twitter_sentiment.py:28 | between one and three searches are made, with no more sleeps than searches |
| Twitter.ThreeRateLimits | backend/models/twitter_sentiment.py:53-59 | three rate limits give `Twitter rate-limit exceeded` after sleeping 1, 2 and 4 seconds, 7 in all |
| Twitter.RateLimitSleepsThenRetries | backend/models/twitter_sentiment.py:53-54 | a rate limit on attempt k sleeps 2^k seconds and, before the third attempt, searches again |
| Twitter.FailureReturnsAtOnce | backend/models/twitter_sentiment.py:55-57 | another exception returns its text at once, with one search and no sleep |
| Twitter.NoTweetsReturnsAtOnce | backend/models/twitter_sentiment.py:36-38 | an empty result returns `No tweets found` at once |
| Twitter.SuccessComesFromFirstAnswer | backend/models/twitter_sentiment.py:40-51 | a success summarises the first attempt not rate-limited, which found tweets |
| Twitter.SummaryAverageTimesCount | backend/models/twitter_sentiment.py:48-49 | the average times the post count is the sum of the compounds |
| Twitter.SummaryAverageBounded | backend/models/twitter_sentiment.py:48 | with compounds in [-1, 1] the average is in [-1, 1] |
| Twitter.SummaryDaily | backend/models/twitter_sentiment.py:43-50 | in the success dictionary built by `Twitter.Summarize`, the daily index covers every tweet's day, and the daily counts add up to the post count |
| StockData.QuoteOf | backend/models/stock_data.py:16-24 | the quote carries the info's price, its currency or `USD`, and its P/E and EPS |
| StockData.StepOf | backend/models/stock_data.py:12-36 | a missing price, any non-HTTP exception and HTTP 429 ask for a retry; another HTTP status is final; an HTTP error with no response escapes |
| StockData.FirstStop | backend/models/stock_data.py:7 | the first attempt not asking for a retry, or the last attempt, with every earlier one asking for a retry |
| StockData.GetStockData | backend/models/stock_data.py:6-36 | the loop as written makes the same reads and sleeps and gives the same result as the declarative account |
| StockData.Expected | src/models/stock_data.py:7-37 | no read with `retries <= 0`, otherwise between 1 and `retries` reads, and every sleep lasts `delay` |
| StockData.AttemptsBounded | backend/models/stock_data.py:7 | at most `retries` reads are made, and every read but the last is followed by a sleep |
| StockData.NoAttemptsReturnsNone | src/models/stock_data.py:8-37 | with `retries <= 0` nothing is read and `None` is returned |
| StockData.AlwaysAnswers | backend/models/stock_data.py:7-36 | with at least one attempt, a non-negative delay and HTTP errors that carry a response, a result dictionary always comes back |
| StockData.SuccessCarriesPrice | backend/models/stock_data.py:12-24 | a success carries the last read's price, its currency or `USD`, and its P/E and EPS |
| StockData.MissingPriceRetried | backend/models/stock_data.py:13-14 | a missing price before the last attempt is retried after sleeping `delay` |
| StockData.PriceNeverAvailable | src/models/stock_data.py:33-37 | a price missing on every attempt ends, after `retries` reads, in `No price data` |
| StockData.RateLimitRetried | backend/models/stock_data.py:26-29 | HTTP 429 before the last attempt sleeps `delay` and reads again |
| StockData.OtherHttpErrorFailsAtOnce | src/models/stock_data.py:27-31 | any other HTTP status fails at once with the error's text: one read, no sleep |
| StockData.HttpErrorOnLastAttempt | backend/models/stock_data.py:26-30 | any HTTP error on the last attempt, 429 included, is returned as the error |
| StockData.DefaultsBounded | backend/models/stock_data.py:6 | with the defaults, at most three reads and at most two sleeps of four seconds each |
| StockData.History | backend/models/stock_data.py:38-47 | the history has no timezone and keeps every row |
| Smoothing.VolumeWeighted | backend/models/unified_sentiment.py:49-53 | the weighted series has the same days as the daily series, and a day is missing exactly when its sentiment is |
| Smoothing.WeighsIffSomePosts | backend/models/unified_sentiment.py:49 | the weighting applies exactly when some day has posts |
| Smoothing.WeightingSkipped | backend/models/unified_sentiment.py:52-53 | with no counts, or only zero counts, the series comes back unchanged |
| Smoothing.WeightInUnitInterval | backend/models/unified_sentiment.py:50 | every weight lies in [0, 1], and the busiest day's weight is 1 |
| Smoothing.WeightedValue | backend/models/unified_sentiment.py:50-51 | a present day's weighted value is its sentiment × count / max count |
| Smoothing.WeightingShrinks | backend/models/unified_sentiment.py:49-53 | weighting never moves a day's sentiment away from zero |
| Smoothing.RollingMeanSliding | backend/models/unified_sentiment.py:56 | a running sum and count over the sliding window give `Smoothing.RollingMean`, the reference rolling mean: the mean of the present values among positions max(0, i-W+1)..i, defined iff there are at least 3 |
| Smoothing.RollingMeanStartsMissing | backend/models/unified_sentiment.py:56 | the first two days never have a rolling mean |
| Smoothing.RollingMeanDense | backend/models/unified_sentiment.py:56 | on a series without gaps the rolling mean is defined from the third day on |
| Smoothing.RollingMeanWithin | backend/models/unified_sentiment.py:56 | a rolling mean lies within any bounds the series' present values keep |
| Smoothing.RollingMeanWiderWindow | backend/models/unified_sentiment.py:56 | widening the window never loses a defined rolling mean |
| Smoothing.SampleVarianceNonNegative | backend/models/unified_sentiment.py:57 | the sample variance is never negative |
| Smoothing.RollingStdNonNegative | backend/models/unified_sentiment.py:57 | the filled rolling std is never negative |
| Smoothing.RollingStdFilled | backend/models/unified_sentiment.py:57 | where the rolling mean is missing, the rolling std is the fill value 0 |
| Smoothing.RollingStdSquared | backend/models/unified_sentiment.py:57 | where the rolling mean is defined, the rolling std squares to the sample variance of the window's values |
| Smoothing.ConfidenceBand | backend/models/unified_sentiment.py:59-63 | a day's band is present exactly when the day had at least 5 posts and a rolling mean; its lower bound is then the mean minus the std, and its upper bound the mean plus the std |
| Smoothing.BandBracketsMean | backend/models/unified_sentiment.py:59-63 | wherever the band is present, lower ≤ rolling mean ≤ upper, and the band is centred on the mean |
| Smoothing.TrendOf | backend/models/unified_sentiment.py:70-72 | the trend is Neutral when no rolling mean is defined |
| Smoothing.LastDefined | backend/models/unified_sentiment.py:71-73 | the position of the last defined value, with nothing defined after it |
| Smoothing.LastObservedIsLastDefined | backend/models/unified_sentiment.py:71-73 | the last value left by `dropna()` is the value at the last defined position |
| Smoothing.TrendFromLatest | backend/models/unified_sentiment.py:70-75 | the trend is Bullish above 0.20 and Bearish below -0.20 at the last defined rolling mean, and otherwise Neutral, so ±0.20 itself is Neutral |
| Smoothing.TrendMirrors | backend/models/unified_sentiment.py:74-75 | negating every rolling mean swaps Bullish and Bearish |
| Unified.RedditScore | backend/models/unified_sentiment.py:32 | a failed Reddit analysis scores 0, and a successful one scores its average |
| Unified.TwitterScore | backend/models/unified_sentiment.py:28-33 | disabled or failed Twitter scores 0, and enabled, successful Twitter scores its average |
| Unified.NewsScore | backend/models/unified_sentiment.py:34 | failed news scores 0, and successful news scores its average |
| Unified.Blend | backend/models/unified_sentiment.py:36 | the blend is NaN exactly when Reddit's score is |
| Unified.BlendFixedDivisor | backend/models/unified_sentiment.py:31-36 | the blend times three is the sum of the three scores, whatever failed or was disabled |
| Unified.BlendOfOnlyNews | backend/models/unified_sentiment.py:28-36 | with Reddit failed and Twitter off or failed, the blend is a third of the news average |
| Unified.Smooth | backend/models/unified_sentiment.py:56-61 | the weighted series, counts, rolling mean and band all share the daily index |
| Unified.GetUnifiedSentiment | backend/models/unified_sentiment.py:27-56 | a raise from Reddit's search escapes before anything else; once the posts are in, a window below three raises pandas' `min_periods 3 must be <= window` error; a snapshot is returned only when the posts came back and the window is at least three |
| Unified.SmoothedBandBrackets | backend/models/unified_sentiment.py:56-63 | wherever the snapshot's band is present it brackets the rolling mean |
| Unified.SmoothedBandGate | backend/models/unified_sentiment.py:59-63 | the snapshot's band is present exactly on days with at least five posts and a rolling mean |
| Unified.WeightedMissingOnEmptyDays | backend/models/unified_sentiment.py:49-51 | the weighted daily sentiment is missing exactly on days without posts |
| Unified.FailedPriceRaises | backend/models/unified_sentiment.py:89-90 | a failed quote makes the snapshot raise `KeyError('data')` |
| Unified.SnapshotContents | backend/models/unified_sentiment.py:77-88 | the snapshot carries the blend of its sources, Reddit's post count or 0, and the smoothed Reddit series |
| Unified.SnapshotMarket | backend/models/unified_sentiment.py:66-90 | the snapshot's price and currency come from a successful quote, and its history has no timezone |
| Unified.RedditFailureEmptiesSeries | backend/models/unified_sentiment.py:39-40 | when Reddit fails, every series is empty, the trend is Neutral and the post count is 0 |
| Unified.FullyFilteredRedditPoisonsBlend | backend/models/unified_sentiment.py:32-36 | Reddit posts that all fail the gate make the blended average NaN |
| Legacy.Analyze | src/models/reddit_sentiment.py:36-57 | the analysis fails exactly when no posts were fetched; otherwise it counts the posts the gate kept |
| Legacy.AgreesWithBackend | src/models/reddit_sentiment.py:51-57 | the older analyzer reports the same success, error, average, count, distribution and top posts as the backend one |
| Legacy.SummaryAverage | src/models/reddit_sentiment.py:53-54 | the average is missing only when nothing was kept, and it times the count is the sum of the kept sentiments |
| Legacy.SummaryCounts | src/models/reddit_sentiment.py:48-56 | the distribution adds up to the count, and at most five top posts are listed, each a kept one |
| Legacy.AnalyzeOn | src/models/reddit_sentiment.py:45-46 | a successful call stores the kept posts' daily means, and a failed one leaves the analyzer unchanged |
| Legacy.StateAgreesWithBackend | src/models/reddit_sentiment.py:59-60 | both analyzers leave the same series for `daily_series()` |
| Legacy.Included | src/models/unified_sentiment.py:13-26 | Reddit's average is included only on success, and Twitter and news only when not `None` |
| Legacy.NumpyMean | src/models/unified_sentiment.py:34 | the mean is NaN exactly when some included value is NaN |
| Legacy.NumpyMeanTimesCount | src/models/unified_sentiment.py:34 | a defined mean times the number of included values is their sum, so every value counts in the divisor |
| Legacy.NumpyMeanWithin | src/models/unified_sentiment.py:34 | a defined mean lies within any bounds the included values keep |
| Legacy.Combine | src/models/unified_sentiment.py:28-43 | the result fails exactly when no source answered; otherwise the count is the number answering, between 1 and 3, and the map reports each source's answer |
| Legacy.GetUnifiedSentiment | src/models/unified_sentiment.py:10-44 | a raise from the Reddit fetch, the Twitter call or the news call escapes, in that order; otherwise the answers are combined |
| Legacy.NoSourcesIff | src/models/unified_sentiment.py:28-32 | the call fails with `No sentiment sources available.` exactly when Reddit found no posts and neither other source answered |
| Legacy.AverageOverPresentSources | src/models/unified_sentiment.py:34-38 | the average times the source count is the sum of the answering sources' values |
| Legacy.NaNRedditPoisonsAverage | src/models/unified_sentiment.py:16 | a NaN Reddit average makes the combined average NaN |
| Legacy.ContrastWithFixedDivisor | src/models/unified_sentiment.py:34-38 | the older average × its source count equals the fixed-divisor blend × 3, and the two agree when all three sources answer |
| Api.UpperChar | backend/main.py:39 | upper-casing maps a lower-case ASCII letter to its capital and leaves every other character alone |
| Api.UpperProperties | backend/main.py:39 | the upper-cased symbol has no lower-case letter, keeps every other character, and upper-casing it again changes nothing |
| Api.ParamsOf | backend/main.py:39-41 | the symbol is upper-cased and defaults to empty, the window defaults to 5, and Twitter defaults to on |
| Api.EmptyBodyDefaults | backend/main.py:39-41 | an empty body asks for the empty symbol, window 5 and Twitter on |
| Api.Returns | backend/main.py:49 | a day has a return exactly when a next day follows and its close is non-zero |
| Api.ReturnCompounds | backend/main.py:49 | close × (1 + return) is the next day's close |
| Api.PairsFrom | backend/main.py:50 | every index pair found holds the same day on both sides, with a value on both |
| Api.AlignedIff | backend/main.py:50 | a (sentiment day, history row) pair is correlated exactly when both fall on one day and both carry a value |
| Api.PairIsSentimentAndNextReturn | backend/main.py:47-50 | each correlated pair is day d's weighted sentiment and the return from d's close to the next row's close |
| Api.OrZero | backend/main.py:50 | the `or 0` guard returns its argument unchanged: NaN stays NaN |
| Api.PayloadOf | backend/main.py:45-68 | the payload's fundamentals are exactly the snapshot's `pe` and `eps`, and the average, trend, sources, price and currency are the snapshot's |
| Api.Analyze | backend/main.py:28-71 | a 200 carries only a payload the encoder accepted, and a window below three never gets one |
| Api.ResponseOutcome | backend/main.py:43-71 | a raising snapshot gives a 500 with only the exception's text; otherwise the response is a 500 exactly when the encoder refuses the payload, with the encoder's text, and a 200 carries the payload |
| Api.StrictEncodingNeverAnswers200 | backend/main.py:43-71 | with an encoder that refuses NaN and Timestamp keys, and a correlation that is NaN over no pairs, every response is a 500 |
| Api.ShortWindowIs500 | backend/main.py:40-71 | a window below three is answered with a 500 carrying pandas' complaint |
| Api.CorrelationOfAlignedDays | backend/main.py:48-50 | the correlation is taken over exactly the aligned pairs of weighted sentiment and next-day returns, and NaN is passed on |

## Left out

- **Network fetchers.** praw, tweepy, NewsAPI and yfinance are left out. The posts, tweets, quote reads, history and fundamentals they would return are inputs. The Reddit posts are a `Call`, so a raise from the search is an input too.
- **Logging.** The `print` of a failed Twitter search at `backend/models/twitter_sentiment.py:56` is not modelled. It writes to standard output and changes no result.
- **The news analyzer and the fundamentals fetcher.** Their results are inputs. `src/models/news_sentiment.py`, `src/models/twitter_sentiment.py` and both `fundamentals.py` files are thin fetch-and-score wrappers.
- **VADER and nltk.** `compound` is a given number, in [-1, 1] where a property needs it. The unused TF-IDF and RandomForest members are not modelled either.
- Smoothing.RollingStd: the rolling std is an abstract `stdOf`, because it needs a square root. `Smoothing.IsSampleStd` is the only constraint on it.
- Api.CorrelationOfAlignedDays: the Pearson coefficient is an abstract `corrOf`, because it needs a square root. Its value for fewer than two pairs is therefore not stated.
- **IEEE floats.** Arithmetic is on exact reals, and NaN is `None`. Infinities are not modelled.
- Api.Returns: a zero close yields no return here, because infinities are not modelled. pandas would give an infinite return.
- StockData.History: records only that the timezone is gone. `tz_localize(None)` and `utcfromtimestamp` are assumed to yield naive integer day keys.
- TextClean.Clean: `\w` and `\s` are modelled for ASCII only, while Python's classes are Unicode-aware.
- Api.UpperChar: `str.upper` is modelled on ASCII letters only.
- **Request body types.** The body's values are an optional string, integer and boolean. `int(...)` on a non-integer and `bool(...)` on a non-boolean are not modelled.
- Api.Analyze: Starlette's JSON encoder is not part of this model. It is a parameter, `encode`, and the payload is a datatype. `Api.RejectsUnencodable` states only which payloads it refuses, not the text of its exceptions.
- StockData.QuoteOf: a `currency` key present with value `None` is not distinguished from an absent one.
- **Caching, transport and UI.** `lru_cache`, the Redis cache, the Celery poller, the WebSocket stream in `backend/main.py:76-101`, the Flask app and the frontend are not part of this model.
- **Sleeping.** Sleeps are recorded as their lengths.
- **Posts beyond the fields used.** Only text, score, day and polarity are kept. `top_posts` returns these fields, not every column of the data frame.
