/** The Twitter analyzer: up to three searches with exponential back-off on
    rate limits, then the mean and daily mean of the found tweets' VADER
    compound polarity. The search endpoint is a scripted function from the
    attempt number to what that attempt's call did. */
module Twitter {
  import opened Base
  import opened Daily

  /** A found tweet: its creation day (a day key) and its VADER compound. */
  datatype Tweet = Tweet(day: int, compound: real)

  /** What one `search_recent_tweets` call did: it returned (`resp.data`,
      where a missing list reads as empty), it raised `TooManyRequests`, or it
      raised any other exception with text `message`. */
  datatype SearchOutcome = Found(tweets: seq<Tweet>) | RateLimited | Failed(message: string)

  const MaxAttempts: nat := 3
  const NoTweetsError: string := "No tweets found"
  const RateLimitError: string := "Twitter rate-limit exceeded"

  /** The success dictionary: the mean compound, the number of tweets and the
      daily series (its `Means()` are `daily_sentiment`). */
  datatype Summary = Summary(average: real, postCount: nat, daily: Series)

  function Pow2(k: nat): (p: nat)
    ensures p >= 1
  {
    if k == 0 then 1 else 2 * Pow2(k - 1)
  }

  function Scores(tweets: seq<Tweet>): (vals: seq<real>)
    ensures |vals| == |tweets|
    ensures forall i :: 0 <= i < |tweets| ==> vals[i] == tweets[i].compound
  {
    seq(|tweets|, i requires 0 <= i < |tweets| => tweets[i].compound)
  }

  function Observations(tweets: seq<Tweet>): (obs: seq<Obs>)
    ensures |obs| == |tweets|
    ensures forall i :: 0 <= i < |tweets| ==> obs[i] == Obs(tweets[i].day, tweets[i].compound)
  {
    seq(|tweets|, i requires 0 <= i < |tweets| => Obs(tweets[i].day, tweets[i].compound))
  }

  /** The success dictionary for a non-empty list of tweets. */
  function Summarize(tweets: seq<Tweet>): (s: Summary)
    requires |tweets| > 0
    ensures s.postCount == |tweets|
  {
    Summary(Average(tweets), |tweets|, Resample(Observations(tweets)))
  }

  /** `float(df["sentiment"].mean())` over a non-empty list. */
  function Average(tweets: seq<Tweet>): real
    requires |tweets| > 0
  {
    Mean(Scores(tweets))
  }

  /** The answer of an attempt that did not hit the rate limit. */
  function Answer(o: SearchOutcome): (r: Result<Summary>)
    requires !o.RateLimited?
    ensures r.Err? <==> o.Failed? || |o.tweets| == 0
    ensures o.Failed? ==> r == Err(o.message)
    ensures o.Found? && |o.tweets| == 0 ==> r == Err(NoTweetsError)
  {
    match o
    case Failed(msg) => Err(msg)
    case Found(tweets) => if |tweets| == 0 then Err(NoTweetsError) else Ok(Summarize(tweets))
  }

  /** The first attempt at or after `from` that was not rate-limited, or
      `MaxAttempts` when every remaining one was. */
  function FirstAnswered(search: nat -> SearchOutcome, from: nat): (k: nat)
    requires from <= MaxAttempts
    ensures from <= k <= MaxAttempts
    ensures forall j :: from <= j < k ==> search(j).RateLimited?
    ensures k < MaxAttempts ==> !search(k).RateLimited?
    decreases MaxAttempts - from
  {
    if from == MaxAttempts || !search(from).RateLimited? then from
    else FirstAnswered(search, from + 1)
  }

  /** The back-off delays slept after the first `k` rate-limited attempts:
      2^0, 2^1, ..., 2^(k-1) seconds. */
  function Backoff(k: nat): (delays: seq<nat>)
    ensures |delays| == k
    ensures forall j :: 0 <= j < k ==> delays[j] == Pow2(j)
  {
    if k == 0 then [] else Backoff(k - 1) + [Pow2(k - 1)]
  }

  function SumNat(xs: seq<nat>): nat {
    if |xs| == 0 then 0 else xs[0] + SumNat(xs[1..])
  }

  /** A whole call of `analyze_sentiment`: its result, the delays slept and
      the number of searches made. */
  datatype Run = Run(result: Result<Summary>, delays: seq<nat>, calls: nat)

  /** The declarative account of a call: the attempts up to the first one not
      rate-limited are made, each rate limit before it sleeps, and that
      attempt's answer is returned; when all three are rate-limited, the call
      gives up after sleeping after each. */
  function Expected(search: nat -> SearchOutcome): (run: Run)
    ensures 1 <= run.calls <= MaxAttempts
    ensures run.delays == Backoff(FirstAnswered(search, 0))
  {
    var k := FirstAnswered(search, 0);
    if k == MaxAttempts then Run(Err(RateLimitError), Backoff(k), MaxAttempts)
    else Run(Answer(search(k)), Backoff(k), k + 1)
  }

  /** `analyze_sentiment` as the source writes it: a loop over attempts
      0, 1, 2 that returns on any answer and sleeps 2^attempt on a rate
      limit. */
  method AnalyzeSentiment(search: nat -> SearchOutcome)
    returns (r: Result<Summary>, delays: seq<nat>, calls: nat)
    ensures Run(r, delays, calls) == Expected(search)
  {
    delays := [];
    calls := 0;
    var attempt: nat := 0;
    while attempt < MaxAttempts
      invariant attempt <= MaxAttempts
      invariant calls == attempt
      invariant delays == Backoff(attempt)
      invariant forall j :: 0 <= j < attempt ==> search(j).RateLimited?
      invariant FirstAnswered(search, 0) == FirstAnswered(search, attempt)
    {
      calls := calls + 1;
      var outcome := search(attempt);
      if !outcome.RateLimited? {
        r := Answer(outcome);
        return;
      }
      delays := delays + [Pow2(attempt)];
      attempt := attempt + 1;
    }
    r := Err(RateLimitError);
  }

  /** At most three searches are made, and at least one. */
  lemma AttemptsBounded(search: nat -> SearchOutcome)
    ensures 1 <= Expected(search).calls <= 3
    ensures |Expected(search).delays| <= Expected(search).calls
  {
  }

  /** Three rate limits in a row give up with the rate-limit error after
      sleeping 1, 2 and 4 seconds, 7 in all. */
  lemma ThreeRateLimits(search: nat -> SearchOutcome)
    requires search(0).RateLimited? && search(1).RateLimited? && search(2).RateLimited?
    ensures Expected(search).result == Err(RateLimitError)
    ensures Expected(search).calls == 3
    ensures Expected(search).delays == [1, 2, 4]
    ensures SumNat(Expected(search).delays) == 7
  {
    assert FirstAnswered(search, 0) == 3;
    var d := Expected(search).delays;
    assert d[0] == 1 && d[1] == 2 && d[2] == 4;
    assert d == [1, 2, 4];
    assert d[1..] == [2, 4] && d[2..] == [4];
    assert SumNat([4]) == 4;
    assert SumNat([2, 4]) == 6;
  }

  /** A rate limit on attempt `k` is followed by a sleep of 2^k seconds and a
      further search. */
  lemma RateLimitSleepsThenRetries(search: nat -> SearchOutcome, k: nat)
    requires k < MaxAttempts
    requires forall j :: 0 <= j <= k ==> search(j).RateLimited?
    ensures |Expected(search).delays| > k && Expected(search).delays[k] == Pow2(k)
    ensures k + 1 < MaxAttempts ==> Expected(search).calls > k + 1
  {
    assert FirstAnswered(search, 0) > k;
  }

  /** Any other exception on the first attempt is returned at once, with no
      retry and no sleep. */
  lemma FailureReturnsAtOnce(search: nat -> SearchOutcome)
    requires search(0).Failed?
    ensures Expected(search) == Run(Err(search(0).message), [], 1)
  {
  }

  /** An empty (or absent) tweet list on the first attempt is reported at once
      as "No tweets found". */
  lemma NoTweetsReturnsAtOnce(search: nat -> SearchOutcome)
    requires search(0).Found? && |search(0).tweets| == 0
    ensures Expected(search) == Run(Err(NoTweetsError), [], 1)
  {
  }

  /** A success summarises the tweets of the first attempt that was not
      rate-limited, and every earlier attempt was rate-limited. */
  lemma SuccessComesFromFirstAnswer(search: nat -> SearchOutcome)
    requires Expected(search).result.Ok?
    ensures var k := Expected(search).calls - 1;
            && search(k).Found? && |search(k).tweets| > 0
            && Expected(search).result.value == Summarize(search(k).tweets)
            && forall j :: 0 <= j < k ==> search(j).RateLimited?
  {
  }

  /** The average is the mean compound: times the post count it is their
      sum. */
  lemma SummaryAverageTimesCount(tweets: seq<Tweet>)
    requires |tweets| > 0
    ensures Average(tweets) * (|tweets| as real) == Sum(Scores(tweets))
  {
    MeanTimesLength(Scores(tweets), |tweets|);
  }

  /** With every compound in VADER's range [-1, 1], so is the average. */
  lemma SummaryAverageBounded(tweets: seq<Tweet>)
    requires |tweets| > 0
    requires forall i :: 0 <= i < |tweets| ==> -1.0 <= tweets[i].compound <= 1.0
    ensures -1.0 <= Average(tweets) <= 1.0
  {
    MeanBounds(Scores(tweets), -1.0, 1.0);
  }

  /** The daily series covers every tweet's day, and its counts add up to the
      post count. */
  lemma SummaryDaily(tweets: seq<Tweet>)
    requires |tweets| > 0
    ensures var s := Summarize(tweets);
            && TotalCount(s.daily.buckets) == s.postCount
            && forall i :: 0 <= i < |tweets| ==> s.daily.first <= tweets[i].day < s.daily.first + |s.daily.buckets|
  {
    var obs := Observations(tweets);
    ResampleCountsSum(obs);
    ResampleCovers(obs);
  }
}
