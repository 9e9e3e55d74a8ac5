/** The market-data fetcher: `get_stock_data`'s fixed-delay retry loop around
    one read of a ticker's info, and `history`'s timezone stripping. The
    info endpoint is a scripted function from the attempt number to what that
    attempt's read did; sleeps are recorded as their lengths. */
module StockData {
  import opened Base

  /** The fields of a ticker's info that the fetcher reads; an absent key
      reads as `None`. */
  datatype Info = Info(
    currentPrice: Option<real>,
    currency: Option<string>,
    trailingPE: Option<real>,
    trailingEps: Option<real>)

  /** What one attempt's read of the info did: it returned, it raised an
      `HTTPError` (whose response carries `status`, or is missing), or it
      raised any other exception with text `message`. */
  datatype FetchOutcome =
    | Fetched(info: Info)
    | HttpFailure(status: Option<int>, message: string)
    | OtherFailure(message: string)

  /** The `data` part of a successful result. */
  datatype Quote = Quote(currentPrice: real, currency: string, pe: Option<real>, eps: Option<real>)

  const DefaultRetries: int := 3
  const DefaultDelay: int := 4
  const TooManyRequests: int := 429
  const DefaultCurrency: string := "USD"
  const NoPriceError: string := "No price data"
  /** Reading the status of an `HTTPError` without a response raises. */
  const NoResponseError: string := "'NoneType' object has no attribute 'status_code'"
  /** `time.sleep` refuses a negative length. */
  const NegativeSleepError: string := "sleep length must be non-negative"

  /** The quote built from an info that has a price. */
  function QuoteOf(info: Info): (q: Quote)
    requires info.currentPrice.Some?
    ensures Some(q.currentPrice) == info.currentPrice
    ensures info.currency.None? ==> q.currency == DefaultCurrency
    ensures info.currency.Some? ==> q.currency == info.currency.value
    ensures q.pe == info.trailingPE && q.eps == info.trailingEps
  {
    Quote(info.currentPrice.value, info.currency.GetOr(DefaultCurrency), info.trailingPE, info.trailingEps)
  }

  /** How one attempt ends, read off its outcome: with a final answer, with
      an error that is retried unless the attempt is the last, or with an
      exception that escapes the loop. */
  datatype Step = Finish(answer: Result<Quote>) | Retry(message: string) | Escape(message: string)

  function StepOf(o: FetchOutcome): (s: Step)
    ensures s.Finish? && s.answer.Ok? <==> o.Fetched? && o.info.currentPrice.Some?
    ensures s.Escape? <==> o.HttpFailure? && o.status.None?
    ensures s.Retry? <==> (o.Fetched? && o.info.currentPrice.None?)
                          || o.OtherFailure?
                          || (o.HttpFailure? && o.status == Some(TooManyRequests))
  {
    match o
    case Fetched(info) =>
      if info.currentPrice.None? then Retry(NoPriceError) else Finish(Ok(QuoteOf(info)))
    case HttpFailure(status, msg) =>
      if status.None? then Escape(NoResponseError)
      else if status.value == TooManyRequests then Retry(msg)
      else Finish(Err(msg))
    case OtherFailure(msg) => Retry(msg)
  }

  /** The first attempt in `from .. retries - 1` that does not ask for a
      retry, or the last attempt when every one does. */
  function FirstStop(retries: int, fetch: nat -> FetchOutcome, from: nat): (k: nat)
    requires from < retries
    ensures from <= k < retries
    ensures forall j :: from <= j < k ==> StepOf(fetch(j)).Retry?
    ensures k < retries - 1 ==> !StepOf(fetch(k)).Retry?
    decreases retries - from
  {
    if from == retries - 1 || !StepOf(fetch(from)).Retry? then from
    else FirstStop(retries, fetch, from + 1)
  }

  /** `n` sleeps of `delay` seconds each. */
  function Sleeps(delay: int, n: nat): (s: seq<int>)
    ensures |s| == n
    ensures forall j :: 0 <= j < n ==> s[j] == delay
  {
    if n == 0 then [] else Sleeps(delay, n - 1) + [delay]
  }

  /** A whole call: what it returned (`None` when the loop never ran) or the
      exception that escaped it, the sleeps it made and the reads it made. */
  datatype Run = Run(result: Call<Option<Result<Quote>>>, sleeps: seq<int>, calls: nat)

  /** The result of the attempt that ends the loop. */
  function Conclude(s: Step): Call<Option<Result<Quote>>> {
    match s
    case Finish(answer) => Returned(Some(answer))
    case Retry(msg) => Returned(Some(Err(msg)))
    case Escape(msg) => Raised(msg)
  }

  /** The declarative account of a call: attempts are made until the first
      one that does not ask for a retry, or the last one; each retry sleeps
      `delay` first, and a negative delay makes the first sleep raise. */
  function Expected(retries: int, delay: int, fetch: nat -> FetchOutcome): (run: Run)
    ensures retries <= 0 ==> run.calls == 0
    ensures retries > 0 ==> 1 <= run.calls <= retries
    ensures forall j :: 0 <= j < |run.sleeps| ==> run.sleeps[j] == delay
  {
    if retries <= 0 then Run(Returned(None), [], 0)
    else
      var k := FirstStop(retries, fetch, 0);
      if k > 0 && delay < 0 then Run(Raised(NegativeSleepError), [], 1)
      else Run(Conclude(StepOf(fetch(k))), Sleeps(delay, k), k + 1)
  }

  /** `get_stock_data` as the source writes it: `for i in range(retries)`,
      returning on a quote or a final error, sleeping and continuing on a
      retryable error before the last attempt. */
  method GetStockData(retries: int, delay: int, fetch: nat -> FetchOutcome)
    returns (r: Call<Option<Result<Quote>>>, sleeps: seq<int>, calls: nat)
    ensures Run(r, sleeps, calls) == Expected(retries, delay, fetch)
  {
    sleeps := [];
    calls := 0;
    var i: nat := 0;
    while i < retries
      invariant calls == i
      invariant retries > 0 ==> i < retries
      invariant retries <= 0 ==> i == 0
      invariant sleeps == Sleeps(delay, i)
      invariant i > 0 ==> delay >= 0
      invariant i > 0 ==> FirstStop(retries, fetch, 0) == FirstStop(retries, fetch, i)
      decreases retries - i
    {
      calls := calls + 1;
      var message := "";
      match fetch(i) {
        case Fetched(info) =>
          if info.currentPrice.None? {
            message := NoPriceError;
          } else {
            r := Returned(Some(Ok(QuoteOf(info))));
            return;
          }
        case HttpFailure(status, msg) =>
          if status.None? {
            r := Raised(NoResponseError);
            return;
          }
          if !(status.value == TooManyRequests && i < retries - 1) {
            r := Returned(Some(Err(msg)));
            return;
          }
          message := msg;
        case OtherFailure(msg) =>
          message := msg;
      }
      if i >= retries - 1 {
        r := Returned(Some(Err(message)));
        return;
      }
      if delay < 0 {
        r := Raised(NegativeSleepError);
        return;
      }
      sleeps := sleeps + [delay];
      i := i + 1;
    }
    r := Returned(None);
  }

  /** At most `retries` reads are made; every read but the last is followed
      by a sleep of `delay`, and the last never is. */
  lemma AttemptsBounded(retries: int, delay: int, fetch: nat -> FetchOutcome)
    ensures var run := Expected(retries, delay, fetch);
            && run.calls <= (if retries < 0 then 0 else retries)
            && |run.sleeps| == (if run.calls == 0 then 0 else run.calls - 1)
  {
  }

  /** With `retries <= 0` the loop body never runs and `None` comes back. */
  lemma NoAttemptsReturnsNone(retries: int, delay: int, fetch: nat -> FetchOutcome)
    requires retries <= 0
    ensures Expected(retries, delay, fetch) == Run(Returned(None), [], 0)
  {
  }

  /** With at least one attempt, a non-negative delay and every HTTP error
      carrying a response, a result dictionary always comes back. */
  lemma AlwaysAnswers(retries: int, delay: int, fetch: nat -> FetchOutcome)
    requires retries >= 1 && delay >= 0
    requires forall j: nat :: j < retries ==> !(fetch(j).HttpFailure? && fetch(j).status.None?)
    ensures Expected(retries, delay, fetch).result.Returned?
    ensures Expected(retries, delay, fetch).result.value.Some?
  {
  }

  /** A success carries the price, the currency (default "USD") and the P/E
      and EPS figures of the info read on the last attempt made. */
  lemma SuccessCarriesPrice(retries: int, delay: int, fetch: nat -> FetchOutcome, q: Quote)
    requires Expected(retries, delay, fetch).result == Returned(Some(Ok(q)))
    ensures var o := fetch(Expected(retries, delay, fetch).calls - 1);
            && o.Fetched?
            && o.info.currentPrice == Some(q.currentPrice)
            && q.currency == o.info.currency.GetOr(DefaultCurrency)
            && q.pe == o.info.trailingPE && q.eps == o.info.trailingEps
  {
  }

  /** A missing price before the last attempt is retried after a sleep, like
      any other non-HTTP exception. */
  lemma MissingPriceRetried(retries: int, delay: int, fetch: nat -> FetchOutcome, info: Info)
    requires retries >= 2 && delay >= 0
    requires fetch(0) == Fetched(info) && info.currentPrice.None?
    ensures Expected(retries, delay, fetch).calls >= 2
    ensures Expected(retries, delay, fetch).sleeps[0] == delay
  {
  }

  /** A price missing on every attempt ends in the "No price data" error. */
  lemma PriceNeverAvailable(retries: int, delay: int, fetch: nat -> FetchOutcome)
    requires retries >= 1 && delay >= 0
    requires forall j: nat :: j < retries ==> fetch(j).Fetched? && fetch(j).info.currentPrice.None?
    ensures Expected(retries, delay, fetch).result == Returned(Some(Err(NoPriceError)))
    ensures Expected(retries, delay, fetch).calls == retries
  {
    var k := FirstStop(retries, fetch, 0);
    assert StepOf(fetch(k)) == Retry(NoPriceError);
  }

  /** HTTP 429 before the last attempt sleeps `delay` and tries again. */
  lemma RateLimitRetried(retries: int, delay: int, fetch: nat -> FetchOutcome, msg: string)
    requires retries >= 2 && delay >= 0
    requires fetch(0) == HttpFailure(Some(TooManyRequests), msg)
    ensures Expected(retries, delay, fetch).calls >= 2
    ensures Expected(retries, delay, fetch).sleeps[0] == delay
  {
  }

  /** Any other HTTP status fails at once with the error's text: one read, no
      sleep. */
  lemma OtherHttpErrorFailsAtOnce(retries: int, delay: int, fetch: nat -> FetchOutcome, status: int, msg: string)
    requires retries >= 1
    requires fetch(0) == HttpFailure(Some(status), msg) && status != TooManyRequests
    ensures Expected(retries, delay, fetch) == Run(Returned(Some(Err(msg))), [], 1)
  {
  }

  /** Any HTTP error, 429 included, on the last attempt is returned as the
      error. */
  lemma HttpErrorOnLastAttempt(retries: int, delay: int, fetch: nat -> FetchOutcome, status: int, msg: string)
    requires retries >= 1 && delay >= 0
    requires Expected(retries, delay, fetch).calls == retries
    requires fetch(retries - 1) == HttpFailure(Some(status), msg)
    ensures Expected(retries, delay, fetch).result == Returned(Some(Err(msg)))
  {
  }

  /** With the default arguments: at most three reads and at most two
      sleeps of four seconds each, eight seconds in all. */
  lemma DefaultsBounded(fetch: nat -> FetchOutcome)
    ensures Expected(DefaultRetries, DefaultDelay, fetch).calls <= 3
    ensures var sleeps := Expected(DefaultRetries, DefaultDelay, fetch).sleeps;
            && |sleeps| <= 2
            && forall j :: 0 <= j < |sleeps| ==> sleeps[j] == 4
  {
    AttemptsBounded(DefaultRetries, DefaultDelay, fetch);
  }

  // ---------- history ----------

  /** One row of a price history: its day (the wall-clock day of the
      index entry, a day key) and its closing price. */
  datatype Bar = Bar(day: int, close: real)

  /** A price history as the chart endpoint returns it: an index with an
      optional timezone, and one row per trading day. */
  datatype PriceHistory = PriceHistory(tz: Option<string>, bars: seq<Bar>)

  /** `history`: drop the index's timezone, keeping its wall-clock days and
      every price. */
  function History(fetched: PriceHistory): (h: PriceHistory)
    ensures h.tz.None?
    ensures h.bars == fetched.bars
  {
    if fetched.tz.Some? then PriceHistory(None, fetched.bars) else fetched
  }

  /** Stripping the timezone twice is stripping it once. */
  lemma HistoryIdempotent(fetched: PriceHistory)
    ensures History(History(fetched)) == History(fetched)
  {
  }
}
