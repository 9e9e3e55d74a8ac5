/** The `/analyze` endpoint: read the request body with its defaults, build
    the unified snapshot, correlate each day's weighted sentiment with the
    next day's price return, and answer either the payload or a 500 with the
    exception's text. The correlation coefficient needs a square root and is
    a parameter (`corrOf`, `None` standing for NaN), as is the rolling
    standard deviation (`stdOf`) and the JSON encoder of the response
    (`encode`). */
module Api {
  import opened Base
  import opened Smoothing
  import StockData
  import Unified

  // ---------- request ----------

  /** The request body's three optional keys. */
  datatype Body = Body(stockSymbol: Option<string>, window: Option<int>, twitter: Option<bool>)

  datatype Params = Params(symbol: string, window: int, includeTwitter: bool)

  const DefaultSymbol: string := ""
  const DefaultWindow: int := 5
  const DefaultTwitter: bool := true

  predicate IsLower(c: char) {
    'a' <= c <= 'z'
  }

  /** `str.upper` on one character of the ASCII range. */
  function UpperChar(c: char): (u: char)
    ensures !IsLower(u)
    ensures !IsLower(c) ==> u == c
    ensures IsLower(c) ==> u as int == c as int - 32
  {
    if IsLower(c) then (c as int - 32) as char else c
  }

  function Upper(s: string): (u: string)
    ensures |u| == |s|
    ensures forall i :: 0 <= i < |s| ==> u[i] == UpperChar(s[i])
  {
    seq(|s|, i requires 0 <= i < |s| => UpperChar(s[i]))
  }

  /** Upper-casing leaves no lower-case letter, changes nothing else, and is
      idempotent. */
  lemma UpperProperties(s: string)
    ensures forall i :: 0 <= i < |s| ==> !IsLower(Upper(s)[i])
    ensures forall i :: 0 <= i < |s| && !IsLower(s[i]) ==> Upper(s)[i] == s[i]
    ensures Upper(Upper(s)) == Upper(s)
  {
  }

  /** The three request parameters: the symbol upper-cased, with defaults
      for missing keys. */
  function ParamsOf(b: Body): (p: Params)
    ensures b.stockSymbol.None? ==> p.symbol == DefaultSymbol
    ensures b.stockSymbol.Some? ==> p.symbol == Upper(b.stockSymbol.value)
    ensures p.window == (if b.window.Some? then b.window.value else DefaultWindow)
    ensures p.includeTwitter == (if b.twitter.Some? then b.twitter.value else DefaultTwitter)
  {
    Params(Upper(b.stockSymbol.GetOr(DefaultSymbol)), b.window.GetOr(DefaultWindow), b.twitter.GetOr(DefaultTwitter))
  }

  /** An empty body asks for the empty symbol, a five-day window and Twitter
      included. */
  lemma EmptyBodyDefaults()
    ensures ParamsOf(Body(None, None, None)) == Params("", 5, true)
  {
  }

  // ---------- lagged returns ----------

  function Closes(bars: seq<StockData.Bar>): (c: seq<real>)
    ensures |c| == |bars|
    ensures forall t :: 0 <= t < |bars| ==> c[t] == bars[t].close
  {
    seq(|bars|, t requires 0 <= t < |bars| => bars[t].close)
  }

  /** `Close.pct_change().shift(-1)`: at day `t` the return from `t` to
      `t + 1`. The last day has none; nor has a day closing at zero. */
  function Returns(close: seq<real>): (r: seq<Option<real>>)
    ensures |r| == |close|
    ensures forall t :: 0 <= t < |close| ==> (r[t].Some? <==> t + 1 < |close| && close[t] != 0.0)
  {
    seq(|close|, t requires 0 <= t < |close| =>
      if t + 1 < |close| && close[t] != 0.0 then Some((close[t + 1] - close[t]) / close[t]) else None)
  }

  /** A return compounds a day's close into the next day's. */
  lemma ReturnCompounds(close: seq<real>, t: nat)
    requires t < |close| && Returns(close)[t].Some?
    ensures t + 1 < |close|
    ensures close[t] * (1.0 + Returns(close)[t].value) == close[t + 1]
  {
    var c, d := close[t], close[t + 1];
    assert Returns(close)[t].value == (d - c) / c;
    calc {
      c * (1.0 + (d - c) / c);
      c + c * ((d - c) / c);
      c + (d - c);
    }
  }

  // ---------- alignment ----------

  /** Day `first + i` of the sentiment series and row `t` of the history fall
      on the same day, and both carry a value: the sentiment is defined, and
      the row has a return, being followed by another row and not closing
      at zero (`Returns`). */
  predicate Matched(first: int, sent: seq<Option<real>>, bars: seq<StockData.Bar>, i: nat, t: nat) {
    && i < |sent| && t + 1 < |bars|
    && first + i == bars[t].day
    && sent[i].Some? && bars[t].close != 0.0
  }

  /** The rows from `t` on that match sentiment day `i`. */
  function MatchesFrom(first: int, sent: seq<Option<real>>, bars: seq<StockData.Bar>, i: nat, t: nat)
    : (idx: seq<(nat, nat)>)
    requires t <= |bars|
    ensures forall k :: 0 <= k < |idx| ==> idx[k].0 == i && t <= idx[k].1 && Matched(first, sent, bars, idx[k].0, idx[k].1)
    decreases |bars| - t
  {
    if t == |bars| then []
    else (if Matched(first, sent, bars, i, t) then [(i, t)] else []) + MatchesFrom(first, sent, bars, i, t + 1)
  }

  /** The matched (day, row) index pairs from sentiment day `i` on, in the
      order of the sentiment index. */
  function PairsFrom(first: int, sent: seq<Option<real>>, bars: seq<StockData.Bar>, i: nat)
    : (idx: seq<(nat, nat)>)
    requires i <= |sent|
    ensures forall k :: 0 <= k < |idx| ==> i <= idx[k].0 && Matched(first, sent, bars, idx[k].0, idx[k].1)
    decreases |sent| - i
  {
    if i == |sent| then []
    else MatchesFrom(first, sent, bars, i, 0) + PairsFrom(first, sent, bars, i + 1)
  }

  lemma {:induction false} MatchesFromComplete(first: int, sent: seq<Option<real>>, bars: seq<StockData.Bar>,
                                               i: nat, t: nat, u: nat)
    requires t <= u && Matched(first, sent, bars, i, u)
    ensures (i, u) in MatchesFrom(first, sent, bars, i, t)
    decreases |bars| - t
  {
    if t < u {
      MatchesFromComplete(first, sent, bars, i, t + 1, u);
    }
  }

  lemma {:induction false} PairsFromComplete(first: int, sent: seq<Option<real>>, bars: seq<StockData.Bar>,
                                             i: nat, j: nat, u: nat)
    requires i <= j && Matched(first, sent, bars, j, u)
    ensures (j, u) in PairsFrom(first, sent, bars, i)
    decreases |sent| - i
  {
    if i == j {
      MatchesFromComplete(first, sent, bars, j, 0, u);
    } else {
      PairsFromComplete(first, sent, bars, i + 1, j, u);
    }
  }

  /** `Series.corr` aligns the two series on their shared days and drops the
      days where either is missing: the index pairs it keeps. */
  function AlignedIndices(first: int, sent: seq<Option<real>>, bars: seq<StockData.Bar>): (idx: seq<(nat, nat)>)
    ensures forall k :: 0 <= k < |idx| ==> Matched(first, sent, bars, idx[k].0, idx[k].1)
  {
    PairsFrom(first, sent, bars, 0)
  }

  /** A (day, row) pair is kept exactly when both carry a value on the same
      day. */
  lemma AlignedIff(first: int, sent: seq<Option<real>>, bars: seq<StockData.Bar>, i: nat, t: nat)
    ensures (i, t) in AlignedIndices(first, sent, bars) <==>
              && i < |sent| && t < |bars| && first + i == bars[t].day
              && sent[i].Some? && Returns(Closes(bars))[t].Some?
  {
    if Matched(first, sent, bars, i, t) {
      PairsFromComplete(first, sent, bars, 0, i, t);
    }
  }

  /** The (sentiment, next-day return) values the correlation is taken
      over. */
  function AlignedPairs(first: int, sent: seq<Option<real>>, bars: seq<StockData.Bar>): (pairs: seq<(real, real)>)
    ensures |pairs| == |AlignedIndices(first, sent, bars)|
  {
    var idx := AlignedIndices(first, sent, bars);
    var rets := Returns(Closes(bars));
    seq(|idx|, k requires 0 <= k < |idx| => (sent[idx[k].0].value, rets[idx[k].1].value))
  }

  /** Each correlated pair holds day `d`'s weighted sentiment and the return
      from the history row of day `d` to the row after it. */
  lemma PairIsSentimentAndNextReturn(first: int, sent: seq<Option<real>>, bars: seq<StockData.Bar>, k: nat)
    requires k < |AlignedPairs(first, sent, bars)|
    ensures var (i, t) := AlignedIndices(first, sent, bars)[k];
            && i < |sent| && t + 1 < |bars|
            && first + i == bars[t].day && bars[t].close != 0.0
            && AlignedPairs(first, sent, bars)[k]
               == (sent[i].value, (bars[t + 1].close - bars[t].close) / bars[t].close)
  {
    var idx := AlignedIndices(first, sent, bars);
    assert Matched(first, sent, bars, idx[k].0, idx[k].1);
  }

  /** `float(corr or 0)`: NaN is truthy, so the guard replaces nothing; only
      a zero is swapped for the zero it already is. */
  function OrZero(corr: Option<real>): (r: Option<real>)
    ensures r == corr
  {
    if corr.Some? && corr.value == 0.0 then Some(0.0) else corr
  }

  // ---------- response ----------

  /** The JSON payload of a successful call. */
  datatype Payload = Payload(
    pe: Option<real>,
    eps: Option<real>,
    average: Option<real>,
    trend: Trend,
    corr: Option<real>,
    sources: Unified.SourceScores,
    first: int,
    daily: seq<Option<real>>,
    rollingMean: seq<Option<real>>,
    ciLower: seq<Option<real>>,
    ciUpper: seq<Option<real>>,
    history: seq<StockData.Bar>,
    currentPrice: real,
    currency: string)

  datatype Response = Ok200(payload: Payload) | Error500(error: string)

  /** Whether `json.dumps(..., allow_nan=False)`, which Starlette's
      `JSONResponse` runs when it is built inside the `try`, accepts the
      payload. It refuses a NaN float and a pandas Timestamp key. Every
      series' `to_dict()` is keyed by Timestamps, so each series must be
      empty; the average, the correlation and Reddit's source score must be
      defined. The other values are strings, finite reals or `None`. */
  predicate Encodable(p: Payload) {
    && p.average.Some? && p.corr.Some? && p.sources.reddit.Some?
    && |p.daily| == 0 && |p.rollingMean| == 0 && |p.ciLower| == 0 && |p.ciUpper| == 0
    && |p.history| == 0
  }

  /** The encoder is outside this model and is a parameter: `encode(p)` is
      the text of the exception it raises on `p`, or `None` when it renders.
      An encoder like Starlette's raises on every payload that is not
      `Encodable`. */
  ghost predicate RejectsUnencodable(encode: Payload -> Option<string>) {
    forall p :: !Encodable(p) ==> encode(p).Some?
  }

  function PayloadOf(snap: Unified.Snapshot, corrOf: seq<(real, real)> -> Option<real>): (p: Payload)
    ensures p.pe == snap.pe && p.eps == snap.eps
    ensures p.average == snap.average && p.trend == snap.smoothed.trend && p.sources == snap.sources
    ensures p.currentPrice == snap.currentPrice && p.currency == snap.currency
  {
    var s := snap.smoothed;
    var bars := snap.history.bars;
    Payload(
      pe := snap.pe,
      eps := snap.eps,
      average := snap.average,
      trend := s.trend,
      corr := OrZero(corrOf(AlignedPairs(s.first, s.daily, bars))),
      sources := snap.sources,
      first := s.first,
      daily := s.daily,
      rollingMean := s.rollingMean,
      ciLower := s.ciLower,
      ciUpper := s.ciUpper,
      history := bars,
      currentPrice := snap.currentPrice,
      currency := snap.currency)
  }

  /** `analyze`: an exception inside the snapshot, or one the encoder raises
      while the response is built, becomes a 500 whose body is only the
      exception's text. A 200 carries only a payload the encoder accepted,
      and a window below three never gets one. */
  function Analyze(body: Body, feeds: Unified.Feeds, stdOf: seq<real> -> real,
                   corrOf: seq<(real, real)> -> Option<real>, encode: Payload -> Option<string>): (resp: Response)
    ensures resp.Ok200? ==> encode(resp.payload).None?
    ensures ParamsOf(body).window < MinPeriods ==> resp.Error500?
  {
    var p := ParamsOf(body);
    var unified := Unified.GetUnifiedSentiment(p.symbol, p.window, p.includeTwitter, feeds, stdOf);
    if unified.Raised? then Error500(unified.message)
    else
      var payload := PayloadOf(unified.value, corrOf);
      if encode(payload).Some? then Error500(encode(payload).value) else Ok200(payload)
  }

  /** The response is a 500 exactly when the snapshot raised or the encoder
      refused its payload, carrying the first exception's text; otherwise the
      payload's fundamentals are exactly the snapshot's `pe` and `eps`. */
  lemma ResponseOutcome(body: Body, feeds: Unified.Feeds, stdOf: seq<real> -> real,
                        corrOf: seq<(real, real)> -> Option<real>, encode: Payload -> Option<string>)
    ensures var p := ParamsOf(body);
            var unified := Unified.GetUnifiedSentiment(p.symbol, p.window, p.includeTwitter, feeds, stdOf);
            var resp := Analyze(body, feeds, stdOf, corrOf, encode);
            && (unified.Raised? ==> resp == Error500(unified.message))
            && (unified.Returned? ==>
                  var payload := PayloadOf(unified.value, corrOf);
                  && (resp.Error500? <==> encode(payload).Some?)
                  && (resp.Error500? ==> resp.error == encode(payload).value)
                  && (resp.Ok200? ==> resp.payload == payload))
  {
  }

  /** With no sentiment days there is nothing to correlate. */
  lemma NoDaysNoPairs(first: int, bars: seq<StockData.Bar>)
    ensures AlignedPairs(first, [], bars) == []
  {
  }

  /** With an encoder that refuses NaN and Timestamp keys, and a correlation
      that is NaN over no pairs as pandas' is, the endpoint never answers
      200: a payload with no sentiment days has a NaN correlation, and one
      with sentiment days has Timestamp keys. */
  lemma StrictEncodingNeverAnswers200(body: Body, feeds: Unified.Feeds, stdOf: seq<real> -> real,
                                      corrOf: seq<(real, real)> -> Option<real>, encode: Payload -> Option<string>)
    requires RejectsUnencodable(encode)
    requires corrOf([]).None?
    ensures Analyze(body, feeds, stdOf, corrOf, encode).Error500?
  {
    var p := ParamsOf(body);
    var unified := Unified.GetUnifiedSentiment(p.symbol, p.window, p.includeTwitter, feeds, stdOf);
    if unified.Returned? {
      var payload := PayloadOf(unified.value, corrOf);
      if |payload.daily| == 0 {
        NoDaysNoPairs(payload.first, payload.history);
        assert payload.corr.None?;
      }
      assert !Encodable(payload);
    }
  }

  /** A window below three, as the body gives it, is answered with a 500
      naming pandas' complaint. */
  lemma ShortWindowIs500(body: Body, feeds: Unified.Feeds, stdOf: seq<real> -> real,
                         corrOf: seq<(real, real)> -> Option<real>, encode: Payload -> Option<string>)
    requires body.window.Some? && body.window.value < MinPeriods
    ensures Analyze(body, feeds, stdOf, corrOf, encode)
            == Error500(if feeds.posts.Raised? then feeds.posts.message else Unified.WindowError(body.window.value))
  {
  }

  /** The correlation is taken over exactly the aligned pairs of the
      weighted daily sentiment and the next-day returns of the timezone-free
      history, and a NaN coefficient is passed through as NaN. */
  lemma CorrelationOfAlignedDays(body: Body, feeds: Unified.Feeds, stdOf: seq<real> -> real,
                                 corrOf: seq<(real, real)> -> Option<real>, encode: Payload -> Option<string>)
    ensures var p := ParamsOf(body);
            var unified := Unified.GetUnifiedSentiment(p.symbol, p.window, p.includeTwitter, feeds, stdOf);
            var resp := Analyze(body, feeds, stdOf, corrOf, encode);
            unified.Returned? && resp.Ok200? ==>
              var snap := unified.value;
              && resp.payload.corr == corrOf(AlignedPairs(snap.smoothed.first, snap.smoothed.daily, snap.history.bars))
              && resp.payload.daily == snap.smoothed.daily
              && resp.payload.history == snap.history.bars
  {
  }
}
