/** The signal-smoothing steps of the unified snapshot, on day-indexed series
    held as one entry per calendar day (`None` where pandas holds NaN):
    volume weighting, the trailing rolling mean and standard deviation with
    `min_periods=3`, the count-gated confidence band and the trend label. */
module Smoothing {
  import opened Base

  // ---------- volume weighting ----------

  /** The position of the first largest count among the first `n`. */
  function ArgMaxCount(counts: seq<nat>, n: nat): (k: nat)
    requires 0 < n <= |counts|
    ensures k < n
    ensures forall i :: 0 <= i < n ==> counts[i] <= counts[k]
  {
    if n == 1 then 0
    else
      var k := ArgMaxCount(counts, n - 1);
      if counts[n - 1] > counts[k] then n - 1 else k
  }

  /** `daily_counts.max()`. */
  function MaxCount(counts: seq<nat>): nat
    requires |counts| > 0
  {
    counts[ArgMaxCount(counts, |counts|)]
  }

  /** The weight of a day: its count relative to the busiest day's. */
  function Weight(count: nat, max: nat): real
    requires max > 0
  {
    (count as real) / (max as real)
  }

  /** Whether the weighting applies: there are counts and some day has
      posts. */
  predicate Weighs(counts: seq<nat>) {
    |counts| > 0 && MaxCount(counts) > 0
  }

  /** A day's sentiment scaled by `w`; NaN stays NaN. */
  function Scaled(o: Option<real>, w: real): Option<real> {
    if o.Some? then Some(o.value * w) else None
  }

  /** The volume weighting of `get_unified_sentiment`: with no counts, or
      no day with posts, the daily series is copied; otherwise every day's
      sentiment is scaled by its weight, and a missing day stays missing. */
  function VolumeWeighted(sent: seq<Option<real>>, counts: seq<nat>): (w: seq<Option<real>>)
    requires |sent| == |counts|
    ensures |w| == |sent|
    ensures forall d :: 0 <= d < |w| ==> (w[d].Some? <==> sent[d].Some?)
  {
    if !Weighs(counts) then sent
    else
      var m := MaxCount(counts);
      seq(|sent|, d requires 0 <= d < |sent| => Scaled(sent[d], Weight(counts[d], m)))
  }

  /** No counts, or no day with posts: the series comes back unchanged. */
  lemma WeightingSkipped(sent: seq<Option<real>>, counts: seq<nat>)
    requires |sent| == |counts|
    requires |counts| == 0 || forall d :: 0 <= d < |counts| ==> counts[d] == 0
    ensures VolumeWeighted(sent, counts) == sent
  {
  }

  /** Some day has posts exactly when the weighting applies. */
  lemma WeighsIffSomePosts(counts: seq<nat>)
    ensures Weighs(counts) <==> exists e :: 0 <= e < |counts| && counts[e] > 0
  {
    if Weighs(counts) {
      assert counts[ArgMaxCount(counts, |counts|)] > 0;
    }
    if exists e :: 0 <= e < |counts| && counts[e] > 0 {
      var e :| 0 <= e < |counts| && counts[e] > 0;
      assert counts[e] <= MaxCount(counts);
    }
  }

  lemma RatioInUnitInterval(c: real, m: real)
    requires 0.0 <= c <= m && m > 0.0
    ensures 0.0 <= c / m <= 1.0
    ensures c == m ==> c / m == 1.0
  {
    var w := c / m;
    assert w * m == c;
    if w > 1.0 {
      calc {
        c;
      ==
        w * m;
      >
        1.0 * m;
      }
      assert false;
    }
    if c == m && w < 1.0 {
      calc {
        c;
      ==
        w * m;
      <
        1.0 * m;
      }
      assert false;
    }
  }

  /** When the weighting applies, each weight lies in [0, 1] and the busiest
      day's weight is 1. */
  lemma WeightInUnitInterval(counts: seq<nat>, d: nat)
    requires Weighs(counts) && d < |counts|
    ensures 0.0 <= Weight(counts[d], MaxCount(counts)) <= 1.0
    ensures counts[d] == MaxCount(counts) ==> Weight(counts[d], MaxCount(counts)) == 1.0
  {
    var m := MaxCount(counts);
    assert counts[d] <= m;
    RatioInUnitInterval(counts[d] as real, m as real);
  }

  /** When the weighting applies, each present day's value is its sentiment
      times its weight. */
  lemma WeightedValue(sent: seq<Option<real>>, counts: seq<nat>, d: nat)
    requires |sent| == |counts| && d < |counts|
    requires Weighs(counts) && sent[d].Some?
    ensures VolumeWeighted(sent, counts)[d].Some?
    ensures VolumeWeighted(sent, counts)[d].value == sent[d].value * Weight(counts[d], MaxCount(counts))
  {
    assert VolumeWeighted(sent, counts)[d] == Scaled(sent[d], Weight(counts[d], MaxCount(counts)));
  }

  /** Weighting only shrinks a day's sentiment toward zero. */
  lemma WeightingShrinks(sent: seq<Option<real>>, counts: seq<nat>, d: nat)
    requires |sent| == |counts| && d < |counts| && sent[d].Some?
    ensures var v := sent[d].value;
            var u := VolumeWeighted(sent, counts)[d].value;
            (v >= 0.0 ==> 0.0 <= u <= v) && (v <= 0.0 ==> v <= u <= 0.0)
  {
    if Weighs(counts) {
      var m := MaxCount(counts);
      var wt := Weight(counts[d], m);
      WeightInUnitInterval(counts, d);
      var v := sent[d].value;
      assert VolumeWeighted(sent, counts)[d].value == v * wt;
      if v >= 0.0 {
        assert v * wt <= v * 1.0;
      } else {
        assert v * wt >= v * 1.0;
      }
    }
  }

  // ---------- rolling statistics ----------

  /** `min_periods`: a window needs this many present values. */
  const MinPeriods: nat := 3

  /** First position of the trailing window of `window` positions that ends
      just before position `end`. */
  function WindowStart(end: nat, window: nat): nat {
    if end >= window then end - window else 0
  }

  /** The present values in the trailing window ending at position `i`:
      positions max(0, i - window + 1) .. i. */
  function WindowValues(xs: seq<Option<real>>, i: nat, window: nat): seq<real>
    requires i < |xs|
  {
    Observed(xs[WindowStart(i + 1, window)..i + 1])
  }

  /** `rolling(window, min_periods=3).mean()`: the mean of the window's present
      values where there are at least three of them, missing elsewhere. */
  function RollingMean(xs: seq<Option<real>>, window: nat): (rm: seq<Option<real>>)
    requires window >= MinPeriods
    ensures |rm| == |xs|
  {
    seq(|xs|, i requires 0 <= i < |xs| =>
      var vals := WindowValues(xs, i, window);
      if |vals| >= MinPeriods then Some(Mean(vals)) else None)
  }

  lemma ObservedExtend(xs: seq<Option<real>>, a: nat, b: nat)
    requires a <= b < |xs|
    ensures Observed(xs[a..b + 1]) == Observed(xs[a..b]) + Observed([xs[b]])
  {
    assert xs[a..b + 1] == xs[a..b] + [xs[b]];
    ObservedAppend(xs[a..b], [xs[b]]);
  }

  lemma ObservedDropFront(xs: seq<Option<real>>, a: nat, b: nat)
    requires a < b <= |xs|
    ensures Observed(xs[a..b]) == Observed([xs[a]]) + Observed(xs[a + 1..b])
  {
    assert xs[a..b] == [xs[a]] + xs[a + 1..b];
    ObservedAppend([xs[a]], xs[a + 1..b]);
  }

  /** A present value, or 0 for a missing one. */
  function ValueOrZero(o: Option<real>): real {
    if o.Some? then o.value else 0.0
  }

  /** 1 for a present value, 0 for a missing one. */
  function Presence(o: Option<real>): nat {
    if o.Some? then 1 else 0
  }

  /** Moving the window on by one position adds the new position's value and,
      once the window is full, removes the value that falls out of it. */
  lemma WindowStep(xs: seq<Option<real>>, window: nat, i: nat)
    requires window >= 1 && i < |xs|
    ensures var before := Observed(xs[WindowStart(i, window)..i]);
            var after := WindowValues(xs, i, window);
            && Sum(after) == Sum(before) + ValueOrZero(xs[i])
                               - (if i >= window then ValueOrZero(xs[i - window]) else 0.0)
            && |after| == |before| + Presence(xs[i])
                            - (if i >= window then Presence(xs[i - window]) else 0)
  {
    var lo := WindowStart(i, window);
    ObservedExtend(xs, lo, i);
    SumAppend(Observed(xs[lo..i]), Observed([xs[i]]));
    if i >= window {
      ObservedDropFront(xs, lo, i + 1);
      SumAppend(Observed([xs[lo]]), Observed(xs[lo + 1..i + 1]));
    }
  }

  /** The sliding-window computation of the rolling mean, keeping a running
      sum and count of the present values in the window, as pandas' windowed
      aggregation does; it agrees with the definition above everywhere. */
  method RollingMeanSliding(xs: seq<Option<real>>, window: nat) returns (rm: seq<Option<real>>)
    requires window >= MinPeriods
    ensures rm == RollingMean(xs, window)
  {
    rm := [];
    var sum := 0.0;
    var count := 0;
    var i: nat := 0;
    while i < |xs|
      invariant i <= |xs|
      invariant |rm| == i
      invariant forall k :: 0 <= k < i ==> rm[k] == RollingMean(xs, window)[k]
      invariant sum == Sum(Observed(xs[WindowStart(i, window)..i]))
      invariant count == |Observed(xs[WindowStart(i, window)..i])|
    {
      WindowStep(xs, window, i);
      sum := sum + ValueOrZero(xs[i]);
      count := count + Presence(xs[i]);
      if i >= window {
        sum := sum - ValueOrZero(xs[i - window]);
        count := count - Presence(xs[i - window]);
      }
      rm := rm + [if count >= MinPeriods then Some(sum / (count as real)) else None];
      i := i + 1;
    }
  }

  /** The first two days never have a rolling mean. */
  lemma RollingMeanStartsMissing(xs: seq<Option<real>>, window: nat, i: nat)
    requires window >= MinPeriods && i < |xs| && i < MinPeriods - 1
    ensures RollingMean(xs, window)[i].None?
  {
    assert |WindowValues(xs, i, window)| <= i + 1;
  }

  lemma {:induction false} ObservedAllPresent(s: seq<Option<real>>)
    requires forall k :: 0 <= k < |s| ==> s[k].Some?
    ensures |Observed(s)| == |s|
  {
    if |s| > 0 {
      ObservedAllPresent(s[1..]);
    }
  }

  /** On a series with no gaps the rolling mean is defined from the third day
      on, and only there. */
  lemma RollingMeanDense(xs: seq<Option<real>>, window: nat, i: nat)
    requires window >= MinPeriods && i < |xs|
    requires forall k :: 0 <= k < |xs| ==> xs[k].Some?
    ensures RollingMean(xs, window)[i].Some? <==> i >= MinPeriods - 1
  {
    ObservedAllPresent(xs[WindowStart(i + 1, window)..i + 1]);
  }

  lemma {:induction false} ObservedWithin(s: seq<Option<real>>, lo: real, hi: real)
    requires forall k :: 0 <= k < |s| && s[k].Some? ==> lo <= s[k].value <= hi
    ensures forall k :: 0 <= k < |Observed(s)| ==> lo <= Observed(s)[k] <= hi
  {
    if |s| > 0 {
      ObservedWithin(s[1..], lo, hi);
    }
  }

  /** A rolling mean lies within any bounds its series' present values keep
      to. */
  lemma RollingMeanWithin(xs: seq<Option<real>>, window: nat, lo: real, hi: real, i: nat)
    requires window >= MinPeriods && i < |xs|
    requires forall k :: 0 <= k < |xs| && xs[k].Some? ==> lo <= xs[k].value <= hi
    requires RollingMean(xs, window)[i].Some?
    ensures lo <= RollingMean(xs, window)[i].value <= hi
  {
    var s := xs[WindowStart(i + 1, window)..i + 1];
    ObservedWithin(s, lo, hi);
    MeanBounds(Observed(s), lo, hi);
  }

  lemma {:induction false} ObservedShorterSuffix(xs: seq<Option<real>>, a: nat, b: nat, e: nat)
    requires a <= b <= e <= |xs|
    ensures |Observed(xs[b..e])| <= |Observed(xs[a..e])|
    decreases b - a
  {
    if a < b {
      ObservedDropFront(xs, a, e);
      ObservedShorterSuffix(xs, a + 1, b, e);
    }
  }

  /** Widening the window never loses a defined rolling mean. */
  lemma RollingMeanWiderWindow(xs: seq<Option<real>>, window: nat, i: nat)
    requires window >= MinPeriods && i < |xs|
    requires RollingMean(xs, window)[i].Some?
    ensures RollingMean(xs, window + 1)[i].Some?
  {
    ObservedShorterSuffix(xs, WindowStart(i + 1, window + 1), WindowStart(i + 1, window), i + 1);
  }

  /** The unbiased sample variance (`ddof=1`) of at least two values. */
  function SampleVariance(v: seq<real>): real
    requires |v| >= 2
  {
    SquaredDeviations(v, Mean(v)) / ((|v| - 1) as real)
  }

  function SquaredDeviations(v: seq<real>, m: real): (s: real)
  {
    if |v| == 0 then 0.0 else (v[0] - m) * (v[0] - m) + SquaredDeviations(v[1..], m)
  }

  lemma {:induction false} SquaredDeviationsNonNegative(v: seq<real>, m: real)
    ensures SquaredDeviations(v, m) >= 0.0
  {
    if |v| > 0 {
      SquaredDeviationsNonNegative(v[1..], m);
      var x := v[0] - m;
      if x < 0.0 {
        assert x * x == (-x) * (-x);
      }
      assert x * x >= 0.0;
    }
  }

  /** A sample variance is never negative, so it has a real square root. */
  lemma SampleVarianceNonNegative(v: seq<real>)
    requires |v| >= 2
    ensures SampleVariance(v) >= 0.0
  {
    SquaredDeviationsNonNegative(v, Mean(v));
  }

  /** `stdOf` is the sample standard deviation: the non-negative square root
      of the sample variance. */
  ghost predicate IsSampleStd(stdOf: seq<real> -> real) {
    forall v: seq<real> :: |v| >= 2 ==> stdOf(v) >= 0.0 && Square(stdOf(v)) == SampleVariance(v)
  }

  function Square(x: real): real {
    x * x
  }

  /** `rolling(window, min_periods=3).std().fillna(0)`: the sample standard
      deviation of the window's present values where there are at least
      three of them, 0 elsewhere. */
  function RollingStd(xs: seq<Option<real>>, window: nat, stdOf: seq<real> -> real): (rs: seq<real>)
    requires window >= MinPeriods
    ensures |rs| == |xs|
  {
    seq(|xs|, i requires 0 <= i < |xs| =>
      var vals := WindowValues(xs, i, window);
      if |vals| >= MinPeriods then stdOf(vals) else 0.0)
  }

  /** The rolling standard deviation is never negative, is 0 wherever the
      rolling mean is missing, and squares to the window's variance wherever
      the rolling mean is defined. */
  lemma RollingStdNonNegative(xs: seq<Option<real>>, window: nat, stdOf: seq<real> -> real, i: nat)
    requires window >= MinPeriods && i < |xs|
    requires IsSampleStd(stdOf)
    ensures RollingStd(xs, window, stdOf)[i] >= 0.0
  {
    var vals := WindowValues(xs, i, window);
    if |vals| >= MinPeriods {
      StdOfWindow(stdOf, vals);
    }
  }

  /** Where the rolling mean is missing the rolling std is the fill value 0. */
  lemma RollingStdFilled(xs: seq<Option<real>>, window: nat, stdOf: seq<real> -> real, i: nat)
    requires window >= MinPeriods && i < |xs|
    requires RollingMean(xs, window)[i].None?
    ensures RollingStd(xs, window, stdOf)[i] == 0.0
  {
  }

  /** Where the rolling mean is defined the rolling std squares to the
      sample variance of the window's values. */
  lemma RollingStdSquared(xs: seq<Option<real>>, window: nat, stdOf: seq<real> -> real, i: nat)
    requires window >= MinPeriods && i < |xs|
    requires IsSampleStd(stdOf)
    ensures RollingMean(xs, window)[i].Some? ==>
              Square(RollingStd(xs, window, stdOf)[i]) == SampleVariance(WindowValues(xs, i, window))
  {
    var vals := WindowValues(xs, i, window);
    if |vals| >= MinPeriods {
      StdOfWindow(stdOf, vals);
    }
  }

  lemma StdOfWindow(stdOf: seq<real> -> real, vals: seq<real>)
    requires IsSampleStd(stdOf) && |vals| >= 2
    ensures stdOf(vals) >= 0.0 && Square(stdOf(vals)) == SampleVariance(vals)
  {
  }

  // ---------- confidence band ----------

  /** A day's band is shown only when it had at least this many posts. */
  const MinDailyPosts: nat := 5

  datatype Band = Band(lower: seq<Option<real>>, upper: seq<Option<real>>)

  /** `get_unified_sentiment`'s confidence band: the rolling mean minus
      and plus the rolling std on the days with at least five posts; NaN
      elsewhere, and NaN too where the rolling mean itself is missing. */
  function ConfidenceBand(rm: seq<Option<real>>, rs: seq<real>, counts: seq<nat>): (b: Band)
    requires |rm| == |rs| == |counts|
    ensures |b.lower| == |rm| && |b.upper| == |rm|
    ensures forall d :: 0 <= d < |rm| ==>
              && (b.lower[d].Some? <==> counts[d] >= MinDailyPosts && rm[d].Some?)
              && (b.upper[d].Some? <==> counts[d] >= MinDailyPosts && rm[d].Some?)
    ensures forall d :: 0 <= d < |rm| && b.lower[d].Some? ==>
              b.lower[d].value == rm[d].value - rs[d] && b.upper[d].value == rm[d].value + rs[d]
  {
    Band(
      seq(|rm|, d requires 0 <= d < |rm| =>
        if counts[d] >= MinDailyPosts && rm[d].Some? then Some(rm[d].value - rs[d]) else None),
      seq(|rm|, d requires 0 <= d < |rm| =>
        if counts[d] >= MinDailyPosts && rm[d].Some? then Some(rm[d].value + rs[d]) else None))
  }

  /** Wherever the band is shown it brackets the rolling mean, is centred on
      it, and is twice the rolling std wide. */
  lemma BandBracketsMean(rm: seq<Option<real>>, rs: seq<real>, counts: seq<nat>, d: nat)
    requires |rm| == |rs| == |counts| && d < |rm|
    requires rs[d] >= 0.0
    requires ConfidenceBand(rm, rs, counts).lower[d].Some?
    ensures var b := ConfidenceBand(rm, rs, counts);
            && b.lower[d].value <= rm[d].value <= b.upper[d].value
            && b.upper[d].value - b.lower[d].value == 2.0 * rs[d]
            && (b.upper[d].value + b.lower[d].value) / 2.0 == rm[d].value
  {
  }

  // ---------- trend ----------

  datatype Trend = Bullish | Bearish | Neutral

  const BullishAbove: real := 0.20
  const BearishBelow: real := -0.20

  /** The label of one rolling-mean value; the thresholds themselves are
      neutral. */
  function Classify(v: real): Trend {
    if v > BullishAbove then Bullish
    else if v < BearishBelow then Bearish
    else Neutral
  }

  /** `get_unified_sentiment`'s trend label: drop the gaps; no value left
      is neutral, otherwise the last value decides. */
  function TrendOf(rm: seq<Option<real>>): (t: Trend)
    ensures |Observed(rm)| == 0 ==> t == Neutral
  {
    var m := Observed(rm);
    if |m| == 0 then Neutral else Classify(m[|m| - 1])
  }

  /** The position of the last defined value, if any. */
  function LastDefined(xs: seq<Option<real>>): (k: Option<nat>)
    ensures k.None? ==> forall i :: 0 <= i < |xs| ==> xs[i].None?
    ensures k.Some? ==> k.value < |xs| && xs[k.value].Some?
    ensures k.Some? ==> forall j :: k.value < j < |xs| ==> xs[j].None?
  {
    if |xs| == 0 then None
    else if xs[|xs| - 1].Some? then Some(|xs| - 1)
    else LastDefined(xs[..|xs| - 1])
  }

  /** The last value that survives `dropna()` is the value at the last defined
      position, and nothing survives exactly when nothing is defined. */
  lemma {:induction false} LastObservedIsLastDefined(xs: seq<Option<real>>)
    ensures |Observed(xs)| == 0 <==> LastDefined(xs).None?
    ensures LastDefined(xs).Some? ==>
              Observed(xs)[|Observed(xs)| - 1] == xs[LastDefined(xs).value].value
    decreases |xs|
  {
    if |xs| > 0 {
      var n := |xs| - 1;
      var init := xs[..n];
      assert xs == init + [xs[n]];
      ObservedAppend(init, [xs[n]]);
      assert Observed([xs[n]]) == (if xs[n].Some? then [xs[n].value] else []);
      LastObservedIsLastDefined(init);
      if xs[n].None? {
        assert Observed(xs) == Observed(init);
      }
    }
  }

  /** The trend is read off the latest day with a rolling mean: bullish
      exactly when that value is above 0.20, bearish exactly when it is below
      -0.20, and neutral when there is no such day or the value lies within
      the thresholds. */
  lemma TrendFromLatest(rm: seq<Option<real>>)
    ensures TrendOf(rm) == (match LastDefined(rm)
                            case None => Neutral
                            case Some(k) => Classify(rm[k].value))
  {
    LastObservedIsLastDefined(rm);
  }

  function Negated(xs: seq<Option<real>>): (ys: seq<Option<real>>)
    ensures |ys| == |xs|
    ensures forall i :: 0 <= i < |xs| ==> ys[i] == (if xs[i].Some? then Some(-xs[i].value) else None)
  {
    seq(|xs|, i requires 0 <= i < |xs| => if xs[i].Some? then Some(-xs[i].value) else None)
  }

  function Mirror(t: Trend): Trend {
    match t
    case Bullish => Bearish
    case Bearish => Bullish
    case Neutral => Neutral
  }

  /** The thresholds are symmetric: negating every rolling-mean value swaps
      bullish and bearish and keeps neutral. */
  lemma TrendMirrors(rm: seq<Option<real>>)
    ensures TrendOf(Negated(rm)) == Mirror(TrendOf(rm))
  {
    TrendFromLatest(rm);
    TrendFromLatest(Negated(rm));
    LastDefinedNegated(rm);
  }

  lemma {:induction false} LastDefinedNegated(xs: seq<Option<real>>)
    ensures LastDefined(Negated(xs)) == LastDefined(xs)
    decreases |xs|
  {
    if |xs| > 0 {
      var n := |xs| - 1;
      if xs[n].None? {
        assert Negated(xs)[..n] == Negated(xs[..n]);
        LastDefinedNegated(xs[..n]);
      }
    }
  }
}
