/** Daily bucketing of a stream of dated scores, as pandas'
    `resample('D').mean()` and `resample('D').count()` build it: one bucket
    per calendar day from the earliest to the latest observation, each
    holding the mean and the number of that day's scores. Days are naive
    integer day keys. */
module Daily {
  import opened Base

  /** One scored item on one day. */
  datatype Obs = Obs(day: int, value: real)

  /** One day of a resampled series: the day's group of scores, from which
      `mean()` and `count()` are read. */
  datatype DayBucket = DayBucket(values: seq<real>) {

    /** The number of items on the day. */
    function Count(): nat {
      |values|
    }

    /** The day's mean score, missing on a day with no items. */
    function Average(): Option<real> {
      MeanOf(values)
    }
  }

  /** A contiguous run of days `first`, `first + 1`, ... Both the
      daily-sentiment and the daily-count series of a source share this one
      index. */
  datatype Series = Series(first: int, buckets: seq<DayBucket>) {

    /** The daily-sentiment series. */
    function Means(): (m: seq<Option<real>>)
      ensures |m| == |buckets|
      ensures forall d :: 0 <= d < |m| ==> m[d] == buckets[d].Average()
    {
      seq(|buckets|, d requires 0 <= d < |buckets| => buckets[d].Average())
    }

    /** The daily-count series. */
    function Counts(): (c: seq<nat>)
      ensures |c| == |buckets|
      ensures forall d :: 0 <= d < |c| ==> c[d] == buckets[d].Count()
    {
      seq(|buckets|, d requires 0 <= d < |buckets| => buckets[d].Count())
    }
  }

  const EmptySeries: Series := Series(0, [])

  /** The scores observed on `day`, in input order. */
  function ValuesOn(obs: seq<Obs>, day: int): seq<real>
  {
    if |obs| == 0 then []
    else (if obs[0].day == day then [obs[0].value] else []) + ValuesOn(obs[1..], day)
  }

  function Values(obs: seq<Obs>): (vals: seq<real>)
    ensures |vals| == |obs|
    ensures forall i :: 0 <= i < |obs| ==> vals[i] == obs[i].value
  {
    seq(|obs|, i requires 0 <= i < |obs| => obs[i].value)
  }

  /** Position of an observation on the earliest day among the first `n`. */
  function ArgMinDay(obs: seq<Obs>, n: nat): (k: nat)
    requires 0 < n <= |obs|
    ensures k < n
    ensures forall i :: 0 <= i < n ==> obs[k].day <= obs[i].day
  {
    if n == 1 then 0
    else
      var k := ArgMinDay(obs, n - 1);
      if obs[n - 1].day < obs[k].day then n - 1 else k
  }

  /** Position of an observation on the latest day among the first `n`. */
  function ArgMaxDay(obs: seq<Obs>, n: nat): (k: nat)
    requires 0 < n <= |obs|
    ensures k < n
    ensures forall i :: 0 <= i < n ==> obs[i].day <= obs[k].day
  {
    if n == 1 then 0
    else
      var k := ArgMaxDay(obs, n - 1);
      if obs[n - 1].day > obs[k].day then n - 1 else k
  }

  function MinDay(obs: seq<Obs>): int
    requires |obs| > 0
  {
    obs[ArgMinDay(obs, |obs|)].day
  }

  function MaxDay(obs: seq<Obs>): int
    requires |obs| > 0
  {
    obs[ArgMaxDay(obs, |obs|)].day
  }

  /** The day of an observation has at least one score. */
  lemma {:induction false} ValuesOnHolds(obs: seq<Obs>, i: nat)
    requires i < |obs|
    ensures |ValuesOn(obs, obs[i].day)| > 0
  {
    if i > 0 {
      ValuesOnHolds(obs[1..], i - 1);
      assert obs[1..][i - 1] == obs[i];
    }
  }

  /** A day has no scores exactly when no observation falls on it. */
  lemma {:induction false} ValuesOnEmptyIff(obs: seq<Obs>, day: int)
    ensures |ValuesOn(obs, day)| == 0 <==> forall i :: 0 <= i < |obs| ==> obs[i].day != day
  {
    if |obs| > 0 {
      ValuesOnEmptyIff(obs[1..], day);
      assert forall i :: 1 <= i < |obs| ==> obs[i] == obs[1..][i-1];
    }
  }

  /** The groups of the `n` days starting at `lo`. */
  function Days(obs: seq<Obs>, lo: int, n: nat): (b: seq<DayBucket>)
    ensures |b| == n
    ensures forall d :: 0 <= d < n ==> b[d].values == ValuesOn(obs, lo + d)
  {
    if n == 0 then [] else Days(obs, lo, n - 1) + [DayBucket(ValuesOn(obs, lo + n - 1))]
  }

  /** `resample('D')` of the observations, with the day's mean and count: one
      bucket per day from the earliest to the latest observation. */
  function Resample(obs: seq<Obs>): (r: Series)
    ensures |r.buckets| == 0 <==> |obs| == 0
    ensures |obs| > 0 ==> r.first == MinDay(obs) && r.first + |r.buckets| - 1 == MaxDay(obs)
    ensures forall d :: 0 <= d < |r.buckets| ==> r.buckets[d].values == ValuesOn(obs, r.first + d)
  {
    if |obs| == 0 then EmptySeries
    else Series(MinDay(obs), Days(obs, MinDay(obs), MaxDay(obs) - MinDay(obs) + 1))
  }

  /** The resampled index covers every observation. */
  lemma ResampleCovers(obs: seq<Obs>)
    ensures forall i :: 0 <= i < |obs| ==>
              Resample(obs).first <= obs[i].day < Resample(obs).first + |Resample(obs).buckets|
  {
  }

  /** A day's count is zero exactly when no observation falls on it, and its
      mean is missing exactly then. */
  lemma ResampleEmptyDays(obs: seq<Obs>, d: nat)
    requires d < |Resample(obs).buckets|
    ensures Resample(obs).buckets[d].Count() == 0 <==>
              forall i :: 0 <= i < |obs| ==> obs[i].day != Resample(obs).first + d
    ensures Resample(obs).buckets[d].Average().None? <==> Resample(obs).buckets[d].Count() == 0
  {
    var r := Resample(obs);
    EmptyDay(r.buckets, obs, r.first, d);
  }

  lemma EmptyDay(b: seq<DayBucket>, obs: seq<Obs>, lo: int, d: nat)
    requires forall d :: 0 <= d < |b| ==> b[d].values == ValuesOn(obs, lo + d)
    requires d < |b|
    ensures b[d].Count() == 0 <==> forall i :: 0 <= i < |obs| ==> obs[i].day != lo + d
    ensures b[d].Average().None? <==> b[d].Count() == 0
  {
    ValuesOnEmptyIff(obs, lo + d);
  }

  /** The first day of the index holds an observation. */
  lemma ResampleFirstDayOccupied(obs: seq<Obs>)
    requires |obs| > 0
    ensures Resample(obs).buckets[0].Count() > 0
  {
    var r := Resample(obs);
    DayOccupied(r.buckets, obs, r.first, ArgMinDay(obs, |obs|), 0);
  }

  /** The last day of the index holds an observation. */
  lemma ResampleLastDayOccupied(obs: seq<Obs>)
    requires |obs| > 0
    ensures Resample(obs).buckets[|Resample(obs).buckets| - 1].Count() > 0
  {
    var r := Resample(obs);
    var n := |r.buckets|;
    assert r.first + n - 1 == MaxDay(obs);
    DayOccupied(r.buckets, obs, r.first, ArgMaxDay(obs, |obs|), n - 1);
  }

  /** A day on which observation `i` falls holds at least one item. */
  lemma DayOccupied(b: seq<DayBucket>, obs: seq<Obs>, lo: int, i: nat, d: nat)
    requires forall d :: 0 <= d < |b| ==> b[d].values == ValuesOn(obs, lo + d)
    requires i < |obs| && d < |b| && obs[i].day == lo + d
    ensures b[d].Count() > 0
  {
    ValuesOnHolds(obs, i);
  }

  // ---------- totals over a run of days ----------

  /** Number of observations on the days `lo .. lo + n - 1`. */
  function CountRange(obs: seq<Obs>, lo: int, n: nat): nat
  {
    if n == 0 then 0 else CountRange(obs, lo, n - 1) + |ValuesOn(obs, lo + n - 1)|
  }

  /** Sum of the scores on the days `lo .. lo + n - 1`. */
  function SumRange(obs: seq<Obs>, lo: int, n: nat): real
  {
    if n == 0 then 0.0 else SumRange(obs, lo, n - 1) + Sum(ValuesOn(obs, lo + n - 1))
  }

  lemma {:induction false} CountRangeSplit(obs: seq<Obs>, lo: int, n: nat)
    requires |obs| > 0
    ensures CountRange(obs, lo, n)
         == (if lo <= obs[0].day < lo + n then 1 else 0) + CountRange(obs[1..], lo, n)
  {
    if n > 0 {
      CountRangeSplit(obs, lo, n - 1);
    }
  }

  lemma {:induction false} SumRangeSplit(obs: seq<Obs>, lo: int, n: nat)
    requires |obs| > 0
    ensures SumRange(obs, lo, n)
         == (if lo <= obs[0].day < lo + n then obs[0].value else 0.0) + SumRange(obs[1..], lo, n)
  {
    if n > 0 {
      SumRangeSplit(obs, lo, n - 1);
      var day := lo + n - 1;
      var head: seq<real> := if obs[0].day == day then [obs[0].value] else [];
      SumAppend(head, ValuesOn(obs[1..], day));
    }
  }

  /** Every observation on a covered day is counted exactly once. */
  lemma {:induction false} CountRangeCoversAll(obs: seq<Obs>, lo: int, n: nat)
    requires forall i :: 0 <= i < |obs| ==> lo <= obs[i].day < lo + n
    ensures CountRange(obs, lo, n) == |obs|
  {
    if |obs| == 0 {
      CountRangeEmpty(obs, lo, n);
    } else {
      CountRangeSplit(obs, lo, n);
      assert forall i :: 0 <= i < |obs| - 1 ==> obs[1..][i] == obs[i + 1];
      CountRangeCoversAll(obs[1..], lo, n);
    }
  }

  /** Every observation on a covered day contributes its score exactly once. */
  lemma {:induction false} SumRangeCoversAll(obs: seq<Obs>, lo: int, n: nat)
    requires forall i :: 0 <= i < |obs| ==> lo <= obs[i].day < lo + n
    ensures SumRange(obs, lo, n) == Sum(Values(obs))
  {
    if |obs| == 0 {
      SumRangeEmpty(obs, lo, n);
    } else {
      SumRangeSplit(obs, lo, n);
      assert forall i :: 0 <= i < |obs| - 1 ==> obs[1..][i] == obs[i + 1];
      SumRangeCoversAll(obs[1..], lo, n);
      assert Values(obs)[1..] == Values(obs[1..]);
    }
  }

  lemma {:induction false} CountRangeEmpty(obs: seq<Obs>, lo: int, n: nat)
    requires |obs| == 0
    ensures CountRange(obs, lo, n) == 0
  {
    if n > 0 {
      CountRangeEmpty(obs, lo, n - 1);
    }
  }

  lemma {:induction false} SumRangeEmpty(obs: seq<Obs>, lo: int, n: nat)
    requires |obs| == 0
    ensures SumRange(obs, lo, n) == 0.0
  {
    if n > 0 {
      SumRangeEmpty(obs, lo, n - 1);
    }
  }

  /** The sum of the daily counts. */
  function TotalCount(buckets: seq<DayBucket>): nat
  {
    if |buckets| == 0 then 0 else TotalCount(buckets[..|buckets| - 1]) + buckets[|buckets| - 1].Count()
  }

  /** The sum over days of (count x mean): the total score the days carry. */
  function WeightedTotal(buckets: seq<DayBucket>): real
  {
    if |buckets| == 0 then 0.0
    else WeightedTotal(buckets[..|buckets| - 1]) + Weight(buckets[|buckets| - 1])
  }

  /** One day's count times its mean (nothing on an empty day). */
  function Weight(b: DayBucket): real {
    (b.Count() as real) * b.Average().GetOr(0.0)
  }

  lemma {:induction false} TotalCountMatchesRange(b: seq<DayBucket>, obs: seq<Obs>, lo: int, k: nat)
    requires k <= |b|
    requires forall d :: 0 <= d < |b| ==> b[d].values == ValuesOn(obs, lo + d)
    ensures TotalCount(b[..k]) == CountRange(obs, lo, k)
  {
    if k > 0 {
      TotalCountMatchesRange(b, obs, lo, k - 1);
      assert b[..k][..k - 1] == b[..k - 1];
    }
  }

  lemma {:induction false} WeightedTotalMatchesRange(b: seq<DayBucket>, obs: seq<Obs>, lo: int, k: nat)
    requires k <= |b|
    requires forall d :: 0 <= d < |b| ==> b[d].values == ValuesOn(obs, lo + d)
    ensures WeightedTotal(b[..k]) == SumRange(obs, lo, k)
  {
    if k > 0 {
      WeightedTotalMatchesRange(b, obs, lo, k - 1);
      assert b[..k][..k - 1] == b[..k - 1];
      var vals := ValuesOn(obs, lo + k - 1);
      assert b[..k][k - 1] == b[k - 1] == DayBucket(vals);
      DayWeight(vals);
    }
  }

  /** A day contributes its count times its mean: the sum of its scores. */
  lemma DayWeight(vals: seq<real>)
    ensures Weight(DayBucket(vals)) == Sum(vals)
  {
    if |vals| > 0 {
      MeanTimesCount(vals);
    }
  }

  lemma BucketTotals(b: seq<DayBucket>, obs: seq<Obs>, lo: int)
    requires forall d :: 0 <= d < |b| ==> b[d].values == ValuesOn(obs, lo + d)
    requires forall i :: 0 <= i < |obs| ==> lo <= obs[i].day < lo + |b|
    ensures TotalCount(b) == |obs|
    ensures WeightedTotal(b) == Sum(Values(obs))
  {
    TotalCountMatchesRange(b, obs, lo, |b|);
    WeightedTotalMatchesRange(b, obs, lo, |b|);
    assert b[..|b|] == b;
    CountRangeCoversAll(obs, lo, |b|);
    SumRangeCoversAll(obs, lo, |b|);
  }

  /** The daily counts add up to the number of observations. */
  lemma ResampleCountsSum(obs: seq<Obs>)
    ensures TotalCount(Resample(obs).buckets) == |obs|
  {
    var r := Resample(obs);
    ResampleCovers(obs);
    BucketTotals(r.buckets, obs, r.first);
  }

  /** Weighting every daily mean by its day's count recovers the total of all
      scores: the overall mean is the count-weighted mean of the daily means. */
  lemma ResampleTotalsMatch(obs: seq<Obs>)
    ensures WeightedTotal(Resample(obs).buckets) == Sum(Values(obs))
  {
    var r := Resample(obs);
    ResampleCovers(obs);
    BucketTotals(r.buckets, obs, r.first);
  }
}
