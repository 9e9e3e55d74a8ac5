/** Shared vocabulary of the sentiment pipeline: missing values (pandas' NaN and
    Python's None), the analyzers' success/error dictionaries, calls into
    collaborators that may raise, and the arithmetic on sequences of reals that
    every aggregation step uses. */
module Base {

  /** A value that may be missing. Inside a day-indexed series `None` is
      pandas' NaN; elsewhere it is Python's `None`. */
  datatype Option<+T> = None | Some(value: T) {

    /** The value, or `default` when it is missing (`dict.get(k, default)`). */
    function GetOr(default: T): T {
      match this
      case Some(v) => v
      case None => default
    }
  }

  /** The dictionaries the analyzers return: `{'success': True, ...}` or
      `{'success': False, 'error': <text>}`. */
  datatype Result<+T> = Ok(value: T) | Err(error: string)

  /** A call into a collaborator that either returns or raises an exception
      whose `str()` is `message`. */
  datatype Call<+T> = Returned(value: T) | Raised(message: string)

  function Sum(xs: seq<real>): real
  {
    if |xs| == 0 then 0.0 else xs[0] + Sum(xs[1..])
  }

  function Mean(xs: seq<real>): real
    requires |xs| > 0
  {
    Sum(xs) / (|xs| as real)
  }

  /** pandas' `Series.mean()`: NaN (here `None`) for an empty series. */
  function MeanOf(xs: seq<real>): (m: Option<real>)
    ensures m.Some? <==> |xs| > 0
  {
    if |xs| == 0 then None else Some(Mean(xs))
  }

  /** The mean times the number of values is their sum. */
  lemma MeanTimesCount(xs: seq<real>)
    requires |xs| > 0
    ensures MeanOf(xs).value * (|xs| as real) == Sum(xs)
  {
  }

  /** The mean of `n` values times `n` is their sum. */
  lemma MeanTimesLength(xs: seq<real>, n: nat)
    requires |xs| == n > 0
    ensures Mean(xs) * (n as real) == Sum(xs)
  {
  }

  lemma {:induction false} SumAppend(a: seq<real>, b: seq<real>)
    ensures Sum(a + b) == Sum(a) + Sum(b)
  {
    if |a| == 0 {
      assert a + b == b;
    } else {
      assert (a + b)[1..] == a[1..] + b;
      SumAppend(a[1..], b);
    }
  }

  lemma {:induction false} SumBounds(xs: seq<real>, lo: real, hi: real)
    requires forall i :: 0 <= i < |xs| ==> lo <= xs[i] <= hi
    ensures (|xs| as real) * lo <= Sum(xs) <= (|xs| as real) * hi
  {
    if |xs| > 0 {
      SumBounds(xs[1..], lo, hi);
    }
  }

  /** A mean lies between the least and the greatest bound of its values. */
  lemma MeanBounds(xs: seq<real>, lo: real, hi: real)
    requires |xs| > 0
    requires forall i :: 0 <= i < |xs| ==> lo <= xs[i] <= hi
    ensures lo <= Mean(xs) <= hi
  {
    SumBounds(xs, lo, hi);
    var n := |xs| as real;
    assert Mean(xs) * n == Sum(xs);
  }

  /** The present values of a series, in order (`Series.dropna()`). */
  function Observed(s: seq<Option<real>>): (vals: seq<real>)
    ensures |vals| <= |s|
  {
    if |s| == 0 then []
    else (if s[0].Some? then [s[0].value] else []) + Observed(s[1..])
  }

  lemma {:induction false} ObservedAppend(a: seq<Option<real>>, b: seq<Option<real>>)
    ensures Observed(a + b) == Observed(a) + Observed(b)
  {
    if |a| == 0 {
      assert a + b == b;
    } else {
      assert (a + b)[1..] == a[1..] + b;
      ObservedAppend(a[1..], b);
      var h: seq<real> := if a[0].Some? then [a[0].value] else [];
      assert Observed(a + b) == h + Observed(a[1..] + b);
      assert h + (Observed(a[1..]) + Observed(b)) == (h + Observed(a[1..])) + Observed(b);
    }
  }

  /** `a` can be obtained from `b` by deleting elements. */
  predicate IsSubseq<T(==)>(a: seq<T>, b: seq<T>)
    decreases |b|
  {
    if |a| == 0 then true
    else if |b| == 0 then false
    else if a[0] == b[0] then IsSubseq(a[1..], b[1..])
    else IsSubseq(a, b[1..])
  }

  lemma {:induction false} SubseqDropHead<T>(a: seq<T>, b: seq<T>)
    requires |a| > 0 && IsSubseq(a, b)
    ensures IsSubseq(a[1..], b)
    decreases |b|
  {
    if a[0] == b[0] {
      if |a| > 1 {
        SubseqSkip(a[1..], b);
      }
    } else {
      SubseqDropHead(a, b[1..]);
      SubseqSkip(a[1..], b);
    }
  }

  /** A subsequence of a tail is a subsequence of the whole. */
  lemma {:induction false} SubseqSkip<T>(a: seq<T>, b: seq<T>)
    requires |b| > 0 && IsSubseq(a, b[1..])
    ensures IsSubseq(a, b)
    decreases |b|, 1
  {
    if |a| > 0 && a[0] == b[0] {
      SubseqDropHead(a, b[1..]);
    }
  }

  lemma {:induction false} SubseqOfSuffix<T>(a: seq<T>, b: seq<T>, k: nat)
    requires k <= |b| && IsSubseq(a, b[k..])
    ensures IsSubseq(a, b)
    decreases k
  {
    if k > 0 {
      assert b[k-1..][1..] == b[k..];
      SubseqSkip(a, b[k-1..]);
      SubseqOfSuffix(a, b, k - 1);
    }
  }

  function DigitChar(d: nat): char
    requires d < 10
  {
    ('0' as int + d) as char
  }

  /** Python's `str()` of a non-negative integer. */
  function NatToString(n: nat): (s: string)
    ensures |s| > 0
    ensures forall i :: 0 <= i < |s| ==> '0' <= s[i] <= '9'
  {
    if n < 10 then [DigitChar(n)] else NatToString(n / 10) + [DigitChar(n % 10)]
  }

  /** Python's `str()` of an integer. */
  function IntToString(i: int): (s: string)
    ensures |s| > 0
    ensures s[0] == '-' <==> i < 0
  {
    if i < 0 then "-" + NatToString(-i) else NatToString(i)
  }
}
