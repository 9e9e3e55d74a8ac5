/** The enhanced analyzer: a quality gate over fetched posts and the text
    scorer. Both read the VADER `compound` polarity of a post's text, which is
    not modelled here: every post carries it as a number, VADER's range being
    [-1, 1]. */
module Enhanced {
  import opened Base

  /** A fetched post as the analyzers' data frames hold it: its cleaned text,
      its platform score (up-votes), its calendar day (a naive UTC day key)
      and the VADER compound polarity of its text. */
  datatype Post = Post(text: string, score: int, day: int, compound: real)

  /** Posts whose quality exceeds this are kept. */
  const QualityThreshold: real := 0.5
  /** A text strictly longer than this earns the length bonus. */
  const LongText: nat := 100
  /** A score strictly greater than this earns the popularity bonus. */
  const PopularScore: int := 10

  predicate InVaderRange(x: real) {
    -1.0 <= x <= 1.0
  }

  function Abs(x: real): real {
    if x < 0.0 then -x else x
  }

  /** `calculate_quality_score`: 0.3 for a long text, 0.3 for a popular post,
      plus 0.4 times the magnitude of the text's polarity. */
  function QualityScore(textLength: nat, score: int, compound: real): (q: real)
    ensures q >= 0.0
    ensures InVaderRange(compound) ==> q <= 1.0
    ensures textLength <= LongText && score <= PopularScore && InVaderRange(compound) ==> q <= 0.4
    ensures textLength > LongText && score > PopularScore ==> q >= 0.6
  {
    (if textLength > LongText then 0.3 else 0.0)
    + (if score > PopularScore then 0.3 else 0.0)
    + Abs(compound) * 0.4
  }

  function Quality(p: Post): real {
    QualityScore(|p.text|, p.score, p.compound)
  }

  /** The gate is strict: a quality of exactly 0.5 is dropped. */
  predicate PassesGate(p: Post) {
    Quality(p) > QualityThreshold
  }

  /** `filter_low_quality`: the posts that pass the gate, in their original
      order, each kept as often as it occurs. */
  function FilterLowQuality(posts: seq<Post>): (kept: seq<Post>)
    ensures forall p :: multiset(kept)[p] == (if PassesGate(p) then multiset(posts)[p] else 0)
    ensures forall i :: 0 <= i < |kept| ==> PassesGate(kept[i])
  {
    if |posts| == 0 then []
    else
      var rest := FilterLowQuality(posts[1..]);
      assert multiset(posts) == multiset{posts[0]} + multiset(posts[1..]) by {
        assert posts == [posts[0]] + posts[1..];
      }
      if PassesGate(posts[0]) then [posts[0]] + rest else rest
  }

  /** The filter keeps the surviving posts in their original order. */
  lemma {:induction false} FilterIsSubsequence(posts: seq<Post>)
    ensures IsSubseq(FilterLowQuality(posts), posts)
  {
    if |posts| > 0 {
      FilterIsSubsequence(posts[1..]);
      var rest := FilterLowQuality(posts[1..]);
      if PassesGate(posts[0]) {
        assert ([posts[0]] + rest)[1..] == rest;
      } else {
        SubseqSkip(rest, posts);
      }
    }
  }

  /** A post is kept exactly when it occurs in the input and passes the gate. */
  lemma FilterMembership(posts: seq<Post>, p: Post)
    ensures p in FilterLowQuality(posts) <==> p in posts && PassesGate(p)
  {
    var kept := FilterLowQuality(posts);
    assert p in kept <==> multiset(kept)[p] > 0;
    assert p in posts <==> multiset(posts)[p] > 0;
  }

  /** A short, unpopular post never survives: its quality is at most 0.4. */
  lemma ShortUnpopularDropped(posts: seq<Post>, p: Post)
    requires |p.text| <= LongText && p.score <= PopularScore && InVaderRange(p.compound)
    ensures p !in FilterLowQuality(posts)
  {
    FilterMembership(posts, p);
  }

  /** A long, popular post always survives: its quality is at least 0.6. */
  lemma LongPopularKept(posts: seq<Post>, p: Post)
    requires p in posts && |p.text| > LongText && p.score > PopularScore
    ensures p in FilterLowQuality(posts)
  {
    FilterMembership(posts, p);
  }

  /** The punctuation adjustment: +0.1 for a `!`, -0.1 for a `?`. */
  function Punctuation(text: string): (adj: real)
    ensures '!' in text && '?' in text ==> adj == 0.0
    ensures -0.1 <= adj <= 0.1
  {
    (if '!' in text then 0.1 else 0.0) - (if '?' in text then 0.1 else 0.0)
  }

  /** `score`: 0 for an empty text; otherwise 0.7 times the polarity, plus a
      length bonus of 0.1 per thousand characters, plus the punctuation
      adjustment. Nothing clamps the result. */
  function Score(text: string, compound: real): (s: real)
    ensures |text| == 0 ==> s == 0.0
    ensures |text| > 0 ==> s == 0.7 * compound + (|text| as real) / 10000.0 + Punctuation(text)
    ensures InVaderRange(compound) ==> -0.8 <= s <= 0.8 + (|text| as real) / 10000.0
  {
    if |text| == 0 then 0.0
    else
      var base := compound * 0.7;
      var bonus := ((|text| as real) / 1000.0) * 0.1 + Punctuation(text);
      base + bonus
  }

  /** The score is not confined to [-1, 1]: a long, fully positive,
      exclaiming text scores above 1. */
  lemma ScoreCanExceedOne(text: string)
    requires |text| > 2000 && '!' in text && '?' !in text
    ensures Score(text, 1.0) > 1.0
  {
  }

  /** With both `!` and `?` present the punctuation adjustments cancel. */
  lemma MixedPunctuationCancels(text: string, compound: real)
    requires '!' in text && '?' in text
    ensures Score(text, compound) == 0.7 * compound + (|text| as real) / 10000.0
  {
  }
}
