/** The Reddit analyzer's text cleaner: one regular-expression substitution
    that deletes, scanning left to right, every match of
      `http\S+` | `\[[^\]]+\]\([^)]+\)` | `[^\w\s]`
    (a URL-like run, a markdown link, a single punctuation character),
    trying the alternatives in that order at each position. */
module TextClean {
  import opened Base

  /** `\w`, for ASCII characters: letters, digits and underscore. */
  predicate IsWordChar(c: char) {
    'a' <= c <= 'z' || 'A' <= c <= 'Z' || '0' <= c <= '9' || c == '_'
  }

  /** `\s`, for ASCII characters: tab, line feed, vertical tab, form feed,
      carriage return, the four separators 0x1C-0x1F and space. */
  predicate IsSpaceChar(c: char) {
    9 <= c as int <= 13 || 28 <= c as int <= 32
  }

  /** A character no alternative of the pattern deletes on its own. */
  predicate Kept(c: char) {
    IsWordChar(c) || IsSpaceChar(c)
  }

  /** Length of the longest whitespace-free prefix (`\S*`). */
  function NonSpaceRun(s: seq<char>): (n: nat)
    ensures n <= |s|
    ensures forall i :: 0 <= i < n ==> !IsSpaceChar(s[i])
    ensures n < |s| ==> IsSpaceChar(s[n])
  {
    if |s| == 0 || IsSpaceChar(s[0]) then 0 else 1 + NonSpaceRun(s[1..])
  }

  /** The first position at or after `from` holding `c`. */
  function Find(s: seq<char>, c: char, from: nat): (r: Option<nat>)
    ensures r.Some? ==> from <= r.value < |s| && s[r.value] == c
    ensures r.Some? ==> forall i :: from <= i < r.value ==> s[i] != c
    ensures r.None? ==> forall i :: from <= i < |s| ==> s[i] != c
    decreases |s| - from
  {
    if from >= |s| then None
    else if s[from] == c then Some(from)
    else Find(s, c, from + 1)
  }

  /** `http` followed by at least one non-whitespace character. */
  predicate StartsUrl(s: seq<char>) {
    |s| >= 5 && s[0] == 'h' && s[1] == 't' && s[2] == 't' && s[3] == 'p' && !IsSpaceChar(s[4])
  }

  /** Length of the `http\S+` match at the start of `s`, 0 when there is none. */
  function UrlLength(s: seq<char>): (n: nat)
    ensures n <= |s|
    ensures n > 0 <==> StartsUrl(s)
  {
    if StartsUrl(s) then 4 + NonSpaceRun(s[4..]) else 0
  }

  /** Length of the `\[[^\]]+\]\([^)]+\)` match at the start of `s`, 0 when
      there is none. The bracketed text ends at the first `]`, which must be
      followed at once by `(`; the target ends at the next `)`; neither may
      be empty. */
  function LinkLength(s: seq<char>): (n: nat)
    ensures n <= |s|
    ensures n > 0 ==> s[0] == '[' && n >= 5 && s[n-1] == ')'
  {
    if |s| == 0 || s[0] != '[' then 0
    else match Find(s, ']', 1)
      case None => 0
      case Some(j) =>
        if j < 2 || j + 1 >= |s| || s[j+1] != '(' then 0
        else match Find(s, ')', j + 2)
          case None => 0
          case Some(m) => if m < j + 3 then 0 else m + 1
  }

  /** Length of the pattern's match at the start of `s` (0 when none of the
      three alternatives matches there). */
  function MatchLength(s: seq<char>): (n: nat)
    ensures n <= |s|
    ensures |s| > 0 && n == 0 ==> Kept(s[0])
    ensures |s| > 0 && !Kept(s[0]) ==> n > 0
    ensures StartsUrl(s) ==> n > 0
  {
    if UrlLength(s) > 0 then UrlLength(s)
    else if LinkLength(s) > 0 then LinkLength(s)
    else if |s| > 0 && !Kept(s[0]) then 1
    else 0
  }

  /** `_clean`: delete every match, keep everything between matches. */
  function Clean(s: seq<char>): (r: seq<char>)
    ensures forall i :: 0 <= i < |r| ==> Kept(r[i])
    ensures |r| <= |s|
    decreases |s|
  {
    if |s| == 0 then []
    else
      var k := MatchLength(s);
      if k > 0 then Clean(s[k..]) else [s[0]] + Clean(s[1..])
  }

  /** Text the cleaner has nothing to delete from: only word and whitespace
      characters, and no `http` followed by a non-whitespace character. */
  predicate Plain(s: seq<char>) {
    && (forall i :: 0 <= i < |s| ==> Kept(s[i]))
    && (forall i :: 0 <= i < |s| ==> !StartsUrl(s[i..]))
  }

  /** The cleaned text is obtained from the input by deleting characters. */
  lemma {:induction false} CleanIsSubsequence(s: seq<char>)
    ensures IsSubseq(Clean(s), s)
    decreases |s|
  {
    if |s| > 0 {
      var k := MatchLength(s);
      if k > 0 {
        CleanIsSubsequence(s[k..]);
        SubseqOfSuffix(Clean(s[k..]), s, k);
      } else {
        CleanIsSubsequence(s[1..]);
        var c := Clean(s[1..]);
        assert ([s[0]] + c)[1..] == c;
      }
    }
  }

  lemma PlainTail(s: seq<char>)
    requires |s| > 0 && Plain(s)
    ensures Plain(s[1..])
  {
    forall i | 0 <= i < |s[1..]|
      ensures !StartsUrl(s[1..][i..])
    {
      assert s[1..][i..] == s[i+1..];
    }
  }

  /** Plain text passes through the cleaner unchanged. */
  lemma {:induction false} CleanKeepsPlain(s: seq<char>)
    requires Plain(s)
    ensures Clean(s) == s
    decreases |s|
  {
    if |s| > 0 {
      assert s[0..] == s;
      assert !StartsUrl(s);
      assert s[0] != '[';
      assert MatchLength(s) == 0;
      PlainTail(s);
      CleanKeepsPlain(s[1..]);
      assert s == [s[0]] + s[1..];
    }
  }

  /** A cleaning that deletes nothing only happens to plain text. */
  lemma {:induction false} CleanLengthKeptOnlyWhenPlain(s: seq<char>)
    requires |Clean(s)| == |s|
    ensures Plain(s)
    decreases |s|
  {
    if |s| > 0 {
      var k := MatchLength(s);
      if k > 0 {
        assert false;
      } else {
        CleanLengthKeptOnlyWhenPlain(s[1..]);
        forall i | 0 <= i < |s|
          ensures Kept(s[i]) && !StartsUrl(s[i..])
        {
          if i == 0 {
            assert s[0..] == s;
          } else {
            assert s[1..][i-1] == s[i];
            assert s[1..][i-1..] == s[i..];
          }
        }
      }
    }
  }

  /** `_clean` returns its input unchanged exactly when the input is plain. */
  lemma CleanFixedPointIffPlain(s: seq<char>)
    ensures Clean(s) == s <==> Plain(s)
  {
    if Plain(s) {
      CleanKeepsPlain(s);
    }
    if Clean(s) == s {
      CleanLengthKeptOnlyWhenPlain(s);
    }
  }

  /** No `!` or `?` survives cleaning: neither is a word or whitespace
      character. */
  lemma CleanDropsMarks(s: seq<char>)
    ensures '!' !in Clean(s) && '?' !in Clean(s)
  {
    var r := Clean(s);
    assert !Kept('!') && !Kept('?');
    assert forall i :: 0 <= i < |r| ==> r[i] != '!' && r[i] != '?';
  }

  /** The cleaner is not idempotent: deleting the `!` of `ht!tpx` joins a
      URL-like run that a second pass deletes. */
  lemma CleanNotIdempotent()
    ensures Clean("ht!tpx") == "httpx"
    ensures Clean(Clean("ht!tpx")) == ""
  {
    var s := "ht!tpx";
    assert MatchLength(s) == 0;
    assert MatchLength(s[1..]) == 0;
    assert MatchLength(s[2..]) == 1;
    assert MatchLength(s[3..]) == 0;
    assert MatchLength(s[4..]) == 0;
    assert MatchLength(s[5..]) == 0;
    assert Clean(s[5..]) == "x";
    assert Clean(s[4..]) == "px";
    assert Clean(s[3..]) == "tpx";
    assert Clean(s[2..]) == "tpx";
    assert Clean(s[1..]) == "ttpx";
    var t := "httpx";
    assert StartsUrl(t);
    assert NonSpaceRun(t[4..]) == 1;
    assert MatchLength(t) == 5;
    assert t[5..] == [];
  }
}
