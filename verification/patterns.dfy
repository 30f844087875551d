/** The regular expressions the numeric-price revision applies to the
    user's query, hand-coded as scanners with the leftmost-first behaviour
    of JavaScript's `String.prototype.match`:

    - `/(\d+)만원 이상/` and `/(\d+)만원 이하/`: a price bound in units of
      10,000 won;
    - `/(피트|스모키|달콤|바닐라|꿀|과일|쉐리)(?:향)?/g`: every flavour word,
      with an optional `향` after it;
    - `/(싱글몰트|블렌디드|버번|라이)/`: the first whiskey-type word.
 */
module Patterns {
  import opened Common
  import opened Seqs
  import opened Text

  // ---------------------------------------------------------------------
  // Price hints

  const AboveSuffix := "만원 이상"
  const BelowSuffix := "만원 이하"

  /** `(\d+)` followed by `suffix` matches starting at `i`. The digit run is
      taken whole: a shorter run would leave a digit where the suffix's
      first character must be. */
  predicate HintAt(s: string, suffix: string, i: nat)
  {
    i < |s| && DigitRunEnd(s, i) > i && HasAt(s, DigitRunEnd(s, i), suffix)
  }

  /** `j` is the leftmost position where the hint matches. */
  predicate LeftmostHint(s: string, suffix: string, j: nat)
  {
    HintAt(s, suffix, j) && forall k :: 0 <= k < j ==> !HintAt(s, suffix, k)
  }

  /** The leftmost position at or after `i` where the hint matches. */
  function FirstHint(s: string, suffix: string, i: nat): (r: Option<nat>)
    requires i <= |s|
    ensures r.Some? ==> i <= r.value < |s| && HintAt(s, suffix, r.value)
                        && forall k :: i <= k < r.value ==> !HintAt(s, suffix, k)
    ensures r.None? <==> forall k :: i <= k < |s| ==> !HintAt(s, suffix, k)
    decreases |s| - i
  {
    if i == |s| then None
    else if HintAt(s, suffix, i) then Some(i)
    else FirstHint(s, suffix, i + 1)
  }

  /** `parseInt(match[1]) * 10000` of the leftmost match, if any: the
      value of the digit run at the first position where the pattern
      matches, in ten-thousands. */
  function PriceHint(s: string, suffix: string): (r: Option<nat>)
    ensures r.None? <==> forall k :: 0 <= k < |s| ==> !HintAt(s, suffix, k)
    ensures forall j: nat :: LeftmostHint(s, suffix, j) ==> r == Some(DigitsValue(s[j..DigitRunEnd(s, j)]) * 10000)
    ensures r.Some? ==> r.value % 10000 == 0
  {
    forall j: nat | LeftmostHint(s, suffix, j) ensures FirstHint(s, suffix, 0) == Some(j)
    {
      FirstHintIs(s, suffix, j);
    }
    match FirstHint(s, suffix, 0)
    case Some(i) =>
      var v := DigitsValue(s[i..DigitRunEnd(s, i)]);
      TenThousands(v);
      Some(v * 10000)
    case None => None
  }

  lemma TenThousands(n: nat)
    ensures (n * 10000) % 10000 == 0
  {
  }

  /** The digit run of a number written out and followed by a non-digit ends
      where the number ends. */
  lemma DigitRunOfNumber(p: string, d: string, t: string)
    requires AllDigits(d) && |t| > 0 && !IsDigit(t[0])
    ensures DigitRunEnd(p + d + t, |p|) == |p| + |d|
  {
    var s := p + d + t;
    forall k | |p| <= k < |p| + |d| ensures IsDigit(s[k]) {
      assert s[k] == d[k - |p|];
    }
    assert s[|p| + |d|] == t[0];
    DigitRunEndIs(s, |p|, |p| + |d|);
  }

  /** Writing `n` in front of the suffix, after text without digits, is read
      back as `n` ten-thousands. */
  lemma PriceHintRoundTrip(s: string, p: string, n: nat, suffix: string, rest: string)
    requires s == p + NatToString(n) + suffix + rest
    requires forall k :: 0 <= k < |p| ==> !IsDigit(p[k])
    requires |suffix| > 0 && !IsDigit(suffix[0])
    ensures PriceHint(s, suffix) == Some(n * 10000)
  {
    var d := NatToString(n);
    var e := HintPieces(s, p, d, suffix, rest);
    FirstHintIs(s, suffix, |p|);
    PriceHintAt(s, suffix, |p|, e, d);
  }

  /** A query that is a written number and a price suffix gives that price. */
  lemma PriceHintOfNumber(s: string, n: nat, suffix: string)
    requires s == NatToString(n) + suffix
    requires |suffix| > 0 && !IsDigit(suffix[0])
    ensures PriceHint(s, suffix) == Some(n * 10000)
  {
    assert s == "" + NatToString(n) + suffix + "";
    PriceHintRoundTrip(s, "", n, suffix, "");
  }

  /** A match with none before it is the leftmost one. */
  lemma FirstHintIs(s: string, suffix: string, j: nat)
    requires HintAt(s, suffix, j)
    requires forall k :: 0 <= k < j ==> !HintAt(s, suffix, k)
    ensures FirstHint(s, suffix, 0) == Some(j)
  {
    var r := FirstHint(s, suffix, 0);
    assert r.Some?;
    assert r.value == j;
  }

  /** The hint's value is the value of the leftmost match's digit run. */
  lemma PriceHintAt(s: string, suffix: string, j: nat, e: nat, d: string)
    requires FirstHint(s, suffix, 0) == Some(j)
    requires e == DigitRunEnd(s, j) && j <= e <= |s| && s[j..e] == d
    ensures PriceHint(s, suffix) == Some(DigitsValue(d) * 10000)
  {
  }

  /** The characters of a written number between digit-free text and the
      suffix: no match before the number, a match at it whose digit run is
      the number. */
  lemma HintPieces(s: string, p: string, d: string, suffix: string, rest: string) returns (e: nat)
    requires s == p + d + suffix + rest
    requires forall k :: 0 <= k < |p| ==> !IsDigit(p[k])
    requires |d| > 0 && AllDigits(d)
    requires |suffix| > 0 && !IsDigit(suffix[0])
    ensures e == |p| + |d| == DigitRunEnd(s, |p|) && s[|p|..e] == d
    ensures HintAt(s, suffix, |p|)
    ensures forall k :: 0 <= k < |p| ==> !HintAt(s, suffix, k)
  {
    assert s == p + d + (suffix + rest);
    forall k | 0 <= k < |p| ensures !HintAt(s, suffix, k) {
      assert s[k] == p[k];
    }
    DigitRunOfNumber(p, d, suffix + rest);
    e := |p| + |d|;
    assert s[|p|..e] == d;
    assert s[e..e + |suffix|] == suffix;
  }

  // ---------------------------------------------------------------------
  // Flavour words

  const FlavorWords: seq<string> := ["피트", "스모키", "달콤", "바닐라", "꿀", "과일", "쉐리"]

  /** The first of `words` occurring at position `i`, trying them in order. */
  function WordAt(s: string, i: nat, words: seq<string>): (r: Option<string>)
    ensures r.Some? ==> r.value in words && HasAt(s, i, r.value)
    ensures r.None? <==> forall w :: w in words ==> !HasAt(s, i, w)
  {
    if |words| == 0 then None
    else if HasAt(s, i, words[0]) then Some(words[0])
    else
      var r := WordAt(s, i, words[1..]);
      assert forall w :: w in words ==> w == words[0] || w in words[1..];
      r
  }

  predicate NonEmptyWords(words: seq<string>)
  {
    forall w :: w in words ==> |w| > 0
  }

  /** The global match of an alternation of `words` followed by an optional
      `향`, from position `i`: at each position the first word found there
      is taken, together with a following `향`, and the scan resumes after
      it. The result holds the captured words, which is what
      `replace('향', '')` leaves of each match. */
  function WordScan(s: string, i: nat, words: seq<string>): seq<string>
    requires i <= |s| && NonEmptyWords(words)
    decreases |s| - i
  {
    if i == |s| then []
    else
      match WordAt(s, i, words)
      case Some(w) =>
        var e := i + |w|;
        var next := if HasAt(s, e, "향") then e + 1 else e;
        [w] + WordScan(s, next, words)
      case None => WordScan(s, i + 1, words)
  }

  /** `query.match(/(피트|스모키|달콤|바닐라|꿀|과일|쉐리)(?:향)?/g)`, with
      `향` removed from each match. */
  function FlavorMatches(s: string): seq<string>
  {
    FlavorWordsUnambiguous();
    WordScan(s, 0, FlavorWords)
  }

  /** A word found at `i` is the scan's next result, and the scan resumes
      after it and its optional `향`. */
  lemma ScanTakes(s: string, i: nat, words: seq<string>, v: string) returns (next: nat)
    requires i < |s| && NonEmptyWords(words) && WordAt(s, i, words) == Some(v)
    ensures next == if HasAt(s, i + |v|, "향") then i + |v| + 1 else i + |v|
    ensures i < next <= |s| && WordScan(s, i, words) == [v] + WordScan(s, next, words)
  {
    next := if HasAt(s, i + |v|, "향") then i + |v| + 1 else i + |v|;
  }

  /** A word the scan from `i` finds occurs in the text at or after `i`. */
  lemma {:induction false} ScanSound(s: string, i: nat, words: seq<string>, w: string) returns (p: nat)
    requires i <= |s| && NonEmptyWords(words) && w in WordScan(s, i, words)
    ensures w in words && i <= p <= |s| && HasAt(s, p, w)
    decreases |s| - i
  {
    assert i < |s|;
    match WordAt(s, i, words)
    case Some(v) =>
      var next := ScanTakes(s, i, words, v);
      if w == v {
        p := i;
      } else {
        assert w in WordScan(s, next, words);
        p := ScanSound(s, next, words, w);
      }
    case None =>
      assert WordScan(s, i, words) == WordScan(s, i + 1, words);
      p := ScanSound(s, i + 1, words, w);
  }

  /** Without any of the words in the text the scan finds nothing. */
  lemma {:induction false} ScanEmpty(s: string, i: nat, words: seq<string>)
    requires i <= |s| && NonEmptyWords(words)
    requires forall t :: t in words ==> !Contains(s, t)
    ensures WordScan(s, i, words) == []
    decreases |s| - i
  {
    if i < |s| {
      assert forall t :: t in words ==> !HasAt(s, i, t);
      ScanEmpty(s, i + 1, words);
    }
  }

  /** No match can hide another: the words are non-empty and begin with
      distinct characters, and no later character of a word, nor `향`, is
      the first character of one. */
  predicate Unambiguous(words: seq<string>)
  {
    && NonEmptyWords(words)
    && (forall v, w :: v in words && w in words && v[0] == w[0] ==> v == w)
    && (forall v, w, k :: v in words && w in words && 1 <= k < |v| ==> v[k] != w[0])
    && (forall w :: w in words ==> w[0] != '향')
  }

  lemma FlavorWordsUnambiguous()
    ensures Unambiguous(FlavorWords)
  {
    FlavorStartsDistinct();
    FlavorInnerChars();
  }

  lemma FlavorStartsDistinct()
    ensures NonEmptyWords(FlavorWords)
    ensures forall v, w :: v in FlavorWords && w in FlavorWords && v[0] == w[0] ==> v == w
  {
  }

  lemma FlavorInnerChars()
    ensures forall v, w, k :: v in FlavorWords && w in FlavorWords && 1 <= k < |v| ==> v[k] != w[0]
    ensures forall w :: w in FlavorWords ==> |w| > 0 && w[0] != '향'
  {
  }

  /** A word of an unambiguous list at `i` is the one `WordAt` picks there. */
  lemma WordAtUnique(s: string, i: nat, words: seq<string>, w: string)
    requires Unambiguous(words) && w in words && HasAt(s, i, w)
    ensures WordAt(s, i, words) == Some(w)
  {
    var v := WordAt(s, i, words).value;
    assert s[i] == w[0];
    assert s[i] == v[0];
  }

  /** No word starts inside a match: neither within the word taken nor at
      its optional `향`. */
  lemma NoWordInsideMatch(s: string, i: nat, v: string, p: nat, w: string, words: seq<string>)
    requires Unambiguous(words)
    requires v in words && HasAt(s, i, v)
    requires w in words && HasAt(s, p, w)
    requires i < p
    ensures p >= i + |v|
    ensures p == i + |v| ==> !HasAt(s, p, "향")
  {
    assert s[p] == w[0];
  }

  /** Every occurrence of a word of an unambiguous list at or after `i` is
      found by the scan from `i`. */
  lemma {:induction false} ScanFinds(s: string, i: nat, p: nat, words: seq<string>, w: string)
    requires Unambiguous(words) && w in words
    requires i <= p && HasAt(s, p, w)
    ensures w in WordScan(s, i, words)
    decreases |s| - i
  {
    if i == p {
      WordAtUnique(s, i, words, w);
      var _ := ScanTakes(s, i, words, w);
    } else {
      match WordAt(s, i, words)
      case Some(v) =>
        NoWordInsideMatch(s, i, v, p, w, words);
        var next := ScanTakes(s, i, words, v);
        assert next <= p by {
          if HasAt(s, i + |v|, "향") { assert p != i + |v|; }
        }
        ScanFinds(s, next, p, words, w);
      case None =>
        assert WordScan(s, i, words) == WordScan(s, i + 1, words);
        ScanFinds(s, i + 1, p, words, w);
    }
  }

  /** The flavour words found are exactly those the query contains. */
  lemma FlavorMatchesExact(s: string)
    ensures forall w :: w in FlavorMatches(s) ==> w in FlavorWords && Contains(s, w)
    ensures forall w :: w in FlavorWords && Contains(s, w) ==> w in FlavorMatches(s)
  {
    FlavorWordsUnambiguous();
    forall w | w in FlavorMatches(s) ensures w in FlavorWords && Contains(s, w) {
      var p := ScanSound(s, 0, FlavorWords, w);
      ContainsAt(s, p, w);
    }
    forall w | w in FlavorWords && Contains(s, w) ensures w in FlavorMatches(s) {
      var p: nat :| p <= |s| && HasAt(s, p, w);
      ScanFinds(s, 0, p, FlavorWords, w);
    }
  }

  /** Without a flavour word in the query the global match finds nothing. */
  lemma FlavorMatchesEmpty(s: string)
    requires forall t :: t in FlavorWords ==> !Contains(s, t)
    ensures FlavorMatches(s) == []
  {
    FlavorWordsUnambiguous();
    ScanEmpty(s, 0, FlavorWords);
  }

  // ---------------------------------------------------------------------
  // Type words

  const TypeWords: seq<string> := ["싱글몰트", "블렌디드", "버번", "라이"]

  /** The first position at or after `i` where one of `words` occurs, and
      the first of the words (in the given order) occurring there: the
      leftmost match of their alternation. */
  function FirstWord(s: string, i: nat, words: seq<string>): (r: Option<string>)
    requires i <= |s|
    ensures r.Some? ==> r.value in words && Contains(s, r.value)
    ensures r.None? <==> forall k, w :: i <= k <= |s| && w in words ==> !HasAt(s, k, w)
    decreases |s| - i
  {
    match WordAt(s, i, words)
    case Some(w) => ContainsAt(s, i, w); Some(w)
    case None =>
      if i == |s| then None
      else
        var r := FirstWord(s, i + 1, words);
        assert r.None? ==> forall k, w :: i <= k <= |s| && w in words ==> !HasAt(s, k, w) by {
          if r.None? {
            forall k, w | i <= k <= |s| && w in words ensures !HasAt(s, k, w) {
              if k == i { assert WordAt(s, i, words).None?; }
            }
          }
        }
        r
  }

  /** `k` is the leftmost position at or after `i` where one of `words` occurs. */
  predicate LeftmostAt(s: string, i: nat, k: nat, words: seq<string>)
  {
    i <= k <= |s| && WordAt(s, k, words).Some? && forall k' :: i <= k' < k ==> WordAt(s, k', words).None?
  }

  /** The scan from `i` stops at the first position holding one of the words. */
  lemma {:induction false} FirstWordLeftmost(s: string, i: nat, words: seq<string>, k: nat)
    requires LeftmostAt(s, i, k, words)
    ensures FirstWord(s, i, words) == WordAt(s, k, words)
    decreases k - i
  {
    if k > i {
      assert WordAt(s, i, words).None?;
      FirstWordLeftmost(s, i + 1, words, k);
    }
  }

  /** The first match of the alternation of `words` in `s`. */
  function FirstMatch(s: string, words: seq<string>): (r: Option<string>)
    ensures r.Some? ==> r.value in words && Contains(s, r.value)
    ensures r.None? <==> forall w :: w in words ==> !Contains(s, w)
    ensures forall k: nat :: LeftmostAt(s, 0, k, words) ==> r == WordAt(s, k, words)
  {
    forall k: nat | LeftmostAt(s, 0, k, words) ensures FirstWord(s, 0, words) == WordAt(s, k, words) {
      FirstWordLeftmost(s, 0, words, k);
    }
    FirstWord(s, 0, words)
  }

  /** `query.match(/(싱글몰트|블렌디드|버번|라이)/)?.[0]`: at the leftmost
      position where a type word occurs, the first word of the pattern
      occurring there. */
  function TypeHint(s: string): (r: Option<string>)
    ensures r.Some? ==> r.value in TypeWords && Contains(s, r.value)
    ensures r.None? <==> forall w :: w in TypeWords ==> !Contains(s, w)
    ensures forall k: nat :: LeftmostAt(s, 0, k, TypeWords) ==> r == WordAt(s, k, TypeWords)
  {
    FirstMatch(s, TypeWords)
  }
}
