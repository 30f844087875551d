/** The two event handlers of the demo application that hold catalogue
    logic: `handleRecommend`, which reads structured options out of the
    query text before asking for recommendations, and
    `handleSavePreferences`, which checks the price bounds and parses the
    keyword field before saving. The React state they read is passed in.
 */
module Handlers {
  import opened Common
  import opened Seqs
  import opened Text
  import opened Records
  import opened Database
  import opened Catalog
  import opened Interactions
  import opened Patterns
  import opened DemoService

  // ---------------------------------------------------------------------
  // handleRecommend

  function AsInt(n: Option<nat>): Option<int>
  {
    match n
    case Some(v) => Some(v)
    case None => None
  }

  /** The options the query implies: the price bounds written as `N만원 이상`
      and `N만원 이하`, every flavour word (without `향`, each once), and the
      first type word, taken as the raw type string. */
  function ExtractHints(q: string): (o: RecOptions)
    ensures o.keywords.Some? ==> |o.keywords.value| > 0 && NoDup(o.keywords.value)
    ensures forall t :: t in FlavorWords ==> (Contains(q, t) <==> o.keywords.Some? && t in o.keywords.value)
    ensures o.keywords.Some? ==> forall t :: t in o.keywords.value ==> t in FlavorWords
    ensures o.minPrice.Some? <==> exists k :: 0 <= k < |q| && HintAt(q, AboveSuffix, k)
    ensures o.maxPrice.Some? <==> exists k :: 0 <= k < |q| && HintAt(q, BelowSuffix, k)
    ensures o.minPrice.Some? ==> o.minPrice.value >= 0 && o.minPrice.value % 10000 == 0
    ensures o.maxPrice.Some? ==> o.maxPrice.value >= 0 && o.maxPrice.value % 10000 == 0
    ensures forall j: nat :: LeftmostHint(q, AboveSuffix, j) ==> o.minPrice == Some(DigitsValue(q[j..DigitRunEnd(q, j)]) * 10000)
    ensures forall j: nat :: LeftmostHint(q, BelowSuffix, j) ==> o.maxPrice == Some(DigitsValue(q[j..DigitRunEnd(q, j)]) * 10000)
    ensures o.kind.Some? ==> o.kind.value in TypeWords && Contains(q, o.kind.value)
    ensures o.kind.None? <==> forall t :: t in TypeWords ==> !Contains(q, t)
    ensures forall k: nat :: LeftmostAt(q, 0, k, TypeWords) ==> o.kind == WordAt(q, k, TypeWords)
  {
    var found := FlavorMatches(q);
    FlavorMatchesExact(q);
    var keywords := if |found| > 0 then Some(Dedup(found)) else None;
    assert |found| > 0 ==> |Dedup(found)| > 0 by {
      if |found| > 0 { assert found[0] in Dedup(found); }
    }
    RecOptions(keywords, AsInt(PriceHint(q, AboveSuffix)), AsInt(PriceHint(q, BelowSuffix)), TypeHint(q))
  }

  /** `handleRecommend`: a blank query is refused before anything else and
      leaves the store alone; otherwise the hints become the options of a
      recommendation for the current user, whose in-place sorts may reorder
      the catalogue (`RecommendStore`). */
  function HandleRecommend(st: Store<int>, query: string, currentUserId: string, fmt: int -> string)
    : (r: (Store<int>, Result<seq<Recommendation<int>>>))
    ensures r.1 == Err(EmptyQuery) <==> |Trim(query)| == 0
    ensures |Trim(query)| == 0 ==> r.0 == st
    ensures |Trim(query)| > 0 ==>
              && r.1 == Recommend(st, query, Some(currentUserId), ExtractHints(query), fmt)
              && r.0 == RecommendStore(st, query, Some(currentUserId), ExtractHints(query))
  {
    if |Trim(query)| == 0 then (st, Err(EmptyQuery))
    else
      var o := ExtractHints(query);
      var r := Recommend(st, query, Some(currentUserId), o, fmt);
      assert r.Err? ==> r.error == RecommendationFailed;
      (RecommendStore(st, query, Some(currentUserId), o), r)
  }

  /** The type word `싱글몰트` is no stored type name (that is `싱글 몰트`),
      so once it is the first type word of the query nothing can be
      recommended, whatever the catalogue holds, and the catalogue keeps
      its order. */
  lemma SingleMaltHintRecommendsNothing(st: Store<int>, query: string, currentUserId: string, fmt: int -> string)
    requires |Trim(query)| > 0 && TypeHint(query) == Some("싱글몰트")
    ensures HandleRecommend(st, query, currentUserId, fmt) == (st, Err(RecommendationFailed))
  {
    var o := ExtractHints(query);
    assert o.kind == Some("싱글몰트");
    NoKindIsNamedSingleMalt();
    UnknownTypeRecommendsNothing(st, query, Some(currentUserId), o, fmt);
  }

  lemma NoKindIsNamedSingleMalt()
    ensures forall k: Kind :: KindName(k) != "싱글몰트"
  {
    forall k: Kind ensures KindName(k) != "싱글몰트" {
      match k
      case SingleMalt => assert |KindName(k)| == 5;
      case Blended => assert KindName(k)[0] == '블';
      case _ => assert |KindName(k)| == 2;
    }
  }

  /** A query that is just a price ceiling, such as `10만원 이하`, gives
      that ceiling and nothing else. */
  lemma HintsOfPlainQuery(n: nat)
    ensures ExtractHints(NatToString(n) + BelowSuffix) == RecOptions(None, None, Some(n * 10000), None)
  {
    var q := NatToString(n) + BelowSuffix;
    CeilingOfPlainQuery(n, q);
    NoWordsInHint(n, BelowSuffix, AboveSuffix);
    OnlyCeiling(q, n * 10000);
  }

  lemma CeilingOfPlainQuery(n: nat, q: string)
    requires q == NatToString(n) + BelowSuffix
    ensures PriceHint(q, BelowSuffix) == Some(n * 10000)
  {
    SuffixStartsWithLetter();
    PriceHintOfNumber(q, n, BelowSuffix);
  }

  lemma SuffixStartsWithLetter()
    ensures |BelowSuffix| > 0 && !IsDigit(BelowSuffix[0])
  {
  }

  /** Options of a query with a ceiling and no floor, flavour or type word. */
  lemma OnlyCeiling(q: string, v: nat)
    requires PriceHint(q, BelowSuffix) == Some(v)
    requires forall k :: 0 <= k < |q| ==> !HintAt(q, AboveSuffix, k)
    requires forall t :: t in FlavorWords ==> !Contains(q, t)
    requires forall t :: t in TypeWords ==> !Contains(q, t)
    ensures ExtractHints(q) == RecOptions(None, None, Some(v), None)
  {
    FlavorMatchesEmpty(q);
  }

  /** A written number and a price suffix contain no flavour or type word
      and no other price suffix. */
  lemma NoWordsInHint(n: nat, suffix: string, other: string)
    requires suffix == BelowSuffix && other == AboveSuffix
    ensures var q := NatToString(n) + suffix;
            && (forall t :: t in FlavorWords ==> !Contains(q, t))
            && (forall t :: t in TypeWords ==> !Contains(q, t))
            && (forall k :: 0 <= k < |q| ==> !HintAt(q, other, k))
  {
    var d := NatToString(n);
    var q := d + suffix;
    assert forall c :: c in q ==> IsDigit(c) || c in suffix by {
      forall c | c in q ensures IsDigit(c) || c in suffix {
        var i :| 0 <= i < |q| && q[i] == c;
        if i < |d| { assert q[i] == d[i]; } else { assert q[i] == suffix[i - |d|]; }
      }
    }
    forall t | t in FlavorWords || t in TypeWords ensures !Contains(q, t) {
      NoWordStartsIn(q, suffix, t);
    }
    forall k | 0 <= k < |q| ensures !HintAt(q, other, k) {
      var e := DigitRunEnd(q, k);
      if e + 4 < |q| {
        assert q[e + 4] in q;
      }
    }
  }

  /** A word whose first character is neither a digit nor in `chars` does
      not occur in text made of digits and `chars`. */
  lemma NoWordStartsIn(q: string, chars: string, t: string)
    requires forall c :: c in q ==> IsDigit(c) || c in chars
    requires |t| > 0 && !IsDigit(t[0]) && t[0] !in chars
    ensures !Contains(q, t)
  {
    forall i: nat | i <= |q| ensures !HasAt(q, i, t) {
      if i < |q| {
        assert q[i] in q;
      }
    }
  }

  // ---------------------------------------------------------------------
  // handleSavePreferences

  /** A saved keyword: non-empty, without a comma, and trimmed at both ends. */
  predicate IsKeyword(x: string)
  {
    |x| > 0 && ',' !in x && !IsSpace(x[0]) && !IsSpace(x[|x| - 1])
  }

  /** `input.split(',').map(s => s.trim()).filter(s => s !== '')`. */
  function KeywordsOfInput(input: string): (r: seq<string>)
    ensures forall k :: 0 <= k < |r| ==> IsKeyword(r[k])
  {
    var parts := Map(Split(input, ','), Trim);
    TrimmedPieces(Split(input, ','));
    var r := Filter(parts, (s: string) => s != "");
    assert forall k :: 0 <= k < |r| ==> r[k] in r;
    r
  }

  /** Every non-empty trimmed piece is a keyword. */
  lemma TrimmedPieces(pieces: seq<string>)
    requires forall k :: 0 <= k < |pieces| ==> ',' !in pieces[k]
    ensures forall x :: x in Map(pieces, Trim) && x != "" ==> IsKeyword(x)
  {
    var parts := Map(pieces, Trim);
    forall x | x in parts && x != "" ensures IsKeyword(x) {
      var k :| 0 <= k < |parts| && parts[k] == x;
      TrimmedPiece(pieces[k]);
    }
  }

  lemma TrimmedPiece(s: string)
    requires ',' !in s && Trim(s) != ""
    ensures IsKeyword(Trim(s))
  {
    TrimIn(s);
  }

  /** Trimming only removes characters. */
  lemma TrimIn(s: string)
    ensures forall c :: c in Trim(s) ==> c in s
  {
    var i := |s| - |TrimStart(s)|;
    var t := Trim(s);
    forall c | c in t ensures c in s {
      var k :| 0 <= k < |t| && t[k] == c;
      assert s[i + k] == c;
    }
  }

  /** Keywords typed as a comma-separated list with spaces after the commas
      come back as the list. */
  lemma {:induction false} KeywordsRoundTrip(ks: seq<string>)
    requires forall k :: 0 <= k < |ks| ==> IsKeyword(ks[k])
    ensures KeywordsOfInput(Join(ks, ", ")) == ks
    decreases |ks|
  {
    if |ks| == 0 {
    } else if |ks| == 1 {
      SplitNoSep(ks[0], ',');
      TrimOfTrimmed(ks[0]);
    } else {
      var rest := Join(ks[1..], ", ");
      assert Join(ks, ", ") == ks[0] + [','] + (" " + rest);
      SplitAppend(ks[0], ',', " " + rest);
      KeywordsRoundTrip(ks[1..]);
      TrimOfTrimmed(ks[0]);
      SplitLeadingSpace(rest);
      MapFilterTrim(ks[0], Split(" " + rest, ','), Split(rest, ','));
    }
  }

  /** One space in front of the text only changes the first piece, by a
      space that trimming removes. */
  lemma SplitLeadingSpace(s: string)
    ensures var a := Split(" " + s, ',');
            var b := Split(s, ',');
            |a| == |b| && Trim(a[0]) == Trim(b[0]) && a[1..] == b[1..]
  {
    var a := Split(" " + s, ',');
    assert (" " + s)[1..] == s;
    assert a[0] == " " + Split(s, ',')[0];
    TrimLeadingSpace(Split(s, ',')[0]);
  }

  lemma TrimLeadingSpace(s: string)
    ensures Trim(" " + s) == Trim(s)
  {
    assert (" " + s)[1..] == s;
    assert SpaceRunEnd(" " + s, 0) == SpaceRunEnd(" " + s, 1);
    SpaceRunShift(s, 0);
  }

  lemma {:induction false} SpaceRunShift(s: string, i: nat)
    requires i <= |s|
    ensures SpaceRunEnd(" " + s, i + 1) == SpaceRunEnd(s, i) + 1
    decreases |s| - i
  {
    assert (" " + s)[i + 1..] == s[i..];
    if i < |s| {
      assert (" " + s)[i + 1] == s[i];
      if IsSpace(s[i]) {
        SpaceRunShift(s, i + 1);
      }
    }
  }

  /** Splicing one keyword in front of the trimmed, filtered pieces. */
  lemma MapFilterTrim(k0: string, a: seq<string>, b: seq<string>)
    requires |k0| > 0 && Trim(k0) == k0
    requires |a| == |b| && |a| > 0 && Trim(a[0]) == Trim(b[0]) && a[1..] == b[1..]
    ensures Filter(Map([k0] + a, Trim), (s: string) => s != "")
            == [k0] + Filter(Map(b, Trim), (s: string) => s != "")
  {
    var p := (s: string) => s != "";
    TrimmedHead(k0, a);
    SameTrims(a, b);
    FilterConcat([k0], Map(a, Trim), p);
  }

  lemma TrimmedHead(k0: string, a: seq<string>)
    requires Trim(k0) == k0
    ensures Map([k0] + a, Trim) == [k0] + Map(a, Trim)
  {
    assert forall i :: 0 < i < |a| + 1 ==> ([k0] + a)[i] == a[i - 1];
  }

  lemma SameTrims(a: seq<string>, b: seq<string>)
    requires |a| == |b| && |a| > 0 && Trim(a[0]) == Trim(b[0]) && a[1..] == b[1..]
    ensures Map(a, Trim) == Map(b, Trim)
  {
    assert forall i :: 0 < i < |a| ==> a[i] == a[1..][i - 1] == b[i];
  }

  /** `handleSavePreferences`: the form's bounds are always numbers; a
      minimum above the maximum is refused before the store is touched;
      otherwise the form's values, the keyword field parsed and the current
      experience level are saved for the current user. */
  function HandleSavePreferences(st: Store<int>, currentUserId: string, body: int, richness: int, smokiness: int,
                                 sweetness: int, minPrice: int, maxPrice: int, level: Option<Level>,
                                 keywordsInput: string): (r: (Store<int>, Result<User>))
    ensures minPrice > maxPrice ==> r == (st, Err(PriceBoundsInverted))
    ensures r.1.Err? ==> r.0 == st
    ensures minPrice <= maxPrice ==>
              (r.1.Err? <==> UserIndex(st.users, currentUserId).None?)
    ensures r.1.Ok? ==>
              var p := r.1.value.prefs;
              && p.minPrice == Some(minPrice) && p.maxPrice == Some(maxPrice)
              && p.keywords == Some(KeywordsOfInput(keywordsInput))
              && p.body == body && p.richness == richness && p.smokiness == smokiness && p.sweetness == sweetness
              && r.1.value.id == currentUserId
              && UserById(r.0, currentUserId) == Some(r.1.value)
              && p.level == (if level.Some? then level
                             else st.users[UserIndex(st.users, currentUserId).value].prefs.level)
  {
    if minPrice > maxPrice then (st, Err(PriceBoundsInverted))
    else
      var prefs := Prefs(body, richness, smokiness, sweetness, None, Some(minPrice), Some(maxPrice), level,
                         Some(KeywordsOfInput(keywordsInput)));
      var r := SaveUserPreferences(st, currentUserId, prefs);
      assert r.1.Ok? ==> UserById(r.0, currentUserId) == Some(r.1.value) by {
        if r.1.Ok? { SavedIsFound(st, currentUserId, prefs); }
      }
      r
  }

  /** The saved record is what a lookup of the user finds afterwards. */
  lemma SavedIsFound(st: Store<int>, userId: string, prefs: Prefs)
    requires SaveUserPreferences(st, userId, prefs).1.Ok?
    ensures var r := SaveUserPreferences(st, userId, prefs);
            UserById(r.0, userId) == Some(r.1.value)
  {
    var r := SaveUserPreferences(st, userId, prefs);
    var i := UserIndex(st.users, userId).value;
    assert r.0.users[i] == r.1.value && r.1.value.id == userId;
    forall j | 0 <= j < i ensures r.0.users[j].id != userId {
      assert r.0.users[j] == st.users[j];
    }
    assert UserIndex(r.0.users, userId) == Some(i);
  }
}
