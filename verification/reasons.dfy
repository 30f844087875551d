/** `generateRecommendationReason` of both revisions: the sentence built
    from the whiskey's name and the first sentence of its description,
    followed by clauses the query and the user's preferences switch on.

    The revisions differ in two places, passed in by the caller: whether
    the whiskey counts as premium for the `고가` clause (tier `고가`, or a
    price of at least 150,000 won), and a trailing clause (the numeric
    revision's preferred-price sentence; empty in the tier revision).
 */
module Reasons {
  import opened Common
  import opened Seqs
  import opened Text
  import opened Records
  import opened Catalog

  /** `description.split('.')[0]`: the longest prefix of the description
      without a full stop, which runs to the end or to the first full stop. */
  function FirstSentence(description: string): (r: string)
    ensures '.' !in r
    ensures |r| <= |description| && r == description[..|r|]
    ensures |r| == |description| || description[|r|] == '.'
  {
    Split(description, '.')[0]
  }

  /** `profile.filter(f => fs.includes(f)).join(', ')`. */
  function Listing(profile: seq<string>, fs: seq<string>): string
  {
    Join(Filter(profile, (f: string) => f in fs), ", ")
  }

  const NoviceClause := " 초보자분들도 쉽게 접근할 수 있는 부드러운 위스키입니다."
  const IntroClause := " 위스키 입문자분들도 부담 없이 즐길 수 있는 부드러운 맛이 특징입니다."
  const PremiumClause := " 고급 위스키를 찾으시는 고객님께 이 위스키는 훌륭한 선택이 될 것입니다."

  predicate Smooth<Pr>(w: Whiskey<Pr>)
  {
    "부드러움" in w.flavors || "크리미" in w.flavors
  }

  /** `text` when `on`, otherwise nothing. */
  function Clause(on: bool, text: string): string
  {
    if on then text else ""
  }

  function Concat(pieces: seq<string>): string
  {
    if |pieces| == 0 then "" else pieces[0] + Concat(pieces[1..])
  }

  const SweetLead := " 고객님께서 달콤하고 과일향을 선호하셔서 "
  const SweetTail := "과 같은 향이 두드러지는 이 위스키를 추천합니다."
  const SmokyLead := " 강렬한 "
  const SmokyTail := " 향을 좋아하신다면 이 위스키는 탁월한 선택이 될 것입니다."
  const KeywordLead := " 고객님의 선호 맛/향인 "
  const KeywordTail := "과 잘 맞습니다."

  function SweetClause<Pr>(w: Whiskey<Pr>): string
  {
    SweetLead + Listing(w.flavors, SweetFlavors) + SweetTail
  }

  function SmokyClause<Pr>(w: Whiskey<Pr>): string
  {
    SmokyLead + Listing(w.flavors, SmokyFlavors) + SmokyTail
  }

  function KeywordClause<Pr>(w: Whiskey<Pr>, keywords: seq<string>): string
  {
    KeywordLead + Listing(keywords, w.flavors) + KeywordTail
  }

  function Opening<Pr>(w: Whiskey<Pr>): string
  {
    w.name + "은(는) " + FirstSentence(w.description) + " 특징이 있습니다."
  }

  /** Whether each optional clause fires, in source order: a sweet cue (`달콤`
      or `과일`) with a sweet flavour; a peat cue with a smoky flavour;
      `입문` with a smooth whiskey; `고가` with a premium one; a novice user
      with a smooth whiskey; a user keyword the whiskey has. A missing
      keyword list switches the last one off, as the numeric revision's
      guard does. */
  function Fires<Pr>(w: Whiskey<Pr>, q: string, u: Option<User>, premium: bool): (f: seq<bool>)
    ensures |f| == 6
  {
    [ (Contains(q, "달콤") || Contains(q, "과일")) && AnyFlavor(w, SweetFlavors),
      PeatCue(q) && AnyFlavor(w, SmokyFlavors),
      Contains(q, "입문") && Smooth(w),
      Contains(q, "고가") && premium,
      u.Some? && u.value.prefs.level == Some(Novice) && Smooth(w),
      u.Some? && u.value.prefs.keywords.Some? && AnyFlavor(w, u.value.prefs.keywords.value) ]
  }

  /** The keyword clause for a user with keywords, nothing otherwise. */
  function UserKeywordClause<Pr>(w: Whiskey<Pr>, u: Option<User>): string
  {
    if u.Some? && u.value.prefs.keywords.Some? then KeywordClause(w, u.value.prefs.keywords.value) else ""
  }

  /** The text of each optional clause, in the order of `Fires`. */
  function ClauseTexts<Pr>(w: Whiskey<Pr>, u: Option<User>): (t: seq<string>)
    ensures |t| == 6
  {
    [SweetClause(w), SmokyClause(w), IntroClause, PremiumClause, NoviceClause, UserKeywordClause(w, u)]
  }

  /** The opening sentence, then each clause in source order (empty when
      it does not fire), then the caller's trailing clause. */
  function ReasonPieces<Pr>(w: Whiskey<Pr>, q: string, u: Option<User>, premium: bool, tail: string): seq<string>
  {
    var f := Fires(w, q, u, premium);
    var t := ClauseTexts(w, u);
    [ Opening(w),
      Clause(f[0], t[0]), Clause(f[1], t[1]), Clause(f[2], t[2]),
      Clause(f[3], t[3]), Clause(f[4], t[4]), Clause(f[5], t[5]),
      tail ]
  }

  /** Every flavour and keyword the reason may list stays on one line. */
  predicate ListsOneLine<Pr>(w: Whiskey<Pr>, u: Option<User>)
  {
    && (forall f :: f in w.flavors ==> OneLine(f))
    && (u.Some? && u.value.prefs.keywords.Some? ==> forall f :: f in u.value.prefs.keywords.value ==> OneLine(f))
  }

  predicate EndsWithDot(s: string)
  {
    |s| > 0 && s[|s| - 1] == '.'
  }

  /** The reason sentence. It opens with the whiskey's name and `은(는) `,
      ends with a full stop, and, when its inputs have no line break,
      stays on one line, which the agent's numbered list relies on. */
  function Reason<Pr>(w: Whiskey<Pr>, q: string, u: Option<User>, premium: bool, tail: string): (r: string)
    requires |tail| == 0 || EndsWithDot(tail)
    ensures |r| > |w.name| + 5 && r[..|w.name| + 5] == w.name + "은(는) "
    ensures EndsWithDot(r)
    ensures OneLine(w.name) && OneLine(w.description) && ListsOneLine(w, u) && OneLine(tail) ==> OneLine(r)
  {
    var pieces := ReasonPieces(w, q, u, premium, tail);
    PiecesEndWithDot(w, q, u, premium, tail);
    ConcatEndsWithDot(pieces);
    ConcatPrefix(pieces);
    assert pieces[0][..|w.name| + 5] == w.name + "은(는) ";
    PiecesOneLineWhen(w, q, u, premium, tail);
    Concat(pieces)
  }

  lemma PiecesEndWithDot<Pr>(w: Whiskey<Pr>, q: string, u: Option<User>, premium: bool, tail: string)
    requires |tail| == 0 || EndsWithDot(tail)
    ensures var ps := ReasonPieces(w, q, u, premium, tail);
            EndsWithDot(ps[0]) && forall k :: 0 <= k < |ps| ==> |ps[k]| == 0 || EndsWithDot(ps[k])
  {
    AppendEndsWithDot(w.name + "은(는) " + FirstSentence(w.description), " 특징이 있습니다.");
    ClauseTextsEndWithDot(w, u);
    ShapeEndsWithDot(Opening(w), Fires(w, q, u, premium), ClauseTexts(w, u), tail);
  }

  /** Pieces laid out as `ReasonPieces` lays them out are each empty or end
      with a full stop when the opening, the clause texts and the tail are. */
  lemma ShapeEndsWithDot(o: string, f: seq<bool>, t: seq<string>, tail: string)
    requires |f| == 6 && |t| == 6 && EndsWithDot(o) && (|tail| == 0 || EndsWithDot(tail))
    requires forall k :: 0 <= k < 6 ==> |t[k]| == 0 || EndsWithDot(t[k])
    ensures var ps := [o, Clause(f[0], t[0]), Clause(f[1], t[1]), Clause(f[2], t[2]),
                       Clause(f[3], t[3]), Clause(f[4], t[4]), Clause(f[5], t[5]), tail];
            forall k :: 0 <= k < |ps| ==> |ps[k]| == 0 || EndsWithDot(ps[k])
  {
    var ps := [o, Clause(f[0], t[0]), Clause(f[1], t[1]), Clause(f[2], t[2]),
               Clause(f[3], t[3]), Clause(f[4], t[4]), Clause(f[5], t[5]), tail];
    forall k | 0 <= k < |ps| ensures |ps[k]| == 0 || EndsWithDot(ps[k]) {
      if k == 0 {
      } else if k == 7 {
      } else {
        ClauseEndsWithDot(f[k - 1], t[k - 1]);
        assert ps[k] == Clause(f[k - 1], t[k - 1]);
      }
    }
  }

  lemma ClauseEndsWithDot(on: bool, text: string)
    requires |text| == 0 || EndsWithDot(text)
    ensures |Clause(on, text)| == 0 || EndsWithDot(Clause(on, text))
  {
  }

  /** Each clause text is empty or ends with a full stop. */
  lemma ClauseTextsEndWithDot<Pr>(w: Whiskey<Pr>, u: Option<User>)
    ensures var t := ClauseTexts(w, u);
            forall k :: 0 <= k < 6 ==> |t[k]| == 0 || EndsWithDot(t[k])
  {
    AppendEndsWithDot(SweetLead + Listing(w.flavors, SweetFlavors), SweetTail);
    AppendEndsWithDot(SmokyLead + Listing(w.flavors, SmokyFlavors), SmokyTail);
    if u.Some? && u.value.prefs.keywords.Some? {
      AppendEndsWithDot(KeywordLead + Listing(u.value.prefs.keywords.value, w.flavors), KeywordTail);
    }
    assert EndsWithDot(IntroClause) && EndsWithDot(PremiumClause) && EndsWithDot(NoviceClause);
  }

  lemma AppendEndsWithDot(a: string, b: string)
    requires EndsWithDot(b)
    ensures EndsWithDot(a + b)
  {
  }

  /** The concatenation ends with a full stop when its first piece does and
      every later piece is empty or does. */
  lemma {:induction false} ConcatEndsWithDot(pieces: seq<string>)
    requires |pieces| > 0 && EndsWithDot(pieces[0])
    requires forall k :: 0 <= k < |pieces| ==> |pieces[k]| == 0 || EndsWithDot(pieces[k])
    ensures EndsWithDot(Concat(pieces))
    decreases |pieces|
  {
    if |pieces| > 1 {
      var rest := pieces[1..];
      if EndsWithDot(rest[0]) {
        ConcatEndsWithDot(rest);
        AppendEndsWithDot(pieces[0], Concat(rest));
      } else {
        var rest' := [pieces[0]] + rest[1..];
        assert Concat(rest') == pieces[0] + Concat(rest[1..]);
        ConcatEndsWithDot(rest');
        assert rest[0] == "";
        assert Concat(rest) == Concat(rest[1..]);
      }
    }
  }

  lemma ConcatPrefix(pieces: seq<string>)
    requires |pieces| > 0
    ensures |Concat(pieces)| >= |pieces[0]| && Concat(pieces)[..|pieces[0]|] == pieces[0]
  {
    assert Concat(pieces) == pieces[0] + Concat(pieces[1..]);
  }

  lemma {:induction false} ConcatOneLine(pieces: seq<string>)
    requires forall k :: 0 <= k < |pieces| ==> OneLine(pieces[k])
    ensures OneLine(Concat(pieces))
    decreases |pieces|
  {
    if |pieces| > 0 {
      ConcatOneLine(pieces[1..]);
      OneLineConcat(pieces[0], Concat(pieces[1..]));
    }
  }

  lemma PiecesOneLineWhen<Pr>(w: Whiskey<Pr>, q: string, u: Option<User>, premium: bool, tail: string)
    ensures OneLine(w.name) && OneLine(w.description) && ListsOneLine(w, u) && OneLine(tail) ==>
            OneLine(Concat(ReasonPieces(w, q, u, premium, tail)))
  {
    if OneLine(w.name) && OneLine(w.description) && ListsOneLine(w, u) && OneLine(tail) {
      var ps := ReasonPieces(w, q, u, premium, tail);
      OpeningOneLine(w);
      SweetClauseOneLine(w);
      SmokyClauseOneLine(w);
      if u.Some? && u.value.prefs.keywords.Some? {
        KeywordClauseOneLine(w, u.value.prefs.keywords.value);
      }
      FixedClausesOneLine();
      assert forall k :: 0 <= k < |ps| ==> OneLine(ps[k]);
      ConcatOneLine(ps);
    }
  }

  lemma FixedClausesOneLine()
    ensures OneLine(IntroClause) && OneLine(PremiumClause) && OneLine(NoviceClause)
  {
    IntroClauseOneLine();
    PremiumClauseOneLine();
    NoviceClauseOneLine();
  }

  lemma IntroClauseOneLine() ensures OneLine(IntroClause) {}
  lemma PremiumClauseOneLine() ensures OneLine(PremiumClause) {}
  lemma NoviceClauseOneLine() ensures OneLine(NoviceClause) {}

  /** The fixed texts around the listed flavours have no line break. */
  lemma ClauseTextsOneLine()
    ensures OneLine(SweetLead) && OneLine(SweetTail)
    ensures OneLine(SmokyLead) && OneLine(SmokyTail)
    ensures OneLine(KeywordLead) && OneLine(KeywordTail)
  {
  }

  lemma OpeningOneLine<Pr>(w: Whiskey<Pr>)
    requires OneLine(w.name) && OneLine(w.description)
    ensures OneLine(Opening(w))
  {
    var fs := FirstSentence(w.description);
    assert OneLine(fs) by {
      assert forall i :: 0 <= i < |fs| ==> fs[i] == w.description[i];
    }
    OneLineConcat(w.name, "은(는) ");
    OneLineConcat(w.name + "은(는) ", fs);
    OneLineConcat(w.name + "은(는) " + fs, " 특징이 있습니다.");
  }

  lemma SweetClauseOneLine<Pr>(w: Whiskey<Pr>)
    requires forall f :: f in w.flavors ==> OneLine(f)
    ensures OneLine(SweetClause(w))
  {
    ListingOneLine(w.flavors, SweetFlavors);
    ClauseTextsOneLine();
    OneLineConcat3(SweetLead, Listing(w.flavors, SweetFlavors), SweetTail);
  }

  lemma SmokyClauseOneLine<Pr>(w: Whiskey<Pr>)
    requires forall f :: f in w.flavors ==> OneLine(f)
    ensures OneLine(SmokyClause(w))
  {
    ListingOneLine(w.flavors, SmokyFlavors);
    ClauseTextsOneLine();
    OneLineConcat3(SmokyLead, Listing(w.flavors, SmokyFlavors), SmokyTail);
  }

  lemma KeywordClauseOneLine<Pr>(w: Whiskey<Pr>, kws: seq<string>)
    requires forall f :: f in kws ==> OneLine(f)
    ensures OneLine(KeywordClause(w, kws))
  {
    ListingOneLine(kws, w.flavors);
    ClauseTextsOneLine();
    OneLineConcat3(KeywordLead, Listing(kws, w.flavors), KeywordTail);
  }

  lemma ListingOneLine(profile: seq<string>, fs: seq<string>)
    requires forall f :: f in profile ==> OneLine(f)
    ensures OneLine(Listing(profile, fs))
  {
    var kept := Filter(profile, (f: string) => f in fs);
    forall k | 0 <= k < |kept| ensures OneLine(kept[k]) {
      assert kept[k] in kept;
    }
    JoinOneLine(kept, ", ");
  }

  /** The concatenation around its `k`-th piece. */
  lemma {:induction false} ConcatSplit(pieces: seq<string>, k: nat)
    requires k < |pieces|
    ensures Concat(pieces) == Concat(pieces[..k]) + pieces[k] + Concat(pieces[k + 1..])
    decreases k
  {
    if k > 0 {
      ConcatSplit(pieces[1..], k - 1);
      assert pieces[1..][..k - 1] == pieces[1..k];
      assert pieces[1..][k - 1 + 1..] == pieces[k + 1..];
      assert pieces[..k] == [pieces[0]] + pieces[1..k];
      assert Concat(pieces[..k]) == pieces[0] + Concat(pieces[1..k]);
    } else {
      assert pieces[..0] == [];
    }
  }

  /** The reason opens with the whiskey's name, `은(는) `, the first
      sentence of its description and ` 특징이 있습니다.`, and ends with the
      caller's trailing clause. */
  lemma ReasonOpensAndEnds<Pr>(w: Whiskey<Pr>, q: string, u: Option<User>, premium: bool, tail: string)
    requires |tail| == 0 || EndsWithDot(tail)
    ensures var r := Reason(w, q, u, premium, tail);
            var o := w.name + "은(는) " + FirstSentence(w.description) + " 특징이 있습니다.";
            && |r| >= |o| + |tail|
            && r[..|o|] == o
            && HasAt(r, |w.name| + 5, FirstSentence(w.description))
            && r[|r| - |tail|..] == tail
  {
    var ps := ReasonPieces(w, q, u, premium, tail);
    var r := Concat(ps);
    ConcatPrefix(ps);
    ConcatSplit(ps, 7);
    assert ps[8..] == [];
    var o := Opening(w);
    assert r[..|o|] == o;
    assert r[|w.name| + 5..|w.name| + 5 + |FirstSentence(w.description)|] == o[|w.name| + 5..|w.name| + 5 + |FirstSentence(w.description)|];
  }

  /** The concatenation around an inner piece: what comes before it opens
      with the first piece, and what comes after it ends with the last. */
  lemma ConcatAround(pieces: seq<string>, k: nat)
    requires 0 < k < |pieces| - 1
    ensures var before := Concat(pieces[..k]);
            var after := Concat(pieces[k + 1..]);
            var last := pieces[|pieces| - 1];
            && Concat(pieces) == before + pieces[k] + after
            && |before| >= |pieces[0]| && before[..|pieces[0]|] == pieces[0]
            && |after| >= |last| && after[|after| - |last|..] == last
  {
    ConcatSplit(pieces, k);
    ConcatPrefix(pieces[..k]);
    var rest := pieces[k + 1..];
    ConcatSplit(rest, |rest| - 1);
    assert rest[|rest| - 1 + 1..] == [];
  }

  /** Each optional clause sits at its place in source order, after the
      opening and before the trailing clause, and its text is there exactly
      when its condition fires. */
  lemma ReasonClause<Pr>(w: Whiskey<Pr>, q: string, u: Option<User>, premium: bool, tail: string, k: nat)
    requires |tail| == 0 || EndsWithDot(tail)
    requires k < 6
    ensures var r := Reason(w, q, u, premium, tail);
            var ps := ReasonPieces(w, q, u, premium, tail);
            var before := Concat(ps[..k + 1]);
            var after := Concat(ps[k + 2..]);
            && r == before + (if Fires(w, q, u, premium)[k] then ClauseTexts(w, u)[k] else "") + after
            && |before| >= |Opening(w)| && before[..|Opening(w)|] == Opening(w)
            && |after| >= |tail| && after[|after| - |tail|..] == tail
  {
    var ps := ReasonPieces(w, q, u, premium, tail);
    PieceOfClause(w, q, u, premium, tail, k);
    ConcatAround(ps, k + 1);
    assert Reason(w, q, u, premium, tail) == Concat(ps);
  }

  lemma PieceOfClause<Pr>(w: Whiskey<Pr>, q: string, u: Option<User>, premium: bool, tail: string, k: nat)
    requires k < 6
    ensures var ps := ReasonPieces(w, q, u, premium, tail);
            && |ps| == 8 && ps[0] == Opening(w) && ps[7] == tail
            && ps[k + 1] == if Fires(w, q, u, premium)[k] then ClauseTexts(w, u)[k] else ""
  {
  }

  /** A clause that fires shows up in the reason. */
  lemma ReasonShowsClause<Pr>(w: Whiskey<Pr>, q: string, u: Option<User>, premium: bool, tail: string, k: nat)
    requires |tail| == 0 || EndsWithDot(tail)
    requires k < 6 && Fires(w, q, u, premium)[k]
    ensures Contains(Reason(w, q, u, premium, tail), ClauseTexts(w, u)[k])
  {
    ReasonClause(w, q, u, premium, tail, k);
    var ps := ReasonPieces(w, q, u, premium, tail);
    var before := Concat(ps[..k + 1]);
    var t := ClauseTexts(w, u)[k];
    var r := Reason(w, q, u, premium, tail);
    assert r[|before|..|before| + |t|] == t;
    ContainsAt(r, |before|, t);
  }

  /** Empty pieces add nothing to a concatenation. */
  lemma {:induction false} ConcatSkipEmpty(pieces: seq<string>, i: nat, j: nat)
    requires i <= j <= |pieces|
    requires forall k :: i <= k < j ==> pieces[k] == ""
    ensures Concat(pieces[i..]) == Concat(pieces[j..])
    decreases j - i
  {
    if i < j {
      assert pieces[i..][1..] == pieces[i + 1..];
      ConcatSkipEmpty(pieces, i + 1, j);
    }
  }

  /** When no clause fires, the reason is the opening sentence followed by
      the trailing clause. */
  lemma ReasonWithoutClauses<Pr>(w: Whiskey<Pr>, q: string, u: Option<User>, premium: bool, tail: string)
    requires |tail| == 0 || EndsWithDot(tail)
    requires forall k :: 0 <= k < 6 ==> !Fires(w, q, u, premium)[k]
    ensures Reason(w, q, u, premium, tail) == Opening(w) + tail
  {
    var ps := ReasonPieces(w, q, u, premium, tail);
    var f := Fires(w, q, u, premium);
    assert !f[0] && !f[1] && !f[2] && !f[3] && !f[4] && !f[5];
    ConcatSkipEmpty(ps, 1, 7);
    assert ps[7..][1..] == [];
    assert Concat(ps) == ps[0] + Concat(ps[1..]);
  }

  /** The tier revision as written: the keyword clause reads
      `preferences.flavorKeywords.some(…)` without a guard, and the tier
      revision's preferences have no such field, so for a known user
      without keywords the call throws a `TypeError`. */
  function ReasonAsWritten(w: Whiskey<PriceTier>, q: string, u: Option<User>): (r: Result<string>)
    ensures r.Err? <==> u.Some? && u.value.prefs.keywords.None?
    ensures r.Err? ==> r.error == UndefinedProperty("some")
    ensures r.Ok? ==> r.value == Reason(w, q, u, w.price == High, "")
  {
    if u.Some? && u.value.prefs.keywords.None? then Err(UndefinedProperty("some"))
    else Ok(Reason(w, q, u, w.price == High, ""))
  }
}
