/** The catalogue queries of the numeric-price revision (the single-file
    demo application), where a whiskey's price is a number of won:
    `filterWhiskies`, `sortWhiskies`, `recommendWhiskeys` with the query's
    type and price hints and the user's price bounds, the reason sentence
    with its price-range clause, and `getSimilarWhiskies`.

    Whiskeys of this revision carry no rating, so `rating` is always `None`
    here and no query reads it.
 */
module DemoService {
  import opened Common
  import opened Seqs
  import opened Sorting
  import opened Text
  import opened Records
  import opened Database
  import opened Catalog
  import opened Reasons
  import opened Patterns

  type DemoWhiskey = Whiskey<int>

  /** `bound !== undefined && bound >= 0`: a negative bound is ignored. */
  predicate BoundOn(b: Option<int>)
  {
    b.Some? && b.value >= 0
  }

  /** The price lies within the bounds that are switched on, both inclusive. */
  predicate InBounds(lo: Option<int>, hi: Option<int>, w: DemoWhiskey)
  {
    (BoundOn(lo) ==> w.price >= lo.value) && (BoundOn(hi) ==> w.price <= hi.value)
  }

  /** Two conditional bound filters are one filter by `InBounds`. */
  function ByBounds(lo: Option<int>, hi: Option<int>, s: seq<DemoWhiskey>): (r: seq<DemoWhiskey>)
    ensures forall w {:trigger multiset(r)[w]} :: multiset(r)[w] == if InBounds(lo, hi, w) then multiset(s)[w] else 0
  {
    var s1 := FilterIf(BoundOn(lo), s, (w: DemoWhiskey) => lo.Some? ==> w.price >= lo.value);
    FilterIf(BoundOn(hi), s1, (w: DemoWhiskey) => hi.Some? ==> w.price <= hi.value)
  }

  // ---------------------------------------------------------------------
  // filterWhiskies

  /** `WhiskeyFilterOptions` of this revision: the type is compared as the
      string it is stored as. */
  datatype Filters = Filters(
    kind: Option<string>,
    minPrice: Option<int>,
    maxPrice: Option<int>,
    country: Option<string>,
    keywords: Option<seq<string>>)

  /** Which whiskeys the filters let through: an empty type or country, an
      empty keyword list or a negative bound imposes nothing. */
  predicate Admits(f: Filters, w: DemoWhiskey)
  {
    && (Truthy(f.kind) ==> KindName(w.kind) == f.kind.value)
    && (Truthy(f.country) ==> w.country == f.country.value)
    && MatchesKeywords(w, f.keywords)
    && InBounds(f.minPrice, f.maxPrice, w)
  }

  /** The whiskeys the filters admit, in input order, or `NoFilterMatch`
      when none is. */
  function FilterWhiskeys(ws: seq<DemoWhiskey>, f: Filters): (r: Result<seq<DemoWhiskey>>)
    ensures r.Err? <==> forall w :: w in ws ==> !Admits(f, w)
    ensures r.Err? ==> r.error == NoFilterMatch
    ensures r.Ok? ==> r.value == Filter(ws, (w: DemoWhiskey) => Admits(f, w))
  {
    var s1 := FilterIf(Truthy(f.kind), ws, (w: DemoWhiskey) => f.kind == Some(KindName(w.kind)));
    var s2 := FilterIf(Truthy(f.country), s1, (w: DemoWhiskey) => f.country == Some(w.country));
    var s3 := FilterIf(f.keywords.Some? && |f.keywords.value| > 0, s2, (w: DemoWhiskey) => MatchesKeywords(w, f.keywords));
    var s4 := FilterIf(BoundOn(f.minPrice), s3, (w: DemoWhiskey) => f.minPrice.Some? ==> w.price >= f.minPrice.value);
    var s5 := FilterIf(BoundOn(f.maxPrice), s4, (w: DemoWhiskey) => f.maxPrice.Some? ==> w.price <= f.maxPrice.value);
    FiltersFuse(ws, f);
    if |s5| == 0 then
      FilterEmpty(ws, (w: DemoWhiskey) => Admits(f, w));
      Err(NoFilterMatch)
    else
      assert s5[0] in s5;
      Ok(s5)
  }

  /** The five conditional filters, in source order, are one filter by `Admits`. */
  lemma FiltersFuse(ws: seq<DemoWhiskey>, f: Filters)
    ensures
      var s1 := FilterIf(Truthy(f.kind), ws, (w: DemoWhiskey) => f.kind == Some(KindName(w.kind)));
      var s2 := FilterIf(Truthy(f.country), s1, (w: DemoWhiskey) => f.country == Some(w.country));
      var s3 := FilterIf(f.keywords.Some? && |f.keywords.value| > 0, s2, (w: DemoWhiskey) => MatchesKeywords(w, f.keywords));
      var s4 := FilterIf(BoundOn(f.minPrice), s3, (w: DemoWhiskey) => f.minPrice.Some? ==> w.price >= f.minPrice.value);
      var s5 := FilterIf(BoundOn(f.maxPrice), s4, (w: DemoWhiskey) => f.maxPrice.Some? ==> w.price <= f.maxPrice.value);
      s5 == Filter(ws, (w: DemoWhiskey) => Admits(f, w))
  {
    var p1 := (w: DemoWhiskey) => Truthy(f.kind) ==> KindName(w.kind) == f.kind.value;
    var p2 := (w: DemoWhiskey) => p1(w) && (Truthy(f.country) ==> w.country == f.country.value);
    var p3 := (w: DemoWhiskey) => p2(w) && MatchesKeywords(w, f.keywords);
    var p4 := (w: DemoWhiskey) => p3(w) && (BoundOn(f.minPrice) ==> w.price >= f.minPrice.value);
    var p5 := (w: DemoWhiskey) => Admits(f, w);
    FilterIfIsFilter(Truthy(f.kind), ws, (w: DemoWhiskey) => f.kind == Some(KindName(w.kind)), p1);
    FilterIfFuse(ws, p1, Truthy(f.country), (w: DemoWhiskey) => f.country == Some(w.country), p2);
    FilterIfFuse(ws, p2, f.keywords.Some? && |f.keywords.value| > 0, (w: DemoWhiskey) => MatchesKeywords(w, f.keywords), p3);
    FilterIfFuse(ws, p3, BoundOn(f.minPrice), (w: DemoWhiskey) => f.minPrice.Some? ==> w.price >= f.minPrice.value, p4);
    FilterIfFuse(ws, p4, BoundOn(f.maxPrice), (w: DemoWhiskey) => f.maxPrice.Some? ==> w.price <= f.maxPrice.value, p5);
  }

  /** A minimum above the maximum, both switched on, admits nothing. */
  lemma InvertedBoundsAdmitNothing(ws: seq<DemoWhiskey>, f: Filters)
    requires BoundOn(f.minPrice) && BoundOn(f.maxPrice) && f.minPrice.value > f.maxPrice.value
    ensures FilterWhiskeys(ws, f) == Err(NoFilterMatch)
  {
  }

  // ---------------------------------------------------------------------
  // sortWhiskies

  /** `WhiskeySortBy` of this revision. */
  datatype SortBy = ByName | ByPrice | ByAge

  /** The numeric key of the price and age sorts: the price, the age or 0. */
  function SortKey(key: SortBy): DemoWhiskey -> real
  {
    match key
    case ByPrice => (w: DemoWhiskey) => w.price as real
    case _ => (w: DemoWhiskey) => AgeOrZero(w) as real
  }

  /** The comparator of `sortWhiskies`, read as `cmp(a, b) <= 0`. */
  function SortLe(key: SortBy, order: Order): (DemoWhiskey, DemoWhiskey) -> bool
  {
    if key == ByName then NameLe(order) else KeyLe(SortKey(key), order)
  }

  lemma SortLeTotal(key: SortBy, order: Order)
    ensures TotalPreorder(SortLe(key, order))
  {
    if key == ByName {
      NameLeTotal<int>(order);
    } else {
      KeyLeTotal(SortKey(key), order);
    }
  }

  /** A copy of the list ordered by the chosen key; whiskeys the key calls
      equal keep their input order. An empty list is `NothingToSort`. */
  function SortWhiskeys(ws: seq<DemoWhiskey>, key: SortBy, order: Order): (r: Result<seq<DemoWhiskey>>)
    ensures r.Err? <==> |ws| == 0
    ensures r.Err? ==> r.error == NothingToSort
    ensures r.Ok? ==> multiset(r.value) == multiset(ws)
    ensures r.Ok? ==> SortedBy(r.value, SortLe(key, order))
    ensures r.Ok? ==> forall z :: TiedWith(r.value, SortLe(key, order), z) == TiedWith(ws, SortLe(key, order), z)
    ensures r.Ok? && key == ByPrice && order == Asc ==>
              forall i, j :: 0 <= i < j < |r.value| ==> r.value[i].price <= r.value[j].price
    ensures r.Ok? && key == ByPrice && order == Desc ==>
              forall i, j :: 0 <= i < j < |r.value| ==> r.value[j].price <= r.value[i].price
    ensures r.Ok? && key == ByAge && order == Asc ==>
              forall i, j :: 0 <= i < j < |r.value| ==> AgeOrZero(r.value[i]) <= AgeOrZero(r.value[j])
    ensures r.Ok? && key == ByAge && order == Desc ==>
              forall i, j :: 0 <= i < j < |r.value| ==> AgeOrZero(r.value[j]) <= AgeOrZero(r.value[i])
  {
    var le := SortLe(key, order);
    var sorted := StableSort(ws, le);
    SortLeTotal(key, order);
    SortSorted(ws, le);
    assert forall z :: TiedWith(sorted, le, z) == TiedWith(ws, le, z) by {
      forall z ensures TiedWith(sorted, le, z) == TiedWith(ws, le, z) {
        SortStable(ws, le, z);
      }
    }
    SortedByKey(sorted, key, order);
    if |sorted| == 0 then Err(NothingToSort) else Ok(sorted)
  }

  lemma SortedByKey(s: seq<DemoWhiskey>, key: SortBy, order: Order)
    requires SortedBy(s, SortLe(key, order))
    ensures key == ByPrice && order == Asc ==> forall i, j :: 0 <= i < j < |s| ==> s[i].price <= s[j].price
    ensures key == ByPrice && order == Desc ==> forall i, j :: 0 <= i < j < |s| ==> s[j].price <= s[i].price
    ensures key == ByAge && order == Asc ==> forall i, j :: 0 <= i < j < |s| ==> AgeOrZero(s[i]) <= AgeOrZero(s[j])
    ensures key == ByAge && order == Desc ==> forall i, j :: 0 <= i < j < |s| ==> AgeOrZero(s[j]) <= AgeOrZero(s[i])
  {
    if key != ByName {
      KeySorted(s, SortKey(key), order);
    }
  }

  // ---------------------------------------------------------------------
  // recommendWhiskeys

  /** The structured options of this revision's `recommendWhiskeys`. */
  datatype RecOptions = RecOptions(
    keywords: Option<seq<string>>,
    minPrice: Option<int>,
    maxPrice: Option<int>,
    kind: Option<string>)

  const NoOptions := RecOptions(None, None, None, None)

  predicate OptionsAdmit(o: RecOptions, w: DemoWhiskey)
  {
    && (Truthy(o.kind) ==> KindName(w.kind) == o.kind.value)
    && MatchesKeywords(w, o.keywords)
    && InBounds(o.minPrice, o.maxPrice, w)
  }

  /** The premium threshold of this revision: 150,000 won. */
  const PremiumPrice := 150000

  /** The query names a whiskey type (with the single-malt cue written
      without a space, the stored type with one). */
  predicate TypeCuesAdmit(q: string, w: DemoWhiskey)
  {
    && (Contains(q, "싱글몰트") ==> KindName(w.kind) == "싱글 몰트")
    && (Contains(q, "블렌디드") ==> KindName(w.kind) == "블렌디드")
    && (Contains(q, "버번") ==> KindName(w.kind) == "버번")
  }

  /** The price written in the query: `N만원 이상`, `N만원 이하`, and
      `고가`/`비싼` for the premium threshold. */
  predicate PriceCuesAdmit(q: string, w: DemoWhiskey)
  {
    && (PriceHint(q, AboveSuffix).Some? ==> w.price >= PriceHint(q, AboveSuffix).value)
    && (PriceHint(q, BelowSuffix).Some? ==> w.price <= PriceHint(q, BelowSuffix).value)
    && (Contains(q, "고가") || Contains(q, "비싼") ==> w.price >= PremiumPrice)
  }

  /** Everything the query text asks of a whiskey. */
  predicate QueryAdmits(q: string, w: DemoWhiskey)
  {
    && MeetsFlavorCues(q, w)
    && TypeCuesAdmit(q, w)
    && PriceCuesAdmit(q, w)
    && (Contains(q, "입문") ==> Smooth(w))
  }

  /** For a known user: within the user's price bounds and not disliked. */
  predicate UserAdmits(cu: Option<User>, w: DemoWhiskey)
  {
    cu.Some? ==> InBounds(cu.value.prefs.minPrice, cu.value.prefs.maxPrice, w)
                 && w.id !in cu.value.history.disliked
  }

  /** A whiskey may be recommended when the options, the query and the user admit it. */
  predicate Candidate(q: string, cu: Option<User>, o: RecOptions, w: DemoWhiskey)
  {
    OptionsAdmit(o, w) && QueryAdmits(q, w) && UserAdmits(cu, w)
  }

  /** The option filters, in source order: type, keywords, minimum, maximum. */
  function ByOptions(o: RecOptions, ws: seq<DemoWhiskey>): (r: seq<DemoWhiskey>)
    ensures forall w {:trigger multiset(r)[w]} :: multiset(r)[w] == if OptionsAdmit(o, w) then multiset(ws)[w] else 0
  {
    var s1 := FilterIf(Truthy(o.kind), ws, (w: DemoWhiskey) => o.kind == Some(KindName(w.kind)));
    var s2 := FilterIf(o.keywords.Some? && |o.keywords.value| > 0, s1, (w: DemoWhiskey) => MatchesKeywords(w, o.keywords));
    ByBounds(o.minPrice, o.maxPrice, s2)
  }

  function ByTypeCues(q: string, s: seq<DemoWhiskey>): (r: seq<DemoWhiskey>)
    ensures forall w {:trigger multiset(r)[w]} :: multiset(r)[w] == if TypeCuesAdmit(q, w) then multiset(s)[w] else 0
  {
    var s1 := FilterIf(Contains(q, "싱글몰트"), s, (w: DemoWhiskey) => KindName(w.kind) == "싱글 몰트");
    var s2 := FilterIf(Contains(q, "블렌디드"), s1, (w: DemoWhiskey) => KindName(w.kind) == "블렌디드");
    FilterIf(Contains(q, "버번"), s2, (w: DemoWhiskey) => KindName(w.kind) == "버번")
  }

  function ByPriceCues(q: string, s: seq<DemoWhiskey>): (r: seq<DemoWhiskey>)
    ensures forall w {:trigger multiset(r)[w]} :: multiset(r)[w] == if PriceCuesAdmit(q, w) then multiset(s)[w] else 0
  {
    var lo := PriceHint(q, AboveSuffix);
    var hi := PriceHint(q, BelowSuffix);
    var s1 := FilterIf(lo.Some?, s, (w: DemoWhiskey) => lo.Some? ==> w.price >= lo.value);
    var s2 := FilterIf(hi.Some?, s1, (w: DemoWhiskey) => hi.Some? ==> w.price <= hi.value);
    FilterIf(Contains(q, "고가") || Contains(q, "비싼"), s2, (w: DemoWhiskey) => w.price >= PremiumPrice)
  }

  /** The query filters, in source order: flavour cues, type cues, price
      cues, then the beginner cue. */
  function ByQuery(q: string, s: seq<DemoWhiskey>): (r: seq<DemoWhiskey>)
    ensures forall w {:trigger multiset(r)[w]} :: multiset(r)[w] == if QueryAdmits(q, w) then multiset(s)[w] else 0
  {
    var s1 := ByPriceCues(q, ByTypeCues(q, ApplyFlavorCues(q, s)));
    FilterIf(Contains(q, "입문"), s1, (w: DemoWhiskey) => Smooth(w))
  }

  /** The known user's step: price bounds, liked-flavour ranking, disliked exclusion. */
  function ForUser(st: Store<int>, cu: Option<User>, s: seq<DemoWhiskey>): (r: seq<DemoWhiskey>)
    ensures forall w {:trigger multiset(r)[w]} :: multiset(r)[w] == if UserAdmits(cu, w) then multiset(s)[w] else 0
    ensures cu.Some? && |LikedProfiles(st, cu.value)| > 0 ==> SortedBy(r, ByLiked(LikedProfiles(st, cu.value)))
  {
    match cu
    case Some(u) => RankAndExclude(st, u, ByBounds(u.prefs.minPrice, u.prefs.maxPrice, s))
    case None => s
  }

  /** The candidates in name order, before the final slice. Candidates with
      the same name keep the order the liked-flavour ranking gave them: that
      ranking only decides ties of the name sort. */
  function Ranked(st: Store<int>, q: string, cu: Option<User>, o: RecOptions): (r: seq<DemoWhiskey>)
    ensures forall w {:trigger multiset(r)[w]} ::
              multiset(r)[w] == if Candidate(q, cu, o, w) then multiset(st.whiskeys)[w] else 0
    ensures SortedBy(r, NameLe(Asc))
    ensures cu.Some? && |LikedProfiles(st, cu.value)| > 0 ==>
              forall z :: SortedBy(TiedWith(r, NameLe(Asc), z), ByLiked(LikedProfiles(st, cu.value)))
  {
    var s := ForUser(st, cu, ByQuery(q, ByOptions(o, st.whiskeys)));
    NameLeTotal<int>(Asc);
    SortSorted(s, NameLe(Asc));
    var r := StableSort(s, NameLe(Asc));
    assert cu.Some? && |LikedProfiles(st, cu.value)| > 0 ==>
             forall z :: SortedBy(TiedWith(r, NameLe(Asc), z), ByLiked(LikedProfiles(st, cu.value))) by {
      if cu.Some? && |LikedProfiles(st, cu.value)| > 0 {
        forall z ensures SortedBy(TiedWith(r, NameLe(Asc), z), ByLiked(LikedProfiles(st, cu.value))) {
          SortStable(s, NameLe(Asc), z);
          TiedWithSorted(s, NameLe(Asc), z, ByLiked(LikedProfiles(st, cu.value)));
        }
      }
    }
    r
  }

  // ---------------------------------------------------------------------
  // generateRecommendationReason

  /** The clause naming the known user's preferred price range, present when
      either bound is set; `fmt` renders a number (`toLocaleString`). */
  function PriceTail(cu: Option<User>, fmt: int -> string): (r: string)
    ensures |r| == 0 <==> cu.None? || (cu.value.prefs.minPrice.None? && cu.value.prefs.maxPrice.None?)
    ensures |r| > 0 ==> EndsWithDot(r)
    ensures cu.Some? && cu.value.prefs.minPrice.Some? ==> Contains(r, fmt(cu.value.prefs.minPrice.value) + "원 이상")
    ensures cu.Some? && cu.value.prefs.maxPrice.Some? ==> Contains(r, fmt(cu.value.prefs.maxPrice.value) + "원 이하")
    ensures cu.Some? && cu.value.prefs.minPrice.Some? && cu.value.prefs.maxPrice.Some? ==> Contains(r, " ~ ")
    ensures cu.Some? && (forall n :: OneLine(fmt(n))) ==> OneLine(r)
    ensures cu.Some? ==>
      var lo := cu.value.prefs.minPrice;
      var hi := cu.value.prefs.maxPrice;
      && (lo.Some? && hi.None? ==> r == PriceLead + fmt(lo.value) + "원 이상" + PriceEnd)
      && (lo.None? && hi.Some? ==> r == PriceLead + fmt(hi.value) + "원 이하" + PriceEnd)
      && (lo.Some? && hi.Some? ==>
            r == PriceLead + fmt(lo.value) + "원 이상" + " ~ " + fmt(hi.value) + "원 이하" + PriceEnd)
  {
    if cu.None? || (cu.value.prefs.minPrice.None? && cu.value.prefs.maxPrice.None?) then ""
    else
      var p := cu.value.prefs;
      var lo := if p.minPrice.Some? then fmt(p.minPrice.value) + "원 이상" else "";
      var mid := if p.minPrice.Some? && p.maxPrice.Some? then " ~ " else "";
      var hi := if p.maxPrice.Some? then fmt(p.maxPrice.value) + "원 이하" else "";
      PriceClause(p, fmt, lo, mid, hi);
      PriceClauseExact(p, fmt, lo, mid, hi);
      PriceLead + lo + mid + hi + PriceEnd
  }

  /** The price clause for each combination of bounds, written out. */
  lemma PriceClauseExact(p: Prefs, fmt: int -> string, lo: string, mid: string, hi: string)
    requires lo == if p.minPrice.Some? then fmt(p.minPrice.value) + "원 이상" else ""
    requires mid == if p.minPrice.Some? && p.maxPrice.Some? then " ~ " else ""
    requires hi == if p.maxPrice.Some? then fmt(p.maxPrice.value) + "원 이하" else ""
    ensures var r := PriceLead + lo + mid + hi + PriceEnd;
            && (p.minPrice.Some? && p.maxPrice.None? ==> r == PriceLead + fmt(p.minPrice.value) + "원 이상" + PriceEnd)
            && (p.minPrice.None? && p.maxPrice.Some? ==> r == PriceLead + fmt(p.maxPrice.value) + "원 이하" + PriceEnd)
            && (p.minPrice.Some? && p.maxPrice.Some? ==>
                  r == PriceLead + fmt(p.minPrice.value) + "원 이상" + " ~ " + fmt(p.maxPrice.value) + "원 이하" + PriceEnd)
  {
    if p.minPrice.Some? && p.maxPrice.None? {
      assert mid + hi == [];
      assert PriceLead + lo + mid + hi == PriceLead + lo;
    } else if p.minPrice.None? && p.maxPrice.Some? {
      assert lo + mid == [];
      assert PriceLead + lo + mid + hi == PriceLead + hi;
    }
  }

  const PriceLead := " 고객님의 선호 가격대 "
  const PriceEnd := "에서 선택되었습니다."

  /** The price clause holds each bound that is set, the separator when
      both are, ends with a full stop, and stays on one line when the
      rendered numbers do. */
  lemma PriceClause(p: Prefs, fmt: int -> string, lo: string, mid: string, hi: string)
    requires lo == if p.minPrice.Some? then fmt(p.minPrice.value) + "원 이상" else ""
    requires mid == if p.minPrice.Some? && p.maxPrice.Some? then " ~ " else ""
    requires hi == if p.maxPrice.Some? then fmt(p.maxPrice.value) + "원 이하" else ""
    ensures var r := PriceLead + lo + mid + hi + PriceEnd;
            && |r| > 0 && EndsWithDot(r)
            && (p.minPrice.Some? ==> Contains(r, fmt(p.minPrice.value) + "원 이상"))
            && (p.maxPrice.Some? ==> Contains(r, fmt(p.maxPrice.value) + "원 이하"))
            && (p.minPrice.Some? && p.maxPrice.Some? ==> Contains(r, " ~ "))
            && ((forall n :: OneLine(fmt(n))) ==> OneLine(r))
  {
    var r := PriceLead + lo + mid + hi + PriceEnd;
    PriceTailParts(PriceLead, lo, mid, hi, PriceEnd);
    ContainsAt(r, |PriceLead|, lo);
    ContainsAt(r, |PriceLead| + |lo|, mid);
    ContainsAt(r, |PriceLead| + |lo| + |mid|, hi);
    PriceTextsOneLine();
    assert OneLine(mid);
    assert (forall n :: OneLine(fmt(n))) ==> OneLine(lo) && OneLine(hi) by {
      if p.minPrice.Some? { OneLineConcat(fmt(p.minPrice.value), "원 이상"); }
      if p.maxPrice.Some? { OneLineConcat(fmt(p.maxPrice.value), "원 이하"); }
    }
  }

  lemma PriceTextsOneLine()
    ensures OneLine(PriceLead) && OneLine(PriceEnd) && OneLine(" ~ ") && OneLine("") && OneLine("원 이상") && OneLine("원 이하")
  {
  }

  /** The five parts of the price clause each occur in it, and it stays on
      one line when they do. */
  lemma PriceTailParts(head: string, lo: string, mid: string, hi: string, end: string)
    ensures var r := head + lo + mid + hi + end;
            && HasAt(r, |head|, lo) && HasAt(r, |head| + |lo|, mid) && HasAt(r, |head| + |lo| + |mid|, hi)
            && (OneLine(head) && OneLine(lo) && OneLine(mid) && OneLine(hi) && OneLine(end) ==> OneLine(r))
            && (|end| > 0 ==> r[|r| - 1] == end[|end| - 1])
  {
    var r := head + lo + mid + hi + end;
    assert r[|head|..|head| + |lo|] == lo;
    assert r[|head| + |lo|..|head| + |lo| + |mid|] == mid;
    assert r[|head| + |lo| + |mid|..|head| + |lo| + |mid| + |hi|] == hi;
    OneLineConcat(head, lo);
    OneLineConcat(head + lo, mid);
    OneLineConcat(head + lo + mid, hi);
    OneLineConcat(head + lo + mid + hi, end);
  }

  /** This revision's reason: premium means 150,000 won or more, and the
      price-range clause closes the sentence. */
  function DemoReason(w: DemoWhiskey, q: string, cu: Option<User>, fmt: int -> string): (r: string)
    ensures |r| > |w.name| + 5 && r[..|w.name| + 5] == w.name + "은(는) "
    ensures EndsWithDot(r)
    ensures OneLine(w.name) && OneLine(w.description) && ListsOneLine(w, cu) && (forall n :: OneLine(fmt(n)))
            ==> OneLine(r)
  {
    var tail := PriceTail(cu, fmt);
    assert cu.None? ==> OneLine(tail);
    Reason(w, q, cu, w.price >= PremiumPrice, tail)
  }

  /** This revision's reason opens with the name, `은(는) ` and the first
      sentence of the description, and ends with the preferred-price
      clause; each optional clause sits at its place in source order and
      is there exactly when it fires, `고가` firing for a whiskey of at
      least 150,000 won. */
  lemma DemoReasonClause(w: DemoWhiskey, q: string, cu: Option<User>, fmt: int -> string, k: nat)
    requires k < 6
    ensures var r := DemoReason(w, q, cu, fmt);
            var tail := PriceTail(cu, fmt);
            var o := w.name + "은(는) " + FirstSentence(w.description) + " 특징이 있습니다.";
            && |r| >= |o| + |tail| && r[..|o|] == o && r[|r| - |tail|..] == tail
            && HasAt(r, |w.name| + 5, FirstSentence(w.description))
            && var ps := ReasonPieces(w, q, cu, w.price >= PremiumPrice, tail);
               var before := Concat(ps[..k + 1]);
               var after := Concat(ps[k + 2..]);
               && r == before + (if Fires(w, q, cu, w.price >= PremiumPrice)[k] then ClauseTexts(w, cu)[k] else "") + after
               && |before| >= |o| && |after| >= |tail|
  {
    var tail := PriceTail(cu, fmt);
    ReasonOpensAndEnds(w, q, cu, w.price >= PremiumPrice, tail);
    ReasonClause(w, q, cu, w.price >= PremiumPrice, tail, k);
  }

  /** Each chosen whiskey paired with its reason sentence. */
  function WithReasons(top: seq<DemoWhiskey>, q: string, cu: Option<User>, fmt: int -> string): (r: seq<Recommendation<int>>)
    ensures |r| == |top|
    ensures forall i :: 0 <= i < |r| ==> r[i].whiskey == top[i] && r[i].reason == DemoReason(top[i], q, cu, fmt)
  {
    Map(top, (w: DemoWhiskey) => Recommendation(w, DemoReason(w, q, cu, fmt)))
  }

  /** `recommendWhiskeys` of this revision: the first three candidates in
      name order, each with its reason; no candidate left out sorts before
      one chosen. No candidate at all is `RecommendationFailed`. */
  function Recommend(st: Store<int>, q: string, userId: Option<string>, o: RecOptions, fmt: int -> string): (r: Result<seq<Recommendation<int>>>)
    ensures var cu := CurrentUser(st, userId);
            r.Err? <==> forall w :: w in st.whiskeys ==> !Candidate(q, cu, o, w)
    ensures r.Err? ==> r.error == RecommendationFailed
    ensures r.Ok? ==>
              var cu := CurrentUser(st, userId);
              && TopBy(st.whiskeys, (w: DemoWhiskey) => Candidate(q, cu, o, w), Whiskeys(r.value), NameLe(Asc), 3)
              && (forall i :: 0 <= i < |r.value| ==> r.value[i].reason == DemoReason(r.value[i].whiskey, q, cu, fmt))
  {
    var cu := CurrentUser(st, userId);
    var top := Take(Ranked(st, q, cu, o), 3);
    TopReasoned(st, q, cu, o, fmt);
    if |top| == 0 then Err(RecommendationFailed) else Ok(WithReasons(top, q, cu, fmt))
  }

  /** The first three ranked whiskeys, with their reasons, are the top three
      candidates; there are none exactly when no whiskey is a candidate. */
  lemma TopReasoned(st: Store<int>, q: string, cu: Option<User>, o: RecOptions, fmt: int -> string)
    ensures var top := Take(Ranked(st, q, cu, o), 3);
            && (|top| == 0 <==> forall w :: w in st.whiskeys ==> !Candidate(q, cu, o, w))
            && TopBy(st.whiskeys, (w: DemoWhiskey) => Candidate(q, cu, o, w),
                     Whiskeys(WithReasons(top, q, cu, fmt)), NameLe(Asc), 3)
            && var recs := WithReasons(top, q, cu, fmt);
               forall i :: 0 <= i < |recs| ==> recs[i].reason == DemoReason(recs[i].whiskey, q, cu, fmt)
  {
    var top := Take(Ranked(st, q, cu, o), 3);
    TopFacts(st.whiskeys, (w: DemoWhiskey) => Candidate(q, cu, o, w), Ranked(st, q, cu, o), NameLe(Asc), 3);
    ReasonedWhiskeys(top, q, cu, fmt);
  }

  lemma ReasonedWhiskeys(top: seq<DemoWhiskey>, q: string, cu: Option<User>, fmt: int -> string)
    ensures Whiskeys(WithReasons(top, q, cu, fmt)) == top
  {
    var ws := Whiskeys(WithReasons(top, q, cu, fmt));
    assert forall i :: 0 <= i < |top| ==> ws[i] == top[i];
  }

  /** The whiskeys of a list of recommendations. */
  function Whiskeys(recs: seq<Recommendation<int>>): (ws: seq<DemoWhiskey>)
    ensures |ws| == |recs| && forall i :: 0 <= i < |recs| ==> ws[i] == recs[i].whiskey
  {
    Map(recs, (rec: Recommendation<int>) => rec.whiskey)
  }

  /** A type option matching no stored type name leaves nothing to recommend. */
  lemma UnknownTypeRecommendsNothing(st: Store<int>, q: string, userId: Option<string>, o: RecOptions, fmt: int -> string)
    requires Truthy(o.kind) && forall k: Kind :: KindName(k) != o.kind.value
    ensures Recommend(st, q, userId, o, fmt) == Err(RecommendationFailed)
  {
  }

  // ---------------------------------------------------------------------
  // The store after recommendWhiskeys

  /** No filter before the personal step runs: no option is switched on and
      the query carries no flavour, type, price or beginner cue, so
      `filteredWhiskeys` is still the store's own catalogue array. */
  predicate NothingFiltered(q: string, o: RecOptions)
  {
    && !Truthy(o.kind) && (o.keywords.None? || |o.keywords.value| == 0)
    && !BoundOn(o.minPrice) && !BoundOn(o.maxPrice)
    && !PeatCue(q) && !SweetCue(q)
    && !Contains(q, "싱글몰트") && !Contains(q, "블렌디드") && !Contains(q, "버번")
    && PriceHint(q, AboveSuffix).None? && PriceHint(q, BelowSuffix).None?
    && !Contains(q, "고가") && !Contains(q, "비싼") && !Contains(q, "입문")
  }

  /** The store after this revision's `recommendWhiskeys`. With nothing
      filtered, an anonymous caller's name sort reorders the catalogue itself
      (by name, ties in catalogue order); a known user without price bounds
      whose liked whiskeys have flavours gets the catalogue reordered by
      liked matches instead. Any filter, or a price bound of the user,
      leaves the store as it was. */
  function RecommendStore(st: Store<int>, q: string, userId: Option<string>, o: RecOptions): (r: Store<int>)
    ensures r.users == st.users && r.notes == st.notes
    ensures multiset(r.whiskeys) == multiset(st.whiskeys)
    ensures var cu := CurrentUser(st, userId);
            !NothingFiltered(q, o)
            || (cu.Some? && (BoundOn(cu.value.prefs.minPrice) || BoundOn(cu.value.prefs.maxPrice)
                             || |LikedProfiles(st, cu.value)| == 0))
            ==> r == st
    ensures NothingFiltered(q, o) && CurrentUser(st, userId).None? ==>
              ReorderedBy(st.whiskeys, r.whiskeys, NameLe(Asc))
    ensures var cu := CurrentUser(st, userId);
            NothingFiltered(q, o) && cu.Some? && !BoundOn(cu.value.prefs.minPrice) && !BoundOn(cu.value.prefs.maxPrice)
            && |LikedProfiles(st, cu.value)| > 0 ==>
              ReorderedBy(st.whiskeys, r.whiskeys, ByLiked(LikedProfiles(st, cu.value)))
  {
    var cu := CurrentUser(st, userId);
    NameLeTotal<int>(Asc);
    var bounded := cu.Some? && (BoundOn(cu.value.prefs.minPrice) || BoundOn(cu.value.prefs.maxPrice));
    InPlaceSorts(st, !NothingFiltered(q, o) || bounded, cu, NameLe(Asc))
  }

  /** An anonymous caller asking the same thing twice gets the same answer,
      and the second call leaves the store as the first left it. */
  lemma AnonymousRecommendRepeats(st: Store<int>, q: string, userId: Option<string>, o: RecOptions, fmt: int -> string)
    requires CurrentUser(st, userId).None?
    ensures var st1 := RecommendStore(st, q, userId, o);
            && Recommend(st1, q, userId, o, fmt) == Recommend(st, q, userId, o, fmt)
            && RecommendStore(st1, q, userId, o) == st1
  {
    var st1 := RecommendStore(st, q, userId, o);
    assert CurrentUser(st1, userId) == CurrentUser(st, userId);
    if NothingFiltered(q, o) {
      NameLeTotal<int>(Asc);
      assert st1.whiskeys == StableSort(st.whiskeys, NameLe(Asc));
      SortIdempotent(st.whiskeys, NameLe(Asc));
      assert Ranked(st1, q, None, o) == Ranked(st, q, None, o);
    }
  }

  // ---------------------------------------------------------------------
  // getSimilarWhiskies

  /** The flavours of `w` that the reference whiskey also has. */
  function SharedFlavors(t: DemoWhiskey, w: DemoWhiskey): seq<string>
  {
    Filter(w.flavors, (f: string) => f in t.flavors)
  }

  /** The prices differ by less than 50,000 won. */
  predicate CloseInPrice(t: DemoWhiskey, w: DemoWhiskey)
  {
    -50000 < w.price - t.price < 50000
  }

  /** 10 per shared flavour, 20 for the same type, 15 for a close price. */
  function Score(t: DemoWhiskey, w: DemoWhiskey): int
  {
    10 * |SharedFlavors(t, w)|
    + (if w.kind == t.kind then 20 else 0)
    + (if CloseInPrice(t, w) then 15 else 0)
  }

  /** Similar to the reference: another id, and a score above 30. */
  predicate Similar(t: DemoWhiskey, whiskeyId: string, w: DemoWhiskey)
  {
    w.id != whiskeyId && Score(t, w) > 30
  }

  /** What a score above 30 takes: four shared flavours; or two with the
      same type or a close price; or the same type and a close price. Three
      shared flavours alone score exactly 30 and fall short. */
  lemma SimilarExactly(t: DemoWhiskey, whiskeyId: string, w: DemoWhiskey)
    ensures var n := |SharedFlavors(t, w)|;
            Similar(t, whiskeyId, w) <==>
              w.id != whiskeyId
              && (n >= 4 || (n >= 2 && (w.kind == t.kind || CloseInPrice(t, w))) || (w.kind == t.kind && CloseInPrice(t, w)))
  {
  }

  /** `getSimilarWhiskies` of this revision: the three cheapest whiskeys
      similar to the reference, cheapest first. An unknown reference is
      `ReferenceNotFound`; nothing similar is `NoSimilar`. */
  function SimilarWhiskeys(st: Store<int>, whiskeyId: string): (r: Result<seq<DemoWhiskey>>)
    ensures (r.Err? && r.error == ReferenceNotFound) <==> WhiskeyById(st, whiskeyId).None?
    ensures WhiskeyById(st, whiskeyId).Some? ==>
              var t := WhiskeyById(st, whiskeyId).value;
              && (r.Err? <==> forall w :: w in st.whiskeys ==> !Similar(t, whiskeyId, w))
              && (r.Err? ==> r.error == NoSimilar)
              && (r.Ok? ==> TopBy(st.whiskeys, (w: DemoWhiskey) => Similar(t, whiskeyId, w), r.value, ByPriceAsc(), 3))
    ensures r.Ok? ==> forall i, j :: 0 <= i < j < |r.value| ==> r.value[i].price <= r.value[j].price
  {
    match WhiskeyById(st, whiskeyId)
    case None => Err(ReferenceNotFound)
    case Some(t) =>
      var p := (w: DemoWhiskey) => Similar(t, whiskeyId, w);
      var sims := Filter(st.whiskeys, p);
      var sorted := StableSort(sims, ByPriceAsc());
      KeyLeTotal((w: DemoWhiskey) => w.price as real, Asc);
      SortSorted(sims, ByPriceAsc());
      TopFacts(st.whiskeys, p, sorted, ByPriceAsc(), 3);
      KeySorted(Take(sorted, 3), (w: DemoWhiskey) => w.price as real, Asc);
      if |sorted| == 0 then Err(NoSimilar) else Ok(Take(sorted, 3))
  }

  /** `a.price - b.price`: cheapest first. */
  function ByPriceAsc(): (DemoWhiskey, DemoWhiskey) -> bool
  {
    KeyLe((w: DemoWhiskey) => w.price as real, Asc)
  }
}
