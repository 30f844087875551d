/** The catalogue queries of `OktongRecommendationService` in the
    service/database revision, where a whiskey's price is a tier:
    `filterWhiskies`, `sortWhiskies`, `recommendWhiskeys` and
    `getSimilarWhiskies`.

    Each query is stated twice: as the source computes it (a chain of
    conditional filters, a comparator sort, a slice) and as a reference
    predicate saying which whiskeys qualify; the contracts connect the two.
 */
module TierService {
  import opened Common
  import opened Seqs
  import opened Sorting
  import opened Records
  import opened Database
  import opened Catalog
  import opened Reasons
  import opened Seed
  import opened Text

  type TierWhiskey = Whiskey<PriceTier>

  /** `options.minRating` is truthy: present and not 0. */
  predicate MinRatingOn(m: Option<real>)
  {
    m.Some? && m.value != 0.0
  }

  // ---------------------------------------------------------------------
  // filterWhiskies

  /** `WhiskeyFilterOptions`. */
  datatype Filters = Filters(
    kind: Option<Kind>,
    tier: Option<PriceTier>,
    country: Option<string>,
    keywords: Option<seq<string>>,
    minRating: Option<real>)

  /** Which whiskeys a set of filters lets through. An option that is absent
      or falsy (empty country, empty keyword list, minimum rating 0) imposes
      nothing; a missing rating counts as 0. */
  predicate Admits(f: Filters, w: TierWhiskey)
  {
    && (f.kind.Some? ==> w.kind == f.kind.value)
    && (f.tier.Some? ==> w.price == f.tier.value)
    && (Truthy(f.country) ==> w.country == f.country.value)
    && MatchesKeywords(w, f.keywords)
    && (MinRatingOn(f.minRating) ==> RatingOrZero(w) >= f.minRating.value)
  }

  /** The whiskeys the filters admit, in catalogue order, or `NoFilterMatch`
      when none is. */
  function FilterWhiskeys(ws: seq<TierWhiskey>, f: Filters): (r: Result<seq<TierWhiskey>>)
    ensures r.Err? <==> forall w :: w in ws ==> !Admits(f, w)
    ensures r.Err? ==> r.error == NoFilterMatch
    ensures r.Ok? ==> r.value == Filter(ws, (w: TierWhiskey) => Admits(f, w))
  {
    var s1 := FilterIf(f.kind.Some?, ws, (w: TierWhiskey) => f.kind == Some(w.kind));
    var s2 := FilterIf(f.tier.Some?, s1, (w: TierWhiskey) => f.tier == Some(w.price));
    var s3 := FilterIf(Truthy(f.country), s2, (w: TierWhiskey) => f.country == Some(w.country));
    var s4 := FilterIf(f.keywords.Some? && |f.keywords.value| > 0, s3, (w: TierWhiskey) => MatchesKeywords(w, f.keywords));
    var s5 := FilterIf(MinRatingOn(f.minRating), s4,
                       (w: TierWhiskey) => f.minRating.Some? ==> RatingOrZero(w) >= f.minRating.value);
    FiltersFuse(ws, f);
    if |s5| == 0 then
      FilterEmpty(ws, (w: TierWhiskey) => Admits(f, w));
      Err(NoFilterMatch)
    else
      assert s5[0] in s5;
      Ok(s5)
  }

  /** The five conditional filters, in source order, are one filter by `Admits`. */
  lemma FiltersFuse(ws: seq<TierWhiskey>, f: Filters)
    ensures
      var s1 := FilterIf(f.kind.Some?, ws, (w: TierWhiskey) => f.kind == Some(w.kind));
      var s2 := FilterIf(f.tier.Some?, s1, (w: TierWhiskey) => f.tier == Some(w.price));
      var s3 := FilterIf(Truthy(f.country), s2, (w: TierWhiskey) => f.country == Some(w.country));
      var s4 := FilterIf(f.keywords.Some? && |f.keywords.value| > 0, s3, (w: TierWhiskey) => MatchesKeywords(w, f.keywords));
      var s5 := FilterIf(MinRatingOn(f.minRating), s4,
                         (w: TierWhiskey) => f.minRating.Some? ==> RatingOrZero(w) >= f.minRating.value);
      s5 == Filter(ws, (w: TierWhiskey) => Admits(f, w))
  {
    var p1 := (w: TierWhiskey) => f.kind.Some? ==> w.kind == f.kind.value;
    var p2 := (w: TierWhiskey) => p1(w) && (f.tier.Some? ==> w.price == f.tier.value);
    var p3 := (w: TierWhiskey) => p2(w) && (Truthy(f.country) ==> w.country == f.country.value);
    var p4 := (w: TierWhiskey) => p3(w) && MatchesKeywords(w, f.keywords);
    var p5 := (w: TierWhiskey) => Admits(f, w);
    FilterIfIsFilter(f.kind.Some?, ws, (w: TierWhiskey) => f.kind == Some(w.kind), p1);
    FilterIfFuse(ws, p1, f.tier.Some?, (w: TierWhiskey) => f.tier == Some(w.price), p2);
    FilterIfFuse(ws, p2, Truthy(f.country), (w: TierWhiskey) => f.country == Some(w.country), p3);
    FilterIfFuse(ws, p3, f.keywords.Some? && |f.keywords.value| > 0, (w: TierWhiskey) => MatchesKeywords(w, f.keywords), p4);
    FilterIfFuse(ws, p4, MinRatingOn(f.minRating),
                 (w: TierWhiskey) => f.minRating.Some? ==> RatingOrZero(w) >= f.minRating.value, p5);
  }

  /** Filtering the filtered list again with the same filters changes nothing. */
  lemma FilterWhiskeysIdempotent(ws: seq<TierWhiskey>, f: Filters)
    requires FilterWhiskeys(ws, f).Ok?
    ensures FilterWhiskeys(FilterWhiskeys(ws, f).value, f) == FilterWhiskeys(ws, f)
  {
    var p := (w: TierWhiskey) => Admits(f, w);
    FilterIdempotent(ws, p);
  }

  // ---------------------------------------------------------------------
  // sortWhiskies

  /** `WhiskeySortBy`. */
  datatype SortBy = ByName | ByPrice | ByRating | ByAge

  /** The numeric key of the price, rating and age sorts: the tier's rank
      (저가 1, 중가 2, 고가 3), the rating or 0, the age or 0. */
  function SortKey(key: SortBy): TierWhiskey -> real
  {
    match key
    case ByPrice => (w: TierWhiskey) => TierRank(w.price) as real
    case ByRating => (w: TierWhiskey) => RatingOrZero(w)
    case _ => (w: TierWhiskey) => AgeOrZero(w) as real
  }

  /** The comparator of `sortWhiskies`, read as `cmp(a, b) <= 0`. */
  function SortLe(key: SortBy, order: Order): (TierWhiskey, TierWhiskey) -> bool
  {
    if key == ByName then NameLe(order) else KeyLe(SortKey(key), order)
  }

  lemma SortLeTotal(key: SortBy, order: Order)
    ensures TotalPreorder(SortLe(key, order))
  {
    if key == ByName {
      NameLeTotal<PriceTier>(order);
    } else {
      KeyLeTotal(SortKey(key), order);
    }
  }

  /** A copy of the list, ordered by the chosen key; whiskeys the key calls
      equal keep their input order. An empty list is `NothingToSort`. */
  function SortWhiskeys(ws: seq<TierWhiskey>, key: SortBy, order: Order): (r: Result<seq<TierWhiskey>>)
    ensures r.Err? <==> |ws| == 0
    ensures r.Err? ==> r.error == NothingToSort
    ensures r.Ok? ==> multiset(r.value) == multiset(ws)
    ensures r.Ok? ==> SortedBy(r.value, SortLe(key, order))
    ensures r.Ok? ==> forall z :: TiedWith(r.value, SortLe(key, order), z) == TiedWith(ws, SortLe(key, order), z)
    ensures r.Ok? && key != ByName && order == Asc ==>
              forall i, j :: 0 <= i < j < |r.value| ==> SortKey(key)(r.value[i]) <= SortKey(key)(r.value[j])
    ensures r.Ok? && key != ByName && order == Desc ==>
              forall i, j :: 0 <= i < j < |r.value| ==> SortKey(key)(r.value[j]) <= SortKey(key)(r.value[i])
  {
    var le := SortLe(key, order);
    var sorted := StableSort(ws, le);
    SortLeTotal(key, order);
    SortSorted(ws, le);
    assert forall z :: TiedWith(sorted, le, z) == TiedWith(ws, le, z) by {
      forall z ensures TiedWith(sorted, le, z) == TiedWith(ws, le, z) {
        SortStable(ws, le, z);
      }
    }
    SortedByKey(sorted, key, order);
    if |sorted| == 0 then Err(NothingToSort) else Ok(sorted)
  }

  lemma SortedByKey(s: seq<TierWhiskey>, key: SortBy, order: Order)
    requires SortedBy(s, SortLe(key, order))
    ensures key != ByName && order == Asc ==>
              forall i, j :: 0 <= i < j < |s| ==> SortKey(key)(s[i]) <= SortKey(key)(s[j])
    ensures key != ByName && order == Desc ==>
              forall i, j :: 0 <= i < j < |s| ==> SortKey(key)(s[j]) <= SortKey(key)(s[i])
  {
    if key != ByName {
      KeySorted(s, SortKey(key), order);
    }
  }

  // ---------------------------------------------------------------------
  // recommendWhiskeys

  /** The structured options the agent may pass to `recommendWhiskeys`. */
  datatype RecOptions = RecOptions(
    keywords: Option<seq<string>>,
    tier: Option<PriceTier>,
    kind: Option<Kind>,
    minRating: Option<real>)

  predicate OptionsAdmit(o: RecOptions, w: TierWhiskey)
  {
    && (o.kind.Some? ==> w.kind == o.kind.value)
    && (o.tier.Some? ==> w.price == o.tier.value)
    && (MinRatingOn(o.minRating) ==> RatingOrZero(w) >= o.minRating.value)
    && MatchesKeywords(w, o.keywords)
  }

  /** A whiskey may be recommended when the options and the query's flavour
      cues admit it and, for a known user, it is in the user's preferred tier
      (if one is set) and not disliked. */
  predicate Candidate(q: string, cu: Option<User>, o: RecOptions, w: TierWhiskey)
  {
    && OptionsAdmit(o, w)
    && MeetsFlavorCues(q, w)
    && (cu.Some? ==> (cu.value.prefs.tier.Some? ==> w.price == cu.value.prefs.tier.value)
                     && w.id !in cu.value.history.disliked)
  }

  /** The four option filters of step 1, in source order. */
  function ByOptions(o: RecOptions, ws: seq<TierWhiskey>): (r: seq<TierWhiskey>)
    ensures forall w {:trigger multiset(r)[w]} :: multiset(r)[w] == if OptionsAdmit(o, w) then multiset(ws)[w] else 0
  {
    var s1 := FilterIf(o.kind.Some?, ws, (w: TierWhiskey) => o.kind == Some(w.kind));
    var s2 := FilterIf(o.tier.Some?, s1, (w: TierWhiskey) => o.tier == Some(w.price));
    var s3 := FilterIf(MinRatingOn(o.minRating), s2,
                       (w: TierWhiskey) => o.minRating.Some? ==> RatingOrZero(w) >= o.minRating.value);
    FilterIf(o.keywords.Some? && |o.keywords.value| > 0, s3, (w: TierWhiskey) => MatchesKeywords(w, o.keywords))
  }

  /** Step 3 for a known user: the preferred tier, the liked-flavour
      ranking and the exclusion of disliked whiskeys. */
  function ForUser(st: Store<PriceTier>, cu: Option<User>, s: seq<TierWhiskey>): (r: seq<TierWhiskey>)
    ensures forall w {:trigger multiset(r)[w]} ::
              multiset(r)[w] == if cu.None? || ((cu.value.prefs.tier.Some? ==> w.price == cu.value.prefs.tier.value)
                                                && w.id !in cu.value.history.disliked)
                                then multiset(s)[w] else 0
    ensures cu.Some? && |LikedProfiles(st, cu.value)| > 0 ==> SortedBy(r, ByLiked(LikedProfiles(st, cu.value)))
  {
    match cu
    case Some(u) =>
      RankAndExclude(st, u, FilterIf(u.prefs.tier.Some?, s, (w: TierWhiskey) => u.prefs.tier == Some(w.price)))
    case None => s
  }

  /** The candidates, best rated first, before the final slice. Candidates
      with the same rating keep the order the liked-flavour ranking gave
      them: that ranking only decides ties of the rating sort. */
  function Ranked(st: Store<PriceTier>, q: string, cu: Option<User>, o: RecOptions): (r: seq<TierWhiskey>)
    ensures forall w {:trigger multiset(r)[w]} ::
              multiset(r)[w] == if Candidate(q, cu, o, w) then multiset(st.whiskeys)[w] else 0
    ensures SortedBy(r, ByRatingDesc())
    ensures cu.Some? && |LikedProfiles(st, cu.value)| > 0 ==>
              forall z :: SortedBy(TiedWith(r, ByRatingDesc(), z), ByLiked(LikedProfiles(st, cu.value)))
  {
    var s := ForUser(st, cu, ApplyFlavorCues(q, ByOptions(o, st.whiskeys)));
    KeyLeTotal((w: TierWhiskey) => RatingOrZero(w), Desc);
    SortSorted(s, ByRatingDesc());
    var r := StableSort(s, ByRatingDesc());
    assert cu.Some? && |LikedProfiles(st, cu.value)| > 0 ==>
             forall z :: SortedBy(TiedWith(r, ByRatingDesc(), z), ByLiked(LikedProfiles(st, cu.value))) by {
      if cu.Some? && |LikedProfiles(st, cu.value)| > 0 {
        forall z ensures SortedBy(TiedWith(r, ByRatingDesc(), z), ByLiked(LikedProfiles(st, cu.value))) {
          SortStable(s, ByRatingDesc(), z);
          TiedWithSorted(s, ByRatingDesc(), z, ByLiked(LikedProfiles(st, cu.value)));
        }
      }
    }
    r
  }

  /** The whiskeys of a list of recommendations. */
  function Picks<Pr>(recs: seq<Recommendation<Pr>>): (ws: seq<Whiskey<Pr>>)
    ensures |ws| == |recs| && forall i :: 0 <= i < |recs| ==> ws[i] == recs[i].whiskey
  {
    Map(recs, (rec: Recommendation<Pr>) => rec.whiskey)
  }

  /** Each chosen whiskey paired with its reason sentence; the tier
      revision counts `고가` whiskeys as premium and adds no trailing clause. */
  function WithReasons(top: seq<TierWhiskey>, q: string, cu: Option<User>): (r: seq<Recommendation<PriceTier>>)
    ensures Picks(r) == top
    ensures forall i :: 0 <= i < |r| ==> r[i].reason == Reason(top[i], q, cu, top[i].price == High, "")
  {
    Map(top, (w: TierWhiskey) => Recommendation(w, Reason(w, q, cu, w.price == High, "")))
  }

  /** `recommendWhiskeys` with the reason generator guarded against a user
      without flavour keywords. At most three candidates, the best rated
      first; no candidate left out is rated above one chosen; each carries
      the reason sentence for it. No candidate at all is `RecommendationFailed`. */
  function Recommend(st: Store<PriceTier>, q: string, userId: Option<string>, o: RecOptions): (r: Result<seq<Recommendation<PriceTier>>>)
    ensures var cu := CurrentUser(st, userId);
            r.Err? <==> forall w :: w in st.whiskeys ==> !Candidate(q, cu, o, w)
    ensures r.Err? ==> r.error == RecommendationFailed
    ensures r.Ok? ==>
              var cu := CurrentUser(st, userId);
              var ws := Picks(r.value);
              && TopBy(st.whiskeys, (w: TierWhiskey) => Candidate(q, cu, o, w), ws, ByRatingDesc(), 3)
              && (forall i :: 0 <= i < |ws| ==> r.value[i].reason == Reason(ws[i], q, cu, ws[i].price == High, ""))
  {
    var cu := CurrentUser(st, userId);
    var ranked := Ranked(st, q, cu, o);
    var top := Take(ranked, 3);
    TopFacts(st.whiskeys, (w: TierWhiskey) => Candidate(q, cu, o, w), ranked, ByRatingDesc(), 3);
    if |top| == 0 then Err(RecommendationFailed) else Ok(WithReasons(top, q, cu))
  }


  /** `recommendWhiskeys` as written: the reason generator reads
      `preferences.flavorKeywords.some(…)`, a field the tier revision's
      preferences never carry, so once there is something to recommend to a
      known user without keywords the call fails with a `TypeError`. */
  function RecommendAsWritten(st: Store<PriceTier>, q: string, userId: Option<string>, o: RecOptions): (r: Result<seq<Recommendation<PriceTier>>>)
    ensures var cu := CurrentUser(st, userId);
            r == if Recommend(st, q, userId, o).Ok? && cu.Some? && cu.value.prefs.keywords.None?
                 then Err(UndefinedProperty("some"))
                 else Recommend(st, q, userId, o)
  {
    var cu := CurrentUser(st, userId);
    var top := Take(Ranked(st, q, cu, o), 3);
    if |top| == 0 then Err(RecommendationFailed)
    else
      match ReasonAsWritten(top[0], q, cu)
      case Err(e) => Err(e)
      case Ok(_) => Ok(WithReasons(top, q, cu))
  }

  /** No options, an empty query, `recommendWhiskeys("", "user001")` on the
      seeded store: the corrected service recommends, the service as written
      throws. */
  lemma RecommendAsWrittenFailsForSeedUser(now: int)
    ensures Recommend(TierSeed(now), "", Some("user001"), RecOptions(None, None, None, None)).Ok?
    ensures RecommendAsWritten(TierSeed(now), "", Some("user001"), RecOptions(None, None, None, None))
            == Err(UndefinedProperty("some"))
  {
    var st := TierSeed(now);
    var o := RecOptions(None, None, None, None);
    var u := SeedUser001(now);
    EmptyQueryHasNoCues();
    var w := st.whiskeys[0];
    assert Candidate("", Some(u), o, w);
    RecommendAsWrittenFails(st, "", Some("user001"), o, w);
  }

  /** Whenever a known user without keywords has a candidate, the corrected
      service recommends and the service as written throws. */
  lemma RecommendAsWrittenFails(st: Store<PriceTier>, q: string, userId: Option<string>, o: RecOptions, w: TierWhiskey)
    requires CurrentUser(st, userId).Some? && CurrentUser(st, userId).value.prefs.keywords.None?
    requires w in st.whiskeys && Candidate(q, CurrentUser(st, userId), o, w)
    ensures Recommend(st, q, userId, o).Ok?
    ensures RecommendAsWritten(st, q, userId, o) == Err(UndefinedProperty("some"))
  {
  }

  /** user001 of the seeded store: tier 중가, no keywords, nothing disliked. */
  lemma SeedUser001(now: int) returns (u: User)
    ensures CurrentUser(TierSeed(now), Some("user001")) == Some(u)
    ensures u.prefs.tier == Some(Mid) && u.prefs.keywords.None? && u.history.disliked == []
    ensures TierSeed(now).whiskeys[0].price == Mid
  {
    var st := TierSeed(now);
    SeedUserEvaluated(now);
    u := UserById(st, "user001").value;
    assert st.users[0].id == "user001";
    assert UserIndex(st.users, "user001") == Some(0);
  }

  lemma EmptyQueryHasNoCues()
    ensures !PeatCue("") && !SweetCue("")
  {
  }

  // ---------------------------------------------------------------------
  // The store after recommendWhiskeys

  /** No filter of steps 1 and 2 runs: no option is set (or truthy) and the
      query carries no flavour cue, so `filteredWhiskeys` is still the
      store's own catalogue array when step 3 begins. */
  predicate NothingFiltered(q: string, o: RecOptions)
  {
    && o.kind.None? && o.tier.None? && !MinRatingOn(o.minRating)
    && (o.keywords.None? || |o.keywords.value| == 0)
    && !PeatCue(q) && !SweetCue(q)
  }

  /** The store after `recommendWhiskeys`, in both builds (the sorts run
      before the reason sentences are built). With nothing filtered, an
      anonymous caller's rating sort reorders the catalogue itself, best
      rated first with ties kept in catalogue order; a known user without a
      preferred tier whose liked whiskeys have flavours gets the catalogue
      reordered by liked matches instead. Any filter, or a preferred tier,
      leaves the store as it was. */
  function RecommendStore(st: Store<PriceTier>, q: string, userId: Option<string>, o: RecOptions): (r: Store<PriceTier>)
    ensures r.users == st.users && r.notes == st.notes
    ensures multiset(r.whiskeys) == multiset(st.whiskeys)
    ensures var cu := CurrentUser(st, userId);
            !NothingFiltered(q, o) || (cu.Some? && (cu.value.prefs.tier.Some? || |LikedProfiles(st, cu.value)| == 0))
            ==> r == st
    ensures NothingFiltered(q, o) && CurrentUser(st, userId).None? ==>
              ReorderedBy(st.whiskeys, r.whiskeys, ByRatingDesc())
    ensures var cu := CurrentUser(st, userId);
            NothingFiltered(q, o) && cu.Some? && cu.value.prefs.tier.None? && |LikedProfiles(st, cu.value)| > 0 ==>
              ReorderedBy(st.whiskeys, r.whiskeys, ByLiked(LikedProfiles(st, cu.value)))
  {
    var cu := CurrentUser(st, userId);
    KeyLeTotal((w: TierWhiskey) => RatingOrZero(w), Desc);
    InPlaceSorts(st, !NothingFiltered(q, o) || (cu.Some? && cu.value.prefs.tier.Some?), cu, ByRatingDesc())
  }

  /** An anonymous caller asking the same thing twice: the second call sees
      the reordered catalogue, recommends the same whiskeys for the same
      reasons, and leaves the store as the first call left it. */
  lemma AnonymousRecommendRepeats(st: Store<PriceTier>, q: string, userId: Option<string>, o: RecOptions)
    requires CurrentUser(st, userId).None?
    ensures var st1 := RecommendStore(st, q, userId, o);
            && Recommend(st1, q, userId, o) == Recommend(st, q, userId, o)
            && RecommendStore(st1, q, userId, o) == st1
  {
    var st1 := RecommendStore(st, q, userId, o);
    assert CurrentUser(st1, userId) == CurrentUser(st, userId);
    if NothingFiltered(q, o) {
      KeyLeTotal((w: TierWhiskey) => RatingOrZero(w), Desc);
      assert st1.whiskeys == StableSort(st.whiskeys, ByRatingDesc());
      SortIdempotent(st.whiskeys, ByRatingDesc());
      assert Ranked(st1, q, None, o) == Ranked(st, q, None, o);
    }
  }

  /** "추천해줘" from an anonymous caller on the seeded store reorders the
      catalogue: 맥캘란 (4.7) is seeded after 발렌타인 (4.2). */
  lemma AnonymousRecommendReordersSeed(now: int)
    ensures RecommendStore(TierSeed(now), "추천해줘", None, RecOptions(None, None, None, None)).whiskeys
            != TierSeed(now).whiskeys
  {
    var st := TierSeed(now);
    PlainAskFiltersNothing();
    SeedOutOfRatingOrder(now);
    ReorderingMoves(st.whiskeys, RecommendStore(st, "추천해줘", None, RecOptions(None, None, None, None)).whiskeys,
                    ByRatingDesc(), 1);
  }

  lemma PlainAskFiltersNothing()
    ensures NothingFiltered("추천해줘", RecOptions(None, None, None, None))
  {
    var q := "추천해줘";
    FirstCharAbsent(q, "피트");
    FirstCharAbsent(q, "스모키");
    FirstCharAbsent(q, "달콤");
    FirstCharAbsent(q, "바닐라");
    FirstCharAbsent(q, "꿀");
    FirstCharAbsent(q, "과일");
  }

  lemma SeedOutOfRatingOrder(now: int)
    ensures |TierSeed(now).whiskeys| == 7
    ensures !ByRatingDesc()(TierSeed(now).whiskeys[1], TierSeed(now).whiskeys[2])
  {
    var st := TierSeed(now);
    assert st.whiskeys[1].rating == Some(4.2) && st.whiskeys[2].rating == Some(4.7);
  }

  // ---------------------------------------------------------------------
  // getSimilarWhiskies

  /** The flavours of `w` that the reference whiskey also has. */
  function SharedFlavors(t: TierWhiskey, w: TierWhiskey): seq<string>
  {
    Filter(w.flavors, (f: string) => f in t.flavors)
  }

  function Abs(x: real): real
  {
    if x < 0.0 then -x else x
  }

  /** The similarity score: 10 per shared flavour, 20 for the same kind, 15
      for the same tier, and, when both ratings are truthy, 5 for every point
      of rating by which they are closer than 5 apart. */
  function TierScore(t: TierWhiskey, w: TierWhiskey): real
  {
    (10 * |SharedFlavors(t, w)|) as real
    + (if w.kind == t.kind then 20.0 else 0.0)
    + (if w.price == t.price then 15.0 else 0.0)
    + (if RatedNonZero(t) && RatedNonZero(w) then (5.0 - Abs(t.rating.value - w.rating.value)) * 5.0 else 0.0)
  }

  /** Similar to the reference: another id, and a score above 30. */
  predicate TierSimilar(t: TierWhiskey, whiskeyId: string, w: TierWhiskey)
  {
    w.id != whiskeyId && TierScore(t, w) > 30.0
  }

  /** `getSimilarWhiskies` reading the catalogue: the three best-rated
      whiskeys similar to the reference. An unknown reference is
      `ReferenceNotFound`; nothing similar is `NoSimilar`. */
  function Similar(st: Store<PriceTier>, whiskeyId: string): (r: Result<seq<TierWhiskey>>)
    ensures (r.Err? && r.error == ReferenceNotFound) <==> WhiskeyById(st, whiskeyId).None?
    ensures WhiskeyById(st, whiskeyId).Some? ==>
              var t := WhiskeyById(st, whiskeyId).value;
              && (r.Err? <==> forall w :: w in st.whiskeys ==> !TierSimilar(t, whiskeyId, w))
              && (r.Err? ==> r.error == NoSimilar)
              && (r.Ok? ==> TopBy(st.whiskeys, (w: TierWhiskey) => TierSimilar(t, whiskeyId, w), r.value, ByRatingDesc(), 3))
  {
    match WhiskeyById(st, whiskeyId)
    case None => Err(ReferenceNotFound)
    case Some(t) =>
      var p := (w: TierWhiskey) => TierSimilar(t, whiskeyId, w);
      var sims := Filter(st.whiskeys, p);
      var sorted := StableSort(sims, ByRatingDesc());
      KeyLeTotal((w: TierWhiskey) => RatingOrZero(w), Desc);
      SortSorted(sims, ByRatingDesc());
      TopFacts(st.whiskeys, p, sorted, ByRatingDesc(), 3);
      if |sorted| == 0 then Err(NoSimilar) else Ok(Take(sorted, 3))
  }

  /** A score above 30 needs something in common: a shared flavour, the
      kind or the tier; the rating term alone reaches at most 25. */
  lemma SimilarSharesSomething(t: TierWhiskey, whiskeyId: string, w: TierWhiskey)
    requires TierSimilar(t, whiskeyId, w)
    ensures |SharedFlavors(t, w)| > 0 || w.kind == t.kind || w.price == t.price
  {
  }

  /** Another whiskey of the same kind and tier is always similar when
      ratings lie between 0 and 5, as every seeded rating does. */
  lemma SameKindAndTierIsSimilar(t: TierWhiskey, whiskeyId: string, w: TierWhiskey)
    requires w.id != whiskeyId && w.kind == t.kind && w.price == t.price
    requires t.rating.Some? ==> 0.0 <= t.rating.value <= 5.0
    requires w.rating.Some? ==> 0.0 <= w.rating.value <= 5.0
    ensures TierSimilar(t, whiskeyId, w)
  {
  }

  /** `getSimilarWhiskies` as written: after finding the reference it calls
      `dbService.getAllWhiskies()`, which the database service does not
      define (its method is `getAllWhiskeys`), so it never returns a list. */
  function SimilarAsWritten(st: Store<PriceTier>, whiskeyId: string): (r: Result<seq<TierWhiskey>>)
    ensures r.Err?
    ensures r.error == ReferenceNotFound <==> WhiskeyById(st, whiskeyId).None?
    ensures WhiskeyById(st, whiskeyId).Some? ==> r.error == NotAFunction("dbService.getAllWhiskies")
  {
    if WhiskeyById(st, whiskeyId).None? then Err(ReferenceNotFound)
    else Err(NotAFunction("dbService.getAllWhiskies"))
  }

  /** On the seeded store `w004` (same kind and tier) is similar to `w001`,
      so the corrected query succeeds where the one as written throws. */
  lemma SimilarAsWrittenFailsOnSeed(now: int)
    ensures Similar(TierSeed(now), "w001").Ok?
    ensures SimilarAsWritten(TierSeed(now), "w001") == Err(NotAFunction("dbService.getAllWhiskies"))
  {
    var st := TierSeed(now);
    assert WhiskeyById(st, "w001") == Some(st.whiskeys[0]);
    var t := st.whiskeys[0];
    var w := st.whiskeys[3];
    SameKindAndTierIsSimilar(t, "w001", w);
    assert w in st.whiskeys;
  }
}
