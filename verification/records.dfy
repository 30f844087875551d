/** The entities of the in-memory whiskey store, shared by both revisions
    of the application.

    The revisions differ in how a whiskey's price is held: a three-valued
    tier (`저가`/`중가`/`고가`) in the service/database revision, a number of
    won in the single-file demo revision. `Whiskey` is therefore generic in
    its price type `Pr`. The demo revision's records carry no average
    rating; there the `rating` field is always `None`.
 */
module Records {
  import opened Common

  /** `Whiskey['type']`. */
  datatype Kind = SingleMalt | Blended | Bourbon | Rye | OtherKind

  /** The string each kind is stored as. */
  function KindName(k: Kind): string
  {
    match k
    case SingleMalt => "싱글 몰트"
    case Blended => "블렌디드"
    case Bourbon => "버번"
    case Rye => "라이"
    case OtherKind => "기타"
  }

  /** `Whiskey['priceRange']`: low (up to 50,000 won), mid, high (150,000 won and up). */
  datatype PriceTier = Low | Mid | High

  function TierName(t: PriceTier): string
  {
    match t
    case Low => "저가"
    case Mid => "중가"
    case High => "고가"
  }

  /** The `priceMap` the price sort uses: 저가=1, 중가=2, 고가=3. */
  function TierRank(t: PriceTier): (n: int)
    ensures 1 <= n <= 3
  {
    match t
    case Low => 1
    case Mid => 2
    case High => 3
  }

  /** The rank tells tiers apart, so ordering by rank orders by tier. */
  lemma TierRankInjective(t: PriceTier, u: PriceTier)
    ensures TierRank(t) == TierRank(u) <==> t == u
    ensures TierRank(t) < TierRank(u) <==> (t == Low && u != Low) || (t == Mid && u == High)
  {
  }

  /** `experienceLevel`: 초보, 중급, 전문가. */
  datatype Level = Novice | Intermediate | Expert

  datatype Whiskey<Pr> = Whiskey(
    id: string,
    name: string,
    kind: Kind,
    distillery: string,
    country: string,
    age: Option<int>,
    price: Pr,
    flavors: seq<string>,    // flavorProfile
    description: string,
    rating: Option<real>)    // averageRating

  /** `w.averageRating || 0`. */
  function RatingOrZero<Pr>(w: Whiskey<Pr>): real
  {
    if w.rating.Some? then w.rating.value else 0.0
  }

  /** `w.age || 0`. */
  function AgeOrZero<Pr>(w: Whiskey<Pr>): int
  {
    if w.age.Some? then w.age.value else 0
  }

  /** A JavaScript truthiness test on an optional rating: absent and 0 are falsy. */
  predicate RatedNonZero<Pr>(w: Whiskey<Pr>)
  {
    w.rating.Some? && w.rating.value != 0.0
  }

  /** `UserPreferences` of either revision: the four taste axes, then the
      optional fields; the tier revision uses `tier`, the demo revision
      `minPrice`/`maxPrice` and `keywords`. */
  datatype Prefs = Prefs(
    body: int,
    richness: int,
    smokiness: int,
    sweetness: int,
    tier: Option<PriceTier>,        // preferredPriceRange
    minPrice: Option<int>,          // minPreferredPrice
    maxPrice: Option<int>,          // maxPreferredPrice
    level: Option<Level>,           // experienceLevel
    keywords: Option<seq<string>>)  // flavorKeywords

  datatype ViewEntry = ViewEntry(whiskeyId: string, viewedAt: int)

  /** `UserInteractionHistory`. */
  datatype History = History(
    viewed: seq<ViewEntry>,
    liked: seq<string>,
    disliked: seq<string>,
    searches: seq<string>)

  datatype TastingNote = TastingNote(
    id: string,
    userId: string,
    whiskeyId: string,
    rating: real,
    reviewText: string,
    body: real,
    richness: real,
    smokiness: real,
    sweetness: real,
    createdAt: int)

  /** `evaluated` is `evaluatedWhiskeyIds`, which holds tasting-note ids. */
  datatype User = User(id: string, prefs: Prefs, history: History, evaluated: seq<string>)

  /** The `DatabaseService` singleton's three arrays, as a value. */
  datatype Store<Pr> = Store(whiskeys: seq<Whiskey<Pr>>, users: seq<User>, notes: seq<TastingNote>)

  /** `RecommendationResult`. */
  datatype Recommendation<Pr> = Recommendation(whiskey: Whiskey<Pr>, reason: string)
}
