/** The store `loadInitialData` builds in the service/database revision:
    seven whiskeys, three users and one tasting note. Timestamps are
    offsets from `now` (the `Date.now()` at start-up). Image URLs and
    review snippets are not part of the model.
 */
module Seed {
  import opened Common
  import opened Seqs
  import opened Records
  import opened Database

  /** The seven seeded whiskeys, in insertion order. Long texts are written
      as concatenations of short literals; each is the same string. */
  function TierCatalogue(): seq<Whiskey<PriceTier>>
  {
    [Laphroaig10(), Ballantines17(), Macallan12(), Aberlour12(), Glenfiddich12(), HibikiHarmony(), MakersMark()]
  }

  function Laphroaig10(): Whiskey<PriceTier>
  {
    Whiskey("w001", "라프로익 10년", SingleMalt, "라프로익", "스코틀랜드", Some(10), Mid,
      ["피트", "스모키", "요오드", "해조류"],
      "강렬한 피트향과 스모키함이 " + "특징인 아일라 싱글 몰트 " + "위스키입니다. 독특한 " +
      "개성을 찾는 분들께 " + "추천합니다.",
      Some(4.5))
  }

  function Ballantines17(): Whiskey<PriceTier>
  {
    Whiskey("w002", "발렌타인 17년", Blended, "발렌타인", "스코틀랜드", Some(17), Mid,
      ["꿀", "바닐라", "과일", "부드러움"],
      "부드러운 목넘김과 균형 " + "잡힌 맛이 특징인 블렌디드 " + "위스키입니다. 선물용으로도 " +
      "인기가 많습니다.",
      Some(4.2))
  }

  function Macallan12(): Whiskey<PriceTier>
  {
    Whiskey("w003", "맥캘란 12년 쉐리 오크", SingleMalt, "맥캘란", "스코틀랜드", Some(12), High,
      ["쉐리", "건포도", "오렌지", "스파이스"],
      "쉐리 오크 숙성으로 인한 " + "풍부한 과일향과 " + "스파이시함이 매력적인 " +
      "위스키입니다. 깊고 " + "복합적인 맛을 선사합니다.",
      Some(4.7))
  }

  function Aberlour12(): Whiskey<PriceTier>
  {
    Whiskey("w004", "아벨라워 12년 더블 캐스크", SingleMalt, "아벨라워", "스코틀랜드", Some(12), Mid,
      ["과일", "꿀", "스파이스", "초콜릿"],
      "버번과 쉐리 캐스크의 더블 " + "숙성으로 복합적인 맛과 " + "향을 선사합니다. 균형 " +
      "잡힌 맛으로 많은 사랑을 " + "받습니다.",
      Some(4.3))
  }

  function Glenfiddich12(): Whiskey<PriceTier>
  {
    Whiskey("w005", "글렌피딕 12년", SingleMalt, "글렌피딕", "스코틀랜드", Some(12), Mid,
      ["과일", "배", "크리미", "오크"],
      "신선한 배와 섬세한 오크 " + "향이 조화를 이루는 " + "세계에서 가장 많이 팔리는 " +
      "싱글 몰트 위스키 중 " + "하나입니다. 입문용으로도 " + "좋습니다.",
      Some(4.0))
  }

  function HibikiHarmony(): Whiskey<PriceTier>
  {
    Whiskey("w006", "히비키 하모니", Blended, "산토리", "일본", None, High,
      ["꿀", "오렌지 껍질", "화이트 초콜릿"],
      "다양한 몰트와 그레인 " + "위스키를 섬세하게 " + "블렌딩하여 조화로운 맛을 " +
      "선사하는 일본 " + "위스키입니다. 부드럽고 " + "우아한 향이 특징입니다.",
      Some(4.6))
  }

  function MakersMark(): Whiskey<PriceTier>
  {
    Whiskey("w007", "메이커스 마크", Bourbon, "메이커스 마크", "미국", Some(6), Low,
      ["바닐라", "카라멜", "오크", "스파이스"],
      "밀을 사용하여 부드럽고 " + "달콤한 맛이 특징인 버번 " + "위스키입니다. 손으로 " +
      "밀봉한 붉은 왁스 캡이 " + "상징적입니다.",
      Some(4.1))
  }

  function SeedUsers(now: int): seq<User>
  {
    [ User("user001", Prefs(3, 4, 5, 1, Some(Mid), None, None, Some(Intermediate), None),
           History([ViewEntry("w001", now - 3600000)], ["w001"], [], []), []),
      User("user002", Prefs(4, 3, 1, 5, Some(Low), None, None, Some(Novice), None),
           History([ViewEntry("w002", now - 7200000), ViewEntry("w007", now - 1800000)], ["w002"], [], []), []),
      User("user003", Prefs(5, 5, 2, 3, Some(High), None, None, Some(Expert), None),
           History([ViewEntry("w003", now - 5400000)], ["w003"], [], []), []) ]
  }

  function SeedNote(now: int): TastingNote
  {
    TastingNote("tn001", "user001", "w001", 5.0, "정말 강렬한 피트향이 " + "인상적입니다. 아일라 " + "위스키의 정수!",
                5.0, 4.0, 5.0, 1.0, now - 86400000)
  }

  /** The whole start-up sequence: the arrays, then `tn001` pushed onto
      user001's `evaluatedWhiskeyIds` when user001 is found. */
  function TierSeed(now: int): (st: Store<PriceTier>)
    ensures st.whiskeys == TierCatalogue() && |st.users| == 3 && st.notes == [SeedNote(now)]
  {
    var st0 := Store(TierCatalogue(), SeedUsers(now), [SeedNote(now)]);
    match UserById(st0, "user001")
    case Some(u) =>
      var i := UserIndex(st0.users, "user001").value;
      st0.(users := st0.users[i := u.(evaluated := u.evaluated + ["tn001"])])
    case None => st0
  }

  function Ids<Pr>(ws: seq<Whiskey<Pr>>): (r: seq<string>)
    ensures |r| == |ws| && forall i :: 0 <= i < |ws| ==> r[i] == ws[i].id
  {
    if |ws| == 0 then [] else [ws[0].id] + Ids(ws[1..])
  }

  const SeedIds: seq<string> := ["w001", "w002", "w003", "w004", "w005", "w006", "w007"]

  lemma CatalogueIds()
    ensures Ids(TierCatalogue()) == SeedIds
  {
    var ws := TierCatalogue();
    forall i | 0 <= i < 7 ensures ws[i].id == SeedIds[i] {
    }
  }

  lemma SeedIdsDistinct()
    ensures NoDup(SeedIds)
  {
    var last := "1234567";
    // the ids differ in their last character
    assert forall i :: 0 <= i < 7 ==> SeedIds[i][3] == last[i];
    forall i, j | 0 <= i < j < 7 ensures SeedIds[i] != SeedIds[j] {
      assert SeedIds[i][3] == last[i] && SeedIds[j][3] == last[j];
    }
  }

  /** The seed's whiskey ids are w001..w007 with no repeats, so every lookup
      by id is unambiguous. */
  lemma SeedIdsUnique(now: int)
    ensures Ids(TierSeed(now).whiskeys) == SeedIds
    ensures NoDup(Ids(TierSeed(now).whiskeys))
  {
    CatalogueIds();
    SeedIdsDistinct();
  }

  /** user001 is known and its evaluated list holds `tn001`, the id of the one seeded note. */
  lemma SeedUserEvaluated(now: int)
    ensures UserById(TierSeed(now), "user001").Some?
    ensures UserById(TierSeed(now), "user001").value.evaluated == ["tn001"]
    ensures TierSeed(now).notes[0].id in UserById(TierSeed(now), "user001").value.evaluated
  {
    var st := TierSeed(now);
    assert st.users[0].id == "user001";
  }

  /** Every seeded user's liked ids name catalogue whiskeys, no seeded user
      carries flavour keywords, and every seeded rating lies in [0, 5]. */
  lemma SeedShape(now: int)
    ensures forall u :: u in TierSeed(now).users ==>
              u.prefs.keywords.None? && u.prefs.tier.Some?
              && forall id :: id in u.history.liked ==> WhiskeyById(TierSeed(now), id).Some?
    ensures forall w :: w in TierSeed(now).whiskeys ==> w.rating.Some? && 0.0 <= w.rating.value <= 5.0
  {
    var st := TierSeed(now);
    assert st.whiskeys[0].id == "w001";
    assert st.whiskeys[1].id == "w002";
    assert st.whiskeys[2].id == "w003";
  }
}
