/** The conversational front of the tier revision: `conversate` picks a
    service call from cue words in the user's query, formats the result as
    a reply, and turns any error the service throws into an apology carrying
    the error's message. The store is threaded through as a value, and the
    clock and the random note-id suffix are parameters. The agent runs on
    either build of the tier service: the one as written, whose reason
    generator and similar-whiskey search throw, or the corrected one.
 */
module Agent {
  import opened Common
  import opened Seqs
  import opened Text
  import opened Records
  import opened Database
  import opened Catalog
  import opened Interactions
  import opened TierService

  // ---------------------------------------------------------------------
  // Routing

  /** The service call a query is routed to. */
  datatype Intent = AskRecommend | AskDetails | AskSimilar | SavePrefs | WriteNote | Other

  predicate RecommendCue(q: string)
  {
    Contains(q, "추천") || Contains(q, "위스키 찾아줘")
  }

  predicate DetailsCue(q: string)
  {
    Contains(q, "상세 정보") || Contains(q, "자세히 알려줘")
  }

  predicate SimilarCue(q: string)
  {
    Contains(q, "유사한 위스키")
  }

  predicate PrefsCue(q: string)
  {
    Contains(q, "취향 입력") || Contains(q, "선호도 저장")
  }

  predicate NoteCue(q: string)
  {
    Contains(q, "평가 노트 작성")
  }

  /** The `if … else if …` chain: the first intent whose cue occurs in the
      query wins, in the order recommend, details, similar, preferences,
      note; a query with no cue gets the default reply. */
  function Route(q: string): (i: Intent)
    ensures i == AskRecommend <==> RecommendCue(q)
    ensures i == AskDetails <==> !RecommendCue(q) && DetailsCue(q)
    ensures i == AskSimilar <==> !RecommendCue(q) && !DetailsCue(q) && SimilarCue(q)
    ensures i == SavePrefs <==> !RecommendCue(q) && !DetailsCue(q) && !SimilarCue(q) && PrefsCue(q)
    ensures i == WriteNote <==>
              !RecommendCue(q) && !DetailsCue(q) && !SimilarCue(q) && !PrefsCue(q) && NoteCue(q)
    ensures i == Other <==>
              !RecommendCue(q) && !DetailsCue(q) && !SimilarCue(q) && !PrefsCue(q) && !NoteCue(q)
  {
    if RecommendCue(q) then AskRecommend
    else if DetailsCue(q) then AskDetails
    else if SimilarCue(q) then AskSimilar
    else if PrefsCue(q) then SavePrefs
    else if NoteCue(q) then WriteNote
    else Other
  }

  // ---------------------------------------------------------------------
  // The whiskey id in a query: `query.match(/ID:\s*(w\d+)/)?.[1]`

  /** The shape of a whiskey id: `w` and at least one digit. */
  predicate IsId(id: string)
  {
    |id| >= 2 && id[0] == 'w' && AllDigits(id[1..])
  }

  /** The pattern matched at `i`: `ID:`, white space, then `w` and the
      whole digit run after it (nothing follows `\d+` in the pattern, so the
      greedy run is kept). */
  function IdAt(s: string, i: nat): (r: Option<string>)
    requires i <= |s|
    ensures r.Some? ==> IsId(r.value) && Contains(s, r.value)
  {
    if !HasAt(s, i, "ID:") then None
    else
      var j := SpaceRunEnd(s, i + 3);
      if j == |s| || s[j] != 'w' then None
      else
        var e := DigitRunEnd(s, j + 1);
        if e == j + 1 then None
        else
          ContainsAt(s, j, s[j..e]);
          assert s[j..e][1..] == s[j + 1..e];
          Some(s[j..e])
  }

  /** The leftmost match at or after `i`. */
  function FirstId(s: string, i: nat): (r: Option<string>)
    requires i <= |s|
    ensures r.Some? ==> IsId(r.value) && Contains(s, r.value)
    ensures r.None? <==> forall k :: i <= k <= |s| ==> IdAt(s, k).None?
    decreases |s| - i
  {
    match IdAt(s, i)
    case Some(id) => Some(id)
    case None =>
      if i == |s| then None
      else
        var r := FirstId(s, i + 1);
        assert r.None? ==> forall k :: i <= k <= |s| ==> IdAt(s, k).None? by {
          if r.None? {
            forall k | i <= k <= |s| ensures IdAt(s, k).None? {
              if k == i { assert IdAt(s, i).None?; }
            }
          }
        }
        r
  }

  function IdMatch(q: string): Option<string>
  {
    FirstId(q, 0)
  }

  /** With no match before `j`, the scan from `i` reaches `j`. */
  lemma {:induction false} FirstIdSkips(s: string, i: nat, j: nat)
    requires i <= j <= |s|
    requires forall k :: i <= k < j ==> IdAt(s, k).None?
    ensures FirstId(s, i) == FirstId(s, j)
    decreases j - i
  {
    if i < j {
      assert IdAt(s, i).None?;
      assert FirstId(s, i) == FirstId(s, i + 1);
      FirstIdSkips(s, i + 1, j);
    }
  }

  /** `ID: <id>` written into a query after text without an `I` is the id
      the query is read as asking about. */
  lemma IdMatchRoundTrip(p: string, id: string, rest: string)
    requires forall k :: 0 <= k < |p| ==> p[k] != 'I'
    requires IsId(id)
    requires |rest| == 0 || !IsDigit(rest[0])
    ensures IdMatch(p + "ID: " + id + rest) == Some(id)
  {
    var s := p + ("ID: " + id + rest);
    assert s == p + "ID: " + id + rest;
    forall k | 0 <= k < |p| ensures IdAt(s, k).None? {
      assert s[k] == p[k];
    }
    FirstIdSkips(s, 0, |p|);
    IdAtOf(p, id, rest);
  }

  lemma IdAtOf(p: string, id: string, rest: string)
    requires IsId(id)
    requires |rest| == 0 || !IsDigit(rest[0])
    ensures IdAt(p + ("ID: " + id + rest), |p|) == Some(id)
  {
    var t := "ID: " + id + rest;
    var s := p + t;
    var n := |p|;
    assert s[n..] == t;
    assert t[..3] == "ID:";
    assert HasAt(s, n, "ID:") by { assert s[n..n + 3] == t[..3]; }
    assert s[n + 3] == t[3] == ' ';
    if n + 4 + |id| < |s| {
      assert s[n + 4 + |id|] == t[4 + |id|] == rest[0];
    }
    assert s[n + 4..n + 4 + |id|] == t[4..4 + |id|] == id;
    IdAtIs(s, n, id);
  }

  /** `ID:`, one space and an id not followed by a digit are matched at `n`. */
  lemma IdAtIs(s: string, n: nat, id: string)
    requires IsId(id) && n + 4 + |id| <= |s|
    requires HasAt(s, n, "ID:") && s[n + 3] == ' ' && s[n + 4..n + 4 + |id|] == id
    requires n + 4 + |id| == |s| || !IsDigit(s[n + 4 + |id|])
    ensures IdAt(s, n) == Some(id)
  {
    assert s[n + 4] == id[0] == 'w';
    SpaceRunEndIs(s, n + 3, n + 4);
    forall k | n + 5 <= k < n + 4 + |id| ensures IsDigit(s[k]) {
      assert s[k] == id[k - n - 4] == id[1..][k - n - 5];
    }
    DigitRunEndIs(s, n + 5, n + 4 + |id|);
  }

  // ---------------------------------------------------------------------
  // Replies

  const RecommendHeader := "고객님께 다음 위스키들을 추천합니다:"
  const AskDetailsId := "어떤 위스키의 상세 정보를 원하시나요? 위스키 ID를 포함하여 다시 질문해주세요."
  const AskSimilarId := "어떤 위스키와 유사한 위스키를 찾으시나요? 위스키 ID를 포함하여 다시 질문해주세요."
  const PrefsSaved := "고객님의 취향 정보가 성공적으로 저장되었습니다."
  const DefaultReply := "어떤 위스키 정보를 원하시는지 정확히 알려주세요."

  /** The apology the `catch` block returns for an error. */
  function ErrorReply(e: Error): string
  {
    "오류가 발생했습니다: " + Message(e) + ". 다시 시도해주세요."
  }

  /** One numbered line of the recommendation reply, without its newline. */
  function RecLine(k: nat, rec: Recommendation<PriceTier>): string
  {
    NatToString(k) + ". " + rec.whiskey.name + " (ID: " + rec.whiskey.id + ") - " + rec.reason
  }

  /** The numbered lines from `k` on, each followed by a newline. */
  function RecLines(recs: seq<Recommendation<PriceTier>>, k: nat): string
    decreases |recs|
  {
    if |recs| == 0 then "" else RecLine(k, recs[0]) + "\n" + RecLines(recs[1..], k + 1)
  }

  /** The numbered lines `k`, `k + 1`, … of a reply, as a list. */
  function LinesFrom(recs: seq<Recommendation<PriceTier>>, k: nat): (ls: seq<string>)
    ensures |ls| == |recs| && forall i :: 0 <= i < |recs| ==> ls[i] == RecLine(k + i, recs[i])
    decreases |recs|
  {
    if |recs| == 0 then [] else [RecLine(k, recs[0])] + LinesFrom(recs[1..], k + 1)
  }

  /** A recommendation without a newline in its name, id or reason. */
  predicate NoNewline(rec: Recommendation<PriceTier>)
  {
    '\n' !in rec.whiskey.name && '\n' !in rec.whiskey.id && '\n' !in rec.reason
  }

  /** The recommendation reply: the header line, then one numbered line per
      recommendation, each ending in a newline. Split at newlines it is the
      header, the numbered lines in order, and the empty text after the last
      newline. */
  function FormatRecommendations(recs: seq<Recommendation<PriceTier>>): (r: string)
    ensures (forall i :: 0 <= i < |recs| ==> NoNewline(recs[i])) ==>
              Split(r, '\n') == [RecommendHeader] + LinesFrom(recs, 1) + [""]
  {
    var r := RecommendHeader + "\n" + RecLines(recs, 1);
    assert (forall i :: 0 <= i < |recs| ==> NoNewline(recs[i])) ==>
             Split(r, '\n') == [RecommendHeader] + LinesFrom(recs, 1) + [""] by {
      if forall i :: 0 <= i < |recs| ==> NoNewline(recs[i]) {
        SplitRecLines(recs, 1);
        HeaderNoBreak();
        SplitAppend(RecommendHeader, '\n', RecLines(recs, 1));
      }
    }
    r
  }

  /** The header is one line. */
  lemma HeaderNoBreak()
    ensures '\n' !in RecommendHeader
  {
    assert RecommendHeader == "고객님께 다음 " + "위스키들을 추천합니다:";
  }

  lemma NatToStringNoNewline(n: nat)
    ensures '\n' !in NatToString(n)
  {
    var s := NatToString(n);
    forall k | 0 <= k < |s| ensures s[k] != '\n' {
      assert IsDigit(s[k]);
    }
  }

  lemma {:induction false} SplitRecLines(recs: seq<Recommendation<PriceTier>>, k: nat)
    requires forall i :: 0 <= i < |recs| ==> NoNewline(recs[i])
    ensures Split(RecLines(recs, k), '\n') == LinesFrom(recs, k) + [""]
    decreases |recs|
  {
    if |recs| > 0 {
      var rec := recs[0];
      var line := RecLine(k, rec);
      assert NoNewline(rec);
      RecLineNoNewline(k, rec);
      SplitRecLines(recs[1..], k + 1);
      SplitAppend(line, '\n', RecLines(recs[1..], k + 1));
      assert RecLines(recs, k) == line + ['\n'] + RecLines(recs[1..], k + 1);
    } else {
      assert Split("", '\n') == [""];
    }
  }

  /** A listed line holds no newline when its fields hold none. */
  lemma RecLineNoNewline(k: nat, rec: Recommendation<PriceTier>)
    requires NoNewline(rec)
    ensures '\n' !in RecLine(k, rec)
  {
    var line := RecLine(k, rec);
    NatToStringNoNewline(k);
    var ps := [NatToString(k), ". ", rec.whiskey.name, " (ID: ", rec.whiskey.id, ") - ", rec.reason];
    forall j | 0 <= j < |line| ensures line[j] != '\n' {
      assert line == ps[0] + ps[1] + ps[2] + ps[3] + ps[4] + ps[5] + ps[6];
      NoCharInConcat7(ps, '\n', line, j);
    }
  }

  /** A character missing from each of seven pieces is missing from their concatenation. */
  lemma NoCharInConcat7(ps: seq<string>, c: char, s: string, j: nat)
    requires |ps| == 7 && forall i :: 0 <= i < 7 ==> c !in ps[i]
    requires s == ps[0] + ps[1] + ps[2] + ps[3] + ps[4] + ps[5] + ps[6]
    requires j < |s|
    ensures s[j] != c
  {
    var a := ps[0] + ps[1] + ps[2] + ps[3] + ps[4] + ps[5];
    var b := ps[0] + ps[1] + ps[2] + ps[3] + ps[4];
    var d := ps[0] + ps[1] + ps[2] + ps[3];
    var e := ps[0] + ps[1] + ps[2];
    var f := ps[0] + ps[1];
    assert ps[0] == ps[0];
    if j >= |a| { assert s[j] == ps[6][j - |a|]; assert s[j] in ps[6]; }
    else if j >= |b| { assert s[j] == ps[5][j - |b|]; assert s[j] in ps[5]; }
    else if j >= |d| { assert s[j] == ps[4][j - |d|]; assert s[j] in ps[4]; }
    else if j >= |e| { assert s[j] == ps[3][j - |e|]; assert s[j] in ps[3]; }
    else if j >= |f| { assert s[j] == ps[2][j - |f|]; assert s[j] in ps[2]; }
    else if j >= |ps[0]| { assert s[j] == ps[1][j - |ps[0]|]; assert s[j] in ps[1]; }
    else { assert s[j] == ps[0][j]; assert s[j] in ps[0]; }
  }

  /** `${details.name}의 상세 정보: …`. */
  function DetailsReply(w: TierWhiskey): string
  {
    w.name + "의 상세 정보: " + w.description + " (가격대: " + TierName(w.price)
    + ", 맛/향: " + Join(w.flavors, ", ") + ")"
  }

  /** `${x?.name}` of an optional whiskey: a missing one prints `undefined`. */
  function NameOrUndefined(w: Option<TierWhiskey>): string
  {
    if w.Some? then w.value.name else "undefined"
  }

  function Names(ws: seq<TierWhiskey>): seq<string>
  {
    Map(ws, (w: TierWhiskey) => w.name)
  }

  function SimilarReply(name: string, ws: seq<TierWhiskey>): string
  {
    name + "과(와) 유사한 위스키는 다음과 같습니다: " + Join(Names(ws), ", ") + "."
  }

  function NoteReply(name: string): string
  {
    "위스키 " + name + "에 대한 평가 노트가 성공적으로 작성되었습니다."
  }

  // ---------------------------------------------------------------------
  // conversate

  /** `options?.userId || 'anonymous'`. */
  function AgentUser(userId: Option<string>): string
  {
    if Truthy(userId) then userId.value else "anonymous"
  }

  const NoOptions := RecOptions(None, None, None, None)

  /** The fixed preferences a preferences request saves. */
  const MockPrefs := Prefs(3, 4, 2, 4, Some(Mid), None, None, Some(Intermediate), None)

  /** The fixed note a note request submits: whiskey `w001`, total 4, body
      4, richness 3, smokiness 4, sweetness 2. */
  const NoteWhiskey := "w001"
  const NoteText := "적당히 피트하고 부드럽네요."

  /** The build of the tier service the agent calls. */
  datatype Build = AsWritten | Corrected

  function RecommendService(b: Build, st: Store<PriceTier>, q: string, uid: string)
    : Result<seq<Recommendation<PriceTier>>>
  {
    match b
    case AsWritten => RecommendAsWritten(st, q, Some(uid), NoOptions)
    case Corrected => Recommend(st, q, Some(uid), NoOptions)
  }

  function SimilarService(b: Build, st: Store<PriceTier>, id: string): Result<seq<TierWhiskey>>
  {
    match b
    case AsWritten => SimilarAsWritten(st, id)
    case Corrected => Similar(st, id)
  }

  /** The reply to a recommendation request: the service is called with
      the query, the caller and no options; its picks are listed, and its
      failure becomes the apology. The corrected build fails only when
      nothing qualifies; the build as written also fails, with a `TypeError`,
      whenever it has something to recommend to a known caller without
      flavour keywords. */
  function RecommendReply(b: Build, st: Store<PriceTier>, query: string, uid: string): (r: string)
    ensures var res := Recommend(st, query, Some(uid), NoOptions);
            var cu := CurrentUser(st, Some(uid));
            r == if res.Err? then ErrorReply(RecommendationFailed)
                 else if b == AsWritten && cu.Some? && cu.value.prefs.keywords.None?
                 then ErrorReply(UndefinedProperty("some"))
                 else FormatRecommendations(res.value)
  {
    var res := Recommend(st, query, Some(uid), NoOptions);
    var cu := CurrentUser(st, Some(uid));
    var out := RecommendService(b, st, query, uid);
    assert out == if b == AsWritten && res.Ok? && cu.Some? && cu.value.prefs.keywords.None?
                  then Err(UndefinedProperty("some")) else res;
    match out
    case Ok(recs) => FormatRecommendations(recs)
    case Err(e) => ErrorReply(e)
  }

  /** A recommendation request: the reply above, and the store as the
      service's in-place sorts leave it, in either build. */
  function RecommendTurn(b: Build, st: Store<PriceTier>, query: string, uid: string): (r: (Store<PriceTier>, string))
    ensures r.0 == RecommendStore(st, query, Some(uid), NoOptions)
    ensures r.1 == RecommendReply(b, st, query, uid)
  {
    (RecommendStore(st, query, Some(uid), NoOptions), RecommendReply(b, st, query, uid))
  }

  /** A details request: without an id in the query the caller is asked for
      one; an unknown id is the apology with the store unchanged; a known one
      is described, and recorded as viewed by a known caller. */
  function DetailsTurn(st: Store<PriceTier>, query: string, uid: string, now: int): (r: (Store<PriceTier>, string))
    ensures IdMatch(query).None? ==> r == (st, AskDetailsId)
    ensures IdMatch(query).Some? ==>
              var id := IdMatch(query).value;
              match WhiskeyById(st, id)
              case None => r == (st, ErrorReply(DetailsNotFound))
              case Some(w) => r.1 == DetailsReply(w) && r.0 == ViewDetails(st, id, Some(uid), now).0
  {
    match IdMatch(query)
    case None => (st, AskDetailsId)
    case Some(id) =>
      var (st2, res) := ViewDetails(st, id, Some(uid), now);
      match res
      case Ok(w) => (st2, DetailsReply(w))
      case Err(e) => (st2, ErrorReply(e))
  }

  /** A similarity request: without an id the caller is asked for one; an
      unknown id is the apology for a missing reference. For a known id the
      corrected build names the reference whiskey and its similar whiskeys
      (or apologises that there are none); the build as written always
      apologises with the `TypeError` of its missing catalogue method. The
      store is not touched: the search sorts its own filtered copy. */
  function SimilarTurn(b: Build, st: Store<PriceTier>, query: string): (r: (Store<PriceTier>, string))
    ensures r.0 == st
    ensures IdMatch(query).None? ==> r.1 == AskSimilarId
    ensures IdMatch(query).Some? && WhiskeyById(st, IdMatch(query).value).None? ==>
              r.1 == ErrorReply(ReferenceNotFound)
    ensures IdMatch(query).Some? && WhiskeyById(st, IdMatch(query).value).Some? ==>
              var id := IdMatch(query).value;
              var res := Similar(st, id);
              r.1 == if b == AsWritten then ErrorReply(NotAFunction("dbService.getAllWhiskies"))
                     else if res.Ok? then SimilarReply(WhiskeyById(st, id).value.name, res.value)
                     else ErrorReply(NoSimilar)
  {
    match IdMatch(query)
    case None => (st, AskSimilarId)
    case Some(id) =>
      match SimilarService(b, st, id)
      case Ok(ws) => (st, SimilarReply(NameOrUndefined(WhiskeyById(st, id)), ws))
      case Err(e) => (st, ErrorReply(e))
  }

  /** A preferences request saves the fixed preferences for the caller: an
      unknown caller gets the apology and nothing changes; a known one has
      the four axes, tier and level overwritten, the rest of the
      preferences kept, and no other record touched. */
  function PrefsTurn(st: Store<PriceTier>, uid: string): (r: (Store<PriceTier>, string))
    ensures UserIndex(st.users, uid).None? ==> r == (st, ErrorReply(UserNotFound))
    ensures UserIndex(st.users, uid).Some? ==>
              var i := UserIndex(st.users, uid).value;
              var u := st.users[i];
              var p := MergePrefs(u.prefs, PatchOfPrefs(MockPrefs));
              && r.1 == PrefsSaved
              && OnlySlotChanged(st, r.0, i, u.(prefs := p))
              && p.body == 3 && p.richness == 4 && p.smokiness == 2 && p.sweetness == 4
              && p.tier == Some(Mid) && p.level == Some(Intermediate)
              && p.minPrice == u.prefs.minPrice && p.maxPrice == u.prefs.maxPrice
              && p.keywords == u.prefs.keywords
  {
    var (st2, res) := SaveUserPreferences(st, uid, MockPrefs);
    match res
    case Ok(_) => (st2, PrefsSaved)
    case Err(e) => (st2, ErrorReply(e))
  }

  /** A note request submits the fixed note on `w001` for the caller: an
      unknown caller or a store without `w001` gets the apology and nothing
      changes; otherwise exactly that note is appended and the reply names
      the whiskey. */
  function NoteTurn(st: Store<PriceTier>, uid: string, now: int, suffix: string): (r: (Store<PriceTier>, string))
    ensures UserIndex(st.users, uid).None? || WhiskeyById(st, NoteWhiskey).None? ==>
              r == (st, ErrorReply(UserOrWhiskeyNotFound))
    ensures UserIndex(st.users, uid).Some? && WhiskeyById(st, NoteWhiskey).Some? ==>
              && r.1 == NoteReply(WhiskeyById(st, NoteWhiskey).value.name)
              && r.0.whiskeys == st.whiskeys
              && r.0.notes == st.notes + [TastingNote(NoteId(now, suffix), uid, NoteWhiskey, 4.0, NoteText,
                                                      4.0, 3.0, 4.0, 2.0, now)]
  {
    var (st2, res) := SubmitTastingNote(st, uid, NoteWhiskey, 4.0, NoteText, 4.0, 3.0, 4.0, 2.0, now, suffix);
    match res
    case Ok(n) => (st2, NoteReply(NameOrUndefined(WhiskeyById(st2, n.whiskeyId))))
    case Err(e) => (st2, ErrorReply(e))
  }

  /** One turn of the conversation: the store after it and the reply. The
      query is routed by its cue words and no error escapes. A similarity
      request and the default reply leave the store alone; a recommendation
      request leaves it as the service's in-place sorts do. */
  function Conversate(b: Build, st: Store<PriceTier>, query: string, userId: Option<string>, now: int, suffix: string)
    : (r: (Store<PriceTier>, string))
    ensures Route(query) in {AskSimilar, Other} ==> r.0 == st
    ensures Route(query) == AskRecommend ==> r.0 == RecommendStore(st, query, Some(AgentUser(userId)), NoOptions)
    ensures Route(query) == Other ==> r.1 == DefaultReply
    ensures Route(query) == AskRecommend ==> r == RecommendTurn(b, st, query, AgentUser(userId))
    ensures Route(query) == AskDetails ==> r == DetailsTurn(st, query, AgentUser(userId), now)
    ensures Route(query) == AskSimilar ==> r == SimilarTurn(b, st, query)
    ensures Route(query) == SavePrefs ==> r == PrefsTurn(st, AgentUser(userId))
    ensures Route(query) == WriteNote ==> r == NoteTurn(st, AgentUser(userId), now, suffix)
  {
    var uid := AgentUser(userId);
    match Route(query)
    case AskRecommend => RecommendTurn(b, st, query, uid)
    case AskDetails => DetailsTurn(st, query, uid, now)
    case AskSimilar => SimilarTurn(b, st, query)
    case SavePrefs => PrefsTurn(st, uid)
    case WriteNote => NoteTurn(st, uid, now, suffix)
    case Other => (st, DefaultReply)
  }

  /** A caller without a user id is served as the user `anonymous`. */
  lemma AnonymousByDefault(b: Build, st: Store<PriceTier>, query: string, userId: Option<string>, now: int, suffix: string)
    requires !Truthy(userId)
    ensures Conversate(b, st, query, userId, now, suffix) == Conversate(b, st, query, Some("anonymous"), now, suffix)
  {
  }

  /** Without a stored `anonymous` user, an anonymous caller cannot save
      preferences or write a note: the reply is the apology and the store is
      unchanged. */
  lemma AnonymousCannotWrite(b: Build, st: Store<PriceTier>, query: string, now: int, suffix: string)
    requires UserIndex(st.users, "anonymous").None?
    requires Route(query) in {SavePrefs, WriteNote}
    ensures var r := Conversate(b, st, query, None, now, suffix);
            r.0 == st && r.1 in {ErrorReply(UserNotFound), ErrorReply(UserOrWhiskeyNotFound)}
  {
  }

  /** Without a stored `anonymous` user, an anonymous caller asking for a
      recommendation twice gets the same reply, and the catalogue order the
      first request left behind is kept by the second. */
  lemma AnonymousAskRepeats(b: Build, st: Store<PriceTier>, query: string, now: int, suffix: string)
    requires UserIndex(st.users, "anonymous").None?
    requires Route(query) == AskRecommend
    ensures var r1 := Conversate(b, st, query, None, now, suffix);
            var r2 := Conversate(b, r1.0, query, None, now, suffix);
            r2 == r1
  {
    assert CurrentUser(st, Some("anonymous")).None?;
    AnonymousRecommendRepeats(st, query, Some("anonymous"), NoOptions);
  }
}
