/** The agent's recommendation reply, read by the front end: when the
    catalogue's ids and texts are of the shape the listing assumes, the
    front end recovers exactly the whiskeys and reasons the service chose,
    in the service's order; the apology lists nothing. On the service as
    written, a known caller without flavour keywords is always answered with
    an apology, so the front end lists nothing for that caller.
 */
module RoundTrip {
  import opened Common
  import opened Seqs
  import opened Text
  import opened Records
  import opened Database
  import opened Reasons
  import opened TierService
  import opened Agent
  import opened Parser
  import opened Catalog
  import opened Seed

  /** A whiskey whose listing line reads back: a `w<digits>` id, a name that
      is a trimmed line without `(ID:`, and a description and flavours
      without line terminators. */
  predicate ListableWhiskey(w: TierWhiskey)
  {
    && IsId(w.id)
    && TrimmedLine(w.name) && !Contains(w.name, "(ID:")
    && OneLine(w.description)
    && (forall f :: f in w.flavors ==> OneLine(f))
  }

  /** Unique whiskey ids, listable whiskeys, and users' flavour keywords
      without line terminators. */
  predicate ListableCatalog(st: Store<PriceTier>)
  {
    && (forall i, j :: 0 <= i < j < |st.whiskeys| ==> st.whiskeys[i].id != st.whiskeys[j].id)
    && (forall w :: w in st.whiskeys ==> ListableWhiskey(w))
    && (forall u :: u in st.users && u.prefs.keywords.Some? ==>
          forall f :: f in u.prefs.keywords.value ==> OneLine(f))
  }

  /** With unique ids, looking a stored whiskey up by its id finds it. */
  lemma FoundById(st: Store<PriceTier>, w: TierWhiskey)
    requires forall i, j :: 0 <= i < j < |st.whiskeys| ==> st.whiskeys[i].id != st.whiskeys[j].id
    requires w in st.whiskeys
    ensures WhiskeyById(st, w.id) == Some(w)
  {
    var j :| 0 <= j < |st.whiskeys| && st.whiskeys[j] == w;
    var i :| 0 <= i < |st.whiskeys| && st.whiskeys[i] == WhiskeyById(st, w.id).value
             && WhiskeyById(st, w.id).value.id == w.id
             && forall k :: 0 <= k < i ==> st.whiskeys[k].id != w.id;
    assert !(j < i);
    assert !(i < j);
  }

  /** The user the services personalise for is a stored one. */
  lemma CurrentUserStored(st: Store<PriceTier>, userId: Option<string>)
    ensures CurrentUser(st, userId).Some? ==> CurrentUser(st, userId).value in st.users
  {
  }

  /** The reason sentence of a listable whiskey, for a user whose keywords
      stay on one line, is a trimmed line: it opens with the whiskey's name
      and closes with a full stop. */
  lemma ReasonTrimmed(w: TierWhiskey, q: string, u: Option<User>, premium: bool)
    requires ListableWhiskey(w)
    requires u.Some? && u.value.prefs.keywords.Some? ==> forall f :: f in u.value.prefs.keywords.value ==> OneLine(f)
    ensures TrimmedLine(Reason(w, q, u, premium, ""))
  {
    var r := Reason(w, q, u, premium, "");
    assert r[0] == r[..|w.name| + 5][0] == w.name[0];
    assert r[|r| - 1] == '.';
    assert OneLine("");
  }

  /** Every recommendation the service returns is readable. */
  lemma RecommendedReadable(st: Store<PriceTier>, q: string, uid: string, i: nat)
    requires ListableCatalog(st)
    requires Recommend(st, q, Some(uid), NoOptions).Ok?
    requires i < |Recommend(st, q, Some(uid), NoOptions).value|
    ensures Readable(st, Recommend(st, q, Some(uid), NoOptions).value[i])
  {
    var recs := Recommend(st, q, Some(uid), NoOptions).value;
    var cu := CurrentUser(st, Some(uid));
    var ws := Picks(recs);
    assert ws[i] in st.whiskeys;
    assert recs[i].whiskey == ws[i];
    FoundById(st, ws[i]);
    CurrentUserStored(st, Some(uid));
    ReasonTrimmed(ws[i], q, cu, ws[i].price == High);
  }

  /** A recommendation request answered by the corrected service from a
      listable catalogue is read back by the front end as the service's
      recommendations, in order; a failed request's apology lists nothing. */
  lemma RecommendReplyReadBack(st: Store<PriceTier>, query: string, userId: Option<string>, now: int, suffix: string)
    requires ListableCatalog(st)
    requires Route(query) == AskRecommend
    ensures var res := Recommend(st, query, Some(AgentUser(userId)), NoOptions);
            ParseResponse(st, Conversate(Corrected, st, query, userId, now, suffix).1) == if res.Ok? then res.value else []
  {
    var uid := AgentUser(userId);
    RecommendRouted(Corrected, st, query, userId, now, suffix);
    RecommendTurnReadBack(st, query, uid);
  }

  /** A query routed to recommendation takes the recommendation turn. */
  lemma RecommendRouted(b: Build, st: Store<PriceTier>, query: string, userId: Option<string>, now: int, suffix: string)
    requires Route(query) == AskRecommend
    ensures Conversate(b, st, query, userId, now, suffix).1 == RecommendReply(b, st, query, AgentUser(userId))
  {
  }

  /** The recommendation turn's reply reads back as its recommendations. */
  lemma RecommendTurnReadBack(st: Store<PriceTier>, query: string, uid: string)
    requires ListableCatalog(st)
    ensures var res := Recommend(st, query, Some(uid), NoOptions);
            ParseResponse(st, RecommendReply(Corrected, st, query, uid)) == if res.Ok? then res.value else []
  {
    var res := Recommend(st, query, Some(uid), NoOptions);
    var reply := RecommendReply(Corrected, st, query, uid);
    if res.Ok? {
      assert reply == FormatRecommendations(res.value);
      ListingReadBack(st, query, uid, res.value);
    } else {
      assert reply == ErrorReply(RecommendationFailed);
      RecommendMessagesOneLine(RecommendationFailed);
      ApologyListsNothing(st, RecommendationFailed);
    }
  }

  /** The listing of the service's recommendations reads back as them. */
  lemma ListingReadBack(st: Store<PriceTier>, query: string, uid: string, recs: seq<Recommendation<PriceTier>>)
    requires ListableCatalog(st)
    requires Recommend(st, query, Some(uid), NoOptions) == Ok(recs)
    ensures ParseResponse(st, FormatRecommendations(recs)) == recs
  {
    forall i | 0 <= i < |recs| ensures Readable(st, recs[i]) {
      RecommendedReadable(st, query, uid, i);
    }
    FormatThenParse(st, recs);
  }

  /** The apology for an error whose message is one line does not start
      with a digit, so the front end lists nothing. */
  lemma ApologyListsNothing(st: Store<PriceTier>, e: Error)
    requires '\n' !in Message(e)
    ensures ParseResponse(st, ErrorReply(e)) == []
  {
    var s := ErrorReply(e);
    ApologyOneLine(e);
    ApologyNotListed(s);
    SplitNoSep(s, '\n');
    assert Candidates(s) == [];
  }

  /** The two errors a recommendation request can end in have one-line messages. */
  lemma RecommendMessagesOneLine(e: Error)
    requires e == RecommendationFailed || e == UndefinedProperty("some")
    ensures '\n' !in Message(e)
  {
    if e == RecommendationFailed {
      FailedMessageOneLine();
    } else {
      UndefinedMessageOneLine();
    }
  }

  lemma UndefinedMessageOneLine()
    ensures '\n' !in Message(UndefinedProperty("some"))
  {
    var a1, a2, a3, a4 := "Cannot read ", "properties ", "of undefined", " (reading '";
    var m := Message(UndefinedProperty("some"));
    UndefinedMessagePieces();
    PiecesOneLine(a1, a2, a3, a4);
    OneLineConcat(a1 + a2 + a3 + a4, "some");
    OneLineConcat(a1 + a2 + a3 + a4 + "some", "')");
    assert OneLine(m);
  }

  lemma UndefinedMessagePieces()
    ensures Message(UndefinedProperty("some")) == "Cannot read " + "properties " + "of undefined" + " (reading '" + "some" + "')"
    ensures OneLine("some") && OneLine("')")
  {
  }

  lemma PiecesOneLine(a1: string, a2: string, a3: string, a4: string)
    requires a1 == "Cannot read " && a2 == "properties " && a3 == "of undefined" && a4 == " (reading '"
    ensures OneLine(a1 + a2 + a3 + a4)
  {
    assert OneLine(a1) && OneLine(a2);
    assert OneLine(a3) && OneLine(a4);
    OneLineConcat(a1, a2);
    OneLineConcat(a1 + a2, a3);
    OneLineConcat(a1 + a2 + a3, a4);
  }

  lemma FailedMessageOneLine()
    ensures '\n' !in Message(RecommendationFailed)
  {
  }

  lemma ApologyOneLine(e: Error)
    requires '\n' !in Message(e)
    ensures '\n' !in ErrorReply(e)
  {
    var a := "오류가 발생했습니다: ";
    var b := ". 다시 시도해주세요.";
    assert ErrorReply(e) == a + Message(e) + b;
    ApologyFrameNoBreak();
    NoBreakConcat3(a, Message(e), b);
  }

  /** The text around an apology's message has no line break. */
  lemma ApologyFrameNoBreak()
    ensures '\n' !in "오류가 발생했습니다: " && '\n' !in ". 다시 시도해주세요."
  {
    var a := "오류가 발생했습니다: ";
    assert '\n' !in a by {
      assert a == "오류가 " + "발생했습니다: ";
    }
  }

  /** Three texts without a line break join into one without. */
  lemma NoBreakConcat3(a: string, m: string, b: string)
    requires '\n' !in a && '\n' !in m && '\n' !in b
    ensures '\n' !in a + m + b
  {
  }

  lemma ApologyNotListed(s: string)
    requires exists e :: s == ErrorReply(e)
    ensures !IsCandidate(s)
  {
    assert s[0] == '오' && s[|s| - 1] == '.';
    TrimOfTrimmed(s);
    assert DigitRunEnd(s, 0) == 0;
  }

  /** On the service as written, a known caller without flavour keywords is
      answered with an apology whatever the catalogue holds: the corrected
      service's picks never reach the front end, which lists nothing. */
  lemma AsWrittenKnownUserSeesNothing(st: Store<PriceTier>, query: string, userId: Option<string>, now: int, suffix: string)
    requires Route(query) == AskRecommend
    requires var cu := CurrentUser(st, Some(AgentUser(userId)));
             cu.Some? && cu.value.prefs.keywords.None?
    ensures ParseResponse(st, Conversate(AsWritten, st, query, userId, now, suffix).1) == []
  {
    RecommendRouted(AsWritten, st, query, userId, now, suffix);
    var e := AsWrittenApology(st, query, AgentUser(userId));
    RecommendMessagesOneLine(e);
    ApologyListsNothing(st, e);
  }

  /** The reply the build as written gives a known caller without keywords. */
  lemma AsWrittenApology(st: Store<PriceTier>, query: string, uid: string) returns (e: Error)
    requires var cu := CurrentUser(st, Some(uid));
             cu.Some? && cu.value.prefs.keywords.None?
    ensures RecommendReply(AsWritten, st, query, uid) == ErrorReply(e)
    ensures e == UndefinedProperty("some") || e == RecommendationFailed
  {
    e := if Recommend(st, query, Some(uid), NoOptions).Ok? then UndefinedProperty("some") else RecommendationFailed;
  }

  /** The front end's own caller, user001 of the seeded store, asking
      "추천해줘": the corrected service has picks for them, while the build
      as written answers with the `TypeError` apology and the page lists
      nothing. */
  lemma SeedUserSeesNothing(now: int, suffix: string)
    ensures Recommend(TierSeed(now), "추천해줘", Some("user001"), NoOptions).Ok?
    ensures var r := Conversate(AsWritten, TierSeed(now), "추천해줘", Some("user001"), now, suffix);
            && r.1 == ErrorReply(UndefinedProperty("some"))
            && ParseResponse(TierSeed(now), r.1) == []
  {
    var st := TierSeed(now);
    var q := "추천해줘";
    PlainAskRoutes();
    SeedUserHasPicks(now);
    assert AgentUser(Some("user001")) == "user001";
    AsWrittenKnownUserApologises(st, q, Some("user001"), now, suffix);
    AsWrittenKnownUserSeesNothing(st, q, Some("user001"), now, suffix);
  }

  lemma PlainAskRoutes()
    ensures Route("추천해줘") == AskRecommend
  {
    assert HasAt("추천해줘", 0, "추천");
  }

  /** user001 is known, has no keywords, and has picks for "추천해줘". */
  lemma SeedUserHasPicks(now: int)
    ensures var cu := CurrentUser(TierSeed(now), Some("user001"));
            cu.Some? && cu.value.prefs.keywords.None?
    ensures Recommend(TierSeed(now), "추천해줘", Some("user001"), NoOptions).Ok?
  {
    var st := TierSeed(now);
    var u := SeedUser001(now);
    PlainAskFiltersNothing();
    assert Candidate("추천해줘", Some(u), NoOptions, st.whiskeys[0]);
    RecommendAsWrittenFails(st, "추천해줘", Some("user001"), NoOptions, st.whiskeys[0]);
  }

  /** On the build as written, a known caller without keywords who has
      picks gets the `TypeError` apology. */
  lemma AsWrittenKnownUserApologises(st: Store<PriceTier>, query: string, userId: Option<string>, now: int, suffix: string)
    requires Route(query) == AskRecommend
    requires var cu := CurrentUser(st, Some(AgentUser(userId)));
             cu.Some? && cu.value.prefs.keywords.None?
    requires Recommend(st, query, Some(AgentUser(userId)), NoOptions).Ok?
    ensures Conversate(AsWritten, st, query, userId, now, suffix).1 == ErrorReply(UndefinedProperty("some"))
  {
    RecommendRouted(AsWritten, st, query, userId, now, suffix);
    var e := AsWrittenApology(st, query, AgentUser(userId));
  }
}
