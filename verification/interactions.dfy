/** The service operations that read or write one user's record or the
    tasting notes. Both revisions of `OktongRecommendationService` carry
    the same code for these, so they are generic in the price type; like,
    dislike and search history exist only in the tier revision.
 */
module Interactions {
  import opened Common
  import opened Seqs
  import opened Sorting
  import opened Text
  import opened Records
  import opened Database

  /** `st2` is `st` with user slot `i` replaced by `u` and nothing else changed. */
  ghost predicate OnlySlotChanged<Pr>(st: Store<Pr>, st2: Store<Pr>, i: nat, u: User)
  {
    && i < |st.users|
    && st2.whiskeys == st.whiskeys && st2.notes == st.notes
    && |st2.users| == |st.users|
    && st2.users[i] == u
    && forall j :: 0 <= j < |st.users| && j != i ==> st2.users[j] == st.users[j]
  }

  /** The update every history operation sends: the whole history object. */
  function HistoryUpdate(h: History): UserPatch
  {
    UserPatch(None, None, Some(PatchOfHistory(h)), None)
  }

  // ---------------------------------------------------------------------
  // saveUserPreferences

  /** `saveUserPreferences`: an unknown user is an error and changes nothing;
      otherwise the preferences are merged into the user's, and the stored
      record is returned. The "update failed" error cannot occur. */
  function SaveUserPreferences<Pr>(st: Store<Pr>, userId: string, prefs: Prefs): (r: (Store<Pr>, Result<User>))
    ensures UserIndex(st.users, userId).None? <==> r.1 == Err(UserNotFound)
    ensures r.1.Err? ==> r.0 == st
    ensures r.1 != Err(SaveFailed)
    ensures r.1.Ok? ==>
      var i := UserIndex(st.users, userId).value;
      var u := st.users[i];
      && OnlySlotChanged(st, r.0, i, r.1.value)
      && r.1.value == u.(prefs := MergePrefs(u.prefs, PatchOfPrefs(prefs)))
      && r.1.value.prefs.body == prefs.body && r.1.value.prefs.richness == prefs.richness
      && r.1.value.prefs.smokiness == prefs.smokiness && r.1.value.prefs.sweetness == prefs.sweetness
  {
    match UserById(st, userId)
    case None => (st, Err(UserNotFound))
    case Some(_) =>
      var (st2, updated) := UpdateUser(st, userId, UserPatch(None, Some(PatchOfPrefs(prefs)), None, None));
      if updated.Some? then (st2, Ok(updated.value)) else (st, Err(SaveFailed))
  }

  // ---------------------------------------------------------------------
  // likeWhiskey / dislikeWhiskey / addSearchHistory

  /** `likeWhiskey`: an unknown user gives `false` and no change; otherwise
      the id joins the liked list (once, even if it was there) and leaves the
      disliked list, and nothing else about the user changes. */
  function Like<Pr>(st: Store<Pr>, userId: string, whiskeyId: string): (r: (Store<Pr>, bool))
    ensures !r.1 <==> UserIndex(st.users, userId).None?
    ensures !r.1 ==> r.0 == st
    ensures r.1 ==>
      var i := UserIndex(st.users, userId).value;
      var u := st.users[i];
      && |r.0.users| == |st.users|
      && var h := r.0.users[i].history;
      && OnlySlotChanged(st, r.0, i, u.(history := h))
      && h.viewed == u.history.viewed && h.searches == u.history.searches
      && whiskeyId in h.liked && NoDup(h.liked)
      && (forall x :: x in h.liked <==> x in u.history.liked || x == whiskeyId)
      && whiskeyId !in h.disliked
      && (forall x :: x in h.disliked <==> x in u.history.disliked && x != whiskeyId)
      && IsSubseq(h.disliked, u.history.disliked)
  {
    match UserById(st, userId)
    case None => (st, false)
    case Some(u) =>
      var liked := Dedup(u.history.liked + [whiskeyId]);
      var disliked := Filter(u.history.disliked, (id: string) => id != whiskeyId);
      FilterIsSubseq(u.history.disliked, (id: string) => id != whiskeyId);
      var h := u.history.(liked := liked, disliked := disliked);
      (UpdateUser(st, userId, HistoryUpdate(h)).0, true)
  }

  /** `dislikeWhiskey`: `Like` with the two lists swapped. */
  function Dislike<Pr>(st: Store<Pr>, userId: string, whiskeyId: string): (r: (Store<Pr>, bool))
    ensures !r.1 <==> UserIndex(st.users, userId).None?
    ensures !r.1 ==> r.0 == st
    ensures r.1 ==>
      var i := UserIndex(st.users, userId).value;
      var u := st.users[i];
      && |r.0.users| == |st.users|
      && var h := r.0.users[i].history;
      && OnlySlotChanged(st, r.0, i, u.(history := h))
      && h.viewed == u.history.viewed && h.searches == u.history.searches
      && whiskeyId in h.disliked && NoDup(h.disliked)
      && (forall x :: x in h.disliked <==> x in u.history.disliked || x == whiskeyId)
      && whiskeyId !in h.liked
      && (forall x :: x in h.liked <==> x in u.history.liked && x != whiskeyId)
      && IsSubseq(h.liked, u.history.liked)
  {
    match UserById(st, userId)
    case None => (st, false)
    case Some(u) =>
      var disliked := Dedup(u.history.disliked + [whiskeyId]);
      var liked := Filter(u.history.liked, (id: string) => id != whiskeyId);
      FilterIsSubseq(u.history.liked, (id: string) => id != whiskeyId);
      var h := u.history.(liked := liked, disliked := disliked);
      (UpdateUser(st, userId, HistoryUpdate(h)).0, true)
  }

  /** On a list without repeats, liking a new id appends it at the end, and
      liking an id already liked leaves the list as it was. */
  lemma LikeAppends<Pr>(st: Store<Pr>, userId: string, whiskeyId: string)
    requires UserIndex(st.users, userId).Some?
    requires NoDup(st.users[UserIndex(st.users, userId).value].history.liked)
    ensures var i := UserIndex(st.users, userId).value;
            var liked := st.users[i].history.liked;
            Like(st, userId, whiskeyId).0.users[i].history.liked
              == if whiskeyId in liked then liked else liked + [whiskeyId]
  {
    var i := UserIndex(st.users, userId).value;
    var liked := st.users[i].history.liked;
    DedupSnoc(liked, whiskeyId);
    DedupOfNoDup(liked);
  }

  /** Liking twice is liking once. */
  lemma LikeIdempotent<Pr>(st: Store<Pr>, userId: string, whiskeyId: string)
    requires UserIndex(st.users, userId).Some?
    ensures var st1 := Like(st, userId, whiskeyId).0;
            Like(st1, userId, whiskeyId).0 == st1
  {
    var i := UserIndex(st.users, userId).value;
    var st1 := Like(st, userId, whiskeyId).0;
    var u1 := st1.users[i];
    LikeKeepsIndex(st, userId, whiskeyId);
    LikeAppends(st1, userId, whiskeyId);
    var p := (id: string) => id != whiskeyId;
    assert Filter(u1.history.disliked, p) == u1.history.disliked by {
      FilterAllKept(u1.history.disliked, p);
    }
    assert st1.users[i := st1.users[i]] == st1.users;
  }

  /** The last of a like and a dislike of the same id wins. */
  lemma LikeThenDislike<Pr>(st: Store<Pr>, userId: string, whiskeyId: string)
    requires UserIndex(st.users, userId).Some?
    ensures var i := UserIndex(st.users, userId).value;
            var h := Dislike(Like(st, userId, whiskeyId).0, userId, whiskeyId).0.users[i].history;
            whiskeyId in h.disliked && whiskeyId !in h.liked
  {
    var i := UserIndex(st.users, userId).value;
    LikeKeepsIndex(st, userId, whiskeyId);
  }

  /** A like leaves every user where it was. */
  lemma LikeKeepsIndex<Pr>(st: Store<Pr>, userId: string, whiskeyId: string)
    requires UserIndex(st.users, userId).Some?
    ensures UserIndex(Like(st, userId, whiskeyId).0.users, userId) == UserIndex(st.users, userId)
  {
    var i := UserIndex(st.users, userId).value;
    var st1 := Like(st, userId, whiskeyId).0;
    assert forall j :: 0 <= j < i ==> st1.users[j] == st.users[j];
  }

  /** `addSearchHistory`: the query is appended at the end of the search list. */
  function AddSearch<Pr>(st: Store<Pr>, userId: string, query: string): (r: (Store<Pr>, bool))
    ensures !r.1 <==> UserIndex(st.users, userId).None?
    ensures !r.1 ==> r.0 == st
    ensures r.1 ==>
      var i := UserIndex(st.users, userId).value;
      var u := st.users[i];
      && OnlySlotChanged(st, r.0, i, u.(history := u.history.(searches := u.history.searches + [query])))
  {
    match UserById(st, userId)
    case None => (st, false)
    case Some(u) =>
      var h := u.history.(searches := u.history.searches + [query]);
      (UpdateUser(st, userId, HistoryUpdate(h)).0, true)
  }

  // ---------------------------------------------------------------------
  // getWhiskeyDetails

  /** The view history after viewing `whiskeyId` at `now`: earlier views of
      that whiskey removed, the new one last. */
  function Revisit(viewed: seq<ViewEntry>, whiskeyId: string, now: int): (r: seq<ViewEntry>)
    ensures |r| >= 1 && r[|r| - 1] == ViewEntry(whiskeyId, now)
    ensures forall k :: 0 <= k < |r| - 1 ==> r[k].whiskeyId != whiskeyId
    ensures forall e :: e in r[..|r| - 1] <==> e in viewed && e.whiskeyId != whiskeyId
    ensures IsSubseq(r[..|r| - 1], viewed)
  {
    var p := (e: ViewEntry) => e.whiskeyId != whiskeyId;
    var kept := Filter(viewed, p);
    FilterIsSubseq(viewed, p);
    assert (kept + [ViewEntry(whiskeyId, now)])[..|kept|] == kept;
    assert forall k :: 0 <= k < |kept| ==> kept[k] in kept;
    kept + [ViewEntry(whiskeyId, now)]
  }

  /** Viewing the same whiskey again replaces the earlier entry: the history
      holds exactly one entry for it, the latest. */
  lemma RevisitTwice(viewed: seq<ViewEntry>, whiskeyId: string, t1: int, t2: int)
    ensures Revisit(Revisit(viewed, whiskeyId, t1), whiskeyId, t2) == Revisit(viewed, whiskeyId, t2)
  {
    var p := (e: ViewEntry) => e.whiskeyId != whiskeyId;
    FilterConcat(Filter(viewed, p), [ViewEntry(whiskeyId, t1)], p);
    FilterIdempotent(viewed, p);
    assert Filter([ViewEntry(whiskeyId, t1)], p) == [];
  }

  /** `getWhiskeyDetails`: the whiskey, or an error when it is unknown. When
      a truthy user id names a known user and the whiskey exists, that
      user's view history becomes `Revisit(…)`; in every other case the
      store is unchanged. */
  function ViewDetails<Pr>(st: Store<Pr>, whiskeyId: string, userId: Option<string>, now: int): (r: (Store<Pr>, Result<Whiskey<Pr>>))
    ensures WhiskeyById(st, whiskeyId).None? <==> r.1 == Err(DetailsNotFound)
    ensures r.1.Ok? ==> r.1.value == WhiskeyById(st, whiskeyId).value && r.1.value.id == whiskeyId
    ensures r.1.Ok? && Truthy(userId) && UserIndex(st.users, userId.value).Some? ==>
      var i := UserIndex(st.users, userId.value).value;
      var u := st.users[i];
      OnlySlotChanged(st, r.0, i, u.(history := u.history.(viewed := Revisit(u.history.viewed, whiskeyId, now))))
    ensures !(r.1.Ok? && Truthy(userId) && UserIndex(st.users, userId.value).Some?) ==> r.0 == st
  {
    var found := WhiskeyById(st, whiskeyId);
    var st2 :=
      if Truthy(userId) && found.Some? then
        match UserById(st, userId.value)
        case Some(u) =>
          var h := u.history.(viewed := Revisit(u.history.viewed, whiskeyId, now));
          UpdateUser(st, userId.value, HistoryUpdate(h)).0
        case None => st
      else st;
    if found.None? then (st2, Err(DetailsNotFound)) else (st2, Ok(found.value))
  }

  // ---------------------------------------------------------------------
  // submitTastingNote

  /** The total score lies in [1, 5] and each of the four axes in [0, 5]. */
  predicate ValidScores(rating: real, body: real, richness: real, smokiness: real, sweetness: real)
  {
    && 1.0 <= rating <= 5.0
    && 0.0 <= body <= 5.0 && 0.0 <= richness <= 5.0
    && 0.0 <= smokiness <= 5.0 && 0.0 <= sweetness <= 5.0
  }

  /** `tn${Date.now()}-${random}`: the random base-36 suffix is a parameter. */
  function NoteId(now: int, suffix: string): (r: string)
    ensures |r| > 3 + |suffix| && r[..2] == "tn" && r[|r| - |suffix| - 1..] == "-" + suffix
  {
    "tn" + IntToString(now) + "-" + suffix
  }

  /** `submitTastingNote`: an unknown user or whiskey, then a score out of
      range, are errors that leave the store as it was; otherwise exactly one
      note carrying the given fields is appended and linked to its author. */
  function SubmitTastingNote<Pr>(st: Store<Pr>, userId: string, whiskeyId: string, rating: real,
                                 reviewText: string, body: real, richness: real, smokiness: real,
                                 sweetness: real, now: int, suffix: string): (r: (Store<Pr>, Result<TastingNote>))
    ensures r.1 == Err(UserOrWhiskeyNotFound) <==>
              UserIndex(st.users, userId).None? || WhiskeyById(st, whiskeyId).None?
    ensures r.1 == Err(InvalidRating) <==>
              UserIndex(st.users, userId).Some? && WhiskeyById(st, whiskeyId).Some?
              && !ValidScores(rating, body, richness, smokiness, sweetness)
    ensures r.1.Err? ==> r.0 == st
    ensures r.1.Ok? ==>
      var n := r.1.value;
      && n == TastingNote(NoteId(now, suffix), userId, whiskeyId, rating, reviewText,
                          body, richness, smokiness, sweetness, now)
      && r.0 == AddTastingNote(st, n)
      && r.0.notes == st.notes + [n]
      && r.0.whiskeys == st.whiskeys
      && |r.0.users| == |st.users|
      && n.id in r.0.users[UserIndex(st.users, userId).value].evaluated
  {
    var user := UserById(st, userId);
    var whiskey := WhiskeyById(st, whiskeyId);
    if user.None? || whiskey.None? then (st, Err(UserOrWhiskeyNotFound))
    else if !ValidScores(rating, body, richness, smokiness, sweetness) then (st, Err(InvalidRating))
    else
      var n := TastingNote(NoteId(now, suffix), userId, whiskeyId, rating, reviewText,
                           body, richness, smokiness, sweetness, now);
      (AddTastingNote(st, n), Ok(n))
  }

  /** A submitted note is found again by both note queries, as their last element. */
  lemma SubmittedNoteIsFound<Pr>(st: Store<Pr>, userId: string, whiskeyId: string, rating: real,
                                 reviewText: string, body: real, richness: real, smokiness: real,
                                 sweetness: real, now: int, suffix: string)
    requires UserIndex(st.users, userId).Some? && WhiskeyById(st, whiskeyId).Some?
    requires ValidScores(rating, body, richness, smokiness, sweetness)
    ensures var r := SubmitTastingNote(st, userId, whiskeyId, rating, reviewText, body, richness,
                                       smokiness, sweetness, now, suffix);
      && r.1.Ok?
      && NotesByUser(r.0, userId) == NotesByUser(st, userId) + [r.1.value]
      && NotesByWhiskey(r.0, whiskeyId) == NotesByWhiskey(st, whiskeyId) + [r.1.value]
  {
    var n := TastingNote(NoteId(now, suffix), userId, whiskeyId, rating, reviewText,
                         body, richness, smokiness, sweetness, now);
    var st2 := AddTastingNote(st, n);
    assert SubmitTastingNote(st, userId, whiskeyId, rating, reviewText, body, richness,
                             smokiness, sweetness, now, suffix) == (st2, Ok(n));
    AppendedNoteByUser(st, st2, n);
    AppendedNoteByWhiskey(st, st2, n);
  }

  /** A note appended to the store comes last among its author's notes. */
  lemma AppendedNoteByUser<Pr>(st: Store<Pr>, st2: Store<Pr>, n: TastingNote)
    requires st2.notes == st.notes + [n]
    ensures NotesByUser(st2, n.userId) == NotesByUser(st, n.userId) + [n]
  {
    FilterConcat(st.notes, [n], (m: TastingNote) => m.userId == n.userId);
  }

  /** A note appended to the store comes last among its whiskey's notes. */
  lemma AppendedNoteByWhiskey<Pr>(st: Store<Pr>, st2: Store<Pr>, n: TastingNote)
    requires st2.notes == st.notes + [n]
    ensures NotesByWhiskey(st2, n.whiskeyId) == NotesByWhiskey(st, n.whiskeyId) + [n]
  {
    FilterConcat(st.notes, [n], (m: TastingNote) => m.whiskeyId == n.whiskeyId);
  }

  // ---------------------------------------------------------------------
  // getEvaluatedWhiskeys / getRecentlyViewedWhiskeys / getAllWhiskies

  /** The whiskey a note is about, paired with the note, or nothing when the
      whiskey is unknown. */
  function NoteWithWhiskey<Pr>(st: Store<Pr>): TastingNote -> Option<(Whiskey<Pr>, TastingNote)>
  {
    (n: TastingNote) =>
      match WhiskeyById(st, n.whiskeyId)
      case Some(w) => Some((w, n))
      case None => None
  }

  /** `getEvaluatedWhiskeys`: each of the user's notes whose whiskey is known,
      paired with that whiskey. */
  function Evaluated<Pr>(st: Store<Pr>, userId: string): (r: Result<seq<(Whiskey<Pr>, TastingNote)>>)
    ensures r == Err(UserInfoNotFound) <==> UserIndex(st.users, userId).None?
    ensures r == Err(NoEvaluations) <==>
              UserIndex(st.users, userId).Some? && forall n :: n in st.notes ==> n.userId != userId
    ensures r.Ok? ==>
      && (forall p :: p in r.value ==> p.1 in st.notes && p.1.userId == userId
                                       && WhiskeyById(st, p.1.whiskeyId) == Some(p.0))
      && (forall n :: n in st.notes && n.userId == userId && WhiskeyById(st, n.whiskeyId).Some?
                      ==> (WhiskeyById(st, n.whiskeyId).value, n) in r.value)
    ensures r.Ok? ==>
      && NotesOfPairs(r.value) == Filter(NotesByUser(st, userId), NoteKnownIn(st))
      && forall k :: 0 <= k < |r.value| ==> WhiskeyById(st, r.value[k].1.whiskeyId) == Some(r.value[k].0)
  {
    if UserById(st, userId).None? then Err(UserInfoNotFound)
    else
      var notes := NotesByUser(st, userId);
      if |notes| == 0 then
        NoNotesOf(st, userId);
        Err(NoEvaluations)
      else
        assert notes[0] in st.notes;
        PairedNotes(st, userId);
        PairedInOrder(st, notes);
        Ok(FilterMap(notes, NoteWithWhiskey(st)))
  }

  /** The note's whiskey is stored. */
  function NoteKnownIn<Pr>(st: Store<Pr>): TastingNote -> bool
  {
    (n: TastingNote) => WhiskeyById(st, n.whiskeyId).Some?
  }

  /** The notes a list of evaluated pairs stands for, in order. */
  function NotesOfPairs<Pr>(r: seq<(Whiskey<Pr>, TastingNote)>): (ns: seq<TastingNote>)
    ensures |ns| == |r| && forall k :: 0 <= k < |r| ==> ns[k] == r[k].1
  {
    if |r| == 0 then [] else [r[0].1] + NotesOfPairs(r[1..])
  }

  /** Pairing notes with their whiskeys keeps exactly the notes on stored
      whiskeys, one pair per note, in the order given. */
  lemma {:induction false} PairedInOrder<Pr>(st: Store<Pr>, s: seq<TastingNote>)
    ensures var r := FilterMap(s, NoteWithWhiskey(st));
      && NotesOfPairs(r) == Filter(s, NoteKnownIn(st))
      && forall k :: 0 <= k < |r| ==> WhiskeyById(st, r[k].1.whiskeyId) == Some(r[k].0)
    decreases |s|
  {
    if |s| > 0 {
      PairedInOrder(st, s[1..]);
      var rest := FilterMap(s[1..], NoteWithWhiskey(st));
      match WhiskeyById(st, s[0].whiskeyId)
      case Some(w) =>
        var r := [(w, s[0])] + rest;
        assert r[1..] == rest;
      case None =>
    }
  }

  /** A submitted note becomes the author's last evaluated whiskey, after
      the ones evaluated before (none when the author had no note yet). */
  lemma SubmittedNoteIsEvaluatedLast<Pr>(st: Store<Pr>, userId: string, whiskeyId: string, rating: real,
                                         reviewText: string, body: real, richness: real, smokiness: real,
                                         sweetness: real, now: int, suffix: string)
    requires UserIndex(st.users, userId).Some? && WhiskeyById(st, whiskeyId).Some?
    requires ValidScores(rating, body, richness, smokiness, sweetness)
    ensures var r := SubmitTastingNote(st, userId, whiskeyId, rating, reviewText, body, richness,
                                       smokiness, sweetness, now, suffix);
            var before := Evaluated(st, userId);
            && r.1.Ok?
            && Evaluated(r.0, userId)
               == Ok((if before.Ok? then before.value else []) + [(WhiskeyById(st, whiskeyId).value, r.1.value)])
  {
    var n := TastingNote(NoteId(now, suffix), userId, whiskeyId, rating, reviewText,
                         body, richness, smokiness, sweetness, now);
    var st2 := AddTastingNote(st, n);
    assert SubmitTastingNote(st, userId, whiskeyId, rating, reviewText, body, richness,
                             smokiness, sweetness, now, suffix) == (st2, Ok(n));
    var i := UserIndex(st.users, userId).value;
    assert st2.users[i].id == userId;
    EvaluatedAfterAppend(st, st2, n);
  }

  /** Appending a note on a stored whiskey, by a user both stores know,
      adds one pair at the end of that user's evaluated whiskeys. */
  lemma EvaluatedAfterAppend<Pr>(st: Store<Pr>, st2: Store<Pr>, n: TastingNote)
    requires st2.notes == st.notes + [n] && st2.whiskeys == st.whiskeys
    requires UserIndex(st.users, n.userId).Some? && UserIndex(st2.users, n.userId).Some?
    requires WhiskeyById(st, n.whiskeyId).Some?
    ensures var before := Evaluated(st, n.userId);
            Evaluated(st2, n.userId)
            == Ok((if before.Ok? then before.value else []) + [(WhiskeyById(st, n.whiskeyId).value, n)])
  {
    PairsAfterAppend(st, st2, n);
    var old_notes := NotesByUser(st, n.userId);
    assert n in NotesByUser(st2, n.userId);
    assert Evaluated(st2, n.userId) == Ok(FilterMap(NotesByUser(st2, n.userId), NoteWithWhiskey(st2)));
    if |old_notes| == 0 {
      assert FilterMap(old_notes, NoteWithWhiskey(st)) == [];
    }
  }

  /** The pairs behind `EvaluatedAfterAppend`: the old pairs, then the new one. */
  lemma PairsAfterAppend<Pr>(st: Store<Pr>, st2: Store<Pr>, n: TastingNote)
    requires st2.notes == st.notes + [n] && st2.whiskeys == st.whiskeys
    requires WhiskeyById(st, n.whiskeyId).Some?
    ensures FilterMap(NotesByUser(st2, n.userId), NoteWithWhiskey(st2))
            == FilterMap(NotesByUser(st, n.userId), NoteWithWhiskey(st)) + [(WhiskeyById(st, n.whiskeyId).value, n)]
  {
    AppendedNoteByUser(st, st2, n);
    var old_notes := NotesByUser(st, n.userId);
    FilterMapConcat(old_notes, [n], NoteWithWhiskey(st2));
    SameCataloguePairs(st, st2, old_notes);
    PairOfOne(st2, n);
  }

  /** Two stores with the same catalogue pair notes alike. */
  lemma SameCataloguePairs<Pr>(st: Store<Pr>, st2: Store<Pr>, s: seq<TastingNote>)
    requires st2.whiskeys == st.whiskeys
    ensures FilterMap(s, NoteWithWhiskey(st2)) == FilterMap(s, NoteWithWhiskey(st))
  {
    forall i | 0 <= i < |s| ensures NoteWithWhiskey(st2)(s[i]) == NoteWithWhiskey(st)(s[i]) {
      assert WhiskeyById(st2, s[i].whiskeyId) == WhiskeyById(st, s[i].whiskeyId);
    }
    FilterMapAgree(s, NoteWithWhiskey(st2), NoteWithWhiskey(st));
  }

  /** One note on a stored whiskey pairs to itself with that whiskey. */
  lemma PairOfOne<Pr>(st: Store<Pr>, n: TastingNote)
    requires WhiskeyById(st, n.whiskeyId).Some?
    ensures FilterMap([n], NoteWithWhiskey(st)) == [(WhiskeyById(st, n.whiskeyId).value, n)]
  {
    assert [n][1..] == [];
  }

  /** A user with no notes in the query has none in the store. */
  lemma NoNotesOf<Pr>(st: Store<Pr>, userId: string)
    requires |NotesByUser(st, userId)| == 0
    ensures forall n :: n in st.notes ==> n.userId != userId
  {
    forall n | n in st.notes ensures n.userId != userId {
      assert n in NotesByUser(st, userId) <==> n.userId == userId;
    }
  }

  /** The pairs of a user's notes with their whiskeys are exactly the user's
      notes about known whiskeys. */
  lemma PairedNotes<Pr>(st: Store<Pr>, userId: string)
    ensures var r := FilterMap(NotesByUser(st, userId), NoteWithWhiskey(st));
      && (forall p :: p in r ==> p.1 in st.notes && p.1.userId == userId
                                 && WhiskeyById(st, p.1.whiskeyId) == Some(p.0))
      && (forall n :: n in st.notes && n.userId == userId && WhiskeyById(st, n.whiskeyId).Some?
                      ==> (WhiskeyById(st, n.whiskeyId).value, n) in r)
  {
    var notes := NotesByUser(st, userId);
    var f := NoteWithWhiskey(st);
    var r := FilterMap(notes, f);
    forall p | p in r ensures p.1 in st.notes && p.1.userId == userId && WhiskeyById(st, p.1.whiskeyId) == Some(p.0) {
      var x :| x in notes && f(x) == Some(p);
    }
    forall n | n in st.notes && n.userId == userId && WhiskeyById(st, n.whiskeyId).Some?
      ensures (WhiskeyById(st, n.whiskeyId).value, n) in r
    {
      assert n in notes && f(n).Some?;
    }
  }

  /** The comparator `(a, b) => b.viewedAt - a.viewedAt`: most recent first. */
  function Recent(): (ViewEntry, ViewEntry) -> bool
  {
    (a: ViewEntry, b: ViewEntry) => b.viewedAt <= a.viewedAt
  }

  function EntryWithWhiskey<Pr>(st: Store<Pr>): ViewEntry -> Option<(Whiskey<Pr>, int)>
  {
    (e: ViewEntry) =>
      match WhiskeyById(st, e.whiskeyId)
      case Some(w) => Some((w, e.viewedAt))
      case None => None
  }

  /** The entry names a stored whiskey. */
  function KnownIn<Pr>(st: Store<Pr>): ViewEntry -> bool
  {
    (e: ViewEntry) => WhiskeyById(st, e.whiskeyId).Some?
  }

  /** The history entries a list of resolved views stands for. */
  function Entries<Pr>(r: seq<(Whiskey<Pr>, int)>): (es: seq<ViewEntry>)
    ensures |es| == |r| && forall k :: 0 <= k < |r| ==> es[k] == ViewEntry(r[k].0.id, r[k].1)
  {
    if |r| == 0 then [] else [ViewEntry(r[0].0.id, r[0].1)] + Entries(r[1..])
  }

  /** `getRecentlyViewedWhiskeys`. An unknown user and an empty history are
      errors that change nothing. Otherwise the result holds every history
      entry whose whiskey is stored, as often as the history holds it,
      paired with that whiskey; most recent first, entries viewed at the
      same time in history order. The sort works in place on the stored
      history, so the user's history is left in that order too. */
  function RecentlyViewed<Pr>(st: Store<Pr>, userId: string): (r: (Store<Pr>, Result<seq<(Whiskey<Pr>, int)>>))
    ensures r.1 == Err(UserInfoNotFound) <==> UserIndex(st.users, userId).None?
    ensures r.1 == Err(NoRecentViews) <==>
              UserIndex(st.users, userId).Some? && |st.users[UserIndex(st.users, userId).value].history.viewed| == 0
    ensures r.1.Err? ==> r.0 == st
    ensures |r.0.users| == |st.users|
    ensures r.1.Ok? ==>
      var viewed := st.users[UserIndex(st.users, userId).value].history.viewed;
      var known := Filter(viewed, KnownIn(st));
      var es := Entries(r.1.value);
      && multiset(es) == multiset(known)
      && SortedBy(es, Recent())
      && (forall z :: TiedWith(es, Recent(), z) == TiedWith(known, Recent(), z))
      && (forall k :: 0 <= k < |r.1.value| ==> WhiskeyById(st, r.1.value[k].0.id) == Some(r.1.value[k].0))
    ensures r.1.Ok? ==>
      var i := UserIndex(st.users, userId).value;
      var u := st.users[i];
      var h := r.0.users[i].history.viewed;
      && OnlySlotChanged(st, r.0, i, u.(history := u.history.(viewed := h)))
      && multiset(h) == multiset(u.history.viewed)
      && SortedBy(h, Recent())
      && (forall z :: TiedWith(h, Recent(), z) == TiedWith(u.history.viewed, Recent(), z))
  {
    match UserIndex(st.users, userId)
    case None => (st, Err(UserInfoNotFound))
    case Some(i) =>
      var u := st.users[i];
      if |u.history.viewed| == 0 then (st, Err(NoRecentViews))
      else
        var sorted := StableSort(u.history.viewed, Recent());
        SortedInPlace(st, i);
        ResolvedHistory(st, u.history.viewed);
        (st.(users := st.users[i := u.(history := u.history.(viewed := sorted))]), Ok(ResolveViews(st, sorted)))
  }

  /** Sorting one user's history in place changes that user's history, to a
      sorted permutation with ties in history order, and nothing else. */
  lemma SortedInPlace<Pr>(st: Store<Pr>, i: nat)
    requires i < |st.users|
    ensures var u := st.users[i];
            var h := StableSort(u.history.viewed, Recent());
            var st2 := st.(users := st.users[i := u.(history := u.history.(viewed := h))]);
            && OnlySlotChanged(st, st2, i, u.(history := u.history.(viewed := h)))
            && st2.users[i].history.viewed == h
            && multiset(h) == multiset(u.history.viewed)
            && SortedBy(h, Recent())
            && (forall z :: TiedWith(h, Recent(), z) == TiedWith(u.history.viewed, Recent(), z))
  {
    SortedViews(st.users[i].history.viewed);
  }

  /** Resolving the history once sorted keeps exactly its known entries,
      most recent first, ties in history order. */
  lemma ResolvedHistory<Pr>(st: Store<Pr>, s: seq<ViewEntry>)
    ensures var es := Entries(ResolveViews(st, StableSort(s, Recent())));
            var known := Filter(s, KnownIn(st));
            && multiset(es) == multiset(known)
            && SortedBy(es, Recent())
            && (forall z :: TiedWith(es, Recent(), z) == TiedWith(known, Recent(), z))
  {
    SortedViews(s);
    ResolvedInOrder(st, s, StableSort(s, Recent()));
  }

  /** The history sorted most recent first: a permutation, ordered, with
      ties in their history order. */
  lemma SortedViews(s: seq<ViewEntry>)
    ensures var sorted := StableSort(s, Recent());
            && SortedBy(sorted, Recent())
            && forall z :: TiedWith(sorted, Recent(), z) == TiedWith(s, Recent(), z)
  {
    assert TotalPreorder(Recent());
    SortSorted(s, Recent());
    forall z ensures TiedWith(StableSort(s, Recent()), Recent(), z) == TiedWith(s, Recent(), z) {
      SortStable(s, Recent(), z);
    }
  }

  /** Resolving the sorted history keeps exactly the known entries, sorted,
      with ties in their history order. */
  lemma ResolvedInOrder<Pr>(st: Store<Pr>, s: seq<ViewEntry>, sorted: seq<ViewEntry>)
    requires multiset(sorted) == multiset(s) && SortedBy(sorted, Recent())
    requires forall z :: TiedWith(sorted, Recent(), z) == TiedWith(s, Recent(), z)
    ensures var es := Entries(ResolveViews(st, sorted));
            var known := Filter(s, KnownIn(st));
            && multiset(es) == multiset(known)
            && SortedBy(es, Recent())
            && forall z :: TiedWith(es, Recent(), z) == TiedWith(known, Recent(), z)
  {
    var p := KnownIn(st);
    FilterPermutation(sorted, s, p);
    FilterSorted(sorted, p, Recent());
    forall z ensures TiedWith(Filter(sorted, p), Recent(), z) == TiedWith(Filter(s, p), Recent(), z) {
      TiedWithFilter(sorted, p, Recent(), z);
      TiedWithFilter(s, p, Recent(), z);
    }
  }

  /** The entries whose whiskey is stored, in the order given, each paired
      with that whiskey. */
  function ResolveViews<Pr>(st: Store<Pr>, s: seq<ViewEntry>): (r: seq<(Whiskey<Pr>, int)>)
    ensures Entries(r) == Filter(s, KnownIn(st))
    ensures forall k :: 0 <= k < |r| ==> WhiskeyById(st, r[k].0.id) == Some(r[k].0)
  {
    if |s| == 0 then []
    else
      var rest := ResolveViews(st, s[1..]);
      assert s == [s[0]] + s[1..];
      match WhiskeyById(st, s[0].whiskeyId)
      case Some(w) =>
        var r := [(w, s[0].viewedAt)] + rest;
        assert r[1..] == rest;
        r
      case None => rest
  }

  /** Asking twice is asking once: the second call finds the history
      already in order, returns the same list and changes nothing more. */
  lemma RecentlyViewedTwice<Pr>(st: Store<Pr>, userId: string)
    ensures var (st2, r) := RecentlyViewed(st, userId);
            RecentlyViewed(st2, userId) == (st2, r)
  {
    var (st2, r) := RecentlyViewed(st, userId);
    if r.Ok? {
      var i := UserIndex(st.users, userId).value;
      var u := st.users[i];
      var sorted := StableSort(u.history.viewed, Recent());
      assert UserIndex(st2.users, userId) == Some(i) by {
        assert forall j :: 0 <= j < i ==> st2.users[j] == st.users[j];
      }
      SortedViews(u.history.viewed);
      SortOfSorted(sorted, Recent());
      assert st2.users[i].history.viewed == sorted;
      assert st2.users[i := st2.users[i]] == st2.users;
      ResolveSameCatalogue(st, st2, sorted);
    }
  }

  /** Resolution reads only the catalogue. */
  lemma {:induction false} ResolveSameCatalogue<Pr>(st: Store<Pr>, st2: Store<Pr>, s: seq<ViewEntry>)
    requires st2.whiskeys == st.whiskeys
    ensures ResolveViews(st2, s) == ResolveViews(st, s)
    decreases |s|
  {
    if |s| > 0 {
      ResolveSameCatalogue(st, st2, s[1..]);
      assert WhiskeyById(st2, s[0].whiskeyId) == WhiskeyById(st, s[0].whiskeyId);
    }
  }

  /** The service's `getAllWhiskies`: the whole catalogue, or an error when it is empty. */
  function AllWhiskeys<Pr>(st: Store<Pr>): (r: Result<seq<Whiskey<Pr>>>)
    ensures r.Err? <==> |st.whiskeys| == 0
    ensures r.Ok? ==> r.value == st.whiskeys
  {
    if |st.whiskeys| == 0 then Err(CatalogueEmpty) else Ok(st.whiskeys)
  }
}
