/** `DatabaseService`: lookups, the merging user update, and the
    tasting-note operations, over a store passed in and returned instead of
    the singleton the source mutates. The two revisions' stores are the
    same code, so the operations are generic in the price type.
 */
module Database {
  import opened Common
  import opened Seqs
  import opened Records

  /** `getWhiskeyById`: the first whiskey with that id. */
  function WhiskeyById<Pr>(st: Store<Pr>, id: string): (r: Option<Whiskey<Pr>>)
    ensures r.None? <==> forall w :: w in st.whiskeys ==> w.id != id
    ensures r.Some? ==> exists i :: 0 <= i < |st.whiskeys| && st.whiskeys[i] == r.value && r.value.id == id
                                 && forall j :: 0 <= j < i ==> st.whiskeys[j].id != id
  {
    Find(st.whiskeys, (w: Whiskey<Pr>) => w.id == id)
  }

  /** `users.findIndex(u => u.id === id)`, with -1 as `None`. */
  function UserIndex(users: seq<User>, id: string): (r: Option<nat>)
    ensures r.Some? ==> r.value < |users| && users[r.value].id == id
                        && forall j :: 0 <= j < r.value ==> users[j].id != id
    ensures r.None? <==> forall u :: u in users ==> u.id != id
  {
    FirstIndex(users, (u: User) => u.id == id)
  }

  /** `getUserById`: the first user with that id. */
  function UserById<Pr>(st: Store<Pr>, id: string): (r: Option<User>)
    ensures r.None? <==> UserIndex(st.users, id).None?
    ensures r.Some? ==> r.value == st.users[UserIndex(st.users, id).value]
  {
    match UserIndex(st.users, id)
    case Some(i) => Some(st.users[i])
    case None => None
  }

  /** `userId ? dbService.getUserById(userId) : undefined`. */
  function CurrentUser<Pr>(st: Store<Pr>, userId: Option<string>): Option<User>
  {
    if Truthy(userId) then UserById(st, userId.value) else None
  }

  // ---------------------------------------------------------------------
  // updateUser

  /** An object spread into `preferences`: a key that is present overwrites,
      an absent key (`None`) keeps the old value. */
  datatype PrefsPatch = PrefsPatch(
    body: Option<int>,
    richness: Option<int>,
    smokiness: Option<int>,
    sweetness: Option<int>,
    tier: Option<PriceTier>,
    minPrice: Option<int>,
    maxPrice: Option<int>,
    level: Option<Level>,
    keywords: Option<seq<string>>)

  datatype HistoryPatch = HistoryPatch(
    viewed: Option<seq<ViewEntry>>,
    liked: Option<seq<string>>,
    disliked: Option<seq<string>>,
    searches: Option<seq<string>>)

  /** `Partial<User>`. */
  datatype UserPatch = UserPatch(
    id: Option<string>,
    prefs: Option<PrefsPatch>,
    history: Option<HistoryPatch>,
    evaluated: Option<seq<string>>)

  const NoPrefsChange := PrefsPatch(None, None, None, None, None, None, None, None, None)

  function Pick<T>(patch: Option<T>, prev: T): T
  {
    if patch.Some? then patch.value else prev
  }

  function PickOpt<T>(patch: Option<T>, prev: Option<T>): Option<T>
  {
    if patch.Some? then patch else prev
  }

  /** `{ ...prev, ...patch }` on preferences. */
  function MergePrefs(prev: Prefs, p: PrefsPatch): Prefs
  {
    Prefs(Pick(p.body, prev.body), Pick(p.richness, prev.richness),
          Pick(p.smokiness, prev.smokiness), Pick(p.sweetness, prev.sweetness),
          PickOpt(p.tier, prev.tier), PickOpt(p.minPrice, prev.minPrice),
          PickOpt(p.maxPrice, prev.maxPrice), PickOpt(p.level, prev.level),
          PickOpt(p.keywords, prev.keywords))
  }

  /** `{ ...prev, ...patch }` on the interaction history. */
  function MergeHistory(prev: History, p: HistoryPatch): History
  {
    History(Pick(p.viewed, prev.viewed), Pick(p.liked, prev.liked),
            Pick(p.disliked, prev.disliked), Pick(p.searches, prev.searches))
  }

  /** A whole preferences object used as an update: the four axes are always
      present, an optional field is present only when set. */
  function PatchOfPrefs(p: Prefs): PrefsPatch
  {
    PrefsPatch(Some(p.body), Some(p.richness), Some(p.smokiness), Some(p.sweetness),
               p.tier, p.minPrice, p.maxPrice, p.level, p.keywords)
  }

  /** A whole history object used as an update: every field is present. */
  function PatchOfHistory(h: History): HistoryPatch
  {
    HistoryPatch(Some(h.viewed), Some(h.liked), Some(h.disliked), Some(h.searches))
  }

  /** The record `updateUser` stores: top-level keys of the patch overwrite,
      `preferences` and `interactionHistory` are merged field by field. */
  function ApplyUserPatch(u: User, p: UserPatch): User
  {
    User(Pick(p.id, u.id),
         if p.prefs.Some? then MergePrefs(u.prefs, p.prefs.value) else u.prefs,
         if p.history.Some? then MergeHistory(u.history, p.history.value) else u.history,
         Pick(p.evaluated, u.evaluated))
  }

  /** A patch with no keys leaves preferences as they were. */
  lemma MergeNothing(prev: Prefs)
    ensures MergePrefs(prev, NoPrefsChange) == prev
  {
  }

  /** Merging the same patch twice is merging it once. */
  lemma MergeIdempotent(prev: Prefs, p: PrefsPatch)
    ensures MergePrefs(MergePrefs(prev, p), p) == MergePrefs(prev, p)
  {
  }

  /** A whole preferences object with every optional field set replaces the
      old preferences; with some unset, those keep their old values. */
  lemma MergeWholePrefs(prev: Prefs, p: Prefs)
    ensures var m := MergePrefs(prev, PatchOfPrefs(p));
      && m.body == p.body && m.richness == p.richness
      && m.smokiness == p.smokiness && m.sweetness == p.sweetness
      && m.tier == (if p.tier.Some? then p.tier else prev.tier)
      && m.minPrice == (if p.minPrice.Some? then p.minPrice else prev.minPrice)
      && m.maxPrice == (if p.maxPrice.Some? then p.maxPrice else prev.maxPrice)
      && m.level == (if p.level.Some? then p.level else prev.level)
      && m.keywords == (if p.keywords.Some? then p.keywords else prev.keywords)
    ensures p.tier.Some? && p.minPrice.Some? && p.maxPrice.Some? && p.level.Some? && p.keywords.Some?
            ==> MergePrefs(prev, PatchOfPrefs(p)) == p
  {
  }

  /** A whole history object replaces the old one. */
  lemma MergeWholeHistory(prev: History, h: History)
    ensures MergeHistory(prev, PatchOfHistory(h)) == h
  {
  }

  /** `updateUser`: an unknown id changes nothing and returns `undefined`;
      otherwise only the first user with that id is replaced, by the merged
      record, which is returned. */
  function UpdateUser<Pr>(st: Store<Pr>, id: string, patch: UserPatch): (r: (Store<Pr>, Option<User>))
    ensures UserIndex(st.users, id).None? ==> r == (st, None)
    ensures UserIndex(st.users, id).Some? ==>
      var i := UserIndex(st.users, id).value;
      && r.0.whiskeys == st.whiskeys && r.0.notes == st.notes
      && |r.0.users| == |st.users|
      && r.0.users[i] == ApplyUserPatch(st.users[i], patch)
      && (forall j :: 0 <= j < |st.users| && j != i ==> r.0.users[j] == st.users[j])
      && r.1 == Some(r.0.users[i])
  {
    match UserIndex(st.users, id)
    case None => (st, None)
    case Some(i) =>
      var u := ApplyUserPatch(st.users[i], patch);
      (st.(users := st.users[i := u]), Some(u))
  }

  // ---------------------------------------------------------------------
  // Tasting notes

  /** `getTastingNotesByUserId`: exactly the notes written by that user, in store order. */
  function NotesByUser<Pr>(st: Store<Pr>, userId: string): (r: seq<TastingNote>)
    ensures forall n :: n in r <==> n in st.notes && n.userId == userId
    ensures forall n {:trigger multiset(r)[n]} :: multiset(r)[n] == if n.userId == userId then multiset(st.notes)[n] else 0
    ensures IsSubseq(r, st.notes)
  {
    FilterIsSubseq(st.notes, (n: TastingNote) => n.userId == userId);
    Filter(st.notes, (n: TastingNote) => n.userId == userId)
  }

  /** `getTastingNotesByWhiskeyId`: exactly the notes about that whiskey, in store order. */
  function NotesByWhiskey<Pr>(st: Store<Pr>, whiskeyId: string): (r: seq<TastingNote>)
    ensures forall n :: n in r <==> n in st.notes && n.whiskeyId == whiskeyId
    ensures forall n {:trigger multiset(r)[n]} :: multiset(r)[n] == if n.whiskeyId == whiskeyId then multiset(st.notes)[n] else 0
    ensures IsSubseq(r, st.notes)
  {
    FilterIsSubseq(st.notes, (n: TastingNote) => n.whiskeyId == whiskeyId);
    Filter(st.notes, (n: TastingNote) => n.whiskeyId == whiskeyId)
  }

  /** `addTastingNote`: the note goes last; its id is appended to its
      author's `evaluatedWhiskeyIds` unless already there. Nothing else changes. */
  function AddTastingNote<Pr>(st: Store<Pr>, note: TastingNote): (r: Store<Pr>)
    ensures r.notes == st.notes + [note]
    ensures r.whiskeys == st.whiskeys
    ensures |r.users| == |st.users|
    ensures UserIndex(st.users, note.userId).None? ==> r.users == st.users
    ensures UserIndex(st.users, note.userId).Some? ==>
      var i := UserIndex(st.users, note.userId).value;
      && (forall j :: 0 <= j < |st.users| && j != i ==> r.users[j] == st.users[j])
      && r.users[i] == st.users[i].(evaluated := r.users[i].evaluated)
      && note.id in r.users[i].evaluated
      && r.users[i].evaluated == (if note.id in st.users[i].evaluated
                                  then st.users[i].evaluated
                                  else st.users[i].evaluated + [note.id])
  {
    var st1 := st.(notes := st.notes + [note]);
    match UserById(st1, note.userId)
    case Some(u) =>
      if note.id !in u.evaluated then
        UpdateUser(st1, u.id, UserPatch(None, None, None, Some(u.evaluated + [note.id]))).0
      else st1
    case None => st1
  }

  /** `Partial<TastingNote>`. */
  datatype NotePatch = NotePatch(
    id: Option<string>,
    userId: Option<string>,
    whiskeyId: Option<string>,
    rating: Option<real>,
    reviewText: Option<string>,
    body: Option<real>,
    richness: Option<real>,
    smokiness: Option<real>,
    sweetness: Option<real>,
    createdAt: Option<int>)

  function ApplyNotePatch(n: TastingNote, p: NotePatch): TastingNote
  {
    TastingNote(Pick(p.id, n.id), Pick(p.userId, n.userId), Pick(p.whiskeyId, n.whiskeyId),
                Pick(p.rating, n.rating), Pick(p.reviewText, n.reviewText), Pick(p.body, n.body),
                Pick(p.richness, n.richness), Pick(p.smokiness, n.smokiness),
                Pick(p.sweetness, n.sweetness), Pick(p.createdAt, n.createdAt))
  }

  /** `updateTastingNote`: an unknown id changes nothing and returns
      `undefined`; otherwise only the first note with that id changes, and
      only in the fields the patch carries. */
  function UpdateTastingNote<Pr>(st: Store<Pr>, noteId: string, patch: NotePatch): (r: (Store<Pr>, Option<TastingNote>))
    ensures (forall n :: n in st.notes ==> n.id != noteId) ==> r == (st, None)
    ensures r.1.Some? ==>
      exists i :: 0 <= i < |st.notes| && st.notes[i].id == noteId
        && (forall j :: 0 <= j < i ==> st.notes[j].id != noteId)
        && r.0 == st.(notes := st.notes[i := r.1.value])
        && r.1.value == ApplyNotePatch(st.notes[i], patch)
    ensures (exists n :: n in st.notes && n.id == noteId) ==> r.1.Some?
  {
    match FirstIndex(st.notes, (n: TastingNote) => n.id == noteId)
    case None => (st, None)
    case Some(i) =>
      var n := ApplyNotePatch(st.notes[i], patch);
      (st.(notes := st.notes[i := n]), Some(n))
  }

  /** An empty note patch changes nothing but still reports the note. */
  lemma UpdateNoteWithNothing<Pr>(st: Store<Pr>, noteId: string)
    ensures var r := UpdateTastingNote(st, noteId, NotePatch(None, None, None, None, None, None, None, None, None, None));
            r.0 == st
  {
    var p := NotePatch(None, None, None, None, None, None, None, None, None, None);
    match FirstIndex(st.notes, (n: TastingNote) => n.id == noteId)
    case None =>
    case Some(i) =>
      assert ApplyNotePatch(st.notes[i], p) == st.notes[i];
      assert st.notes[i := st.notes[i]] == st.notes;
  }
}
