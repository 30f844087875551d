/** The pieces both revisions of the recommendation service build their
    filters, sorts and recommendations from: comparators, the query cues,
    the flavour-keyword test, and the personal ranking by flavours of liked
    whiskeys with the exclusion of disliked ones.
 */
module Catalog {
  import opened Common
  import opened Seqs
  import opened Sorting
  import opened Text
  import opened Records
  import opened Database

  // ---------------------------------------------------------------------
  // Comparators

  datatype Order = Asc | Desc

  /** `order === 'asc' ? valA - valB : valB - valA`, read as `cmp <= 0`. */
  function KeyLe<T>(key: T -> real, order: Order): (T, T) -> bool
  {
    (a: T, b: T) => if order == Asc then key(a) <= key(b) else key(b) <= key(a)
  }

  lemma KeyLeTotal<T(!new)>(key: T -> real, order: Order)
    ensures TotalPreorder(KeyLe(key, order))
  {
  }

  /** Ordering by a key: ascending means the key never decreases along the list. */
  lemma KeySorted<T(!new)>(s: seq<T>, key: T -> real, order: Order)
    requires SortedBy(s, KeyLe(key, order))
    ensures order == Asc ==> forall i, j :: 0 <= i < j < |s| ==> key(s[i]) <= key(s[j])
    ensures order == Desc ==> forall i, j :: 0 <= i < j < |s| ==> key(s[j]) <= key(s[i])
  {
    forall i, j | 0 <= i < j < |s| ensures KeyLe(key, order)(s[i], s[j]) {
    }
  }

  /** `a.name.localeCompare(b.name)` (ascending) or the reverse, with the
      code-unit order standing in for the locale's collation. */
  function NameLe<Pr>(order: Order): (Whiskey<Pr>, Whiskey<Pr>) -> bool
  {
    (a: Whiskey<Pr>, b: Whiskey<Pr>) => if order == Asc then LexLe(a.name, b.name) else LexLe(b.name, a.name)
  }

  lemma NameLeTotal<Pr(!new)>(order: Order)
    ensures TotalPreorder(NameLe<Pr>(order))
  {
    forall a: Whiskey<Pr>, b: Whiskey<Pr> ensures NameLe(order)(a, b) || NameLe(order)(b, a) {
      LexTotal(a.name, b.name);
    }
    forall a: Whiskey<Pr>, b: Whiskey<Pr>, c: Whiskey<Pr> | NameLe(order)(a, b) && NameLe(order)(b, c)
      ensures NameLe(order)(a, c)
    {
      if order == Asc { LexTransitive(a.name, b.name, c.name); }
      else { LexTransitive(c.name, b.name, a.name); }
    }
  }

  /** `(b.averageRating || 0) - (a.averageRating || 0)`: highest rating first. */
  function ByRatingDesc<Pr>(): (Whiskey<Pr>, Whiskey<Pr>) -> bool
  {
    KeyLe((w: Whiskey<Pr>) => RatingOrZero(w), Desc)
  }

  // ---------------------------------------------------------------------
  // Flavour tests and query cues

  /** Some flavour of `fs` is in the whiskey's profile (`fs.some(f => profile.includes(f))`). */
  predicate AnyFlavor<Pr>(w: Whiskey<Pr>, fs: seq<string>)
  {
    exists f :: f in fs && f in w.flavors
  }

  /** The keyword option: absent or empty imposes nothing, otherwise one keyword must be in the profile. */
  predicate MatchesKeywords<Pr>(w: Whiskey<Pr>, keywords: Option<seq<string>>)
  {
    keywords.None? || |keywords.value| == 0 || AnyFlavor(w, keywords.value)
  }

  const SweetFlavors: seq<string> := ["바닐라", "꿀", "과일", "쉐리"]
  const SmokyFlavors: seq<string> := ["피트", "스모키"]
  const SmoothFlavors: seq<string> := ["부드러움", "크리미"]

  /** The query asks for peat or smoke. */
  predicate PeatCue(q: string)
  {
    Contains(q, "피트") || Contains(q, "스모키")
  }

  /** The query asks for sweetness. */
  predicate SweetCue(q: string)
  {
    Contains(q, "달콤") || Contains(q, "바닐라") || Contains(q, "꿀") || Contains(q, "과일")
  }

  /** What the two flavour cues demand of a whiskey. */
  predicate MeetsFlavorCues<Pr>(q: string, w: Whiskey<Pr>)
  {
    && (PeatCue(q) ==> AnyFlavor(w, SmokyFlavors))
    && (SweetCue(q) ==> AnyFlavor(w, SweetFlavors))
  }

  /** The two flavour-cue filters, in source order. */
  function ApplyFlavorCues<Pr(!new)>(q: string, s: seq<Whiskey<Pr>>): (r: seq<Whiskey<Pr>>)
    ensures forall w {:trigger multiset(r)[w]} :: multiset(r)[w] == if MeetsFlavorCues(q, w) then multiset(s)[w] else 0
    ensures IsSubseq(r, s)
  {
    SubseqRefl(s);
    var s1 := if PeatCue(q) then Filter(s, (w: Whiskey<Pr>) => AnyFlavor(w, SmokyFlavors)) else s;
    FilterIsSubseq(s, (w: Whiskey<Pr>) => AnyFlavor(w, SmokyFlavors));
    var s2 := if SweetCue(q) then Filter(s1, (w: Whiskey<Pr>) => AnyFlavor(w, SweetFlavors)) else s1;
    FilterIsSubseq(s1, (w: Whiskey<Pr>) => AnyFlavor(w, SweetFlavors));
    SubseqRefl(s1);
    SubseqTrans(s2, s1, s);
    s2
  }

  // ---------------------------------------------------------------------
  // Personal ranking

  function Flatten(ss: seq<seq<string>>): (r: seq<string>)
    ensures forall x :: x in r <==> exists i :: 0 <= i < |ss| && x in ss[i]
  {
    if |ss| == 0 then []
    else
      assert forall i :: 1 <= i < |ss| ==> ss[i] == ss[1..][i - 1];
      ss[0] + Flatten(ss[1..])
  }

  function ProfileOf<Pr>(st: Store<Pr>): string -> seq<string>
  {
    (id: string) => match WhiskeyById(st, id) case Some(w) => w.flavors case None => []
  }

  function Map<T, U>(s: seq<T>, f: T -> U): (r: seq<U>)
    ensures |r| == |s| && forall i :: 0 <= i < |s| ==> r[i] == f(s[i])
  {
    if |s| == 0 then [] else [f(s[0])] + Map(s[1..], f)
  }

  /** `likedWhiskeys.map(id => getWhiskeyById(id)?.flavorProfile || []).flat()`:
      a flavour is in it exactly when some liked whiskey that exists has it. */
  function LikedProfiles<Pr>(st: Store<Pr>, u: User): (r: seq<string>)
    ensures forall f :: f in r <==> exists id :: id in u.history.liked && WhiskeyById(st, id).Some?
                                                && f in WhiskeyById(st, id).value.flavors
  {
    var flat := Flatten(Map(u.history.liked, ProfileOf(st)));
    forall f ensures f in flat <==> exists id :: id in u.history.liked && WhiskeyById(st, id).Some?
                                                && f in WhiskeyById(st, id).value.flavors {
      FlavorOfLiked(st, u.history.liked, f);
    }
    flat
  }

  /** A flavour is in the flattened profiles of `liked` exactly when one of
      those ids names a whiskey that has it. */
  lemma FlavorOfLiked<Pr>(st: Store<Pr>, liked: seq<string>, f: string)
    ensures f in Flatten(Map(liked, ProfileOf(st))) <==>
              exists id :: id in liked && WhiskeyById(st, id).Some? && f in WhiskeyById(st, id).value.flavors
  {
    if f in Flatten(Map(liked, ProfileOf(st))) {
      FlavorFromLiked(st, liked, f);
    }
    if id :| id in liked && WhiskeyById(st, id).Some? && f in WhiskeyById(st, id).value.flavors {
      LikedFlavorKept(st, liked, f, id);
    }
  }

  lemma FlavorFromLiked<Pr>(st: Store<Pr>, liked: seq<string>, f: string)
    requires f in Flatten(Map(liked, ProfileOf(st)))
    ensures exists id :: id in liked && WhiskeyById(st, id).Some? && f in WhiskeyById(st, id).value.flavors
  {
    var ps := Map(liked, ProfileOf(st));
    var i :| 0 <= i < |ps| && f in ps[i];
    assert f in ProfileOf(st)(liked[i]);
  }

  lemma LikedFlavorKept<Pr>(st: Store<Pr>, liked: seq<string>, f: string, id: string)
    requires id in liked && WhiskeyById(st, id).Some? && f in WhiskeyById(st, id).value.flavors
    ensures f in Flatten(Map(liked, ProfileOf(st)))
  {
    var ps := Map(liked, ProfileOf(st));
    var i :| 0 <= i < |liked| && liked[i] == id;
    assert f in ps[i];
  }

  /** How many of the whiskey's flavours occur among the liked profiles. */
  function LikedCount<Pr>(w: Whiskey<Pr>, profiles: seq<string>): (n: nat)
    ensures n <= |w.flavors|
  {
    |Filter(w.flavors, (f: string) => f in profiles)|
  }

  /** `bMatch - aMatch`: most liked-flavour matches first. */
  function ByLiked<Pr>(profiles: seq<string>): (Whiskey<Pr>, Whiskey<Pr>) -> bool
  {
    KeyLe((w: Whiskey<Pr>) => LikedCount(w, profiles) as real, Desc)
  }

  /** The tail of the personal step both revisions share: sort by liked
      matches when the liked profiles are non-empty, then drop disliked ids.
      The sort's effect on the store is `InPlaceSorts`. */
  function RankAndExclude<Pr(!new)>(st: Store<Pr>, u: User, s: seq<Whiskey<Pr>>): (r: seq<Whiskey<Pr>>)
    ensures forall w {:trigger multiset(r)[w]} :: multiset(r)[w] == if w.id !in u.history.disliked then multiset(s)[w] else 0
    ensures forall w :: w in r <==> w in s && w.id !in u.history.disliked
    ensures |LikedProfiles(st, u)| > 0 ==> SortedBy(r, ByLiked(LikedProfiles(st, u)))
  {
    var profiles := LikedProfiles(st, u);
    var keep := (w: Whiskey<Pr>) => w.id !in u.history.disliked;
    if |profiles| > 0 then
      var ranked := StableSort(s, ByLiked(profiles));
      KeyLeTotal((w: Whiskey<Pr>) => LikedCount(w, profiles) as real, Desc);
      SortSorted(s, ByLiked(profiles));
      FilterSorted(ranked, keep, ByLiked(profiles));
      assert forall w :: w in ranked <==> w in s by {
        forall w ensures w in ranked <==> w in s {
          assert w in ranked <==> w in multiset(ranked);
        }
      }
      Filter(ranked, keep)
    else
      Filter(s, keep)
  }

  // ---------------------------------------------------------------------
  // The store after a recommendation

  /** The store after a recommendation's in-place sorts.
      `Array.prototype.sort` reorders the array it is called on, and
      `filteredWhiskeys` starts as the store's own catalogue array; only a
      filter makes a copy. `copied` says that some filter ran before the
      personal step (for a known user, before the liked-flavour sort). With
      no copy, an anonymous caller's final sort reorders the catalogue
      itself, and so does a known user's liked-flavour sort; a known user's
      final sort always works on the copy the disliked filter made. Users
      and notes never change. */
  function InPlaceSorts<Pr(!new)>(st: Store<Pr>, copied: bool, cu: Option<User>,
                                  final: (Whiskey<Pr>, Whiskey<Pr>) -> bool): (r: Store<Pr>)
    requires TotalPreorder(final)
    ensures r.users == st.users && r.notes == st.notes
    ensures multiset(r.whiskeys) == multiset(st.whiskeys)
    ensures copied || (cu.Some? && |LikedProfiles(st, cu.value)| == 0) ==> r == st
    ensures !copied && cu.None? ==> ReorderedBy(st.whiskeys, r.whiskeys, final)
    ensures !copied && cu.Some? && |LikedProfiles(st, cu.value)| > 0 ==>
              ReorderedBy(st.whiskeys, r.whiskeys, ByLiked(LikedProfiles(st, cu.value)))
  {
    if copied then st
    else
      match cu
      case None =>
        StableSortReorders(st.whiskeys, final);
        st.(whiskeys := StableSort(st.whiskeys, final))
      case Some(u) =>
        var profiles := LikedProfiles(st, u);
        if |profiles| > 0 then
          KeyLeTotal((w: Whiskey<Pr>) => LikedCount(w, profiles) as real, Desc);
          StableSortReorders(st.whiskeys, ByLiked(profiles));
          st.(whiskeys := StableSort(st.whiskeys, ByLiked(profiles)))
        else st
  }
}
