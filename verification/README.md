# Oktong whiskey catalogue — a Dafny model

Oktong is a Korean whiskey-recommendation app. This project models its core as a pure functional model in Dafny 4.11:

- **The in-memory store.** Whiskeys, users and tasting notes, with lookups, the shallow-merge user update and the tasting-note operations.
- **The recommendation service.** Two revisions are modelled:
  - the *tier revision*, in which a whiskey has a price tier (저가/중가/고가) and an average rating;
  - the *demo revision*, in which a whiskey has a price in won and recommendations are ordered by name.

  Both revisions cover filtering, sorting, recommendation with its reason sentence (and the store reordering that its in-place sorts cause) and similar whiskeys. The tier revision also covers likes and dislikes, search and view history, evaluated whiskeys, recently viewed whiskeys and tasting-note submission.
- **The demo page's query hints.** The `(\d+)만원 이상/이하` price patterns, the flavour and type patterns, and the preference form with its keyword field and its min/max price check.
- **The mock agent.** It routes a chat message to a service call and formats the reply as text. It runs on either of two builds of the tier service: the code as written, or the same code with the two defects under "## Findings" corrected.
- **The front end's reply parser.** It reads the agent's numbered recommendation lines back into whiskeys and reasons.

State is a value. Every operation takes a `Store` and returns the new store together with its result. Errors the source throws become `Err(...)` values of `Common.Result`.

Sequences of whiskeys are sorted by a stable insertion sort over a total preorder. This matches the stable `Array.prototype.sort` the source relies on. The regular expressions are written out as scanners that follow JavaScript's backtracking order: greedy `\s*`, the lazy `(.+?)`, and the trailing `\s*(.+)` giving back characters.

The main end-to-end result is `RoundTrip.RecommendReplyReadBack`. Take a catalogue whose ids are `w<digits>` and whose names and texts stay on one line. When the agent on the corrected build answers a recommendation request from that catalogue, the front end's parser recovers exactly the recommended whiskeys and reasons, in order. A failed request's apology parses to nothing.

On the build as written the round trip does not hold for the front end's own caller. `RoundTrip.AsWrittenKnownUserSeesNothing` shows that a known user without flavour keywords always gets an apology, which parses to nothing. The front end always sends user001, and every seeded user is such a user. `RoundTrip.SeedUserSeesNothing` gives the concrete case.

Modules follow the program's structure:

| module | models |
|---|---|
| `Records`, `Common` | whiskeys, users, preferences, history, tasting notes, results |
| `Database` | `database-oktong.ts` |
| `Seed` | the store's initial data |
| `Seqs`, `Sorting`, `Text` | `Array.filter/find/slice/sort`, `String.split/trim`, number formatting |
| `Catalog`, `Reasons` | ranking and reason sentences shared by both revisions |
| `TierService`, `Interactions` | `oktong-recommendation-service.ts` |
| `DemoService`, `Patterns`, `Handlers` | the demo revision of the service and its page handlers |
| `Agent` | the mock agent's `conversate` |
| `Parser`, `RoundTrip` | `parseAgenticaResponse` and the reply round trip |

## Model

| member | source | states |
|---|---|---|
| Database.WhiskeyById | src/database/database-oktong.ts:255-257 | the lookup finds nothing exactly when no whiskey has the id; otherwise it returns the first whiskey with that id |
| Database.UserIndex | src/database/database-oktong.ts:269-271 | `findIndex`: the index of the first user with the id, or none exactly when no user has it |
| Database.UserById | src/database/database-oktong.ts:260-262 | the user lookup agrees with the index lookup the update uses |
| Database.UpdateUser | src/database/database-oktong.ts:269-283 | an unknown user leaves the store unchanged and yields nothing; a known user's slot gets the merged user and every other user, whiskey and note stays as it was |
| Database.MergeWholePrefs | src/database/database-oktong.ts:276 | merging whole preferences sets every required field and each optional field that is present, and keeps the old value of an absent one; a complete set replaces the old one |
| Database.MergeWholeHistory | src/database/database-oktong.ts:277 | merging a whole interaction history replaces the old history |
| Database.MergeIdempotent | src/database/database-oktong.ts:273-278 | applying the same preference patch twice is the same as applying it once |
| Database.NotesByUser | src/database/database-oktong.ts:307-309 | exactly the user's notes, each as often as in the store and in store order |
| Database.NotesByWhiskey | src/database/database-oktong.ts:302-304 | exactly the whiskey's notes, each as often as in the store and in store order |
| Database.AddTastingNote | src/database/database-oktong.ts:316-326 | the note is appended; its author's evaluated list gains the note id once, not twice; nothing else changes |
| Database.UpdateTastingNote | src/database/database-oktong.ts:329-337 | an unknown note id changes nothing; otherwise the first note with the id is replaced by the patched note, in place |
| Database.UpdateNoteWithNothing | src/database/database-oktong.ts:329-337 | an empty patch leaves the store unchanged |
| Records.TierRankInjective | src/services/oktong-recommendation-service.ts:304-306 | the price map 저가=1, 중가=2, 고가=3 tells tiers apart and orders them low < mid < high |
| Seed.SeedIdsUnique | src/database/database-oktong.ts:84-247 | the seeded catalogue's whiskey ids are the listed ones and are pairwise distinct |
| Seed.SeedUserEvaluated | src/database/database-oktong.ts:243-246 | after loading, user001's evaluated list is exactly the seeded note tn001 |
| Seed.SeedShape | src/database/database-oktong.ts:84-247 | every seeded user has a tier preference and no flavour keywords, and likes only stored whiskeys; every seeded rating lies in 0..5 |
| TierService.FilterWhiskeys | src/services/oktong-recommendation-service.ts:250-280 | fails with the "no match" error exactly when no whiskey passes every present filter; otherwise keeps exactly those, in order |
| TierService.FiltersFuse | src/services/oktong-recommendation-service.ts:255-271 | the five filters applied one after another keep the same list as the single combined admission test |
| TierService.FilterWhiskeysIdempotent | src/services/oktong-recommendation-service.ts:250-280 | filtering an already filtered list with the same filters returns it unchanged |
| TierService.SortWhiskeys | src/services/oktong-recommendation-service.ts:291-329 | fails exactly on an empty list; otherwise returns a permutation ordered by the key and direction, in which tied whiskeys keep their input order |
| TierService.SortedByKey | src/services/oktong-recommendation-service.ts:302-319 | a list sorted by the comparator is ordered by the numeric key (tier rank, rating or age), ascending or descending as asked |
| TierService.ForUser | src/services/oktong-recommendation-service.ts:118-139 | for a known user, keeps exactly the whiskeys in the preferred tier that are not disliked; an anonymous request keeps all |
| TierService.Ranked | src/services/oktong-recommendation-service.ts:84-142 | the candidates are exactly the whiskeys admitted by the options, the query cues and the user, each once per catalogue occurrence, best rated first; for a known user with liked flavours, equally rated candidates stay in liked-flavour order |
| TierService.Recommend | src/services/oktong-recommendation-service.ts:72-158 | fails exactly when no whiskey is a candidate; otherwise returns the three best-rated candidates, in order, no whiskey more often than the catalogue holds it, each with its reason sentence |
| TierService.RecommendStore | src/services/oktong-recommendation-service.ts:84-142 | the store after a request: with no option or query filter, an anonymous caller's rating sort reorders the catalogue itself (best rated first, ties in catalogue order), and a known user with no preferred tier and with liked flavours gets it reordered by liked matches; any filter or a preferred tier leaves it as it was; users and notes never change |
| TierService.AnonymousRecommendRepeats | src/services/oktong-recommendation-service.ts:84-142 | an anonymous caller repeating a request on the reordered catalogue gets the same recommendations and leaves the catalogue as the first request left it |
| TierService.AnonymousRecommendReordersSeed | src/services/oktong-recommendation-service.ts:142 | an anonymous "추천해줘" on the seeded store changes the catalogue's order |
| TierService.RecommendAsWritten | src/services/oktong-recommendation-service.ts:537 | as written, any request with candidates for a known user who has no flavour keywords ends in the undefined-property error; every other request behaves as the corrected service |
| TierService.RecommendAsWrittenFails | src/services/oktong-recommendation-service.ts:537 | a known user without flavour keywords plus one candidate suffices for the as-written service to fail where the corrected one answers |
| TierService.RecommendAsWrittenFailsForSeedUser | src/services/oktong-recommendation-service.ts:537 | on the seeded store, user001's empty query fails as written and succeeds once corrected |
| TierService.Similar | src/services/oktong-recommendation-service.ts:402-461 | an unknown reference is its own error; with nothing scoring above 30 the result is the "no similar" error; otherwise the three best-rated similar whiskeys |
| TierService.SimilarSharesSomething | src/services/oktong-recommendation-service.ts:414-444 | a whiskey scores above 30 only if it shares a flavour, the kind or the tier with the reference |
| TierService.SameKindAndTierIsSimilar | src/services/oktong-recommendation-service.ts:414-444 | another whiskey of the same kind and tier always scores above 30 |
| TierService.SimilarAsWritten | src/services/oktong-recommendation-service.ts:409 | as written, every known reference ends in a "not a function" error, since the store has no `getAllWhiskies` |
| TierService.SimilarAsWrittenFailsOnSeed | src/services/oktong-recommendation-service.ts:409 | on the seeded store, w001 has similar whiskeys once corrected, but fails as written |
| Catalog.LikedProfiles | src/services/oktong-recommendation-service.ts:125-127 | the flattened profile holds exactly the flavours of the liked whiskeys that exist; unknown ids add nothing |
| Catalog.RankAndExclude | src/services/oktong-recommendation-service.ts:125-139 | drops exactly the disliked whiskeys and orders the rest by the number of liked flavours, most first |
| Catalog.InPlaceSorts | src/services/oktong-recommendation-service.ts:84-142 | when no filter has copied the catalogue array, the first sort applied to it reorders the stored catalogue: a permutation, sorted by that sort's order, with ties kept in catalogue order; a copied array leaves the store as it was |
| Sorting.StableSortReorders | src/services/oktong-recommendation-service.ts:142 | the sort returns a permutation of its input, sorted, in which each group of tied elements keeps its input order |
| Sorting.TopFacts | src/services/oktong-recommendation-service.ts:142-143 | the first n of the sorted candidates are candidates, sorted, never more copies of a whiskey than the catalogue holds, and no left-out candidate sorts before a chosen one |
| Catalog.ApplyFlavorCues | src/services/oktong-recommendation-service.ts:105-114 | a peat or smoke cue keeps peaty/smoky whiskeys and a sweet cue keeps sweet-flavoured ones; input order is kept |
| DemoService.FilterWhiskeys | oktongagent/oktong-demo/src/App.tsx:277-292 | fails exactly when no whiskey passes every active filter; otherwise keeps exactly those, in order |
| DemoService.FiltersFuse | oktongagent/oktong-demo/src/App.tsx:279-289 | the type, country, keyword and min/max price filters in sequence equal the single combined test |
| DemoService.InvertedBoundsAdmitNothing | oktongagent/oktong-demo/src/App.tsx:284-290 | a minimum price above the maximum always yields the "no match" error |
| DemoService.SortWhiskeys | oktongagent/oktong-demo/src/App.tsx:294-311 | fails exactly on an empty list; otherwise returns a stable permutation ordered by price or by age (missing age as 0), ascending or descending |
| DemoService.SortedByKey | oktongagent/oktong-demo/src/App.tsx:298-307 | a list sorted by the comparator is ordered by price or age in the asked direction |
| DemoService.ByPriceCues | oktongagent/oktong-demo/src/App.tsx:212-224 | the query's 만원 이상/이하 bounds and 고가/비싼 cue keep exactly the whiskeys within them |
| DemoService.ForUser | oktongagent/oktong-demo/src/App.tsx:227-240 | keeps exactly the whiskeys within the user's price bounds that are not disliked, ordered by liked flavours |
| DemoService.Ranked | oktongagent/oktong-demo/src/App.tsx:190-242 | the candidates are exactly the admitted whiskeys, by name; among equal names the liked-flavour order survives |
| DemoService.PriceTail | oktongagent/oktong-demo/src/App.tsx:374-381 | empty exactly when the user has no price bound; otherwise the sentence for the bounds present: "N원 이상" for a floor only, "N원 이하" for a ceiling only, both joined by " ~ " when both are set |
| DemoService.DemoReason | oktongagent/oktong-demo/src/App.tsx:363-383 | the reason opens with the whiskey's name and "은(는)", ends with a full stop, and stays on one line when its inputs do |
| DemoService.DemoReasonClause | oktongagent/oktong-demo/src/App.tsx:363-383 | the reason holds the first sentence of the description after the name, ends with the price clause, and holds each of the six clauses exactly when its condition holds (150,000 won or more counts as premium) |
| DemoService.Recommend | oktongagent/oktong-demo/src/App.tsx:185-250 | fails exactly when no whiskey is a candidate; otherwise the first three candidates by name, each with its reason |
| DemoService.UnknownTypeRecommendsNothing | oktongagent/oktong-demo/src/App.tsx:193 | a type option that names no kind empties the list, so the request fails |
| DemoService.RecommendStore | oktongagent/oktong-demo/src/App.tsx:190-242 | with no option, query or user price filter, an anonymous caller's name sort reorders the catalogue itself, and a known user with liked flavours gets it reordered by liked matches; any filter leaves the store as it was |
| DemoService.AnonymousRecommendRepeats | oktongagent/oktong-demo/src/App.tsx:190-242 | an anonymous caller repeating a request gets the same answer and leaves the catalogue as the first request left it |
| DemoService.SimilarExactly | oktongagent/oktong-demo/src/App.tsx:330-341 | the score test "above 30" in closed form: four shared flavours; or two plus the same kind or a price within 50,000 won; or the same kind and a close price |
| DemoService.SimilarWhiskeys | oktongagent/oktong-demo/src/App.tsx:325-347 | an unknown reference is its own error; nothing similar is the "no similar" error; otherwise the three cheapest similar whiskeys, cheapest first |
| Patterns.PriceHint | oktongagent/oktong-demo/src/App.tsx:671-674 | a bound is found exactly when a digit run precedes the suffix somewhere; it is the leftmost such run's value times 10,000 |
| Patterns.PriceHintRoundTrip | oktongagent/oktong-demo/src/App.tsx:671-674 | a number written before "만원 이상/이하" after digit-free text is read back as that number times 10,000 |
| Patterns.FlavorMatchesExact | oktongagent/oktong-demo/src/App.tsx:677-678 | the global flavour match finds exactly the flavour words the query contains |
| Patterns.FlavorMatchesEmpty | oktongagent/oktong-demo/src/App.tsx:677-678 | a query without flavour words matches nothing |
| Patterns.TypeHint | oktongagent/oktong-demo/src/App.tsx:679-680 | a type is found exactly when the query contains one of the four type words; it is the word at the leftmost position where one occurs, the earlier alternative winning at that position |
| Patterns.FirstWordLeftmost | oktongagent/oktong-demo/src/App.tsx:679 | the scan for an alternation of words returns the word the regular expression matches: the leftmost position first, then the first alternative |
| Handlers.ExtractHints | oktongagent/oktong-demo/src/App.tsx:670-680 | the options hold exactly the flavour words in the query, without duplicates; a min/max bound exactly when its pattern occurs, valued from its leftmost occurrence; and a type exactly when a type word occurs, the leftmost one |
| Handlers.HintsOfPlainQuery | oktongagent/oktong-demo/src/App.tsx:670-680 | "N만원 이하" alone yields only the ceiling N times 10,000 |
| Handlers.HandleRecommend | oktongagent/oktong-demo/src/App.tsx:660-689 | a blank query is refused with the store untouched; any other query goes to the service with the extracted hints, and the store is left as the service's in-place sorts leave it |
| Handlers.SingleMaltHintRecommendsNothing | oktongagent/oktong-demo/src/App.tsx:679-680 | the hint 싱글몰트 names no stored kind ("싱글 몰트" has a space), so such a request always fails and leaves the catalogue's order alone |
| Handlers.KeywordsOfInput | oktongagent/oktong-demo/src/App.tsx:702 | every keyword read from the form is non-empty, trimmed and free of commas |
| Handlers.KeywordsRoundTrip | oktongagent/oktong-demo/src/App.tsx:628 | keywords joined with ", " for the form are read back as the same list |
| Handlers.HandleSavePreferences | oktongagent/oktong-demo/src/App.tsx:691-720 | an inverted price range is refused with the store untouched; otherwise an unknown user is an error, and a saved user holds the form's values, including the experience level the page passes, and is found again |
| Handlers.SavedIsFound | oktongagent/oktong-demo/src/App.tsx:177-183 | after a successful save, looking the user up returns the saved user |
| Interactions.SaveUserPreferences | src/services/oktong-recommendation-service.ts:43-59 | an unknown user is the "user not found" error with the store unchanged; otherwise only that user changes, to the merged preferences |
| Interactions.Like | src/services/oktong-recommendation-service.ts:546-564 | false exactly for an unknown user; otherwise the whiskey is liked once and no longer disliked, and nothing else changes |
| Interactions.Dislike | src/services/oktong-recommendation-service.ts:566-584 | false exactly for an unknown user; otherwise the whiskey is disliked once and no longer liked, and nothing else changes |
| Interactions.LikeAppends | src/services/oktong-recommendation-service.ts:550 | a new like is appended at the end; an existing one leaves the list as it was |
| Interactions.LikeIdempotent | src/services/oktong-recommendation-service.ts:546-564 | liking twice is the same as liking once |
| Interactions.LikeThenDislike | src/services/oktong-recommendation-service.ts:546-584 | after a like followed by a dislike, the whiskey is disliked and not liked |
| Interactions.AddSearch | src/services/oktong-recommendation-service.ts:586-602 | false exactly for an unknown user; otherwise only that user's searches gain the query at the end |
| Interactions.Revisit | src/services/oktong-recommendation-service.ts:480-482 | the view list ends with the new visit and keeps, in order, exactly the other whiskeys' entries |
| Interactions.RevisitTwice | src/services/oktong-recommendation-service.ts:480-482 | visiting twice leaves one entry, with the later time |
| Interactions.ViewDetails | src/services/oktong-recommendation-service.ts:472-503 | an unknown whiskey is the "not found" error; otherwise the whiskey is returned, and only a known signed-in viewer's view history changes |
| Interactions.SubmitTastingNote | src/services/oktong-recommendation-service.ts:347-392 | an unknown user or whiskey and out-of-range scores are the two errors, in that order, with the store unchanged; otherwise the store is exactly the store's add-note operation applied to the new note |
| Interactions.SubmittedNoteIsFound | src/services/oktong-recommendation-service.ts:347-392 | a submitted note is then the last of the user's notes and the last of the whiskey's notes |
| Interactions.Evaluated | src/services/oktong-recommendation-service.ts:167-188 | an unknown user and a user without notes are the two errors; otherwise one pair per note of the user whose whiskey is stored, in store order, each note paired with its whiskey |
| Interactions.SubmittedNoteIsEvaluatedLast | src/services/oktong-recommendation-service.ts:181-184 | a submitted note becomes the user's last evaluated pair, after the pairs there were before |
| Interactions.RecentlyViewed | src/services/oktong-recommendation-service.ts:198-222 | an unknown user and an empty view history are the two errors, with the store unchanged; otherwise every history entry of a stored whiskey appears once, paired with that whiskey and its time, most recent first, ties in history order; the user's stored history is left sorted the same way and nothing else changes |
| Interactions.ResolveViews | src/services/oktong-recommendation-service.ts:215-218 | each entry of a stored whiskey is kept, paired with that whiskey, and entries of unknown whiskeys are dropped, in order |
| Interactions.RecentlyViewedTwice | src/services/oktong-recommendation-service.ts:198-222 | a second call on the store the first one left returns the same list and changes nothing more |
| Interactions.AllWhiskeys | src/services/oktong-recommendation-service.ts:231-240 | fails exactly when the catalogue is empty; otherwise returns the whole catalogue |
| Reasons.FirstSentence | src/services/oktong-recommendation-service.ts:515 | `split('.')[0]`: the longest prefix of the description without a full stop; it is the whole description or stops at a full stop |
| Reasons.Reason | src/services/oktong-recommendation-service.ts:514-543 | the reason opens with the whiskey's name and "은(는)", ends with a full stop, and stays on one line when its inputs do |
| Reasons.ReasonOpensAndEnds | src/services/oktong-recommendation-service.ts:515-516 | the reason opens with the name, "은(는)", the description's first sentence and "특징이 있습니다.", and ends with the trailing clause |
| Reasons.ReasonClause | src/services/oktong-recommendation-service.ts:518-541 | each of the six clauses sits, in source order, between the opening and the tail, and is present exactly when its condition holds |
| Reasons.ReasonShowsClause | src/services/oktong-recommendation-service.ts:518-541 | when a clause's condition holds, its text occurs in the reason |
| Reasons.ReasonWithoutClauses | src/services/oktong-recommendation-service.ts:514-543 | when no condition holds, the reason is the opening followed by the tail |
| Reasons.ReasonAsWritten | src/services/oktong-recommendation-service.ts:533-540 | as written, the reason fails exactly for a known user without flavour keywords; otherwise it is the corrected reason |
| Agent.Route | src/agentica/agentica-oktong-agent.ts:33-87 | the first matching cue, in the order recommend, details, similar, preferences, note, decides the intent; no cue gives the default reply |
| Agent.FirstId | src/agentica/agentica-oktong-agent.ts:47 | a found id has the `w<digits>` shape and occurs in the query; none is found exactly when no position matches `ID:\s*w\d+` |
| Agent.IdMatchRoundTrip | src/agentica/agentica-oktong-agent.ts:47 | "ID: w<digits>" placed in a query without an earlier `I` is extracted as that id |
| Agent.FormatRecommendations | src/agentica/agentica-oktong-agent.ts:36-41 | when no reason or name contains a line break, the reply splits into the header, one numbered line per recommendation and a final empty line |
| Agent.RecommendReply | src/agentica/agentica-oktong-agent.ts:33-44 | the reply lists the corrected service's recommendations; on the build as written, a known caller without flavour keywords gets the undefined-property apology instead; a failed request gets the failure apology |
| Agent.RecommendTurn | src/agentica/agentica-oktong-agent.ts:33-44 | the store is left as the service's in-place sorts leave it, and the reply is the one above |
| Agent.DetailsTurn | src/agentica/agentica-oktong-agent.ts:45-57 | without an id the agent asks for one; an unknown id is the service's error; a known one is described and its view is recorded |
| Agent.SimilarTurn | src/agentica/agentica-oktong-agent.ts:58-71 | without an id the agent asks for one; an unknown id gets the missing-reference apology; for a known id the build as written always gets the "not a function" apology, and the corrected build names the reference and its similar whiskeys or apologises that there are none; the store is untouched |
| Agent.PrefsTurn | src/agentica/agentica-oktong-agent.ts:72-81 | a known user gets the fixed mock preferences merged into their own, keeping price bounds and keywords; an unknown user is an error with the store untouched |
| Agent.NoteTurn | src/agentica/agentica-oktong-agent.ts:82-87 | a known user gets the fixed note on w001 appended; otherwise the error reply and an untouched store |
| Agent.Conversate | src/agentica/agentica-oktong-agent.ts:24-93 | similarity and unrouted messages never change the store, and an unrouted one gets the default reply; a recommendation request leaves the store as the service's in-place sorts do; each routed request gets exactly the store and reply its turn states |
| Agent.AnonymousByDefault | src/agentica/agentica-oktong-agent.ts:26 | a missing or empty user id is handled as the user "anonymous" |
| Agent.AnonymousCannotWrite | src/agentica/agentica-oktong-agent.ts:72-93 | with no stored "anonymous" user, an anonymous save or note request changes nothing and returns an error reply |
| Agent.AnonymousAskRepeats | src/agentica/agentica-oktong-agent.ts:26-44 | with no stored "anonymous" user, an anonymous recommendation request asked twice gets the same reply and leaves the same store |
| Parser.MatchLine | src/frontend/OktongApp.tsx:354 | a match needs a numbered line, and its id capture has the `w<digits>` shape and its reason is a non-empty single line |
| Parser.LazyNameShortest | src/frontend/OktongApp.tsx:354 | the lazy name capture stops at the first position from which the rest of the pattern matches |
| Parser.IndentedLineDropped | src/frontend/OktongApp.tsx:350-354 | a line kept by the trimmed filter but starting with white space fails the untrimmed match |
| Parser.ParseLine | src/frontend/OktongApp.tsx:353-366 | a line yields a recommendation exactly when it matches and its id is stored; the result carries the stored whiskey and a trimmed reason |
| Parser.ParseResponse | src/frontend/OktongApp.tsx:349-369 | every result comes from a numbered line whose id is stored, and every such line yields one |
| Parser.ParseOneLine | src/frontend/OktongApp.tsx:350-365 | a one-line text yields that line's reading when it is numbered and names a stored whiskey, and nothing otherwise |
| Parser.ParseConcat | src/frontend/OktongApp.tsx:350-366 | two texts joined by a line break yield the first text's results followed by the second's, so results come one per line, in line order, with repeats kept |
| Parser.MatchRecLine | src/frontend/OktongApp.tsx:354 | a line the agent writes for a listable recommendation matches with the whiskey's name, id and reason as the captures |
| Parser.HeaderNotCandidate | src/frontend/OktongApp.tsx:350 | neither the agent's header line nor the empty last line is kept |
| Parser.FormatThenParse | src/frontend/OktongApp.tsx:349-369 | parsing the agent's listing of readable recommendations returns exactly those recommendations, in order |
| RoundTrip.RecommendReplyReadBack | src/agentica/agentica-oktong-agent.ts:33-44 | on a listable catalogue, the parsed reply of the agent on the corrected build to a recommendation request is the service's list, or empty when it fails |
| RoundTrip.ApologyListsNothing | src/agentica/agentica-oktong-agent.ts:91-92 | the apology for any error whose message is one line parses to no recommendations |
| RoundTrip.AsWrittenKnownUserSeesNothing | src/agentica/agentica-oktong-agent.ts:33-44 | on the build as written, the parsed reply to a known user without flavour keywords is empty, whatever the catalogue holds |
| RoundTrip.SeedUserSeesNothing | src/frontend/OktongApp.tsx:229 | the front end's caller user001 asking "추천해줘" on the seeded store has picks on the corrected build, but gets the undefined-property apology and an empty list as written |

## Left out

- In-place sorting is modelled where it reaches the store: `TierService.RecommendStore`, `DemoService.RecommendStore` and `Interactions.RecentlyViewed` return the reordered store. `Similar` and `SimilarWhiskeys` sort an array of their own, so they leave the store alone.
- User interface. React state, rendering, alerts, loading flags, the HTTP backend and console logging are left out. The handlers are modelled only as far as they compute and call the service.
- The mock Agentica class's constructor and the controller wiring. The agent calls the tier service of the chosen build directly.
- Store operations no core path uses: `addUser` and `getAllTastingNotes`.
- The image URL, distillery and review fields of a whiskey. No modelled operation reads them.
- Numbers. Ratings and scores are `real`, not IEEE doubles. `parseInt` is read as an exact natural number, with no precision limit. `toLocaleString` is the parameter `fmt`.
- Text handling:
  - `toLowerCase` is the identity, because every pattern is Hangul or digits;
  - `localeCompare` is the code-unit lexicographic order;
  - strings are sequences of characters, not UTF-16 code units.
- Undefined values. A key present with the value `undefined` in a partial update is treated as absent.
- Handlers.HandleSavePreferences: when the page passes no experience level, the stored level is kept. The page's `experienceLevel: undefined` key would clear it (oktongagent/oktong-demo/src/App.tsx:702), but the page passes the level it loaded for the same user, so the two agree unless that state is stale.
- Clock and randomness. `Date.now()` is the parameter `now`. The random part of a tasting-note id is the parameter `suffix`. `submitTastingNote` reads the clock twice, once for the id and once for the creation time (src/services/oktong-recommendation-service.ts:370 and 379). Both reads are treated as the same instant.
- Agent.Conversate: three apologies cannot be reached: "no recommendations" (src/agentica/agentica-oktong-agent.ts:42-44), "no information on that id" (src/agentica/agentica-oktong-agent.ts:53-54) and "no similar whiskeys" (src/agentica/agentica-oktong-agent.ts:66-67). The service fails rather than return an empty list or `null`. That failure is reported through the catch clause's reply.
- Parser.ParseLine: the name capture is matched as the regular expression requires but not returned, because the source discards it (it looks the whiskey up by id).
- RoundTrip.RecommendReplyReadBack: this holds only for the agent on the corrected build (on the build as written see `RoundTrip.AsWrittenKnownUserSeesNothing`), and only for catalogues with unique `w<digits>` ids and single-line names, descriptions and flavours. The front end cannot read back a name containing "(ID:" or a line break.
- The demo revision's seed data. It is left out because its shape matches the tier revision's seed, which is modelled.

## Findings

| source | as written | input that shows it | evidently intended | confidence | as-written member | corrected member |
|---|---|---|---|---|---|---|
| src/services/oktong-recommendation-service.ts:537 | the reason generator calls `.some` on `preferences.flavorKeywords`, which the tier revision's users never set | the seeded store, user001, an empty query: there is a candidate, so the reason is built, and `undefined.some` throws | skip the keyword clause when the user has no keywords, as the demo revision does (oktongagent/oktong-demo/src/App.tsx:372) | not executed | TierService.RecommendAsWrittenFailsForSeedUser | TierService.Recommend |
| src/services/oktong-recommendation-service.ts:409 | similar-whiskey search calls `dbService.getAllWhiskies()`, a method the store does not have | the seeded store with reference w001: the call throws "not a function" before any scoring | read the catalogue with the store's `getAllWhiskeys()` | not executed | TierService.SimilarAsWrittenFailsOnSeed | TierService.Similar |
