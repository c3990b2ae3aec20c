# ADPCompare core in Dafny

ADPCompare compares the average draft position (ADP) of fantasy-football
players between two groups of Sleeper leagues. This project models its
core and proves properties of it:

- `lib/adpUtils.ts`, in module `AdpUtils` (`adp_utils.dfy`):
  - `calcAverageADP` turns each valid pick into a "round.pick" decimal and
    tallies a total and a count per player name;
  - `getADPMap` adds the raw totals and counts of several leagues and
    divides;
  - `compareADPs` builds one row per player of either group, with
    `delta = adpB - adpA` when both groups have the player, and sorts the
    rows by the size of the change.
- `lib/sleeper.ts`, in module `Sleeper` (`sleeper.dfy`):
  - the five-minute response caches of `getLeagueDrafts` and
    `getDraftPicks`;
  - the trimming of identifiers;
  - the mapping of HTTP 404 (drafts), or 404 and 400 (picks), to an empty
    list that is then cached;
  - `getLeaguePrimaryDraft`'s choice of the first complete draft.
- `js_text.dfy` (module `JsText`) holds JavaScript's `String.prototype.trim`
  and the case-insensitive comparison with `"complete"`.
- `wrappers.dfy` holds `Option`, which stands for JavaScript's
  `undefined`/`null`.

How the source becomes Dafny:

- Loops that update a dictionary are methods with loop invariants, each
  proved against a declarative function:
  - `CalcAverageADP` against `Tally`;
  - `GetADPMap` against `MergeLeagues`, `CountAcross` and `TotalAcross`;
  - `CompareADPs` against `ResultFor`.
- `compareADPs` sorts an `array` in place, as `Array.prototype.sort` does.
- The module-level `Map` caches of `lib/sleeper.ts` are the two `map`
  fields of class `Sleeper.SleeperClient`. Its methods are proved equal to
  the pure step function `Sleeper.Lookup`.
- The network and the clock are parameters:
  - `upstream` is what the HTTP request would answer if it were made;
  - `now` is the time of the call;
  - `fetchedAt` is the time the answer arrives and is stored.

Numbers are exact `real`s. A pick's decimal is what `parseFloat` reads from
`"<round>.<pick padded to two digits>"`, which is
`round + pick / 10^max(2, digits(pick))`.

- With at most 99 teams this equals `round + pick/100`. It is strictly
  increasing in the pick number, so it never maps two picks to one value.
- From 100 teams on it does collide: picks 10 and 100 of a 100-team round
  both read as 1.1.

The team count is modelled as written at `lib/adpUtils.ts:40`: the first
pick's `draft_slot`, or 12. A pick list that starts with the pick in slot 1
therefore gives team count 1, and every decimal is `pickNo + 0.01`
(`AdpUtils.FirstSlotOneMeansOneTeam`).

## Model

| member | source | states |
|---|---|---|
| JsText.Trim | lib/sleeper.ts:119 | definition (`trimEnd` after `trimStart`); characterised by `TrimStartSpec`, `TrimEndSpec`, `TrimIsSlice`, `TrimIsTrimmed` and `TrimEmptyIff` |
| JsText.TrimStartSpec | lib/sleeper.ts:119 | trimming the front leaves a suffix that does not start with white space, and only white space is removed |
| JsText.TrimEndSpec | lib/sleeper.ts:119 | trimming the back leaves a prefix that does not end with white space, and only white space is removed |
| JsText.TrimIsTrimmed | lib/sleeper.ts:119 | a non-empty trimmed identifier has no white space at either end |
| JsText.TrimIsSlice | lib/adpUtils.ts:21 | `trim` returns a contiguous piece of its input with only white space on either side |
| JsText.TrimEmptyIff | lib/sleeper.ts:119-120 | an identifier trims to "" exactly when it is white space throughout |
| JsText.TrimIdempotent | lib/sleeper.ts:119 | trimming an already trimmed identifier changes nothing |
| JsText.EqualsIgnoringCase | lib/sleeper.ts:158 | definition: same length and each character, ASCII-lower-cased, equals the word's; used by `Sleeper.IsComplete` |
| Sleeper.IsFresh | lib/sleeper.ts:56-58 | definition (`now - ts < 300000`); characterised by `LookupServesFresh` and `LookupRefetchesWhenStale` |
| Sleeper.Lookup | lib/sleeper.ts:118-149 | definition of one cached call (trim, empty id, fresh hit, store on success, store `[]` on an empty-on status, rethrow otherwise); characterised by the `Lookup*` lemmas and `FetchedThenServed`, and implemented by the `SleeperClient` methods |
| Sleeper.LookupKeepsKeysTrimmed | lib/sleeper.ts:118-141 | the cache only ever gains keys that are non-empty and trimmed |
| Sleeper.LookupEmptyId | lib/sleeper.ts:119-120 | an identifier that is empty after trimming answers `[]` and leaves the cache unchanged, whatever upstream would say |
| Sleeper.LookupFrame | lib/sleeper.ts:134-138 | a lookup changes no cache entry other than the one under its trimmed identifier |
| Sleeper.LookupServesFresh | lib/sleeper.ts:122-123 | an entry younger than 300000 ms is answered as stored, the cache is unchanged, and upstream is not consulted |
| Sleeper.LookupRefetchesWhenStale | lib/sleeper.ts:56-58 | an entry 300000 ms old or older is not served: the upstream answer is returned and replaces it |
| Sleeper.LookupStoresFetched | lib/sleeper.ts:133-135 | on a cache miss a successful fetch is returned and stored under the trimmed identifier, stamped with its arrival time |
| Sleeper.LookupEmptyOnStatus | lib/sleeper.ts:136-140 | a failure whose HTTP status is in the empty-on set answers `[]` and caches `[]` |
| Sleeper.LookupPropagatesError | lib/sleeper.ts:141 | any other failure is passed to the caller and the cache is unchanged |
| Sleeper.FetchedThenServed | lib/sleeper.ts:122-134 | a second call for the same trimmed identifier within five minutes of a stored fetch answers the stored data without consulting upstream |
| Sleeper.IsComplete | lib/sleeper.ts:158 | definition: the status, or "" when absent, lower-cases to "complete"; used by `FindComplete` and `PrimaryDraft` |
| Sleeper.FindComplete | lib/sleeper.ts:158 | the index found is that of the first draft whose status lower-cases to "complete", and none is found only when no draft is complete |
| Sleeper.PrimaryDraft | lib/sleeper.ts:153-161 | null exactly for no drafts; otherwise an element of the list, namely the first complete draft or, when none is complete, the first draft |
| Sleeper.SleeperClient.constructor | lib/sleeper.ts:60-63 | both caches start empty |
| Sleeper.SleeperClient.GetLeagueDrafts | lib/sleeper.ts:118-149 | the answer and the new league-drafts cache are those of `Lookup` with empty-on set {404}; the picks cache is untouched; cache keys stay trimmed |
| Sleeper.SleeperClient.GetLeaguePrimaryDraft | lib/sleeper.ts:153-161 | the league's drafts are looked up as in `GetLeagueDrafts` and the primary draft of the answer is returned; errors are passed on |
| Sleeper.SleeperClient.GetDraftPicks | lib/sleeper.ts:163-193 | the answer and the new draft-picks cache are those of `Lookup` with empty-on set {404, 400}; the drafts cache is untouched; cache keys stay trimmed |
| AdpUtils.Round | lib/adpUtils.ts:24 | the round of a pick is at least 1 |
| AdpUtils.PickInRound | lib/adpUtils.ts:25 | the position in the round lies in 1..numTeams |
| AdpUtils.RoundTrip | lib/adpUtils.ts:24-25 | `(round - 1) * numTeams + pickInRound` gives back the overall pick number |
| AdpUtils.FromRoundAndPick | lib/adpUtils.ts:24-25 | every round and in-range position is the decomposition of exactly the pick `(round - 1) * numTeams + pick` |
| AdpUtils.DecimalPick | lib/adpUtils.ts:26 | definition: `round + pick / 10^max(2, digits(pick))`, what `parseFloat` reads from the padded string; characterised by `PickValueHundredths` and `PickValueCollidesAtHundredTeams` |
| AdpUtils.PickValue | lib/adpUtils.ts:24-26 | definition: the decimal of round and pick-in-round; characterised by `PickValueWithinRound`, `PickValueHundredths` and `PickValueMonotone` |
| AdpUtils.PickValueWithinRound | lib/adpUtils.ts:24-26 | a pick's decimal lies strictly between its round and the next round |
| AdpUtils.PickValueHundredths | lib/adpUtils.ts:26 | with at most 99 teams the decimal is `round + pickInRound/100` |
| AdpUtils.PickValueMonotone | lib/adpUtils.ts:24-26 | with at most 99 teams a later pick has a strictly larger decimal |
| AdpUtils.PickValueInjective | lib/adpUtils.ts:24-26 | with at most 99 teams two picks with the same decimal are the same pick |
| AdpUtils.PickValueCollidesAtHundredTeams | lib/adpUtils.ts:26 | with 100 teams, picks 10 and 100 have the same decimal |
| AdpUtils.FullName | lib/adpUtils.ts:21 | definition: the trimmed `first + " " + last`, absent parts read as ""; characterised by `FullNameEmptyIff` |
| AdpUtils.FullNameEmptyIff | lib/adpUtils.ts:20-21 | the player key is empty exactly when first and last name are both absent or white space |
| AdpUtils.Counts | lib/adpUtils.ts:23 | definition: a non-empty name and a present, non-zero `pick_no`; characterised by `InvalidPickChangesNothing` and `TallyOfCountingPicks` |
| AdpUtils.CountingPicks | lib/adpUtils.ts:23 | a pick is kept exactly when it is a pick of the input with a non-empty name and a truthy `pick_no`; no more picks are kept than given |
| AdpUtils.PlayerNamesCount | lib/adpUtils.ts:23-31 | a name has an entry exactly when it has at least one valid pick; a name without one has total 0 |
| AdpUtils.Tally | lib/adpUtils.ts:17-34 | definition: one entry per name of a valid pick, with that name's number of valid picks and the sum of their decimals; characterised by `TallyLookup`, `TallySnoc` and `TallyCountsAddUp`, and computed by `CalcAverageADP` |
| AdpUtils.TallyLookup | lib/adpUtils.ts:19-31 | each name's count is its number of valid picks and its total is the sum of their decimals; every entry has count at least 1 |
| AdpUtils.TallySnoc | lib/adpUtils.ts:27-31 | one more pick changes nothing if it is invalid, and otherwise creates or updates only its own player's entry, adding its decimal and 1 |
| AdpUtils.CalcAverageADP | lib/adpUtils.ts:17-34 | the loop returns exactly the per-name tally of the valid picks |
| AdpUtils.TallyOfCountingPicks | lib/adpUtils.ts:23 | the tally of all picks equals the tally of the valid picks alone |
| AdpUtils.InvalidPickChangesNothing | lib/adpUtils.ts:21-23 | inserting an invalid pick anywhere in the list leaves the result unchanged |
| AdpUtils.TallyCountsAddUp | lib/adpUtils.ts:19-31 | the counts of all entries add up to the number of valid picks |
| AdpUtils.LeagueTeamCount | lib/adpUtils.ts:40 | the team count is at least 1; it is the first pick's `draft_slot`, or 12 when there is no pick or that field is absent or 0 |
| AdpUtils.FirstSlotOneMeansOneTeam | lib/adpUtils.ts:40 | a list whose first pick sits in slot 1 gets team count 1, and each pick's decimal is `pickNo + 0.01` |
| AdpUtils.MergeInto | lib/adpUtils.ts:42-46 | definition of folding one tally into another; characterised by `MergeIntoSpec` and computed by `AddLeague` |
| AdpUtils.MergeIntoSpec | lib/adpUtils.ts:42-46 | the merged names are the union, and each name's count and total are the sums of the two sides' |
| AdpUtils.MergeLeaguesMeaning | lib/adpUtils.ts:38-46 | after all leagues are merged, a name is present exactly when it has a valid pick in some league, and its entry holds the total count and the total of decimals over all leagues |
| AdpUtils.AcrossPermutation | lib/adpUtils.ts:38-46 | the per-name count and total over all leagues do not depend on the order of the leagues |
| AdpUtils.MergeLeaguesOrderIndependent | lib/adpUtils.ts:42-46 | the merged tally is the same for any reordering of the leagues |
| AdpUtils.AddLeague | lib/adpUtils.ts:42-46 | folding one league in gives the union of names, with counts and totals added |
| AdpUtils.Averages | lib/adpUtils.ts:48-51 | every name of the merged tally gets total / count, and no other name appears |
| AdpUtils.GetADPMap | lib/adpUtils.ts:36-53 | a name is in the ADP map exactly when it has a valid pick in some league; its ADP is the sum of all those picks' decimals divided by their number (never a division by zero) |
| AdpUtils.ResultFor | lib/adpUtils.ts:59-62 | a row carries each group's ADP when that group has the player, else null, and `delta = adpB - adpA` exactly when both have it |
| AdpUtils.ResultForAntisymmetric | lib/adpUtils.ts:59-61 | swapping the two groups swaps `adpA` and `adpB` in every row and negates every non-null delta |
| AdpUtils.BuildRows | lib/adpUtils.ts:56-63 | the loop pushes one row per name of either map, each the row `ResultFor` describes |
| AdpUtils.OneRowPerName | lib/adpUtils.ts:56 | rows built from a set of names carry distinct names |
| AdpUtils.SameNamesAllDeltas | lib/adpUtils.ts:59-61 | when both maps have the same names every row has a delta |
| AdpUtils.CompareResults | lib/adpUtils.ts:64-67 | definition of the sort callback; characterised by `CompareResultsLaws` |
| AdpUtils.CompareResultsLaws | lib/adpUtils.ts:64-67 | the callback is antisymmetric; a row with a null delta compares equal to every row; between two rows with deltas, "not after" means "at least as large an absolute delta" |
| AdpUtils.NeighboursGiveOrder | lib/adpUtils.ts:64-67 | when every row has a delta and no neighbours are out of order, the rows run from largest to smallest absolute delta |
| AdpUtils.InsertAt | lib/adpUtils.ts:64-67 | one insertion pass permutes the rows and extends the part with no neighbours out of order by one row |
| AdpUtils.SortResults | lib/adpUtils.ts:64-67 | the sort permutes the rows and leaves no two neighbours out of order according to the callback |
| AdpUtils.CompareADPs | lib/adpUtils.ts:55-68 | exactly one row per name of either map, each built as `ResultFor` says; no neighbours out of order; with the same names on both sides the rows run from largest to smallest absolute delta |

## Left out

- The in-flight request maps of `lib/sleeper.ts` (lines 61, 64, 125-126, 143, 147, 170-171, 187, 191) are left out. They only merge concurrent identical requests, and the model has no concurrency.
- `fetchJson`, its `AbortController` timeout and the construction of `SleeperHttpError` (lib/sleeper.ts:65-100) are network I/O. Their outcome is the `upstream` parameter: data, an HTTP status, or any other failure.
- `getUserId` and `getUserLeagues` (lib/sleeper.ts:102-116) are left out. They are HTTP wrappers around a trim-and-non-empty check, which `JsText.TrimEmptyIff` covers.
- `getADPMap` fetches each league's picks with `getDraftPicks` (lib/adpUtils.ts:39). In `AdpUtils.GetADPMap` the picks of each league are given as a parameter instead.
- AdpUtils.Averages: the ADP is the exact quotient. The source also rounds it to two decimals with `toFixed(2)` and `parseFloat` (lib/adpUtils.ts:50).
- AdpUtils.ResultFor: the delta is the exact difference. The source also rounds it to two decimals (lib/adpUtils.ts:61).
- AdpUtils.MergeLeaguesOrderIndependent: totals are exact reals, so their sums do not depend on the order of the leagues. In the source, the additions `totalPick +=` (lib/adpUtils.ts:30 and 44-45) are floating-point, so a total can differ in its last bits with the order of picks or leagues. The two-decimal rounding of line 50 usually hides this.
- AdpUtils.PickValueHundredths: the decimal of a pick is an exact rational. The source reads it with `parseFloat` into a binary floating-point number (lib/adpUtils.ts:26).
- AdpUtils.SortResults: the callback is not a consistent order when some delta is null, so the order JavaScript's sort returns is up to the engine. The model is one admissible order, a stable insertion sort. The contract holds for that sort: a permutation with no neighbours out of order.
- AdpUtils.CalcAverageADP: the tallies are Dafny maps, not plain JavaScript objects. A player named like an inherited object property (`constructor`, `__proto__`) is not modelled, and neither is the key order of `Object.keys` or of the name `Set`.
- AdpUtils.CalcAverageADP: `numTeams` is required to be at least 1. Its only caller passes `draft_slot || 12`, and `draft_slot` is modelled as a natural number. Negative, fractional and non-numeric `pick_no` or `draft_slot` values are not modelled.
- Sleeper.IsComplete: lower-casing is modelled for ASCII letters only. This decides the comparison with "complete" the same way as full Unicode `toLowerCase`, except for the two characters that Unicode lower-cases to an ASCII letter (KELVIN SIGN and LATIN CAPITAL LETTER I WITH DOT ABOVE). Neither of their lower-case forms spells a letter of "complete", so it agrees there as well.
- Draft and pick lists containing `null` elements, and statuses or names that are not strings, are not modelled.
- The React pages (`app/page.tsx`, `app/select-leagues/page.tsx`, `app/compare/page.tsx`, `app/layout.tsx`) and the API route `app/api/leagues/route.ts` are UI and HTTP routing. They are not part of this model.
