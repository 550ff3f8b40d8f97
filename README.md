# Weekly meal-combo generator: a Dafny model

The backend draws Indian meal combos (one main course, one side dish, one drink) from a fixed
catalog of sixty items. A POST to `/generate-combos` names a start day. The server then plans
seven days round the week from it. Each day gets a flavour profile (sweet, spicy or balanced),
a remark, and three combos. A combo the retry loop accepts must:

- use three different items,
- avoid items already used that day,
- total 800 to 1000 kcal,
- pass the day's profile,
- have a fingerprint not yet used that week.

When the retry loop finds nothing, a fallback chain supplies the combo. A fallback combo still
uses three different items within 800 to 1000 kcal, but it may reuse the day's items and
repeat a fingerprint of the week; the last resort is a manual combo with fixed statistics. The response lists the
days and the number of days and combos. Its summary remark reports the calorie and score range.

The model has one module per part of `backend/app.js`:

- `Menu` (`menu.dfy`): the catalog `MasterMenu` and the item record.
- `Sampling` (`sampling.dfy`): `getRandomItems` and `selectSessionMenu`. `Math.random` is an
  explicit stream of draws (`Draws`), so every run is a function of its stream.
- `Fingerprint` (`fingerprint.dfy`): `generateComboHash`. The names are sorted in the
  engine's default string order and joined with `|`. The digest is an injective constructor
  of that key.
- `Synthesizer` (`synthesizer.dfy`): `generateSingleCombo`. Each of up to 1000 attempts draws
  one item per pool and applies the checks in the source's order. `Synthesize` is the
  functional reference that the imperative `GenerateSingleCombo` is proved equal to.
- `Ledger` (`ledger.dfy`): `localComboStorage` with Firebase disabled, as a class with a
  mutable set.
- `WeekPolicy` (`week.dfy`): the handler's pure parts. These are day validation, the
  `(startIndex + i) % 7` cycle, the day-to-profile switch, and `Math.min`/`Math.max`.
- `Planner` (`planner.dfy`): the handler's loops.
  - `GenerateCombos` validates the day and calls `PlanWeek`, the seven-day loop.
  - `PlanWeek` calls `PlanDay`, the three-slot loop.
  - `PlanDay` calls `FillSlot`, which draws a session menu (`DrawSlotPools`), runs the
    5000-try retry loop (`RetrySlot`) and then the fallback chain (`FallbackSlot`).
  - `DayRef` (with `SlotThenDay`) folds the reference slot `SlotRef` over the three slots.
    It threads the fingerprints, the retry names and the leftover draws. `WeekRef` (with
    `DayThenWeek`) folds `DayRef` over the seven days of the cycle. `PlanDay`, `PlanWeek`
    and `GenerateCombos` are proved equal to these references.
  - A ghost `Origin` records how each combo was made: the retry loop, the same-profile
    fallback, the balanced fallback or the manual combo. The contracts say what each
    origin guarantees.

The model follows the code as written, also where it differs from what its comments suggest:

- The session menu is drawn again for every slot, not once per day.
- The ledger lookup (`existsGlobally`) is made but never changes acceptance.
- Fallback combos skip the duplicate check, but their fingerprints still join
  `usedComboHashes`.
- Manual combos get no fingerprint and are never recorded in the ledger.
- The zero-days `500` answer can never be sent, because every day holds three combos.
  `GenerateCombos` proves that branch dead.

## Model

| member | source | states |
|---|---|---|
| Sampling.Shuffle | backend/app.js:170 | the shuffled copy has the input's length |
| Sampling.ShufflePermutes | backend/app.js:170 | the shuffled copy is a permutation of the input: same elements, same multiplicities |
| Sampling.ShuffleStep | backend/app.js:170 | a draw j below the length puts the j-th element first and shuffles the others with the remaining draws |
| Sampling.ShuffleReachesEvery | backend/app.js:170 | every rearrangement of the input (same elements, same multiplicities) is the shuffle of some stream of draws |
| Sampling.GetRandomItems | backend/app.js:168-172 | returns min(num, length of arr) elements; arr is a value and is not changed |
| Sampling.SampledSubMultiset | backend/app.js:168-172 | the returned elements form a sub-multiset of arr: each comes from its own position |
| Sampling.SampledFromPool | backend/app.js:168-172 | every element returned occurs in arr |
| Sampling.SelectSessionMenu | backend/app.js:161-166 | 8 mains, 6 sides and 6 drinks, fewer only for a shorter category |
| Sampling.SessionMenuFromCatalog | backend/app.js:161-166 | each category of the session menu is a sub-multiset of its catalog category |
| Sampling.MasterMenuSizes | backend/app.js:48-114 | the catalog has 20 items in each category, so the session menu is always full |
| Fingerprint.Insert | backend/app.js:119 | inserting adds one element and its characters |
| Fingerprint.InsertSorted | backend/app.js:119 | inserting into a sorted sequence keeps it sorted and adds exactly the one element |
| Fingerprint.Sort | backend/app.js:119 | the result has as many names and as many characters as the input |
| Fingerprint.SortSorted | backend/app.js:119 | the result is sorted in the default string order and is a permutation of the names |
| Fingerprint.SortedUnique | backend/app.js:119 | a multiset of names has only one sorted arrangement |
| Fingerprint.ComboHashOrderIndependent | backend/app.js:117-121 | lists with the same multiset of names have the same fingerprint |
| Fingerprint.ComboHashOfRearrangement | backend/app.js:117-121 | listing the same items in any order gives the same fingerprint |
| Fingerprint.JoinInjective | backend/app.js:119 | joining equally many parts that contain no separator bar loses nothing |
| Fingerprint.Join | backend/app.js:119 | a join of n > 0 parts is as long as the parts together plus n - 1 separators |
| Fingerprint.CanonicalKey | backend/app.js:119 | the hashed key is as long as the names together plus one bar between each two names |
| Fingerprint.ComboHash | backend/app.js:117-121 | the key of a three-item combo is as long as its three names plus two bars |
| Fingerprint.ComboHashIdentifiesNames | backend/app.js:117-121 | for names without a separator bar, equal fingerprints mean equal multisets of names (converse of order independence) |
| Synthesizer.CountPositive | backend/app.js:213-214 | a filter keeps something exactly when some item satisfies the predicate |
| Synthesizer.ProfileMeaning | backend/app.js:203-230 | sweet: two sweetish items and none above level 1; spicy: some item of level 2 or more; balanced: a mild item, a spicy item and none of level 3; any other profile accepts all (each an if-and-only-if) |
| Synthesizer.ScoreTenths | backend/app.js:232-250 | the score in tenths is within a third of a tenth of the exact mean |
| Synthesizer.ScoreIsUnique | backend/app.js:232-250 | only one number of tenths is that close, so the rounding is determined |
| Synthesizer.CalorieBand | backend/app.js:235-242 | a band other than "N/A" exactly within 800..1000 kcal, "Mildly Caloric, Balanced Spice" exactly below 900 within it |
| Synthesizer.Judge | backend/app.js:184-252 | an accepted combo holds the three drawn items in their roles |
| Synthesizer.JudgeAccepts | backend/app.js:184-252 | three items that pass every check produce the combo with their total, rounded mean score and band |
| Synthesizer.JudgeMeansAcceptable | backend/app.js:184-252 | an attempt's checks accept exactly the acceptable combos of the drawn items: distinct names, none used, total equal to the calorie sum and within 800..1000, profile passed, score and band as computed |
| Synthesizer.AttemptSound | backend/app.js:179-252 | a successful attempt is acceptable and made of items of the pools |
| Synthesizer.AttemptConsumesPools | backend/app.js:179-181 | an attempt takes one full shuffle's worth of draws from each pool, whatever it decides |
| Synthesizer.SynthesizeSound | backend/app.js:175-255 | whatever the 1000-attempt loop returns is acceptable and drawn from the pools |
| Synthesizer.EmptyPoolYieldsNothing | backend/app.js:175-255 | with an empty pool every attempt is skipped and the result is null |
| Synthesizer.AcceptableHasBand | backend/app.js:235-242 | an acceptable combo is labelled "Mildly Caloric, Balanced Spice" below 900 kcal and "Moderately Caloric, Robust Flavor" from 900; "N/A" never occurs |
| Synthesizer.CheckAttempt | backend/app.js:184-252 | the checks of one attempt give the reference verdict; an accepted combo is acceptable and holds the drawn items |
| Synthesizer.GenerateSingleCombo | backend/app.js:175-255 | the loop returns what the reference synthesizer returns, and a non-null result is acceptable and drawn from the given pools |
| Ledger.LocalLedger.constructor | backend/app.js:17 | the process starts with an empty local set |
| Ledger.LocalLedger.Exists | backend/app.js:124-128 | reports exactly whether the fingerprint was recorded |
| Ledger.LocalLedger.Record | backend/app.js:140-144 | adds exactly the fingerprint to the set |
| WeekPolicy.ToLower | backend/app.js:271 | the result spells the input up to ASCII case, keeping its length, and holds no capital letter |
| WeekPolicy.ToLowerMatches | backend/app.js:271 | lowering a day gives a capital-free word exactly when the day spells that word up to ASCII case |
| WeekPolicy.WeekDaysLowerCase | backend/app.js:268 | the seven weekday names hold no capital letter |
| WeekPolicy.ToLowerIdempotent | backend/app.js:271 | lowering twice is lowering once |
| WeekPolicy.IndexOf | backend/app.js:271-272 | -1 exactly when the name is absent; otherwise the first position holding it |
| WeekPolicy.ValidateDay | backend/app.js:263-274 | accepts exactly a present, non-empty day whose lower-case form is a weekday name, starting at that name's index; otherwise the missing-day or invalid-day message |
| WeekPolicy.ValidateMeansWeekday | backend/app.js:263-274 | a day is accepted exactly when it is non-empty and spells a weekday name in any mixture of case, and the week then starts at that name |
| WeekPolicy.ValidateIgnoresCase | backend/app.js:271 | validation gives the same answer for a day and its lower-case form |
| WeekPolicy.WeekDaysDistinct | backend/app.js:268 | the seven weekday names are pairwise different |
| WeekPolicy.DayAt | backend/app.js:281-282 | every day processed is one of the seven weekday names |
| WeekPolicy.CycleStarts | backend/app.js:280-282 | the requested day is processed first |
| WeekPolicy.CycleDistinct | backend/app.js:280-282 | two different positions of the cycle are different days |
| WeekPolicy.CycleReaches | backend/app.js:280-282 | weekday k is processed CycleOffset(start, k) days after the start, which is below seven |
| WeekPolicy.WeekCycle | backend/app.js:280-282 | the seven days processed are pairwise different and include every weekday, so each occurs exactly once |
| WeekPolicy.DayProfile | backend/app.js:290-320 | sweet exactly for monday and sunday, spicy exactly for friday and saturday, balanced otherwise; never unconstrained |
| WeekPolicy.MinOf | backend/app.js:467-470 | the minimum is a member that no member undercuts |
| WeekPolicy.MaxOf | backend/app.js:467-470 | the maximum is a member that no member exceeds |
| Planner.SessionMenuReshuffled | backend/app.js:329-334 | reshuffling a session menu of a stocked catalog gives pools of 8, 6 and 6 items, each a sub-multiset of its catalog category |
| Planner.SlotPools | backend/app.js:329-334 | a slot's pools are 8 mains, 6 sides and 6 drinks |
| Planner.SlotPoolsFromMenu | backend/app.js:329-334 | each of a slot's pools is drawn without replacement from its catalog category |
| Planner.DrawSlotPools | backend/app.js:329-334 | the pools and the draws left are SlotPools' of the catalog and the draws, so the pools are full and drawn without replacement from the catalog |
| Planner.CandidateJustified | backend/app.js:345-364 | a retry combo drawn from the pools and fingerprinted is from the catalog, acceptable for the day's profile, and carries the fingerprint of its items |
| Planner.RetryAccepts | backend/app.js:345-378 | a synthesized combo whose fingerprint is not in usedComboHashes becomes a justified retry combo carrying that fingerprint, and exactly its names join the day's used names |
| Planner.RetryRefSound | backend/app.js:336-381 | a combo the retry loop settles on is acceptable against the day's used names, drawn from the pools, and has a fingerprint not in usedComboHashes |
| Planner.TryCombo | backend/app.js:337-381 | one pass accepts exactly when the synthesizer call returns a combo whose fingerprint is not in usedComboHashes, and then that combo; the draws left are the call's; on acceptance exactly its fingerprint joins usedComboHashes and the ledger and exactly its names join the day's used names, otherwise nothing changes |
| Planner.RetrySlot | backend/app.js:336-382 | accepts a combo exactly when the reference retry loop (the first of up to 5000 synthesizer calls whose combo has a fingerprint not in usedComboHashes) finds one, and then that combo, leaving the same draws; an accepted combo is justified and acceptable against the names used today, and exactly its fingerprint joins usedComboHashes and the ledger and exactly its names join the day's used names; with none accepted nothing changes |
| Planner.FallbackJustified | backend/app.js:394-423 | a fallback combo is acceptable for the day's profile, or for balanced when the second try found it, and carries its fingerprint |
| Planner.ManualJustified | backend/app.js:425-437 | the manual combo takes the first item of each pool, 850 kcal, score 7.5 and label "Balanced Fallback" |
| Planner.FallbackOrder | backend/app.js:391-437 | the same-profile combo exactly when that try finds one; the balanced one exactly when only the second try does; the manual combo exactly when both fail |
| Planner.FallbackSlot | backend/app.js:384-438 | the combo, its origin and the draws left are the reference fallback chain's (same profile, then balanced only if that failed, then manual only if both failed); a fingerprinted combo is acceptable (with no used names) for the day's profile or for balanced, the manual one is the first pool items with its fixed statistics and id; never a retry combo |
| Planner.FillSlot | backend/app.js:323-439 | the combo, its origin and the draws left are the reference slot's (retry loop, else fallback chain); the combo is justified by its origin; a retry combo avoids today's used names and has a new fingerprint; usedComboHashes grows by its fingerprint (if any), and the used names and ledger grow only for retry combos |
| Planner.SlotOrder | backend/app.js:329-439 | the slot's combo comes from the retry loop exactly when the loop finds one, and is then that combo; otherwise it is the fallback chain's, run on the same pools with the draws the loop left |
| Planner.SlotExtendsDay | backend/app.js:323-439 | a filled slot keeps the day's slots justified, the retry combos' fingerprints fresh and their names disjoint, and the day's used names, usedComboHashes and the ledger equal to those of the extended day |
| Planner.AcceptableAvoidsUsed | backend/app.js:193-194 | an acceptable combo shares no name with the used set |
| Planner.SlotAppended | backend/app.js:384-438 | pushing a slot's combo keeps freshness and name-disjointness, and grows the fingerprint, ledger and used-name sets by exactly that combo |
| Planner.SlotAdvancesDay | backend/app.js:323-439 | a slot filled as the reference slot prescribes, with its fingerprint and retry names recorded, leaves the reference day's outcome unchanged |
| Planner.SlotKeepsTrack | backend/app.js:323-439 | filling a slot as the reference slot prescribes keeps the day on track to the reference day |
| Planner.DayRefEnd | backend/app.js:323 | after the third slot the reference day is what was planned, with the fingerprints and draws left |
| Planner.DayOnTrackEnd | backend/app.js:323-439 | a day kept on track through its third slot is the reference day (DayMatches) |
| Planner.PlanDay | backend/app.js:283-449 | the day's combos, their origins, the fingerprints after and the draws left are the reference day's (DayRef: three reference slots in turn); the day's remark and exactly three justified combos; retry combos have fresh fingerprints and pairwise disjoint names; usedComboHashes and the ledger grow by exactly the day's fingerprints and retry fingerprints |
| Planner.DigestsMember | backend/app.js:373-423 | every hashed combo's fingerprint is in usedComboHashes |
| Planner.RetryNamesMember | backend/app.js:376-378 | a retry combo's names are among the day's used names |
| Planner.FreshMeansUnique | backend/app.js:352-373 | checking against the growing usedComboHashes makes each retry combo's combo_id differ from every earlier combo's in the week |
| Planner.AllCombosLength | backend/app.js:463-479 | the flattened week has three combos per day |
| Planner.AllCombosAppend | backend/app.js:443-463 | flattening after a push appends that day's combos |
| Planner.DayAppended | backend/app.js:443-449 | pushing a planned day keeps the week planned |
| Planner.DayExtendsWeek | backend/app.js:373-449 | pushing a day planned against the week's fingerprints keeps the retry fingerprints fresh across the week, and usedComboHashes and the ledger are those of the extended week |
| Planner.DayAdvancesWeek | backend/app.js:280-450 | a day planned as the reference day, under its name and remark, leaves the reference week's outcome unchanged |
| Planner.WeekRefEnd | backend/app.js:280 | after the seventh day the reference week is what was planned, with the draws left |
| Planner.WeekOnTrackEnd | backend/app.js:280-450 | a week kept on track through its seventh day is the reference week (WeekMatches) |
| Planner.DayKeepsTrack | backend/app.js:280-450 | planning a day as the reference day prescribes keeps the week on track to the reference week |
| Planner.DayPushed | backend/app.js:443-449 | pushing a day planned against the week's fingerprints keeps the week planned, its retry fingerprints fresh, and usedComboHashes and the ledger those of the extended week |
| Planner.PlanWeek | backend/app.js:277-450 | the days, their origins and the draws left are the reference week's (WeekRef: seven reference days in cycle order, each against the fingerprints the days before left); seven days, each planned; retry fingerprints fresh across the week; the ledger gains exactly the retry fingerprints |
| Planner.Summarize | backend/app.js:463-480 | the response lists the days and counts them and their combos; its statistics are the true minima and maxima of the combos' calories and scores |
| Planner.GenerateCombos | backend/app.js:258-481 | a bad day gets the matching 400 message and the ledger is untouched; otherwise 7 days and 21 combos that are the reference week's from the requested day (WeekMatches), every combo justified, retry combo_ids unique in the week, the ledger grown by exactly the retry fingerprints, and true minima and maxima of calories and scores |

## Left out

- Express plumbing (`cors`, JSON parsing, `res.status(...).json`, `app.listen`): the handler is a method from the requested day to a `Response`.
- Firebase initialisation and the Firestore branches of the ledger functions: these are network calls. Only the local-set branch, which runs with Firebase disabled, is modelled.
- SHA-256: the digest is a constructor applied to the canonical key. It is injective by construction; the real hash is only assumed collision-free.
- The distribution of `Math.random`: draws are an arbitrary stream and no probability is claimed. A comparator sort is modelled as a choice of one element at a time, which reaches every ordering (`Sampling.ShuffleReachesEvery`) and may reach some the engine's sort never produces.
- `crypto.randomUUID` for a missing user id: the user id is a parameter. It only reaches the Firestore document, which is left out.
- `Date.now()` in manual combo ids: a manual id is `ManualId(day, slot)` without the timestamp.
- The `date` field (`toLocaleDateString`) and the text of the summary remark: these are locale and string formatting. The four numbers the remark reports are the `Stats` of the response.
- Floating point: scores are integer tenths. `parseFloat(avg.toFixed(1))` of a mean of three integers equals the nearest tenth, and a mean of three integers is never half-way between two tenths.
- `toLowerCase` covers ASCII letters only. Of the non-ASCII characters, only the Kelvin sign U+212A lowers to a bare ASCII letter, `k`, which no weekday name contains; `İ` lowers to `i` plus a combining dot, which is not ASCII. So no input with a non-ASCII character lowers to a weekday name, and validation is the same.
- A `day` that is not a string (a number or an object in the JSON body): the day is an optional string.
- `console.log` and `console.warn`, the `try`/`catch` around ledger calls, and `async`/`await`: the local ledger cannot throw and nothing runs concurrently.
- `usedItemsInDay` and the initial remark "A balanced selection of flavors.": one is never read and the other is always overwritten.
- The `selected[0]` alternative of the manual combo: the reshuffled pools are never empty, so `shuffled[0]` is always taken.
