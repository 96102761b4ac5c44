# Amorly date planner: a verified model of its core

Amorly is a React Native app for couples. It plans a month of dates, recommends venues that fit how special a date should feel, and keeps the couple's list of dates and savings goals. This project models the logic behind those features in Dafny and proves what that logic promises:

- **Planner** (`planner.dfy`, with the catalogue in `catalog.dfy`): the monthly date-plan generator.
  - It scores the 23-idea catalogue against the weather, the couple's energy, the budget tier of the average spend per date, and the ratings of past dates.
  - It drops ideas scoring -50 or less and ranks the rest with a stable descending sort.
  - It keeps a pool of the best `max(count, 10)`, Fisher-Yates-shuffles the pool, takes `count` ideas and relabels them "Date 1: …", "Date 2: …".
  - The single-date plan is a one-date month with the default context.
- **Venues** (`venues.dfy`): the emotion-to-venue helpers.
  - They map a 0-1 emotion value to a price level, an emotion category and a budget band.
  - They hold the cost and `$` symbol tables and the price clamp applied to provider results.
  - The success-pattern analyser reads past dates.
  - The scoring, tagging, sorting and top-ten steps of the venue search run over the venues a provider returned.
- **Events** (`events.dfy`): the event store. It keeps a list of dates whose status goes scheduled -> pending_review -> completed, and has two getters: the latest date awaiting review and the next scheduled date.
- **Goals** (`goals.dfy`): the goal store. It holds savings goals with an exclusive "current goal" toggle, and the date settings the planner reads.
- **Support modules:**
  - `sorting.dfy`: a stable in-place insertion sort proved against a descending-sort specification, plus counting lemmas for "among the best n".
  - `text.dfy`: the JavaScript string operations the code uses.
  - `wrappers.dfy`: `Option`, `Min` and `Max`.

Numbers are `real`. `Math.random` is an injected function `random: nat -> real` with values in [0, 1): the k-th draw is `random(k)`. `parseFloat` is an injected `parse: string -> Option<real>`, where `None` stands for NaN. Generated ids are parameters. The venue provider's result is the input list `places`.

## Model

| member | source | states |
|---|---|---|
| Planner.TierOf | utils/aiPlanner.ts:314-319 | the tier is Low iff avg < 40, High iff avg > 120, Mid otherwise (40 and 120 are Mid) |
| Planner.TargetTier | utils/aiPlanner.ts:314-319 | for count > 0: Low iff budget < 40·count, High iff budget > 120·count; for count < 0 the comparisons flip; for count 0 (an infinite or NaN average): High for a positive budget, Low for a negative one, Mid for 0 |
| Planner.TierVal | utils/aiPlanner.ts:399-403 | each tier maps to a value in 1..3 |
| Planner.TierValDistance | utils/aiPlanner.ts:346 | distinct tiers get distinct values, and only Low and High are two apart, so every other pair is adjacent |
| Planner.TierTermCases | utils/aiPlanner.ts:345-347 | the tier term is +10 iff same tier, +2 iff different and one of them is Mid (tier values differ by 1), -10 iff one is Low and the other High |
| Planner.FindIdeaFor | utils/aiPlanner.ts:358 | the result is the first catalogue position whose title's first word occurs in the event title; None iff there is none |
| Planner.CommonTagCount | utils/aiPlanner.ts:362 | the number of shared tags is at most the idea's tag count |
| Planner.EventTermCases | utils/aiPlanner.ts:350-370 | an event that is not completed-and-rated adds 0; a rated one adds +2k above 0.7, -2k below 0.4, 0 in [0.4, 0.7] or when no catalogue idea matches, k = tags shared with the first matching idea |
| Planner.HistoryTermAppend | utils/aiPlanner.ts:351-369 | the history term of a concatenation is the sum of the history terms of the parts |
| Planner.HistoryReadsOnlyRatedCompletions | utils/aiPlanner.ts:352 | the history term of the events equals that of their completed, rated subsequence |
| Planner.HistoryTermBounded | utils/aiPlanner.ts:350-370 | the history term lies within ±2·(tags of the idea)·(number of events) |
| Planner.RainExcludesOutdoor | utils/aiPlanner.ts:331-333 | under rain an outdoor idea scores -100, below the -50 cut, whatever the energy, tier and history |
| Planner.RainKeepsOnlyIndoor | utils/aiPlanner.ts:331-376 | under rain every idea scoring above -50 is indoor |
| Planner.EmptyContextScore | utils/aiPlanner.ts:310-373 | with the default context an idea's score is its tier term, which is above -50 |
| Planner.ScoreIdea | utils/aiPlanner.ts:325-372 | the accumulating scoring loop computes IdeaScore (rain sentinel, weather, energy, tier and history terms) |
| Planner.LearnFromEvent | utils/aiPlanner.ts:351-369 | one `forEach` step adds exactly that event's term to the running score |
| Planner.ScoreCatalog | utils/aiPlanner.ts:325-373 | the map scores every catalogue idea in catalogue order, entry i holding idea i |
| Planner.Viable | utils/aiPlanner.ts:376 | the filter keeps exactly the candidates scoring above -50, is no longer than its input, and is the identity when all pass |
| Planner.ViableDistinct | utils/aiPlanner.ts:376 | filtering a list without repetitions gives a list without repetitions |
| Planner.SliceEnd | utils/aiPlanner.ts:389 | the end index used by `slice(0, count)` never exceeds the length (a negative count counts from the back) |
| Planner.SwapIndex | utils/aiPlanner.ts:19 | `floor(r·(i+1))` for a draw in [0, 1) is a valid index at most i |
| Planner.SwappedPermutation | utils/aiPlanner.ts:20 | exchanging two cells keeps the multiset of elements |
| Planner.SwapCells | utils/aiPlanner.ts:20 | the destructuring swap leaves the array as the specification's exchanged sequence |
| Planner.ShuffleFromPermutation | utils/aiPlanner.ts:18-21 | any suffix of the Fisher-Yates swaps keeps the multiset of elements |
| Planner.ShuffledPermutation | utils/aiPlanner.ts:16-23 | for every sequence of draws the shuffle is a permutation of its input |
| Planner.Shuffle | utils/aiPlanner.ts:16-23 | the in-place loop over a copy returns the specified shuffle, a permutation of the input; the input is a value and is unchanged |
| Planner.DateTitleKeepsPlainTitle | utils/aiPlanner.ts:394 | a title without ':' and without surrounding white space appears unchanged after "Date i+1: " |
| Planner.ScoredCatalogEntries | utils/aiPlanner.ts:325-373 | the scored catalogue has no repeated element and each element sits at its own catalogue position |
| Planner.TopPoolFacts | utils/aiPlanner.ts:376-388 | the pool has min(viable, size) ideas, no repetition, each viable and beaten by fewer than `size` viable ideas |
| Planner.SelectionFacts | utils/aiPlanner.ts:388-389 | the selection has `count` ideas capped by the pool size (a negative count drops that many from the end), all from the pool, none twice |
| Planner.MonthlyPlanLength | utils/aiPlanner.ts:376-396 | for count ≥ 0 the plan has min(count, number of ideas scoring above -50) entries; in general SliceEnd of the pool size |
| Planner.MonthlyPlanEntries | utils/aiPlanner.ts:376-396 | each plan is a catalogue idea with only its title changed to DateTitle(i, …), carrying its score, which is above -50, with fewer than max(count, 10) viable ideas scoring higher |
| Planner.MonthlyPlanNoRepeats | utils/aiPlanner.ts:388-396 | no catalogue idea is planned twice |
| Planner.MonthlyPlanRainIndoor | utils/aiPlanner.ts:331-396 | under rain every plan is an indoor idea, whatever the budget, count, energy or history |
| Planner.TopCandidates | utils/aiPlanner.ts:325-388 | scoring, filtering, in-place sorting and slicing yield the specified pool |
| Planner.MonthlyPlan | utils/aiPlanner.ts:306-397 | the generator's result is MonthlyPlanSpec, which does not take the mood, so the mood has no influence |
| Planner.GenerateMonthlyPlan | utils/aiPlanner.ts:306-397 | the same, over the fixed catalogue |
| Planner.EmptyContextKeepsAll | utils/aiPlanner.ts:376 | with the default context no catalogue idea is filtered out |
| Planner.DatePlanSingle | utils/aiPlanner.ts:300-304 | a one-date month with the default context over a non-empty catalogue has exactly one plan |
| Planner.DatePlanFacts | utils/aiPlanner.ts:300-304 | that plan is a catalogue idea titled "Date 1: …" whose score is its tier term against the budget's tier |
| Planner.DatePlan | utils/aiPlanner.ts:300-304 | the single-date plan is the only element of the count-1 monthly plan |
| Planner.GenerateDatePlan | utils/aiPlanner.ts:300-304 | the same, over the fixed catalogue |
| Catalog.CatalogueSize | utils/aiPlanner.ts:33-292 | the catalogue has 23 ideas |
| Sorting.CountAbovePermutation | utils/aiPlanner.ts:380 | the number of elements keyed above a value does not depend on their order |
| Sorting.MatchingIndex | utils/aiPlanner.ts:380 | the last element of a list sits at some position of any rearrangement, and the rest rearranges the remainder |
| Sorting.CountAboveSorted | utils/aiPlanner.ts:380-388 | in a descending sequence fewer than k+1 elements are keyed above the k-th |
| Sorting.PrefixSubMultiset | utils/restaurantAPI.ts:646 | a prefix holds no element more often than the whole |
| Sorting.TopPoolMember | utils/aiPlanner.ts:388 | an element of the first m of a sorted permutation is in the input and beaten by fewer than m input elements |
| Sorting.DistinctPermutation | utils/aiPlanner.ts:389 | a permutation of a list without repetitions has none |
| Sorting.InsertPermutation | utils/aiPlanner.ts:380 | inserting adds exactly the inserted element |
| Sorting.InsertSorted | utils/aiPlanner.ts:380 | inserting into a descending sequence keeps it descending |
| Sorting.SortDescSorted | utils/aiPlanner.ts:380 | the sort specification is descending by key |
| Sorting.SortDescPermutation | utils/aiPlanner.ts:380 | the sort specification is a permutation of its input |
| Sorting.InsertAt | utils/aiPlanner.ts:380 | inserting places the element after every element keyed at least as high and before the rest (stability) |
| Sorting.InsertStep | utils/aiPlanner.ts:380 | one pass of the in-place insertion is the specification's insert on the prefix, the suffix untouched |
| Sorting.InsertLeft | utils/aiPlanner.ts:380 | the element moves left past exactly the elements keyed strictly below it, which shift right by one |
| Sorting.SortByKeyDesc | utils/aiPlanner.ts:380 | the in-place sort leaves the array equal to the sort specification of its old contents: descending and a permutation |
| Text.Before | utils/aiPlanner.ts:358 | `split(c)[0]` is a prefix without `c`, followed by `c` when shorter than the string |
| Text.IsInfixAt | utils/aiPlanner.ts:358 | a string occurring at some position is included |
| Text.TrimStart | utils/aiPlanner.ts:394 | exactly the leading white space is dropped |
| Text.TrimEnd | utils/aiPlanner.ts:394 | exactly the trailing white space is dropped |
| Text.Trim | utils/aiPlanner.ts:394 | a trimmed string neither starts nor ends with white space |
| Text.TrimUntouched | utils/aiPlanner.ts:394 | trimming a string without surrounding white space leaves it unchanged |
| Text.TrimIdempotent | utils/aiPlanner.ts:394 | trimming twice is trimming once |
| Text.NatToString | utils/aiPlanner.ts:394 | a non-empty decimal numeral without a leading zero |
| Text.NatToStringRoundTrip | utils/aiPlanner.ts:394 | reading back the numeral of `index + 1` gives the number |
| Text.Repeat | utils/restaurantAPI.ts:658 | `c.repeat(n)` has length n and only the character c |
| Venues.EmotionToPriceLevel | utils/restaurantAPI.ts:16-21 | level 1 iff < 0.25, 2 iff in [0.25, 0.75), 3 iff in [0.75, 0.95), 4 iff ≥ 0.95; always in 1..4 |
| Venues.PriceLevelMonotone | utils/restaurantAPI.ts:16-21 | the price level never decreases as the emotion value grows |
| Venues.EmotionToBudgetRange | utils/restaurantAPI.ts:26-44 | with a non-negative budget 0 ≤ min ≤ max, strictly below for a positive budget |
| Venues.BudgetRangeMonotone | utils/restaurantAPI.ts:26-44 | with a non-negative budget both ends of the band never decrease as the emotion value grows |
| Venues.BudgetBandAgainstBase | utils/restaurantAPI.ts:26-44 | for a positive budget the band contains the base budget iff the level is 1 or 2, and lies above it iff the level is 3 or 4 |
| Venues.GetEmotionCategory | utils/restaurantAPI.ts:49-53 | comfort iff price level 1, spot_on iff level 2, treat iff level 3 or 4 |
| Venues.EstimateCostFromPriceLevel | utils/restaurantAPI.ts:215-223 | the cost is between 30 and 300, and 70 for any value outside 1..4 |
| Venues.CostRisesWithLevel | utils/restaurantAPI.ts:215-223 | over the four levels the estimated cost strictly rises |
| Venues.TransformPrice | utils/restaurantAPI.ts:181-190 | missing or 0 becomes level 2 at cost 70; 1..4 keep their level and table cost; below 1 clamps to 1 and above 4 to 4, both at cost 70 |
| Venues.GetPriceLevelSymbol | utils/restaurantAPI.ts:657-659 | exactly `priceLevel` '$' characters |
| Venues.Successful | utils/restaurantAPI.ts:61-66 | exactly the completed events rated above 0.7 with match result "Spot On ✨", no more than the events |
| Venues.PositivePrices | utils/restaurantAPI.ts:70-72 | a value is kept iff it is the positive price of some event; no more prices than events |
| Venues.NoPositivePrices | utils/restaurantAPI.ts:70-72 | the price list is empty iff no event has a positive price |
| Venues.SeqMin | utils/restaurantAPI.ts:92 | the minimum is an element and at most every element |
| Venues.SeqMax | utils/restaurantAPI.ts:93 | the maximum is an element and at least every element |
| Venues.SumAtLeast | utils/restaurantAPI.ts:76 | a sum of values at least lo is at least lo times their number |
| Venues.SumAtMost | utils/restaurantAPI.ts:76 | a sum of values at most hi is at most hi times their number |
| Venues.MeanAtLeast | utils/restaurantAPI.ts:76 | the average of values at least lo is at least lo |
| Venues.MeanAtMost | utils/restaurantAPI.ts:76 | the average of values at most hi is at most hi |
| Venues.AverageBetween | utils/restaurantAPI.ts:76-93 | the average lies between the minimum and the maximum |
| Venues.ShareInUnit | utils/restaurantAPI.ts:90 | a ratio of a positive count to a count at least as large is in (0, 1] |
| Venues.BandsDisjoint | utils/restaurantAPI.ts:78-85 | no price falls in two of the bands < 40, [40, 100), ≥ 100 |
| Venues.CountInBand | utils/restaurantAPI.ts:79 | a band count is at most the number of events |
| Venues.BandCountsBounded | utils/restaurantAPI.ts:78-85 | the three band counts sum to at most the number of events counted |
| Venues.AnalyzeEmotionPatterns | utils/restaurantAPI.ts:58-96 | None iff no events, no successful event, or no positive successful price; otherwise 0 < min ≤ average ≤ max, 0 < success rate ≤ 1, and band counts sum to at most the successful events |
| Venues.SpotOnRatingCountsAsSuccess | utils/restaurantAPI.ts:61-66 | an event rated above 0.7 as "Spot On ✨" through the event store is one of the successes |
| Venues.PriceMatchCases | utils/restaurantAPI.ts:601-609 | for a food search the price term is +20 iff same level, +10 iff adjacent level, -10 iff further away |
| Venues.NonFoodScore | utils/restaurantAPI.ts:598-631 | outside food searches the score is rating·10 + budget term + popularity term: price level and past dates play no part |
| Venues.PlaceScoreRange | utils/restaurantAPI.ts:594-631 | a venue's score lies between rating·10 - 30 and rating·10 + 65 |
| Venues.ScorePlace | utils/restaurantAPI.ts:594-631 | the accumulating score is the sum of the rating, price, budget, pattern and popularity terms |
| Venues.ScoreAll | utils/restaurantAPI.ts:594-640 | the map scores and tags every provider venue, in order |
| Venues.ScoredPlaceFacts | utils/restaurantAPI.ts:634-639 | every scored venue carries the request's emotion tag, emotion value and category, and is a provider venue with its own score |
| Venues.SearchResultShape | utils/restaurantAPI.ts:643-646 | at most ten venues (min(10, provider count)), descending by score, none more often than scored |
| Venues.SearchResultTopTen | utils/restaurantAPI.ts:643-646 | every returned venue is a scored venue beaten by fewer than ten scored venues |
| Venues.SearchPlacesByEmotion | utils/restaurantAPI.ts:561-647 | scoring, in-place sorting and slicing yield the specified top ten, with the pattern computed for food searches only |
| Events.FirstIndexWithStatus | context/EventContext.tsx:90 | the first position holding the status, none before it; None iff no event has it |
| Events.LastIndexWithStatus | context/EventContext.tsx:89 | the last position holding the status, none after it; None iff no event has it |
| Events.Reversed | context/EventContext.tsx:89 | the copy reversed: same length, element i is element len-1-i |
| Events.FirstIndexIs | context/EventContext.tsx:90 | a position holding the status with none before it is what the forward search finds |
| Events.ReverseSearch | context/EventContext.tsx:89 | a forward find on the reversed list finds the last matching event |
| Events.FirstSearchSeesOnlyStatuses | context/EventContext.tsx:90 | the forward search depends on statuses only |
| Events.LastSearchSeesOnlyStatuses | context/EventContext.tsx:89 | the backward search depends on statuses only |
| Events.DraftKeepsSelection | context/EventContext.tsx:82-90 | saving a draft rating never changes what either getter selects |
| Events.RatedEventLeavesQueues | context/EventContext.tsx:56-90 | after rating, the rated events are completed and neither getter returns one of them |
| Events.RatingOverridesEarlierSteps | context/EventContext.tsx:44-86 | rating after a review step or a draft gives the same list as rating directly |
| Events.MarkedEventIsReviewable | context/EventContext.tsx:44-89 | after marking a present event done, the pending review shown is that event or a later one |
| Events.AppendedScheduled | context/EventContext.tsx:31-90 | an appended scheduled event is the next scheduled one iff none was scheduled before |
| Events.EventStore.constructor | context/EventContext.tsx:29 | the store starts with no events |
| Events.EventStore.AddEvent | context/EventContext.tsx:31-42 | exactly one event is appended, with the given fields, rating 0 and match result "pending"; earlier events unchanged |
| Events.EventStore.MarkAsDone | context/EventContext.tsx:44-48 | matching events take status pending_review; every other field and event unchanged |
| Events.EventStore.StartReview | context/EventContext.tsx:50-54 | the same update as MarkAsDone |
| Events.EventStore.RateEvent | context/EventContext.tsx:56-80 | matching events become completed with the rating and match result and keep their other fields; length and other events unchanged |
| Events.EventStore.SaveDraftRating | context/EventContext.tsx:82-86 | matching events take the rating and match result; no status changes; other events unchanged |
| Events.EventStore.GetPendingReviewEvent | context/EventContext.tsx:89 | the last event awaiting review; None iff there is none |
| Events.EventStore.GetNextScheduledEvent | context/EventContext.tsx:90 | the scheduled event at the lowest index, with no scheduled event before it; None iff there is none |
| Goals.InitialGoalsWellFormed | context/GoalContext.tsx:29-51 | the initial goals have distinct ids and at most one completed goal (the second) |
| Goals.ToggleIsExclusive | context/GoalContext.tsx:71-76 | with distinct ids, afterwards exactly the target is completed if it was not, and nothing if it was |
| Goals.ToggleUnknownClearsAll | context/GoalContext.tsx:71-76 | toggling an unknown id leaves no goal completed |
| Goals.ToggleKeepsGoals | context/GoalContext.tsx:71-76 | toggling keeps length, order and every field except isCompleted |
| Goals.GoalStore.constructor | context/GoalContext.tsx:29-58 | the store starts with the three initial goals and settings '200', '4', 'Balanced', no preferences, satisfying the invariant |
| Goals.GoalStore.AddGoal | context/GoalContext.tsx:60-69 | one unchecked goal is prepended with 'New Goal', '0', 'Together' for empty fields; the invariant is kept |
| Goals.GoalStore.ToggleGoal | context/GoalContext.tsx:71-76 | the target flips, all others are unchecked, other fields unchanged; at most one completed goal remains |
| Goals.GoalStore.UpdateDateSettings | context/GoalContext.tsx:78-80 | the settings are replaced wholesale |

## Left out

- Network and provider code is not modelled: `searchGooglePlaces`, URL building, `fetch`, `getCategorySearchInfo` and the mock-place generators. The search takes the provider's venues as the input `places`, so its `city` parameter plays no part.
- The `mood` parameter of `searchPlacesByEmotion` and the `searchRestaurantsByEmotion` alias are not modelled; neither affects the result.
- `extractCuisineType` is not modelled. Its first branch can never fire, and no modelled operation reads the cuisine.
- From `transformGooglePlaceToPlace` only the price part is modelled (TransformPrice). The other `PlaceData` fields (address fallbacks, types, location, opening hours, photos) are copied values the ranking never reads, and `Place` omits them.
- Venues.SearchPlacesByEmotion: the source writes the emotion tag, emotion score and category into the provider's own place objects before copying them. The model builds new values, so that aliasing side effect on the provider's list is not captured.
- Sorting.SortByKeyDesc: the JavaScript engine's stable sort is modelled by a stable insertion sort with the same result. The planner's comparator `b.score - a.score` would be inconsistent on a NaN score; reals have no NaN. The venue comparator already maps NaN to 0 with `|| 0`.
- The 1500 ms delay, `async`/`Promise` plumbing and `console.log` tracing are left out; they do not affect results.
- `Math.random` is the injected `random`, and the unused `sample` helper is left out. Every property about the shuffle holds for all draw sequences.
- Ids from `Date.now()` and `Math.random()` are parameters of AddEvent and AddGoal.
- Goals.GoalStore.AddGoal: requires the id to be new to the list. The source relies on `Date.now()` being fresh, and the "distinct ids" part of the class invariant rests on that.
- `parseFloat` is the abstract `parse`; its exact grammar is not modelled.
- IEEE floating point (rounding, NaN and infinities) is modelled by exact `real` arithmetic. For a budget divided by a count of 0, TargetTier spells out the resulting tier (High for a positive budget, Low for a negative one, Mid for 0).
- Venues.AnalyzeEmotionPatterns: the proved bounds min ≤ average ≤ max hold for exact reals, not for the source's doubles. Summing and dividing in IEEE arithmetic can put the average just outside that range: three prices of 45.30 average to 45.29999999999999, and three of 0.1 to 0.10000000000000002. For the same reason, a comparison against a threshold can come out differently on a rounded value. This affects the 0.7 success rating, the 40 and 100 price bands, the budget band in the venue score and the planner's 40/120 tier thresholds.
- The React providers, hooks and every UI screen are left out; the stores are plain classes.
- The planner's functions take the catalogue as a parameter `ideas`. Only GenerateMonthlyPlan and GenerateDatePlan fix it to the 23-idea catalogue.
- The planner has no mood, interest or environment-preference term. `compositeMood` and the two moods of `generateDatePlan` are accepted and never read, as in the source.
