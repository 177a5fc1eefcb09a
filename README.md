# Spectre stats service: a verified model of its core

This project models, in Dafny, the in-memory logic of a statistics backend for the game
Spectre Divide. It does not model the database, cache or HTTP layers around that logic.

## What is modelled

- **Match history of a player** (`src/player/info.ts`):
  - Normalising the nested participation rows into match records: `processMatch`,
    `calculateWinner`, `processTeam`, `processPlayer`, `calculateXpEarned`, `calculateFansEarned`.
  - Classifying match dates into seasons: `getSeason`.
  - Sorting the records newest first, in place, on an array.
  - Folding the matches into per-season, per-map and per-sponsor buckets, plus a last-20-matches
    bucket: `calculateExtendedStats`, `initializeExtendedStats`, `initializeSeasonStats`,
    `updateExtendedStats`.
  - Turning the totals into rates: `finalizeExtendedStats`.
  - The branches of `getPlayerFullProfile` that tie these together.
- **Global sponsor statistics** (`src/sponsor/sponsor.ts`): the part of `getGlobalSponsorStats`
  that runs in memory.
  - Counting distinct players and grouping rows by sponsor.
  - Cutting id lists into batches of 100.
  - Collecting the batched reads and indexing teams, matches and surrenders.
  - The win/loss/draw rule applied per row.
- **Player dump queue** (`src/dump/dump.ts`): `dumpPlayer` and `getDumpStatus`, over a
  regular queue, a priority queue and a cache map, as a class whose methods update those fields.
- **Tournament data** (`src/tournament/tournament.data.ts`):
  - The default data: `createDefaultPlayer`, `createDefaultMatch`, `defaultTournamentData`.
  - The keyed store operations `fetchTournament`, `updateTournament`, `addMatch`, `updateMatch`,
    `deleteMatch` and `resetTournamentData`, as a class whose map field is the store.
- **Match ids** (`src/match/match.ts`): the unanchored UUID test `validMatchId`, and the
  early-return chains of `getMatch`, `checkMatch` and `addMatch`.
- **Steam ids** (`src/steam/steam.ts`): `isValidSteamId`, and the reply classification of
  `getPlayerIdFromSteamId`.

### How some things are represented

- **Inputs from outside the core.** Answers from Supabase, Redis and the HTTP services are
  parameters, either values or functions from the requested id to the reply. `Date.now()` is the
  parameter `now`; `Math.random()` avatar numbers are `portrait` parameters;
  `isAdminAuthenticated()` is `admin`; `validPlayerId` is a predicate parameter.
- **Truthiness.** Optional raw columns are `Option<int>` or `Option<string>`. Wherever the source
  uses `||`, `&&` or `if (x)`, `Some(0)` and `Some("")` behave like `None`.
- **Division.** Divisions in the finalizer are exact reals. A zero denominator gives NaN (for 0/0)
  or an infinity of the numerator's sign, as JavaScript does.
- **Rank ids.** A player row's `current_rank_id` and `previous_rank_id` are numbers. The snapshot
  reads them with `|| ''`, so a null or 0 rank gives the empty string and any other rank keeps its
  number. The model carries that number as its decimal text (`RankText`), which loses nothing,
  because distinct ranks give distinct texts (`RankTextInjective`).
- **Dates.** A date is a calendar reading: year, month (0 is January), day and milliseconds into
  the day. A null `match_date` is the Unix epoch, which is what `new Date(null)` gives.

### Where the code and its description differ (the model follows the code)

- `ranked_rating_delta` of a player is `(current - previous) || 0`. Database nulls coerce to 0 in
  a subtraction, so the model computes `(current or 0) - (previous or 0)`. That is 0 only when both
  readings agree, not whenever one is missing.
- `calculateWinner` returns a non-`-1` `surrendered_team` as it is. It is not reduced to
  `{-1, 0, 1}` unless the column already lies there (`WinnerInDomain`).
- When the tournament is not stored yet, a "not found" answer from `updateMatch` or `deleteMatch`
  still leaves the default data stored. This happens through the `fetchTournament` call that runs
  first.
- The match list handed to `calculateExtendedStats` is the one just sorted in place. The buckets
  therefore fold newest first. The last-20 bucket folds the subject's lines from the first 20
  matches of the sorted list. A match in which the subject has no line on its own team still uses
  up one of those 20 indices, so the bucket can hold fewer than 20 matches even when more exist.

## Model

| member | source | states |
|---|---|---|
| MatchNormalizer.RankText | src/player/info.ts:248-249 | a rank id is the empty string exactly when the rank is null or 0, and otherwise the rank's decimal text |
| MatchNormalizer.RankTextInjective | src/player/info.ts:248-249 | two rank texts agree only when the ranks agree once null and 0 are identified |
| MatchNormalizer.ProcessPlayer | src/player/info.ts:232-258 | no snapshot exactly when the row has no truthy player id; otherwise every field is its column with the source's default when null, 0 or empty: name 'Unknown'; counters, teammate index, ratings, crew score and ranked-match count 0; sponsor, banner, crew, team and division ids ''; rank ids by `RankText`; anonymity false unless the column is true; the delta is current minus previous rating, whatever the raw row says |
| MatchNormalizer.ProcessPlayerExample | src/player/info.ts:245-249 | ratings 1200 after and 1000 before give a delta of 200; no ratings give 0 everywhere; a rank id of 0 gives an empty rank text |
| MatchNormalizer.RawDeltaIgnored | src/player/info.ts:247 | the raw row's own ranked_rating_delta never changes the snapshot |
| MatchNormalizer.ProcessPlayers | src/player/info.ts:199 | map-then-filter keeps one snapshot per row with a player id, each with a non-empty id |
| MatchNormalizer.ProcessPlayersAppend | src/player/info.ts:199 | the filter is local: the players of a concatenation are the concatenation of the players, so order is kept |
| MatchNormalizer.ProcessPlayersSingle | src/player/info.ts:199 | a single row contributes exactly its own snapshot, or nothing |
| MatchNormalizer.XpEarned | src/player/info.ts:208-213 | xp is per-round times rounds played plus per-round-won times rounds won when all four are truthy, and 0 otherwise |
| MatchNormalizer.FansEarned | src/player/info.ts:220-225 | the same rule for fans |
| MatchNormalizer.ZeroRateEarnsNothing | src/player/info.ts:209 | a present-but-zero rate earns nothing, exactly like a missing one |
| MatchNormalizer.ProcessTeam | src/player/info.ts:182-201 | ids, rounds, the rank and rating columns (nulls kept), the flags and the raw ranked_rating_delta are copied; xp and fans follow their rules; players are the filtered rows (none when the relation is missing) |
| MatchNormalizer.CalculateWinner | src/player/info.ts:167-175 | any surrender value other than exactly -1 decides alone (null gives 1); only -1 compares rounds: no opponent or more rounds is 1, fewer is 0, equal is -1 |
| MatchNormalizer.WinnerInDomain | src/player/info.ts:167 | the result lies in {-1, 0, 1} whenever the surrender column does |
| MatchNormalizer.ProcessMatch | src/player/info.ts:126-158 | nothing exactly when the nested match or its team list is missing or empty; otherwise id, region, ranked flag, queue name, map, game mode, surrender column and abandoned flag are copied, a null date reads as the epoch, team 0 is the player's team, team 1 (if any) the opponent, rounds is the larger rounds_won (the own one without opponent), and the winner follows calculateWinner |
| MatchNormalizer.SingleTeamIsWin | src/player/info.ts:134-139 | a match with one embedded team has no opponent and, without a decisive surrender, counts as a win |
| MatchNormalizer.ProcessAll | src/player/info.ts:108 | the kept records are exactly the defined results of the rows, and no more records than rows |
| MatchNormalizer.ProcessAllAppend | src/player/info.ts:108 | the filter is local: the records of a concatenation are the concatenation of the records, so row order is kept |
| MatchNormalizer.ProcessAllSingle | src/player/info.ts:108 | a single row contributes exactly its own record, or nothing |
| Season.SeasonNumber | src/player/info.ts:404 | Math.floor of the month count over 4, for either sign |
| Season.ClassifySpec | src/player/info.ts:392-411 | 'Beta' exactly before the 3 September 2024 release; otherwise "{year}-S{floor(months since release / 4)}", September 2024 included |
| Season.SeasonNumberNonNegative | src/player/info.ts:401-404 | no real date on or after the release has a negative season number |
| Season.SeasonNumberMonotone | src/player/info.ts:401-404 | season numbers never go down as the date moves forward |
| Season.LabelShape | src/player/info.ts:410 | where the "-S" separator sits in a numbered label, and that 'Beta' starts with 'B' |
| Season.LabelInjective | src/player/info.ts:410 | different seasons get different labels, so season buckets never merge |
| Season.InstantOrderIsCalendarOrder | src/player/info.ts:395 | the numeric instant compares real dates as the calendar does |
| Season.SeasonExamples | src/player/info.ts:392-411 | 2 Sep 2024 is Beta; 3 Sep and 31 Dec 2024 are 2024-S0; January and February 2025 are 2025-S1; May 2025 is 2025-S2 |
| ExtendedStats.Divide | src/player/info.ts:373-377 | JavaScript division of integers: exact when the divisor is non-zero; NaN for 0/0; an infinity of the numerator's sign otherwise |
| ExtendedStats.Hundredfold | src/player/info.ts:373 | times 100 scales a finite value and keeps NaN and the infinities |
| ExtendedStats.InitializeExtendedStats | src/player/info.ts:314-334 | a plain bucket with every counter, peak and average 0 |
| ExtendedStats.InitializeSeasonStats | src/player/info.ts:418-424 | a fresh season bucket with rating 0; its top_rank_id is 'Beta' for the Beta season and '' otherwise |
| ExtendedStats.InitializeSponsorStats | src/player/info.ts:289-295 | a fresh bucket carrying the sponsor's id and name |
| ExtendedStats.UpdateExtendedStats | src/player/info.ts:342-364 | adds kills, assists, deaths, damage and match rounds; bumps exactly one of wins (winner 1), losses (0) or draws (any other); raises each peak to the max; replaces rank rating and id only in a non-Beta season bucket, on a strictly higher rating; averages untouched |
| ExtendedStats.FinalizeStats | src/player/info.ts:371-378 | win percentage is wins over all results times 100; each per-round rate is its total over rounds played; nothing else changes |
| ExtendedStats.FinalizeMap | src/player/info.ts:380-382 | finalising a dictionary keeps its keys |
| ExtendedStats.FinalizeAll | src/player/info.ts:380-382 | the forEach over a dictionary's values finalises every bucket and keeps the keys |
| ExtendedStats.FindPlayer | src/player/info.ts:275 | find returns a snapshot with the id from the list, and nothing exactly when no snapshot has it |
| ExtendedStats.FindPlayerFirst | src/player/info.ts:275 | the snapshot found is the earliest one with the id |
| ExtendedStats.LineOf | src/player/info.ts:275-276 | a match adds at most one stat line, none when the subject is not on player_team |
| ExtendedStats.Contributions | src/player/info.ts:274-276 | the stat lines the fold sees are at most one per match |
| ExtendedStats.SponsorLines | src/player/info.ts:296-298 | the lines of a sponsor all picked that sponsor |
| ExtendedStats.GetOrCreateAndUpdate | src/player/info.ts:279-282 | get-or-create the bucket under a key, then fold the match into it |
| ExtendedStats.FoldMatch | src/player/info.ts:275-302 | one loop iteration updates season, map, sponsor and last-20 buckets as the per-match step says |
| ExtendedStats.SeasonStep | src/player/info.ts:278-282 | one match keeps each season bucket equal to the fold of that season's lines |
| ExtendedStats.SeasonHit | src/player/info.ts:279-282 | a line of season k extends the fold in bucket k, creating it when absent |
| ExtendedStats.SeasonMiss | src/player/info.ts:279-282 | a line of another season leaves bucket k as it was |
| ExtendedStats.MapStep | src/player/info.ts:284-287 | one match keeps each map bucket equal to the fold of that map's lines |
| ExtendedStats.SponsorStep | src/player/info.ts:289-298 | one match keeps each sponsor bucket equal to the fold of that sponsor's lines, under the first name seen |
| ExtendedStats.Last20Step | src/player/info.ts:300-302 | below index 20 the last-20 bucket extends its fold by the match's line |
| ExtendedStats.Last20Early | src/player/info.ts:300-302 | within the first 20 matches the last-20 bucket folds every contributing match |
| ExtendedStats.Last20Late | src/player/info.ts:300 | from index 20 on the last-20 bucket no longer changes |
| ExtendedStats.SeasonBucketIsFoldOfItsMatches | src/player/info.ts:274-303 | a season bucket exists exactly when some contributing match falls in that season, and it is the fold of exactly those matches into a fresh season bucket |
| ExtendedStats.MapBucketIsFoldOfItsMatches | src/player/info.ts:274-303 | a map bucket exists exactly when some contributing match was on that map, and it is the fold of exactly those matches |
| ExtendedStats.SponsorBucketIsFoldOfItsMatches | src/player/info.ts:274-303 | a sponsor bucket exists exactly for a non-empty sponsor id picked in some contributing match; it carries the name from the first such match and folds exactly those matches |
| ExtendedStats.Last20IsFoldOfFirstTwenty | src/player/info.ts:300-302 | the last-20 bucket is the fold of the contributing matches among the first 20 of the list |
| ExtendedStats.FoldTotals | src/player/info.ts:343-351 | every total after a fold is its start plus the sum over the lines; wins, losses and draws together grow by the number of lines |
| ExtendedStats.UpdatePeak | src/player/info.ts:353-356 | one update sets a peak to the max of itself and the line's value |
| ExtendedStats.FoldPeak | src/player/info.ts:353-356 | after a fold a peak is at least its start and every line's value, and equals one of them |
| ExtendedStats.FoldPeaks | src/player/info.ts:353-356 | the four peaks (kills, damage, assists, deaths) are each the maximum of their start and the folded lines |
| ExtendedStats.FoldSeasonPeak | src/player/info.ts:358-363 | a non-Beta season bucket ends with the highest rating seen (never below 0) and the rank id recorded with it; the Beta bucket keeps 'Beta' and 0 |
| ExtendedStats.WinPercentageInRange | src/player/info.ts:372-373 | once a match is folded in, the win percentage is a finite number between 0 and 100 |
| ExtendedStats.PercentageInRange | src/player/info.ts:373 | a part of a positive whole, times 100, lies between 0 and 100 |
| ExtendedStats.SumOfIndicatorsBounded | src/player/info.ts:349-351 | the win, loss and draw tallies are never negative |
| ExtendedStats.WinPercentageExample | src/player/info.ts:373 | 3 wins, 1 loss and no draw give 75 percent |
| ExtendedStats.FinalizingStep | src/player/info.ts:380-382 | finalising one more pending bucket changes that bucket only |
| ExtendedStats.AggregatePrefix | src/player/info.ts:274 | the fold of one more match is one more step |
| ExtendedStats.AggregateAll | src/player/info.ts:267-303 | the forEach loop computes the left fold of the matches, in list order |
| ExtendedStats.CalculateExtendedStats | src/player/info.ts:266-308 | the result is the fold of the matches, finalised |
| FullProfile.PlacePermutes | src/player/info.ts:110 | placing a match into a list adds exactly that match to its multiset |
| FullProfile.StableNewestFirstPermutes | src/player/info.ts:110 | the stable newest-first order is a permutation of the list |
| FullProfile.AppendOlder | src/player/info.ts:110 | a match no newer than every element of a newest-first list may follow it |
| FullProfile.PlaceNewestFirst | src/player/info.ts:110 | placing a match into a newest-first list keeps it newest first |
| FullProfile.StableNewestFirstIsNewestFirst | src/player/info.ts:110 | the stable order leaves no match before a later one |
| FullProfile.DatedAtAppend | src/player/info.ts:110 | the matches of one date in a list extended by one match are those of the list, then that match if it has the date |
| FullProfile.PlaceKeepsTies | src/player/info.ts:110 | a placed match goes behind every match of its own date already in the list |
| FullProfile.StableNewestFirstIsStable | src/player/info.ts:110 | the sort is stable: for every date, the matches of that date keep their order in the input |
| FullProfile.InsertingStep | src/player/info.ts:110 | swapping the inserted match past a strictly older neighbour keeps the insertion under way |
| FullProfile.InsertingDone | src/player/info.ts:110 | once the inserted match is behind one at least as new, or at the front, the prefix is the placed list |
| FullProfile.InsertNewestFirst | src/player/info.ts:110 | one insertion step turns the prefix up to i into the old prefix with the old a[i] placed into it, and leaves the rest alone |
| FullProfile.Swap | src/player/info.ts:110 | exchanging neighbours changes exactly those two slots |
| FullProfile.StableNewestFirstStep | src/player/info.ts:110 | the stable order of one more element places it into the stable order of the rest |
| FullProfile.SortingStep | src/player/info.ts:110 | one pass of the outer loop turns the stable order of the first i elements followed by the rest into that of the first i + 1 followed by the rest |
| FullProfile.SortNewestFirst | src/player/info.ts:110 | the in-place sort produces the stable newest-first order of the array, hence no match before a later one and a permutation |
| FullProfile.NewestFirstSplit | src/player/info.ts:110-112 | in a newest-first list every match among the first k is no older than any match after them, so the 20 matches the last-20 bucket draws its lines from are no older than any match left out of it |
| FullProfile.Participations | src/player/info.ts:99-106 | the participation list is used only when the first player row has a non-empty one |
| FullProfile.GetPlayerFullProfile | src/player/info.ts:80-119 | a profile error or a query error is returned as is; no participations give an empty match list; otherwise the matches are the processed rows in stable newest-first order (so newest first, a permutation, and equal dates in row order), and the stats are the finalised fold of that sorted list |
| SponsorStats.UniquePlayers | src/sponsor/sponsor.ts:64-73 | the set built by the forEach is exactly the truthy player ids |
| SponsorStats.DistinctPlayersBounded | src/sponsor/sponsor.ts:302 | there are never more distinct players than rows |
| SponsorStats.FirstSeen | src/sponsor/sponsor.ts:151 | Array.from of a Set keeps exactly the elements, each once, no more than the list |
| SponsorStats.FirstSeenOrder | src/sponsor/sponsor.ts:151 | elements come in the order of their first occurrence |
| SponsorStats.FirstSeenStep | src/sponsor/sponsor.ts:118-141 | adding to a Set appends the element exactly when it is new |
| SponsorStats.SponsorIds | src/sponsor/sponsor.ts:115 | the selected sponsor of every row, in row order |
| SponsorStats.RowsOf | src/sponsor/sponsor.ts:118-136 | a sponsor has no more rows than there are rows |
| SponsorStats.RowsOfMembers | src/sponsor/sponsor.ts:118-136 | the rows of a sponsor are exactly the rows that picked it |
| SponsorStats.Tally | src/sponsor/sponsor.ts:118-136 | before outcomes, a sponsor's record has its id, picks equal to its rows and no wins, losses or draws |
| SponsorStats.NameFromFirstRow | src/sponsor/sponsor.ts:116-120 | the sponsor name is the first row's saved name, 'Unknown' when missing |
| SponsorStats.RowsOfFirst | src/sponsor/sponsor.ts:118-130 | the first row of a sponsor is where its record is created |
| SponsorStats.NoRowsOf | src/sponsor/sponsor.ts:118 | a sponsor no row picked has no rows |
| SponsorStats.SumsStep | src/sponsor/sponsor.ts:134-136 | each row adds its kills, deaths and assists, missing values as 0 |
| SponsorStats.TallyStep | src/sponsor/sponsor.ts:118-136 | one row creates its sponsor's record or bumps it, and leaves every other record alone |
| SponsorStats.GroupRow | src/sponsor/sponsor.ts:115-141 | the forEach body: create-if-absent, one more pick, the sums, and the team id added once |
| SponsorStats.GroupedStep | src/sponsor/sponsor.ts:114-142 | one row keeps the grouping invariant: order, records and team ids as for the rows seen |
| SponsorStats.OrderStep | src/sponsor/sponsor.ts:118-119 | the sponsor order grows exactly when a new sponsor appears, in step with the map's keys |
| SponsorStats.TeamRefsStep | src/sponsor/sponsor.ts:139-141 | the team id set grows by the row's truthy team id when it is new |
| SponsorStats.RecordsStep | src/sponsor/sponsor.ts:118-136 | one row keeps every record equal to its tally |
| SponsorStats.GroupBySponsor | src/sponsor/sponsor.ts:114-142 | the grouping loop yields one record per distinct sponsor in first-seen order, each its tally, and the distinct truthy team ids in first-seen order |
| SponsorStats.Chunks | src/sponsor/sponsor.ts:153-158 | the batches number ceil(n/100), each between 1 and 100 ids |
| SponsorStats.ChunksFlatten | src/sponsor/sponsor.ts:156-158 | batching loses, repeats and reorders nothing: the batches concatenate to the ids |
| SponsorStats.ChunksSlices | src/sponsor/sponsor.ts:156-158 | batch i is the slice from 100*i to min(100*i + 100, n) |
| SponsorStats.MakeBatches | src/sponsor/sponsor.ts:153-158 | the for loop builds exactly those batches (the same loop runs at 212-214) |
| SponsorStats.FetchBatches | src/sponsor/sponsor.ts:163-189 | the batch loop keeps the rows of every successful batch in order and flags whether any failed (likewise 218-239) |
| SponsorStats.LastIndexIsLast | src/sponsor/sponsor.ts:200-201 | Map.set over rows: a key is present exactly when some row has it, and maps to the last such row |
| SponsorStats.IndexTeams | src/sponsor/sponsor.ts:197-205 | the team map is the last team per id; the match ids are the distinct truthy ones in first-seen order |
| SponsorStats.Surrenders | src/sponsor/sponsor.ts:243-245 | the surrender map has a key per fetched match id |
| SponsorStats.SurrendersStep | src/sponsor/sponsor.ts:243-245 | one more match row overwrites exactly its id |
| SponsorStats.IndexSurrenders | src/sponsor/sponsor.ts:241-247 | the surrender loop builds that map |
| SponsorStats.NoTeamsOfMatch | src/sponsor/sponsor.ts:251-256 | a match no team points at has no teams |
| SponsorStats.ByMatchStep | src/sponsor/sponsor.ts:251-256 | one more team is appended to its match's list and no other list changes |
| SponsorStats.AddTeam | src/sponsor/sponsor.ts:252-255 | the forEach body: start the list if needed, then append |
| SponsorStats.GroupTeamsByMatch | src/sponsor/sponsor.ts:250-256 | the loop groups the teams by their match column, in order |
| SponsorStats.OpposingMembers | src/sponsor/sponsor.ts:273 | the filter keeps exactly the teams of another index |
| SponsorStats.TeamOf | src/sponsor/sponsor.ts:263-268 | a row has a team exactly when its truthy team id was fetched (with a match) |
| SponsorStats.OutcomeOf | src/sponsor/sponsor.ts:260-296 | a row counts exactly when it has a team, its match has at least 2 teams and some team of another index |
| SponsorStats.SurrenderDecides | src/sponsor/sponsor.ts:280-287 | a non-null surrender decides alone: a loss for the surrendering index, a win otherwise, -1 included |
| SponsorStats.RoundsDecide | src/sponsor/sponsor.ts:289-295 | without a surrender, rounds against the first team of another index give win, loss or draw |
| SponsorStats.CountOutcome | src/sponsor/sponsor.ts:260-296 | no outcome is counted more often than there are rows |
| SponsorStats.OutcomesAtMostOnePerRow | src/sponsor/sponsor.ts:265-295 | wins, losses and draws together never exceed the rows: each row adds at most one |
| SponsorStats.Record | src/sponsor/sponsor.ts:114-296 | without an outcome phase a sponsor's record is its tally |
| SponsorStats.OutcomesBoundedByPicks | src/sponsor/sponsor.ts:280-295 | every sponsor's wins, losses and draws together are at most its picks |
| SponsorStats.Credit | src/sponsor/sponsor.ts:283-294 | a win, loss or draw adds exactly one to the results; a skipped row adds none |
| SponsorStats.PartialStep | src/sponsor/sponsor.ts:260-296 | visiting one row changes only its sponsor's record, by its outcome |
| SponsorStats.PartialEnds | src/sponsor/sponsor.ts:260-296 | before the loop each record is its tally; after it, its full record |
| SponsorStats.Progress | src/sponsor/sponsor.ts:260-296 | the records while the loop runs keep the sponsor keys |
| SponsorStats.ProgressStart | src/sponsor/sponsor.ts:260 | records holding their tallies are the progress over no rows |
| SponsorStats.ProgressEnd | src/sponsor/sponsor.ts:296 | the progress over all rows is every sponsor's full record |
| SponsorStats.OutcomeLoopStep | src/sponsor/sponsor.ts:260-296 | one loop iteration advances the progress by one row |
| SponsorStats.CreditRow | src/sponsor/sponsor.ts:283-294 | the loop body credits the row's outcome to its sponsor and nothing else |
| SponsorStats.ApplyOutcomes | src/sponsor/sponsor.ts:260-296 | the for-of loop turns every tally into the full record, keeping the keys |
| SponsorStats.RunOutcomePhase | src/sponsor/sponsor.ts:147-298 | batching, fetching, indexing and the loop give each sponsor its record under the lookups the source builds, or leave the tallies when the phase does not run |
| SponsorStats.ExpectedSponsors | src/sponsor/sponsor.ts:303 | one record per distinct sponsor, in first-seen order |
| SponsorStats.TeamErrorMeansNoOutcomes | src/sponsor/sponsor.ts:191-193 | if any team batch failed, no sponsor gets a win, loss or draw |
| SponsorStats.MatchErrorIgnoresSurrenders | src/sponsor/sponsor.ts:241-247 | if a match batch failed, no surrender is known, so only rounds decide |
| SponsorStats.InsertionOrder | src/sponsor/sponsor.ts:303 | Array.from of the map's values lists the records in key insertion order |
| SponsorStats.SponsorsAsExpected | src/sponsor/sponsor.ts:303 | the insertion-order list of the built records is the expected sponsor list |
| SponsorStats.GetGlobalSponsorStats | src/sponsor/sponsor.ts:51-304 | a failed player read gives its message or the default one; no rows give 0 players and no sponsors; otherwise the distinct player count and one complete record per sponsor in first-seen order |
| DumpQueue.PriorityWaitsLess | src/dump/dump.ts:38-42 | a player blocked by the 10-minute window would also be blocked by the 30-minute one |
| DumpQueue.IndexOf | src/dump/dump.ts:30-31 | LPOS gives the first index of the id, or nothing exactly when it is absent |
| DumpQueue.DumpState.constructor | src/dump/dump.ts:4-5 | empty queues and cache satisfy the invariant |
| DumpQueue.DumpState.DumpPlayer | src/dump/dump.ts:15-72 | the id is lower-cased; an invalid id, an id in either queue, or an id in its cooldown is rejected with its message and changes nothing; otherwise an initially dumped player goes to the end of the priority queue and any other to the end of the regular queue, the other queue untouched, the cache entry stamped with now and the old flag, and the 1-based position reported; a sequence of non-overlapping calls never queues an id twice |
| DumpQueue.DumpState.Admit | src/dump/dump.ts:49-71 | the admission step appends to the chosen queue, stamps the cache and reports the old length plus 1 |
| DumpQueue.DumpState.GetDumpStatusAsWritten | src/dump/dump.ts:93-101 | only the regular queue is searched: in progress exactly when queued there; priority equals the initially-dumped flag; position -1 both for absence and for index 0, and the first index plus 1 otherwise |
| DumpQueue.DumpState.GetDumpStatus | src/dump/dump.ts:93-101 | the same, with a queued player reporting its 1-based position in the regular queue: its first index plus 1 |
| DumpQueue.DumpState.HeadOfQueueReportsMinusOne | src/dump/dump.ts:98 | the player at the head of the regular queue is in progress yet reported at position -1 as written, and at 1 when corrected |
| DumpQueue.DumpState.AcceptedIsReported | src/dump/dump.ts:93-100 | a player the regular queue just accepted is reported in progress at the position it was given |
| Tournament.CreateDefaultPlayer | src/tournament/tournament.data.ts:11-22 | the given id, name, handle and sponsor, zero stats, and the lower-cased handle in the social link |
| Tournament.DefaultSlot | src/tournament/tournament.data.ts:33-44 | a default player with id `{id}_t{t}p{n}` and zero stats |
| Tournament.DefaultTeam | src/tournament/tournament.data.ts:29-46 | three zero-stat players `{id}_t{t}p1..3` with their sponsors, score 0 |
| Tournament.CreateDefaultMatch | src/tournament/tournament.data.ts:27-51 | status upcoming, map Canal, time TBD, both teams TBD with score 0, three zero-stat players each |
| Tournament.DefaultPlayerIdsDistinct | src/tournament/tournament.data.ts:33-44 | player ids determine their team and slot |
| Tournament.SlotIdsDiffer | src/tournament/tournament.data.ts:33-44 | two different slots get different ids |
| Tournament.DefaultMatchPlayerIdsDistinct | src/tournament/tournament.data.ts:27-51 | the six players of a default match carry six different ids |
| Tournament.FindIndex | src/tournament/tournament.data.ts:471 | findIndex gives the first index with the id, and -1 exactly when none has it |
| Tournament.ReplaceFirst | src/tournament/tournament.data.ts:478-482 | only the first match with the id is replaced, keeping that id; length and all other entries are unchanged |
| Tournament.ReplaceFirstKeepsId | src/tournament/tournament.data.ts:478-482 | after the update the same index is still the first with the id |
| Tournament.FindIndexAt | src/tournament/tournament.data.ts:471 | an index holding the id with none before it is what findIndex returns |
| Tournament.RemoveAll | src/tournament/tournament.data.ts:523 | the filter keeps exactly the matches with another id |
| Tournament.RemoveAllShrinks | src/tournament/tournament.data.ts:523-528 | the length check says "not found" exactly when no match has the id |
| Tournament.RemoveAllKeepsOrder | src/tournament/tournament.data.ts:523 | the filter distributes over concatenation, so survivors keep their order |
| Tournament.RemoveAllNoop | src/tournament/tournament.data.ts:523 | filtering an id no match has changes nothing |
| Tournament.DeleteIsIdempotent | src/tournament/tournament.data.ts:523 | deleting the same id twice is deleting it once |
| Tournament.AddThenDeleteRestores | src/tournament/tournament.data.ts:523 | deleting a match just appended under a fresh id gives back the old list |
| Tournament.Current | src/tournament/tournament.data.ts:341-363 | the stored data on a hit; the default data under the requested id on a miss; in a store whose entries carry their own keys as ids, the result always carries the requested id |
| Tournament.TournamentStore.constructor | src/tournament/tournament.data.ts:56 | an empty store over the module's default data, whose (no) entries carry their keys as ids |
| Tournament.TournamentStore.FetchTournament | src/tournament/tournament.data.ts:333-372 | a hit returns the stored data and changes nothing; a miss stores and returns the default data with the requested id; every entry still carries its key as its id |
| Tournament.TournamentStore.UpdateTournament | src/tournament/tournament.data.ts:380-406 | stores and returns the data with its id forced to the tournament id; every entry still carries its key as its id |
| Tournament.TournamentStore.AddMatch | src/tournament/tournament.data.ts:414-445 | without admin: Unauthorized, store untouched; otherwise the current list with the match appended, stored under the id; every entry still carries its key as its id |
| Tournament.TournamentStore.UpdateMatch | src/tournament/tournament.data.ts:454-498 | without admin: Unauthorized, store untouched; no match with the id: "not found" and only the fetch's seeding; otherwise the first such match replaced, stored; every entry still carries its key as its id |
| Tournament.TournamentStore.DeleteMatch | src/tournament/tournament.data.ts:506-544 | without admin: Unauthorized, store untouched; no match with the id: "not found" and only the fetch's seeding; otherwise every such match removed, stored; every entry still carries its key as its id |
| Tournament.TournamentStore.ResetTournamentData | src/tournament/tournament.data.ts:551-581 | without admin: Unauthorized, store untouched; otherwise the default data under the id, stored and returned; every entry still carries its key as its id |
| MatchService.MatchAtPositions | src/match/match.ts:8-9 | a pattern matches at i exactly when each of its positions fits the character there |
| MatchService.UuidPatternShape | src/match/match.ts:8 | the regex, position by position: hex groups 8-4-4-4-12, '-' separators, '4' at 14, one of 8, 9, a, b at 19 |
| MatchService.UuidAtFits | src/match/match.ts:8 | a UUID-shaped window fits every position of the pattern |
| MatchService.FitsUuidAt | src/match/match.ts:8 | a window fitting every position of the pattern is UUID-shaped |
| MatchService.UuidPatternIsUuidAt | src/match/match.ts:8 | the pattern matches at i exactly when the window at i is UUID-shaped |
| MatchService.SearchFromFinds | src/match/match.ts:9 | the unanchored search succeeds exactly when some start matches |
| MatchService.ValidMatchIdSpec | src/match/match.ts:6-10 | a match id is valid exactly when some 36-character window is a lower-case UUID with '4' at offset 14 and 8, 9, a or b at offset 19 |
| MatchService.ShortIdsAreInvalid | src/match/match.ts:8-9 | no id shorter than 36 characters is valid |
| MatchService.SurroundedUuidIsValid | src/match/match.ts:8-9 | text around a UUID does not matter: the pattern is not anchored |
| MatchService.VersionOneIsInvalid | src/match/match.ts:8 | a UUID with version digit 1 is refused |
| MatchService.GetMatch | src/match/match.ts:12-33 | the lower-cased id is validated before any query; a query error fails; otherwise the first row (if any) is returned |
| MatchService.CheckMatch | src/match/match.ts:35-57 | invalid id first; a reply error fails; queue "PLACEHOLDER" is not ready; only then success; every failure carries a message |
| MatchService.AddMatch | src/match/match.ts:59-87 | invalid id first; checkMatch's error is passed on; a dump-service error gives "Failed to add match"; otherwise success |
| MatchService.AddedMeansChecked | src/match/match.ts:62-73 | a match is added only for a valid id whose game-service reply has no error and is not a placeholder |
| SteamLookup.AllDigits | src/steam/steam.ts:5 | every character is an ASCII digit |
| SteamLookup.IsValidSteamId | src/steam/steam.ts:3-7 | valid exactly when 17 characters, all '0' to '9' |
| SteamLookup.GetPlayerIdFromSteamId | src/steam/steam.ts:14-35 | invalid id first with no lookup; a reply error is passed on before the player id is read; a missing or empty id gives "Player ID not found"; "ERROR" gives "Player not found"; any other id succeeds |
| SteamLookup.ResolvedIdIsReal | src/steam/steam.ts:14-35 | a resolved player id came from a valid Steam id and is neither empty nor "ERROR" |
| SteamLookup.ErrorBeforePlayerId | src/steam/steam.ts:22-24 | a reply error wins over any player id sent with it |
| SteamLookup.SteamIdExamples | src/steam/steam.ts:5 | 16 digits, and 16 digits followed by a letter, are refused |
| Text.ToLowerIdempotent | src/match/match.ts:60-67 | lower-casing twice is lower-casing once, so addMatch's second lower-casing in checkMatch changes nothing |

## Left out

- DumpQueue.DumpState.DumpPlayer: each call is modelled as one atomic step. In the source the
  LPOS checks (src/dump/dump.ts:30-31), the LLEN and the RPUSH (lines 51-57) and the cache write
  (line 60) are separate awaited Redis commands. Two requests for the same id that interleave
  between LPOS and RPUSH can both pass the in-queue test and queue the id twice. A concurrent
  request can also see a queued id before its cache entry exists, or get a stale position from
  LLEN. `Valid()` and "no id is queued twice" hold only for calls that do not overlap.
- Supabase queries, Redis reads and writes, `fetch` calls and their JSON parsing are I/O. Their
  answers are parameters (values, or functions from the requested id to the reply). The cache
  layer of `getGlobalSponsorStats`, the cache TTLs and the Redis key prefixes are not modelled.
- Exceptions and the `try`/`catch` paths ("Unknown error occurred", a failed `fetchTournament`)
  come from I/O failures, which the model does not produce.
- Logging, and the `playerSponsorsMap` diagnostics in `src/sponsor/sponsor.ts` (lines 77-106),
  only feed `console.log` and do not affect any result.
- `getPlayerProfile` (src/player/info.ts:8-73) is a database read plus a Steam lookup. Its result
  is the parameter `lookup` of `GetPlayerFullProfile`.
- `validPlayerId`, `isAdminAuthenticated` and the configuration module are not part of this
  model. They are parameters.
- `Math.random()` avatar numbers are parameters (`portrait` in `Tournament.CreateDefaultPlayer`).
- `Date.now()` is the parameter `now`.
- Floating point is not modelled. The finalizer's divisions are exact reals, with NaN and the
  infinities for zero denominators.
- The `kd` field of the default players is the real `0.0`.
- Time zones and date parsing are not modelled. A date is a calendar reading, and the release
  instant is midnight of 3 September 2024 in that same reading.
- Lower-casing covers the ASCII letters only. Non-ASCII case mappings of `toLowerCase` are not
  modelled.
- Columns of the raw rows that `processMatch`, `processTeam` and `processPlayer` never read are
  not part of the raw datatypes.
- MatchNormalizer.ProcessPlayer: `rank_id` and `previous_rank_id` are numbers in the source's
  output when set. The snapshot carries them as decimal text (`RankText`), so a rank of 5 reads
  "5" rather than 5.
- FullProfile.SortNewestFirst: the model's in-place sort is an insertion sort. Its order is the
  stable one that `Array.prototype.sort` guarantees, but its running time and comparison
  sequence are not those of the engine's sort.
- `checkMatch` is assumed to receive a reply whose `spectre_match.queue_name` is present. A
  missing `spectre_match` would throw in the source.
- The long literal `defaultTournamentData` is copied into the model as a constant. No property
  is stated about its individual matches beyond their shape.

## Findings

| source | as written | input that shows it | evidently intended | confidence | as-written member | corrected member |
|---|---|---|---|---|---|---|
| src/dump/dump.ts:98 | `queue_position ? queue_position + 1 : -1` treats the LPOS index 0 as absent | a player at the head of the regular queue: `in_progress` is true but `queue_position` is -1 | the 1-based position whenever the player is queued (`queue_position !== null ? queue_position + 1 : -1`), so the head reports 1 | high; not executed | DumpQueue.DumpState.GetDumpStatusAsWritten (exhibited by DumpQueue.DumpState.HeadOfQueueReportsMinusOne) | DumpQueue.DumpState.GetDumpStatus |
