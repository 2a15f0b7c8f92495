# PyPole core, modelled in Dafny

PyPole is a Formula 1 dashboard: a FastAPI backend that reshapes race data (schedules,
standings, results, tyre stints, laps) fetched from the Jolpica API and FastF1, and a Next.js
frontend that charts it. This project models the deterministic logic between the fetches and
the rendering, and proves what that logic promises:

- **Tyre stints and pit stops.** The race page's strategy chart groups stints per driver, orders
  the rows and each driver's stints, places the bars, draws the lap scale, counts pit stops and
  classifies compound names. The backend derives stop events from consecutive stints
  (`_process_pit_stops`). The strategy service accumulates one strategy per driver, histograms
  the pit laps, ranks strategies by average finishing place, filters the laps of each stint and
  counts drivers per stop number.
- **Classifiers.** `getTeamColor`, `getCompoundColor` and the chart's `getCompoundInfo` are
  priority-ordered, case-insensitive substring matchers.
- **Scoring and aggregation.** This covers the prediction points table and totals, the
  prediction template's qualifying merge and the ranking of `get_ai_prediction`. It also
  covers the head-to-head winner rule and tallies, podium, DNF and championship counters, and
  positions assigned by sorted lap time (final positions, per-lap positions, lap-time pivot).
- **Schedule selection by date.** The next race, the last completed race, the weekend status
  and the ordered session list. Dates are integer day numbers; `today` and the current season
  are parameters.
- **Small decisions and state.**
  - the sidebar's active-route predicate;
  - the middleware's redirect decision;
  - the team theme hook's class set, as a class whose field the methods update;
  - the CORS origin-list split;
  - register, login and update over an in-memory user table (a class);
  - the request guards of the API dependencies;
  - the request schemas' bounds and defaults.

Every fetch becomes a parameter: either a fetched value, or a `Fallible` value
(`Fetched(value)` or `Raised(message)`) where the source catches exceptions. Password hashing,
password verification, token creation and token decoding are function parameters. Loops of the
source are methods with loop invariants, proved against specification functions, and the
properties are lemmas about those functions. Lap times, points and positions are integers; the
ranking scores and averages of the source are reals, because only their order and exact
ratios matter here.

Shared modules: `Wrappers` (Option, Result, Fallible), `Text` (ASCII case mapping, prefix and
substring tests, split, strip, join, lexicographic order), `Sorting` (a stable insertion sort
`SortBy` with its sortedness and permutation lemmas, and an in-place array version proved equal
to it), and `Grouping` (distinct keys in first-appearance order, per-key groups, counting and
grouping loops).

## Model

| member | source | states |
|---|---|---|
| PitStopsChart.SortedDrivers | frontend/components/PitStopsChart.tsx:22 | the row order: every driver with a stint exactly once, in strictly ascending order of driver id |
| PitStopsChart.AscendingUnique | frontend/components/PitStopsChart.tsx:22 | two strictly ascending lists of the same drivers are equal, so the row order does not depend on the order the stints arrived in |
| PitStopsChart.DriverRow | frontend/components/PitStopsChart.tsx:105-113 | a driver's stints are stably sorted by ascending stint number (a permutation of the group, not ordered by lap), and "Used" is the sum of their `num_laps` |
| PitStopsChart.LapsUsedPermutation | frontend/components/PitStopsChart.tsx:110-113 | the laps used are the same for any order of the same stints, so sorting first does not change them |
| PitStopsChart.Chart | frontend/components/PitStopsChart.tsx:13-164 | rows in ascending driver order, one per driver present and none other, each holding that driver's group (input order) sorted by stint number and its laps used; the total stop count is stints − drivers ≥ 0 |
| PitStopsChart.StopsOverSizes | frontend/components/PitStopsChart.tsx:161-164 | summing (group size − 1) over the drivers gives the sum of the group sizes minus the number of drivers |
| PitStopsChart.TotalPitStops | frontend/components/PitStopsChart.tsx:161-164 | total pit stops = number of stints − number of distinct drivers, never negative |
| PitStopsChart.BarInsideTrack | frontend/components/PitStopsChart.tsx:126-127 | for 1 ≤ start ≤ end ≤ maxLaps and num_laps = end − start + 1 the bar starts at or after 0, has positive width and ends at end/maxLaps·100 ≤ 100 |
| PitStopsChart.BarsAdjacent | frontend/components/PitStopsChart.tsx:126-127 | a stint starting the lap after another ends is drawn exactly where the other's bar ends |
| PitStopsChart.TicksExact | frontend/components/PitStopsChart.tsx:85-87 | the lap scale is exactly the multiples of ten from 0 to maxLaps, increasing, starting at 0 |
| PitStopsChart.GetCompoundInfo | frontend/components/PitStopsChart.tsx:28-50 | the label is one of the six fixed labels or upper-case letters on grey; only HARD is drawn with dark text; SOFT is red, MEDIUM yellow and HARD light grey with a border, each if and only if; green is only INT and blue only WET, and a name with intermediate (or wet) but no earlier keyword gets exactly that entry; a non-empty name is drawn grey exactly when none of soft, medium, hard, intermediate and wet occurs in it, and then its label is its first three characters upper-cased |
| PitStopsChart.CompoundInfoMissing | frontend/components/PitStopsChart.tsx:29 | a missing or empty compound is UNK |
| PitStopsChart.CompoundInfoCaseInsensitive | frontend/components/PitStopsChart.tsx:31 | the result depends only on the lower-cased name |
| PitStopsChart.CompoundInfoPriority | frontend/components/PitStopsChart.tsx:33-47 | medium beats every keyword, hard beats intermediate and wet, intermediate beats wet, and a name that also contains medium or hard is never SOFT |
| RaceWeekend.SessionSchedule | backend/app/services/race_weekend_service.py:113-168 | the appended list equals the race entry followed by every present optional session in the fixed order |
| RaceWeekend.SessionScheduleShape | backend/app/services/race_weekend_service.py:118-123 | the list starts with the Race entry carrying the race's date and time and has one to six entries |
| RaceWeekend.SessionsListed | backend/app/services/race_weekend_service.py:126-166 | an entry after the race is listed exactly when it is the session of an optional key that is present |
| RaceWeekend.PresentMembers | backend/app/services/race_weekend_service.py:126-166 | a session is among the present slots exactly when some present slot produces it |
| RaceWeekend.WeekendStatus | backend/app/services/race_weekend_service.py:170-190 | an error exactly when a date to parse is missing; without first practice, upcoming exactly before race day and never in progress |
| RaceWeekend.WeekendStatusWithPractice | backend/app/services/race_weekend_service.py:178-185 | with first practice: upcoming exactly before it, completed exactly on or after race day once practice has begun, in progress exactly in between |
| RaceWeekend.WeekendStatusMonotone | backend/app/services/race_weekend_service.py:170-190 | as the day advances the status never goes back (upcoming, in progress, completed) |
| RaceWeekend.DriverStops | backend/app/services/race_weekend_service.py:207-216 | a driver with k stints yields k − 1 stops, stop j being the one before stint j + 1 |
| RaceWeekend.AppendDriverStops | backend/app/services/race_weekend_service.py:207-216 | the inner loop appends exactly that driver's stops to the list |
| RaceWeekend.ProcessPitStops | backend/app/services/race_weekend_service.py:192-221 | the stops are those of each driver in first-appearance order, and `total_stops` is their number |
| RaceWeekend.StopsCount | backend/app/services/race_weekend_service.py:205-216 | over any prefix of the drivers, the stops number Σ(stints − 1) |
| RaceWeekend.TotalStopsMatchesChart | backend/app/services/race_weekend_service.py:218-221 | `total_stops` = stints − drivers, the same count the strategy chart shows |
| RaceWeekend.DriverStopFields | backend/app/services/race_weekend_service.py:206-215 | stop i is numbered i, made on the first lap of the new stint, from the previous stint's compound and length to the new stint's compound, the stints taken in stint-number order |
| StrategyService.AccumulateByDriver | backend/app/services/strategy_service.py:137-154 | the accumulation loop leaves one entry per driver, in first-appearance order and no other, each equal to the accumulation of that driver's stints |
| StrategyService.AccumulateStep | backend/app/services/strategy_service.py:150-154 | one more stint appends the stint, adds its compound and raises total laps to its end lap when larger |
| StrategyService.FinishStep | backend/app/services/strategy_service.py:158-171 | finishing the k-th accumulated entry (stops = stints − 1, stints sorted by stint number, strategy name) gives the k-th finished entry |
| StrategyService.AnalyzeDriverStrategies | backend/app/services/strategy_service.py:133-174 | the result is the finished entries stably sorted by total laps, largest first |
| StrategyService.TotalLapsIsMax | backend/app/services/strategy_service.py:147-154 | `total_laps` is at least every stint's `end_lap` and equals one of them unless it is the starting 0 |
| StrategyService.CompoundsUsedMembers | backend/app/services/strategy_service.py:151 | `compounds_used` holds exactly the compounds of the driver's stints, a missing one included |
| StrategyService.NamedCompoundsMembers | backend/app/services/strategy_service.py:168 | the name lists exactly the present, non-empty compounds of the stints |
| StrategyService.StrategyForFields | backend/app/services/strategy_service.py:158-169 | a finished entry has stops = stints − 1, a permutation of its stints in ascending stint number, the maximal end lap, exactly the compounds seen, and the strategy name |
| StrategyService.StrategyNameLists | backend/app/services/strategy_service.py:168-169 | the name is the stop count, "-stop (", the compounds and ")", and splitting the middle on "-" gives back the compounds when none contains a dash |
| StrategyService.AnalyzedEntries | backend/app/services/strategy_service.py:156-174 | one entry per distinct driver, each the finished entry of that driver's own stints |
| StrategyService.AnalyzedDriversDistinct | backend/app/services/strategy_service.py:137-174 | no driver appears twice |
| StrategyService.AnalyzedDriversCovered | backend/app/services/strategy_service.py:139-174 | a driver has an entry exactly when some stint is theirs |
| StrategyService.AnalyzedOrder | backend/app/services/strategy_service.py:174 | total laps never increase along the list, and entries with equal total laps keep their dictionary order (a stable sort) |
| StrategyService.PittedMembers | backend/app/services/strategy_service.py:225 | exactly the stints numbered above 1 are counted |
| StrategyService.CountPitLaps | backend/app/services/strategy_service.py:221-229 | the histogram has one key per start lap of a stint numbered above 1, in first-appearance order, mapping to the number of such stints starting there |
| StrategyService.AnalyzePitStopTiming | backend/app/services/strategy_service.py:217-241 | the histogram as above, and the windows are its items stably sorted by count, largest first, cut to five |
| StrategyService.PitLapCountsComplete | backend/app/services/strategy_service.py:223-229 | the counts add up to the number of stints numbered above 1, each counted under its own start lap |
| StrategyService.CommonWindowsShape | backend/app/services/strategy_service.py:232-240 | min(5, number of pit laps) windows with non-increasing counts, each a pit lap with its own count of at least 1 |
| StrategyService.TopWindowsOrdered | backend/app/services/strategy_service.py:232-234 | the cut keeps min(5, items) entries, ordered by count, largest first |
| StrategyService.CommonWindowsBusiest | backend/app/services/strategy_service.py:232-234 | a pit lap left out of the windows was used by no more cars than any window |
| StrategyService.GroupByStrategy | backend/app/services/strategy_service.py:250-262 | one group per strategy in first-appearance order, each holding its drivers in input order, the sum of their 1-based places and their count |
| StrategyService.CreditDriver | backend/app/services/strategy_service.py:251-262 | creating the group on first sight and crediting the driver in place i + 1 keeps the loop state |
| StrategyService.TallyNew | backend/app/services/strategy_service.py:252-262 | the loop step for a strategy met for the first time keeps the loop state |
| StrategyService.TallyKnown | backend/app/services/strategy_service.py:260-262 | the loop step for a strategy already grouped keeps the loop state |
| StrategyService.AverageGroups | backend/app/services/strategy_service.py:265-266 | after the averaging loop every group holds the mean of its drivers' places |
| StrategyService.IdentifyOptimalStrategies | backend/app/services/strategy_service.py:243-277 | the groups stably sorted by ascending mean place; `best_strategy` is the first, and is absent exactly when there are no drivers |
| StrategyService.OptimalCountsSum | backend/app/services/strategy_service.py:250-262 | every driver is counted in exactly one group: the counts add up to the number of drivers |
| StrategyService.RankedGroups | backend/app/services/strategy_service.py:265-272 | the ranked groups are exactly the averaged groups of the strategies that occur, each once |
| StrategyService.PositionSumBounds | backend/app/services/strategy_service.py:261 | the summed places of a group lie between its count and its count times the number of drivers |
| StrategyService.AverageBounds | backend/app/services/strategy_service.py:265-266 | every mean place lies between 1 and the number of drivers |
| StrategyService.GroupDrivers | backend/app/services/strategy_service.py:260-262 | a group lists one driver per count, each of whom ran that strategy |
| StrategyService.StintLapsMembers | backend/app/services/strategy_service.py:286-289 | a lap is kept exactly when its number lies between the stint's first and last lap |
| StrategyService.ValidTimesMembers | backend/app/services/strategy_service.py:290 | the times kept are exactly the recorded ones |
| StrategyService.AnalyzeTireDegradation | backend/app/services/strategy_service.py:279-313 | the loop appends the entry of each stint that has one, in stint order |
| StrategyService.DegradationPresence | backend/app/services/strategy_service.py:286-311 | an entry exists exactly when at least three laps of the stint carry a time; it then has the stint's number and compound, at least three laps, and a degradation equal to last minus first time, both times of laps in the stint |
| StrategyService.DegradationsOfStints | backend/app/services/strategy_service.py:285-311 | each entry comes from a stint of the input, and every stint with three or more timed laps has its entry |
| StrategyService.CalculateStintPerformance | backend/app/services/strategy_service.py:315-344 | the loop appends the entry of each stint with a timed lap, in stint order |
| StrategyService.PerformancePresence | backend/app/services/strategy_service.py:328-334 | an entry exists exactly when some lap of the stint carries a time |
| StrategyService.PerformanceExtremes | backend/app/services/strategy_service.py:334-342 | fastest and slowest are the extreme recorded times of the stint's laps, the mean lies between them, and at least one lap was completed |
| StrategyService.PerformancesOfStints | backend/app/services/strategy_service.py:321-342 | each entry comes from a stint of the input, and every stint with a timed lap has its entry |
| StrategyService.GenerateSummary | backend/app/services/strategy_service.py:353-370 | `total_drivers` is the number of entries; the distribution maps exactly the stop numbers that occur to how many drivers made them, and its counts add up to the number of drivers |
| StrategyService.MinOf | backend/app/services/strategy_service.py:340 | the fastest lap is a recorded time no larger than any other |
| StrategyService.MaxOf | backend/app/services/strategy_service.py:341 | the slowest lap is a recorded time no smaller than any other |
| UtilsColors.GetTeamColor | frontend/lib/utils.ts:17-32 | the result is one of the ten team tokens or "bg-gray-600" |
| UtilsColors.TeamColorIsFirstMatch | frontend/lib/utils.ts:18-31 | the if-chain is the ordered rule list (red bull, ferrari, mercedes, mclaren, aston, alpine, williams, rb or racing bulls, sauber or kick, haas) applied to the lower-cased name, first firing rule winning |
| UtilsColors.TeamColorPriority | frontend/lib/utils.ts:20-29 | the first rule whose keyword the name contains decides, whatever later keywords it also contains (ferrari beats haas, rb beats sauber) |
| UtilsColors.TeamColorFallback | frontend/lib/utils.ts:31 | a name containing none of the keywords gets "bg-gray-600" |
| UtilsColors.TeamColorCaseInsensitive | frontend/lib/utils.ts:18 | only the lower-cased name matters |
| UtilsColors.TeamRulesFromAlpine | frontend/lib/utils.ts:25-31 | the second half of the team chain, from alpine on, in order |
| UtilsColors.TeamRulesFromRb | frontend/lib/utils.ts:27-31 | the last three team rules, rb or racing bulls first |
| UtilsColors.FirstMatch | frontend/lib/utils.ts:20-31 | a priority list returns the fallback or the token of one of its rules |
| UtilsColors.FirstMatchWins | frontend/lib/utils.ts:20-29 | the first rule that fires decides |
| UtilsColors.FirstMatchFallback | frontend/lib/utils.ts:31 | when no rule fires the fallback is returned |
| UtilsColors.GetCompoundColor | frontend/lib/utils.ts:34-46 | one of the five compound tokens or "bg-gray-400"; a missing or empty name is "bg-gray-400" |
| UtilsColors.CompoundColorIsFirstMatch | frontend/lib/utils.ts:37-45 | for a present name, the chain is the ordered list soft, medium, hard, intermediate, wet, first firing rule winning, else grey |
| UtilsColors.CompoundRulesFromHard | frontend/lib/utils.ts:41-45 | the tail of the compound chain, from hard on |
| UtilsColors.CompoundColorCaseInsensitive | frontend/lib/utils.ts:37 | only the lower-cased name matters |
| UtilsColors.CompoundClassifiersCompared | frontend/components/PitStopsChart.tsx:28-50 | this classifier and the chart's agree on every present name except one containing soft with medium or hard, which is soft here and MEDIUM or HARD in the chart |
| Predictor.PositionMapLastWins | backend/app/services/predictor_service.py:111-118 | a dictionary built by comprehension has exactly the ids that occur as keys, each mapping to the value of its last occurrence |
| Predictor.PositionMapKeys | backend/app/services/predictor_service.py:214-217 | the keys of such a dictionary are exactly the ids that occur |
| Predictor.FindRound | backend/app/services/predictor_service.py:38-41 | the race found is the first schedule entry with the requested round, and none is found exactly when no entry has it |
| Predictor.MergeQualifying | backend/app/services/predictor_service.py:78-83 | the nested loop leaves every template line equal to its merged line |
| Predictor.MergedLineQualifying | backend/app/services/predictor_service.py:78-83 | a driver matched by no qualifying result keeps no qualifying position; a matched one gets the position of their last qualifying entry; nothing else of the line changes |
| Predictor.GetPredictionTemplate | backend/app/services/predictor_service.py:21-97 | an unknown round fails with "Race not found"; otherwise one line per standing, merged with the qualifying results when the fetch returned some, and `qualifying_available` holds exactly when the qualifying fetch did not raise, even for an empty payload |
| Predictor.Points | backend/app/services/predictor_service.py:140-155 | points lie in 0..25, equal 25 exactly for an exact prediction, lie strictly between 0 and 25 for a difference of 1 to 9, and are 0 from a difference of 10 on |
| Predictor.PointsMonotone | backend/app/services/predictor_service.py:142-155 | a closer prediction never earns fewer points |
| Predictor.ScoredEntries | backend/app/services/predictor_service.py:124-165 | the detailed scores are exactly the predictions of classified drivers scored against their finishing place; unclassified drivers are skipped |
| Predictor.ScoredTotalSnoc | backend/app/services/predictor_service.py:128-157 | one more prediction adds its points to the total when its driver was classified, nothing otherwise |
| Predictor.ScoreTotalBounds | backend/app/services/predictor_service.py:157-171 | the total lies between 0 and 25 per prediction |
| Predictor.PerfectScore | backend/app/services/predictor_service.py:142-171 | the total equals the maximum exactly when every predicted driver finished at the predicted place |
| Predictor.CalculatePredictionScore | backend/app/services/predictor_service.py:99-178 | missing results fail with "Race results not yet available"; otherwise the total is the sum of the detailed points, the maximum is 25 per prediction, and the accuracy is 0 for no predictions, else total/maximum·100, within 0..100 |
| Predictor.AssignPositions | backend/app/services/predictor_service.py:260-261 | the enumerate loop sets entry i's predicted position to i + 1 and changes nothing else |
| Predictor.GetAIPrediction | backend/app/services/predictor_service.py:189-287 | one candidate per standing, stably sorted by ascending score and numbered from 1; the confidence is "high" exactly when some qualifying position was used |
| Predictor.RankingFacts | backend/app/services/predictor_service.py:256-261 | the predicted positions are exactly 1..n in list order, the scores are non-decreasing, and each entry is one of the candidates |
| Predictor.RankedDriverScored | backend/app/services/predictor_service.py:228-261 | every standing appears in the ranking, with its weighted score |
| Predictor.LeaderRankedLast | backend/app/services/predictor_service.py:232-257 | as written, without qualifying the championship leader with ten wins is ranked behind P2 with two wins |
| Predictor.IntendedScoreMonotone | backend/app/services/predictor_service.py:221-244 | under the corrected score, a driver at least as good on every criterion never scores worse |
| Predictor.IntendedLeaderFirst | backend/app/services/predictor_service.py:256-261 | with the corrected score, the same two drivers are ranked leader first, numbered 1 and 2 |
| Comparison.CompareDriversSeason | backend/app/services/comparison_service.py:20-139 | fails with "One or both drivers not found in standings" exactly when a driver is missing from the standings; otherwise the race-by-race list of the schedule and its head-to-head statistics |
| Comparison.ComparisonsEntries | backend/app/services/comparison_service.py:55-101 | a race is listed exactly when its results were fetched and both drivers have a result in it, in schedule order, at most one entry per race |
| Comparison.ComparisonsFromEntries | backend/app/services/comparison_service.py:79-101 | every listed race is the comparison of one scheduled race |
| Comparison.EntriesInComparisons | backend/app/services/comparison_service.py:79-101 | every scheduled race where both drivers have a result is listed |
| Comparison.RaceEntryWinner | backend/app/services/comparison_service.py:95-100 | for distinct drivers, driver 1 wins exactly when strictly ahead and driver 2 wins ties |
| Comparison.ComparisonsWinners | backend/app/services/comparison_service.py:95-100 | every compared race is won by one of the two drivers |
| Comparison.Wins | backend/app/services/comparison_service.py:266-267 | a driver's wins never exceed the races compared |
| Comparison.H2H | backend/app/services/comparison_service.py:254-280 | no races gives zero counts, a difference of 0 and no totals; otherwise `points_difference` is driver 1's total minus driver 2's |
| Comparison.WinsAddUp | backend/app/services/comparison_service.py:266-275 | with distinct drivers, driver 1's and driver 2's wins add up to the races compared |
| Comparison.SeasonWinsPartition | backend/app/services/comparison_service.py:95-112 | over a season, the two drivers' wins partition the compared races |
| Profile.GetDriverProfile | backend/app/services/profile_service.py:20-127 | fails with "Driver <id> not found in <season> season" exactly when the driver is not in the standings; otherwise the driver's races, podiums and retirements counted among them (each at most the races entered), and the career record |
| Profile.CollectDriverRaces | backend/app/services/profile_service.py:54-94 | the season loop lists the driver's races in schedule order, skipping rounds without a result for the driver or whose fetch failed, and counts podiums and retirements among them |
| Profile.FetchDriverRace | backend/app/services/profile_service.py:56-87 | one iteration yields the driver's line of that round, if any |
| Profile.DriverRacesEntries | backend/app/services/profile_service.py:54-87 | a race is listed exactly when its fetched results include the driver, in schedule order |
| Profile.DriverRacesFromEntries | backend/app/services/profile_service.py:58-87 | every listed race is the driver's line of one scheduled round |
| Profile.EntriesInDriverRaces | backend/app/services/profile_service.py:58-87 | every round whose results include the driver is listed |
| Profile.CountsSnoc | backend/app/services/profile_service.py:72-75 | one more race raises podiums exactly for a top-three finish and retirements exactly for a status without "Finished" |
| Profile.Podiums | backend/app/services/profile_service.py:72-73 | podiums never exceed the races entered |
| Profile.Dnfs | backend/app/services/profile_service.py:74-75 | retirements never exceed the races entered |
| Profile.LappedCountsAsDnf | backend/app/services/profile_service.py:74-75 | a "+1 Lap" finish counts as a retirement |
| Profile.GetCareerStats | backend/app/services/profile_service.py:237-285 | the loop's record is the career of the five seasons; races and podiums stay 0; no more titles than seasons found, and at most five seasons |
| Profile.CareerYears | backend/app/services/profile_service.py:251 | the seasons scanned are exactly current − 4 to current, ascending |
| Profile.FetchSeason | backend/app/services/profile_service.py:253-275 | one iteration yields the driver's line of that season, if the standings were fetched and include them |
| Profile.CareerCountsSnoc | backend/app/services/profile_service.py:264-267 | one more season adds its wins and points and counts a title exactly for position 1 |
| Profile.Championships | backend/app/services/profile_service.py:266-267 | titles never exceed the seasons found |
| Profile.CareerOfBounds | backend/app/services/profile_service.py:251-285 | at most five seasons, and no more titles than seasons |
| Profile.CareerSeasonsAscending | backend/app/services/profile_service.py:251-275 | the seasons found lie between current − 4 and current, strictly ascending |
| Profile.SeasonsWithin | backend/app/services/profile_service.py:251-275 | each season entry comes from a year scanned, at most one per year |
| Profile.GetTeamProfile | backend/app/services/profile_service.py:129-235 | fails with "Constructor <id> not found in <season> season" exactly when the team is not in the standings; otherwise its standing, its drivers and its races |
| Profile.FindConstructorStanding | backend/app/services/profile_service.py:149-157 | the standing found is the first line with the requested constructor id, and none is found exactly when no line has it |
| Profile.TeamDriversExact | backend/app/services/profile_service.py:165-174 | the team's drivers are exactly the standings whose first constructor is the team |
| Profile.TeamResultsExact | backend/app/services/profile_service.py:185-194 | a race's team results are exactly its results for the team's cars |
| Profile.TeamRacesEntries | backend/app/services/profile_service.py:180-202 | a race is listed only with at least one team result, holding exactly the team's results of that round and the sum of their points |
| Jolpica.GetNextRace | backend/app/services/jolpica_service.py:83-117 | the first race in schedule order dated today or later (not necessarily the earliest date); with none, a copy of the next season's first race flagged `isNextSeason` with season = current + 1, or none when that schedule is empty or its fetch failed |
| Jolpica.GetDriverStandings | backend/app/services/jolpica_service.py:129-136 | empty exactly when there is no standings list or the first one has no entries; otherwise the first list's entries |
| Jolpica.GetConstructorStandings | backend/app/services/jolpica_service.py:151-158 | the same for the constructors' table |
| Jolpica.FirstRace | backend/app/services/jolpica_service.py:170-175 | the empty payload exactly when no race was returned, otherwise the first race (results and qualifying alike, lines 189-194) |
| Jolpica.FindDriver | backend/app/services/comparison_service.py:41-46 | the entry found is the first one whose driver has the id, and none is found exactly when no entry has it (standings here, race results at lines 62-77 and in backend/app/services/profile_service.py) |
| Widgets.LastBeforeExact | backend/app/services/widget_service.py:230-238 | the race picked is dated before today and every later race of the schedule is not; none is picked exactly when no race is dated before today |
| Widgets.LastCompletedRace | backend/app/services/widget_service.py:230-238 | the scan over the schedule returns exactly the last race dated strictly before today |
| Widgets.Truncated | backend/app/services/widget_service.py:136-145 | at most ten entries, a prefix of the list |
| Widgets.RaceWidget | backend/app/services/widget_service.py:223-300 | the two race widgets as run with the scan agree with their specification functions |
| Widgets.GetWidgetData | backend/app/services/widget_service.py:95-126 | the response is the dispatched widget with anything raised turned into an error response |
| Widgets.UnknownWidget | backend/app/services/widget_service.py:121-122 | an id without a branch gives "Widget not found"; "recent_predictions" is advertised but is the only advertised id without a branch |
| Widgets.HandledWidget | backend/app/services/widget_service.py:103-120 | a handled id answers with its own widget id, or with the raised error's message |
| Widgets.RaisedBecomesError | backend/app/services/widget_service.py:124-126 | a standings fetch that raises becomes an error response with its message |
| Widgets.StandingsTruncated | backend/app/services/widget_service.py:136-145 | the driver standings widget shows the first min(10, n) standings and reports n as the total |
| Widgets.ConstructorStandingsTruncated | backend/app/services/widget_service.py:147-158 | the same for the constructor standings |
| Widgets.FavoriteDriverPreference | backend/app/services/widget_service.py:160-184 | "No favorite driver set" exactly when the preference is missing or empty; data exactly when set and the profile fetch succeeds |
| Widgets.FavoriteTeamPreference | backend/app/services/widget_service.py:186-210 | the same for the favourite team |
| Widgets.LastRaceChoice | backend/app/services/widget_service.py:223-259 | "No completed races yet" exactly when no race is dated before today; otherwise the results of the last race dated before today |
| Widgets.LeaderShown | backend/app/services/widget_service.py:302-320 | the leader widget shows the first standing, and no data with "No standings available" exactly when the table is empty |
| LapCharts.LapNumbersExact | frontend/components/PositionChart.tsx:22-24 | the lap numbers are strictly ascending and are exactly the numbers the laps carry |
| LapCharts.LastLapIsMax | frontend/app/race/page.tsx:59-63 | with any lap present, the last lap number is carried by some lap and no lap has a higher one |
| LapCharts.OnLapMembers | frontend/app/race/page.tsx:64-66 | the laps of lap n are exactly the input laps with that number |
| LapCharts.TimedMembers | frontend/app/race/page.tsx:68-69 | the timed laps are exactly the input laps with a time |
| LapCharts.RankedLapsExact | frontend/components/PositionChart.tsx:28-33 | the ranking is a permutation of the timed laps of lap n, in ascending time |
| LapCharts.RankedLapsAt | frontend/app/race/page.tsx:64-70 | one ranked entry per timed lap with number n, each an input lap with that number and a time |
| LapCharts.PageDriversExact | frontend/app/race/page.tsx:52-54 | the driver list has no repeats and holds exactly the drivers of the laps; it is empty without data |
| LapCharts.FinalPositionsExact | frontend/app/race/page.tsx:57-77 | positions run 1..k over the timed laps of the highest lap number in ascending time; no data gives no positions |
| LapCharts.MaxLaps | frontend/app/race/page.tsx:182 | a missing or zero lap count falls back to 60, any other count is passed on |
| LapCharts.PositionsKeys | frontend/components/PositionChart.tsx:38-42 | a driver gets a position exactly when listed and having a timed lap on that lap |
| LapCharts.PositionsExact | frontend/components/PositionChart.tsx:38-42 | each position is the 1-based rank of that driver's last entry among all timed laps, so shown ranks may skip values |
| LapCharts.PositionsRanks | frontend/components/PositionChart.tsx:38-42 | the rank written for a driver is that of the driver's last ranked entry |
| LapCharts.FillPositionPoint | frontend/components/PositionChart.tsx:35-44 | the forEach writes exactly the positions of the specification map, under the lap number |
| LapCharts.PositionChartData | frontend/components/PositionChart.tsx:22-45 | one point per distinct lap number, ascending, each holding the positions of that lap's ranking |
| LapCharts.ReachesIncludesExact | frontend/components/PositionChart.tsx:27-42 | the forEach reaches `drivers.includes` exactly when some lap has a time |
| LapCharts.RenderPositionChart | frontend/components/PositionChart.tsx:15-94 | without a `drivers` prop the chart throws on every render: at `drivers.includes` (line 39) exactly when some lap has a time, otherwise at `drivers.map` (line 84); with the prop, one point per lap number with the positions of the given drivers |
| LapCharts.RacePagePositionChartThrows | frontend/app/race/page.tsx:157 | as written the page renders the chart without `drivers`, so it throws for any lap data, even an empty list; with a timed lap it throws already while building the points |
| LapCharts.PositionedWithAllDrivers | frontend/components/PositionChart.tsx:38-42 | with every driver of the laps listed, a driver is positioned at a lap exactly when they have a timed lap there |
| LapCharts.CorrectedPositionChartComplete | frontend/app/race/page.tsx:52-54 | with the page's driver list passed, the chart renders, one point per lap number, positioning exactly the drivers with a timed lap on it |
| LapCharts.FilteredExact | frontend/components/LapTimeChart.tsx:22-25 | without a driver list every lap is kept; with one exactly the listed drivers' laps are kept |
| LapCharts.GroupedLaps | frontend/components/LapTimeChart.tsx:27-34 | a driver's group holds exactly the driver's filtered laps |
| LapCharts.FirstOnLap | frontend/components/LapTimeChart.tsx:45 | the first lap of the group with that number, none exactly when no lap has it |
| LapCharts.Cell | frontend/components/LapTimeChart.tsx:46 | a missing lap, a missing time and a zero time all give null; otherwise the lap's time |
| LapCharts.FillLapTimeRow | frontend/components/LapTimeChart.tsx:43-48 | the row has a field for exactly the grouped drivers, each holding that driver's cell |
| LapCharts.FillLapTimeRows | frontend/components/LapTimeChart.tsx:42-49 | one row per lap number, in order, each the row of that number |
| LapCharts.LapTimeChartData | frontend/components/LapTimeChart.tsx:21-49 | one row per distinct filtered lap number, ascending, with a field per grouped driver holding the driver's cell for that lap |
| Sidebar.FirstSegmentIs | frontend/components/Sidebar.tsx:59-61 | a slash-free name is a path's first segment exactly when the path is that name or continues it with a slash |
| Sidebar.SectionActive | frontend/components/Sidebar.tsx:59-61 | a section's link is active exactly on the paths whose first section it is |
| Sidebar.DashboardActive | frontend/components/Sidebar.tsx:59-61 | the dashboard link is active only on "/" itself |
| Sidebar.MenuShape | frontend/components/Sidebar.tsx:22-33 | the menu starts with "/" and every other link is a slash followed by its section |
| Sidebar.SectionsAreNames | frontend/components/Sidebar.tsx:24-32 | every section is a non-empty name without a slash |
| Sidebar.SectionsDistinct | frontend/components/Sidebar.tsx:22-33 | no two sections share a name |
| Sidebar.AtMostOneActive | frontend/components/Sidebar.tsx:22-33 | with this menu no pathname highlights two items |
| Sidebar.RaceIsNotRaceWeekend | frontend/components/Sidebar.tsx:59-61 | "/race" is not highlighted on the race-weekend page but is on pages under "/race/" |
| Middleware.AnyPrefix | frontend/middleware.ts:10 | true exactly when the path starts with one of the routes |
| Middleware.Decide | frontend/middleware.ts:4-25 | to login exactly without a token on a protected path, to home exactly with a token on a public path, otherwise through |
| Middleware.PublicRoutesByPrefix | frontend/middleware.ts:9-10 | public means starting with "/login" or "/register", so "/loginx" is public and "/" is not |
| Middleware.RedirectsSettle | frontend/middleware.ts:13-22 | following either redirect with the same cookie is not redirected again |
| Config.AllowedOriginsList | backend/app/core/config.py:41-48 | a list is returned as is; a string gives one piece per comma plus one, each without white space at either end |
| Config.ParseJoinedOrigins | backend/app/core/config.py:44-47 | clean origins written comma-separated parse back to themselves |
| Config.SpaceAfterCommasIgnored | backend/app/core/config.py:44-47 | a space after each comma does not change the parsed list |
| Config.PaddedPieces | backend/app/core/config.py:47 | the pieces of a ", "-joined list strip back to the origins |
| Config.DefaultIsOneOrigin | backend/app/core/config.py:32 | the default setting yields exactly the one local origin |
| TeamTheme.ThemeClassList | frontend/hooks/useTeamTheme.ts:42 | the class list holds the map's classes in declaration order |
| TeamTheme.ClassOf | frontend/hooks/useTeamTheme.ts:6-17 | a class exactly for the ten listed team names, always one of the theme classes |
| TeamTheme.Lookup | frontend/hooks/useTeamTheme.ts:60 | a value exactly when some entry has the key, and then that entry's value |
| TeamTheme.AppliedExact | frontend/hooks/useTeamTheme.ts:59-67 | after applying a listed team's class it is the only theme class on the document, and every other class is as before |
| TeamTheme.AppliedIdempotent | frontend/hooks/useTeamTheme.ts:59-67 | applying the same team twice leaves the classes as applying it once |
| TeamTheme.OnboardingNamesUnmapped | frontend/app/onboarding/page.tsx:30-32 | the onboarding names "Alpine" and "RB" are not keys of the map, so choosing them applies no theme |
| TeamTheme.ThemeState.constructor | frontend/hooks/useTeamTheme.ts:20-21 | no theme and loading at first, with the document's classes |
| TeamTheme.ThemeState.ApplyClass | frontend/hooks/useTeamTheme.ts:40-47 | every theme class is removed, then the given one is added; the state is unchanged |
| TeamTheme.ThemeState.UpdateTeamTheme | frontend/hooks/useTeamTheme.ts:59-70 | a listed team applies its class and sets the state; any other name changes nothing |
| TeamTheme.ThemeState.LoadPreferences | frontend/hooks/useTeamTheme.ts:24-54 | without a token, after a failed fetch or with no favourite team nothing changes; otherwise the state becomes the team's class (none when unlisted) and a listed class is applied; loading ends in every case |
| Auth.NewRecord | backend/app/api/v1/auth.py:47-56 | the inserted row copies every body field, both flags included, and stores only the password's hash |
| Auth.Updated | backend/app/api/v1/auth.py:117-151 | each field present in the body replaces the stored one; id and both flags never change, even when the body carries is_active |
| Auth.OwnDetailsNoClash | backend/app/api/v1/auth.py:119-139 | resubmitting one's own email or username never clashes |
| Auth.UserTable.constructor | backend/app/api/v1/auth.py:25-62 | an empty table whose first id is 1 |
| Auth.UserTable.Register | backend/app/api/v1/auth.py:25-62 | a used email is refused first, then a used username, each leaving the table unchanged; otherwise one new row with a fresh id is appended; no duplicates ever |
| Auth.UserTable.Login | backend/app/api/v1/auth.py:65-98 | 401 exactly when no row has the email with a verifying password, 400 exactly when that row is inactive, otherwise a bearer token for that row's id |
| Auth.UserTable.UniqueEmail | backend/app/api/v1/auth.py:73-74 | at most one row holds an email, so it is the row the query finds |
| Auth.UserTable.UpdateMe | backend/app/api/v1/auth.py:109-156 | an email, then a username, held by another user is refused with nothing changed; otherwise only the user's row becomes the updated row; no duplicates ever |
| Auth.UserTable.UpdatePreferences | backend/app/api/v1/auth.py:159-173 | the three preference fields are overwritten, absent favourites included; no other row or field changes |
| Auth.SameEmailSameRow | backend/app/api/v1/auth.py:32-37 | in a duplicate-free table two rows with the same email are the same row |
| Auth.UpdatedStaysUnique | backend/app/api/v1/auth.py:117-151 | replacing a row by one with its id and an unused email and username keeps the table duplicate-free |
| Deps.FindRow | backend/app/api/deps.py:31-32 | the first row meeting the condition; none exactly when no row meets it |
| Deps.CurrentUser | backend/app/api/deps.py:16-46 | 401 without a user id in the token, 401 for an unknown id, 400 "Inactive user"; success exactly for an active row with that id, which is returned |
| Deps.ActiveSuperuser | backend/app/api/deps.py:49-58 | 403 exactly for a user who is not a superuser, otherwise the same user |
| Deps.OptionalUser | backend/app/api/deps.py:61-86 | never fails; no user without credentials, and any user returned is an active row |
| Deps.OptionalAgreesWithCurrent | backend/app/api/deps.py:61-86 | with credentials the optional guard yields a user exactly when the strict guard accepts the token, and the same user |
| UserSchemas.NewUserCreate | backend/app/schemas/user.py:9-23 | every optional registration field takes its default: active, not superuser, no favourites, theme "dark" |
| UserSchemas.EmptyUserUpdate | backend/app/schemas/user.py:27-35 | every update field defaults to absent |
| UserSchemas.DefaultPreferences | backend/app/schemas/user.py:38-42 | no favourites and theme "dark" by default |
| UserSchemas.CreateErrors | backend/app/schemas/user.py:12-23 | the username is named exactly when outside 3..50 characters, the password exactly when outside 8..72 |
| UserSchemas.ValidateCreate | backend/app/schemas/user.py:12-23 | a registration body is accepted unchanged exactly when both bounds hold, otherwise refused naming the failing fields |
| UserSchemas.UpdateErrors | backend/app/schemas/user.py:30-31 | only present fields are checked against the same bounds |
| UserSchemas.ValidateUpdate | backend/app/schemas/user.py:27-35 | an update body is accepted unchanged exactly when each present bounded field is in bounds |
| UserSchemas.EmptyUpdateValid | backend/app/schemas/user.py:27-35 | the empty update is always accepted |
| Sorting.SortInPlace | frontend/components/PitStopsChart.tsx:105-107 | the array ends as the stable sort of its old contents by the key (also the score sort of backend/app/services/predictor_service.py line 257) |
| Sorting.SortByCorrect | frontend/components/PitStopsChart.tsx:105-107 | the sort keeps the length and the multiset of elements, orders by key and is stable: elements sharing a key keep their input order |
| Sorting.SortBySorted | backend/app/services/predictor_service.py:257 | the sorted copy is ordered by key and a permutation of the input |
| Grouping.KeysCorrect | frontend/components/PitStopsChart.tsx:12-18 | the keys are listed once each, exactly the keys that occur, in first-appearance order |
| Grouping.GroupSizesSum | backend/app/services/strategy_service.py:353-358 | the group sizes over the keys add up to the number of elements |
| Grouping.GroupInto | frontend/components/PitStopsChart.tsx:12-18 | the dictionary has an entry exactly for each occurring key, holding that key's elements in input order |
| Grouping.CountBy | backend/app/services/strategy_service.py:353-358 | the dictionary has an entry exactly for each occurring key, holding how many elements have it |

## Left out

- Network, cache and database I/O: the HTTP client, `_fetch_with_cache`, Redis and the cache preambles of every service. Fetched payloads are parameters. The SQL session is an in-memory sequence of rows, and a failed request commits nothing.
- Clock reads (`date.today()`, the current season): they are parameters, and dates are whole day numbers rather than parsed ISO strings.
- Password hashing, password verification, JWT creation and decoding, and token expiry: they are function parameters. The `int(user_id)` conversion is folded into `decode`, and `EmailStr` validation is library behaviour.
- Logging and the `get_me` endpoint: logging has no effect on results, and `get_me` returns the guard's user unchanged.
- The orchestration functions around the modelled helpers only fetch, cache and assemble dictionaries: `analyze_race_strategy`, `analyze_driver_strategy`, `get_race_weekend_hub`, `get_current_or_next_weekend`, `get_available_widgets` (beyond its list of ids), `get_all_drivers`, `get_all_teams`, `get_current_season` and `get_schedule`.
- `compare_drivers_race` and `_analyze_compound_performance`, together with the fastest-compound part of `_generate_summary`: they compute floating-point averages and deltas.
- `get_fantasy_scoring_rules`: it returns a constant dictionary.
- `formatLapTime` and `cn` in frontend/lib/utils.ts: they are presentation helpers (float formatting and class-name merging).
- Predictor.CalculatePredictionScore: the accuracy percentage is the exact ratio, without the rounding to one decimal place.
- Comparison.H2H: the two win percentages rounded to one decimal place are not modelled; counts, point totals and the difference are.
- StrategyService.AnalyzeDriverStrategies: `compounds_used` is a set, because its list order is the iteration order of a Python set.
- Profile.GetDriverProfile: the fastest-lap object copied into each race is not modelled.
- Points are whole numbers, while the source reads them with `float(...)` and real tables contain half points. Points only enter sums and differences, so counting in half-point units would keep every stated property exact.
- The middleware's `config.matcher` (frontend/middleware.ts:27-40), which keeps API, `_next`, favicon and icon paths away from the middleware, is not modelled: `Middleware.Decide` describes the paths that reach it.
- LapCharts.PositionPoint, LapCharts.LapTimeRow: the source writes the driver fields into the same object as `lap` (frontend/components/PositionChart.tsx:35-40, frontend/components/LapTimeChart.tsx:42-45), so a driver coded "lap" would overwrite the lap number; the model keeps the two apart, since driver codes are three capital letters.
- Floating-point arithmetic in general: averages, degradation rates and chart percentages are exact reals, and lap times are whole numbers of an abstract unit.
- Text case mapping and white space are ASCII only: `lower()`, `toLowerCase()` and `strip()` on non-ASCII characters are not modelled.
- TeamTheme.ClassOf: a JavaScript lookup of an inherited property name such as "constructor" in `teamClassMap` is treated as a missing key.
- backend/app/services/fastf1_service.py, which produces the stint and lap records, is not part of this model; neither are the database model module, the routers and the React rendering.

## Findings

| source | as written | input that shows it | evidently intended | confidence | as-written member | corrected member |
|---|---|---|---|---|---|---|
| backend/app/services/predictor_service.py:232-257 | the score adds `100 - position` and ten per win, both larger for a better driver, and the list is sorted ascending, so better drivers are ranked lower | no qualifying; P1 with 10 wins scores 0.7·99 + 0.3·100 = 99.3, P2 with 2 wins scores 0.7·98 + 0.3·20 = 74.6, so P2 is predicted ahead of the leader | a better championship position and more wins lower the score, so the leader is ranked first | not executed | Predictor.LeaderRankedLast | Predictor.IntendedScoreMonotone |
| frontend/app/race/page.tsx:157 | the race page renders `<PositionChart laps={lapsData.laps} />` without the `drivers` prop that frontend/components/PositionChart.tsx:15-18 declares, and the chart calls `drivers.includes` on every ranked lap (line 39) and `drivers.map` on every render (line 84) | any lap data, even an empty list: `drivers.map` (or, with a timed lap such as VER on lap 1 in 90 time units, `drivers.includes`) is called on `undefined` and rendering throws | the page passes its own distinct driver list (lines 52-54), so every driver with a timed lap is positioned | not executed | LapCharts.RacePagePositionChartThrows | LapCharts.CorrectedPositionChartComplete |

`Predictor.GetAIPrediction` models the ranking as written; `Predictor.IntendedRanking` is the same ranking under the corrected score. `LapCharts.PositionChartData` models the chart given a driver array; `LapCharts.RenderPositionChart` adds the missing-prop case.
