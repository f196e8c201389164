# Cycle prediction and health analytics — a Dafny model

This project models the analytics engine of a menstrual-cycle and daily-health
tracker. The engine lives in three NestJS services:

- **Cycles** (`src/modules/cycles/cycles.service.ts`) creates a cycle record and
  works out its cycle day. It derives the fertile window (cycle days 8–19) and the
  ovulation window (days 13–15). It predicts the next period from the user's
  history and builds a month calendar of period and fertile days.
- **Daily logs** (`src/modules/daily-logs/daily-logs.service.ts`) fetches logs by
  date range. It counts symptoms per category in insertion-ordered maps and picks
  the most frequent symptom. It classifies flow intensity as increasing, decreasing
  or stable across the two halves of the date-sorted logs.
- **Health reports** (`src/modules/health-reports/health-reports.service.ts`)
  composes the monthly report from these parts:
  - a cycle summary;
  - symptom percentages;
  - the flow pattern;
  - one line per logged day (top symptom and an "n/10" symptom count);
  - a summary text;
  - tips.

Dates are day numbers in the proleptic Gregorian calendar (module `Calendar`).
`new Date(year, month - 1, 1)` and `new Date(year, month, 0)` are modelled with
JavaScript's rules: a year from 0 to 99 is read as 1900 + year, and month 0 or
month 13 roll into the neighbouring year. A JavaScript `Map` that the service fills in place is the class
`Frequencies.FrequencyMap`: its key order is the insertion order, and that order
decides ties. `Math.round(a / b)` is `Cycles.RoundedMean`. Averages of flow
intensity are exact `real`s. JavaScript truthiness is kept where the code relies
on it: `cycleLength || 28` replaces a length of 0, and `a || b` on the most
frequent symptom skips an empty-string key.

Modules:

- `Wrappers`: `Option`.
- `Arithmetic`: two multiplication facts.
- `Calendar`: day numbers, month bounds.
- `Sorting`: a stable sort by an integer key.
- `Text`: decimal rendering and parsing of integers.
- `Frequencies`: occurrence maps and the most-frequent scan.
- `Cycles`, `DailyLogs`, `HealthReports`: the three services.

Three behaviours of the code that a reader might not expect are kept as written:

- **Symptom percentages count entries, not days.** `getSymptomFrequency` sums
  every count in a category's map and divides by the number of logs, so one log
  that lists two pain symptoms scores 200
  (`HealthReports.SymptomFrequencyCanExceedHundred`).
- **The fallback to the mood winner also fires on an empty-string key.**
  `mostFrequentPhysicalPain || mostFrequentMood` falls through when the pain
  map is empty and also when its winner is the empty string.
- **Key order of the count maps matters.** `getMostFrequent` keeps the first key,
  in insertion order, that reaches the maximum count, so ties go to the symptom
  logged first.

## Model

| member | source | states |
|---|---|---|
| Calendar.MonthSpan | src/modules/cycles/cycles.service.ts:165-166 | the month's last day minus its first day plus one is the month's length; every month has at least 28 days; the day after the last day is the next month's first day |
| Calendar.MonthBounds | src/modules/cycles/cycles.service.ts:165-166 | for a month from 1 to 12, `new Date(year, month - 1, 1)` is the first and `new Date(year, month, 0)` the last day of that month, in the year the constructor uses (1900 + year for a year from 0 to 99) |
| Calendar.TwoDigitYear | src/modules/cycles/cycles.service.ts:165-166 | month 4 of year 24 spans April 1st to April 30th of 1924 |
| Calendar.AddDaysNextDay | src/modules/cycles/cycles.service.ts:224-228 | adding one day moves to the next day of the month, from a month's last day to the next month's first, and from December 31st to January 1st of the next year |
| Calendar.NextMonth | src/modules/cycles/cycles.service.ts:165-166 | `new Date(year, month, ...)` normalises an out-of-range month into the following or preceding year |
| Calendar.DaysInMonth | src/modules/cycles/cycles.service.ts:166 | a month has 28 to 31 days, and 29 exactly for February of a leap year |
| Cycles.LengthOrDefault | src/modules/cycles/cycles.service.ts:15 | the cycle length is the requested one unless it is missing or 0, in which case it is 28; it is never 0 |
| Cycles.Create | src/modules/cycles/cycles.service.ts:14-32 | a new cycle copies the request, defaults the length to 28, is active, and carries a current cycle day exactly when a period start is given: the day of `today` counted from the period start |
| Cycles.CalculateCycleDay | src/modules/cycles/cycles.service.ts:91-95 | the cycle day is at least 1; on or after the period start, the period start plus (day − 1) days is the current date; before it, the day is 1 |
| Cycles.CycleDayMonotone | src/modules/cycles/cycles.service.ts:91-95 | a later date never has an earlier cycle day |
| Cycles.CalculateFertileWindow | src/modules/cycles/cycles.service.ts:129-142 | no window without a period start; otherwise the window runs from 7 to 18 days after the period start, i.e. cycle days 8 to 19 |
| Cycles.CalculateOvulationWindow | src/modules/cycles/cycles.service.ts:144-157 | no window without a period start; otherwise the window runs from 12 to 14 days after the period start, i.e. cycle days 13 to 15 |
| Cycles.OvulationWithinFertileWindow | src/modules/cycles/cycles.service.ts:129-157 | both windows exist for the same cycles, and the ovulation window lies inside the fertile window |
| Cycles.January2024Windows | src/modules/cycles/cycles.service.ts:129-157 | a period starting on 2024-01-01 gives the fertile window 2024-01-08..2024-01-19 and the ovulation window 2024-01-13..2024-01-15 |
| Cycles.CompletedCycles | src/modules/cycles/cycles.service.ts:103-105 | the completed cycles are exactly the history's cycles with status completed and a non-zero length, and there are no more of them than cycles |
| Cycles.CompletedCyclesCounts | src/modules/cycles/cycles.service.ts:103-105 | the filter keeps each qualifying cycle exactly as often as it occurs in the history and drops every other |
| Cycles.RoundedMean | src/modules/cycles/cycles.service.ts:120 | the result is the integer nearest to total/count, with halves rounded up, as `Math.round` does for positive counts |
| Cycles.FindWithPeriodStart | src/modules/cycles/cycles.service.ts:123 | the index found is the first cycle with a period start; none is found only when no cycle has one |
| Cycles.LatestPeriodStart | src/modules/cycles/cycles.service.ts:122-124 | the anchor is the period start of the first cycle that has one, else the newest cycle's start date |
| Cycles.AnchorIsNewestPeriodStart | src/modules/cycles/cycles.service.ts:34-37 | with the cycles listed newest first, as `findAll` sorts them, the anchor is the period start of the most recently started cycle that records one |
| Cycles.PredictNextPeriod | src/modules/cycles/cycles.service.ts:97-127 | no prediction exactly for an empty history; with no completed cycle, the newest cycle's period start (or start) plus its length (or 28); otherwise the anchor plus the rounded mean length of the completed cycles |
| Cycles.TotalLengthBounds | src/modules/cycles/cycles.service.ts:116-119 | when every length lies in [lo, hi], the summed length lies between count × lo and count × hi |
| Cycles.RoundedMeanBounds | src/modules/cycles/cycles.service.ts:120 | the rounded mean of values in [lo, hi] lies in [lo, hi] |
| Cycles.PredictionWithinCompletedLengths | src/modules/cycles/cycles.service.ts:115-126 | when every completed length lies in [lo, hi], the predicted date lies between lo and hi days after the anchor |
| Cycles.SingleActiveCyclePrediction | src/modules/cycles/cycles.service.ts:107-112 | a lone active 28-day cycle predicts its period start plus 28 days |
| Cycles.DaysBetween | src/modules/cycles/cycles.service.ts:186-194 | the walk yields one highlight per day from `from` to `to` in ascending order, and none when `from > to` |
| Cycles.DaysBetweenMembers | src/modules/cycles/cycles.service.ts:186-194 | a highlight is produced by the walk exactly when it has the walk's kind and its date lies in the walked range |
| Cycles.CycleHighlightsExact | src/modules/cycles/cycles.service.ts:174-219 | a cycle contributes nothing unless both period dates are known; otherwise, inside the month, exactly its period days and its cycle days 8–19, period days first, each kind strictly ascending |
| Cycles.HighlightsWithinMonth | src/modules/cycles/cycles.service.ts:174-219 | every highlighted day lies in the requested month |
| Cycles.AppendDays | src/modules/cycles/cycles.service.ts:185-194 | the day-by-day walk appends exactly the days of the range that fall in the month |
| Cycles.AppendCycle | src/modules/cycles/cycles.service.ts:175-218 | the overlap tests and the two walks append exactly the cycle's highlights; the fertile test, which only checks the window's ends, loses nothing because a month has at least 28 days |
| Cycles.GetCalendarData | src/modules/cycles/cycles.service.ts:159-222 | the calendar echoes month and year, holds every cycle's highlights in history order, and all of them lie in the month |
| Cycles.AprilCalendarExample | src/modules/cycles/cycles.service.ts:174-219 | a period from 2024-03-28 to 2024-04-02 shows in April 2024 as exactly 2024-04-01 and 2024-04-02 |
| Sorting.SortBy | src/modules/daily-logs/daily-logs.service.ts:127-129 | sorting logs by date gives an ascending permutation of them |
| Sorting.SortByStable | src/modules/daily-logs/daily-logs.service.ts:127-129 | logs with the same date come out in the order they went in (`Array.prototype.sort` is stable) |
| Sorting.InsertByWithKey | src/modules/daily-logs/daily-logs.service.ts:127-129 | one insertion step places the new log ahead of those sharing its date and keeps every other date's logs in order |
| Sorting.SortSortedIsIdentity | src/modules/daily-logs/daily-logs.service.ts:127-129 | sorting logs that are already in date order leaves them unchanged |
| Frequencies.TallyCounts | src/modules/daily-logs/daily-logs.service.ts:95-120 | a key's count is its number of occurrences, and the keys are exactly the strings that occur |
| Frequencies.DistinctKeys | src/modules/daily-logs/daily-logs.service.ts:95-120 | each key appears once in the map's key order, and the keys are exactly the strings counted |
| Frequencies.TableOfWellFormed | src/modules/daily-logs/daily-logs.service.ts:95-120 | a filled map has no duplicate key, the same keys in its order and its counts, and every count at least 1 |
| Frequencies.TallyTotal | src/modules/daily-logs/daily-logs.service.ts:95-120 | the counts of a map add up to the number of strings counted |
| Frequencies.TallyStep | src/modules/daily-logs/daily-logs.service.ts:97-100 | counting one more string adds 1 to its count and appends it to the key order only when it is new |
| Frequencies.FrequencyMap.Increment | src/modules/daily-logs/daily-logs.service.ts:97-100 | `map.set(k, (map.get(k) \|\| 0) + 1)` raises k's count by 1, keeps a known key in place, appends a new one, and keeps the map equal to the counts of everything counted so far |
| Frequencies.CountAll | src/modules/daily-logs/daily-logs.service.ts:96-101 | counting a list in place leaves the map holding the counts of everything counted before plus the list |
| Frequencies.LeaderIsMaximum | src/modules/daily-logs/daily-logs.service.ts:167-175 | over positive counts, the scan ends on a key whose count is the largest of all |
| Frequencies.LeaderIsFirstMaximum | src/modules/daily-logs/daily-logs.service.ts:167-175 | every key before the chosen one in insertion order has a strictly smaller count |
| Frequencies.MostFrequentIsFirstMaximum | src/modules/daily-logs/daily-logs.service.ts:164-178 | the most frequent key is null exactly for an empty map, and otherwise is the first key in insertion order whose count is the maximum |
| DailyLogs.GetMostFrequent | src/modules/daily-logs/daily-logs.service.ts:164-178 | the scan over the map returns null exactly for an empty map, and otherwise the first key with the maximal count |
| DailyLogs.ItemsMembers | src/modules/daily-logs/daily-logs.service.ts:95-120 | a string is counted for a category exactly when some log lists it in that category |
| DailyLogs.ItemsLength | src/modules/daily-logs/daily-logs.service.ts:95-120 | the strings counted for a category number as many as the logs' entries in it |
| DailyLogs.EntryCountSplit | src/modules/daily-logs/daily-logs.service.ts:95-120 | the entry count of two runs of logs is the sum of their counts |
| DailyLogs.FrequencyTableCounts | src/modules/daily-logs/daily-logs.service.ts:89-120 | each category's map is well formed, has exactly the symptoms some log lists, counts each by its occurrences, and its counts sum to the category's entry count |
| DailyLogs.CountCategories | src/modules/daily-logs/daily-logs.service.ts:89-120 | the four maps hold the counts of their categories' entries, log by log in order |
| DailyLogs.PositiveFlows | src/modules/daily-logs/daily-logs.service.ts:183-185 | only positive intensities are kept, every log's positive intensity is kept, and none are kept exactly when no log has a positive intensity |
| DailyLogs.PositiveFlowsAppend | src/modules/daily-logs/daily-logs.service.ts:183-185 | one log contributes its intensity exactly when it is positive, and the intensities of two runs of logs are those of the first followed by those of the second, so each is kept in order and as often as it occurs |
| DailyLogs.PositiveFlowsFrom | src/modules/daily-logs/daily-logs.service.ts:183-185 | every kept intensity is some log's flow |
| DailyLogs.Mean | src/modules/daily-logs/daily-logs.service.ts:190 | the mean times the count is the total |
| DailyLogs.MeanBounds | src/modules/daily-logs/daily-logs.service.ts:189-190 | a mean of values in [lo, hi] lies in [lo, hi] |
| DailyLogs.SumBounds | src/modules/daily-logs/daily-logs.service.ts:189 | a sum of values in [lo, hi] lies between count × lo and count × hi |
| DailyLogs.CalculateAverageIntensity | src/modules/daily-logs/daily-logs.service.ts:180-191 | 0 when no log has a positive intensity, otherwise the mean of the positive intensities |
| DailyLogs.AverageIntensityBounds | src/modules/daily-logs/daily-logs.service.ts:180-191 | when some log has a positive intensity, the average lies within any bounds that hold for the positive intensities |
| DailyLogs.AverageIntensityWithinSchema | src/modules/daily-logs/daily-logs.service.ts:180-191 | for logs within the schema's 0–10 bound, the average is 0 exactly when no log has a positive intensity, and otherwise lies in [1, 10] |
| DailyLogs.ClassifyChange | src/modules/daily-logs/daily-logs.service.ts:137-143 | increasing exactly when diff > 1, decreasing exactly when diff < −1, stable exactly otherwise |
| DailyLogs.SortedHalves | src/modules/daily-logs/daily-logs.service.ts:127-132 | the sorted logs are an ascending permutation of the input; the halves concatenate back to it, the first has floor(n/2) logs, the second the same or one more |
| DailyLogs.TrendThresholds | src/modules/daily-logs/daily-logs.service.ts:127-143 | the trend is decided by the halves' average difference, with both directions of each threshold |
| DailyLogs.GetTrends | src/modules/daily-logs/daily-logs.service.ts:77-153 | the counting, scanning, sorting and averaging produce exactly the trends report of the logs |
| DailyLogs.TrendsOfNoLogs | src/modules/daily-logs/daily-logs.service.ts:77-153 | no logs give four empty maps, no symptom and a stable trend |
| DailyLogs.MostFrequentSymptomFallback | src/modules/daily-logs/daily-logs.service.ts:123-124 | the most frequent symptom is the physical-pain winner if any pain was logged, else the mood winner, else null |
| DailyLogs.SingleLogReadsAsIncreasing | src/modules/daily-logs/daily-logs.service.ts:130-143 | one log with flow above 1 reads as increasing, because its empty first half averages 0 |
| DailyLogs.AverageOfThree | src/modules/daily-logs/daily-logs.service.ts:180-191 | three logs with positive flows average the mean of the three |
| DailyLogs.SixDayExample | src/modules/daily-logs/daily-logs.service.ts:127-143 | flows 2,2,2,8,9,9 on consecutive days give half averages 2 and 26/3 and an increasing trend |
| DailyLogs.GetMostFrequentSymptom | src/modules/daily-logs/daily-logs.service.ts:155-162 | the result is the trends' symptom when it is a non-empty string, and null when that is null or empty |
| HealthReports.PeriodDuration | src/modules/health-reports/health-reports.service.ts:69-74 | 0 unless both period dates are recorded; otherwise the period start plus (duration − 1) days is the period end |
| HealthReports.GetCycleSummary | src/modules/health-reports/health-reports.service.ts:66-89 | the summary copies the cycle's length and current day, has a period duration of 0 unless both period dates are recorded and otherwise the inclusive day count from start to end, predicts from the owner's cycles (none only for no cycles), and has an ovulation window on cycle days 13 to 15 exactly when the period start is recorded |
| HealthReports.CycleSummaryOfOwnCycle | src/modules/health-reports/health-reports.service.ts:66-89 | the summary of one of the owner's cycles carries a prediction, an ovulation window exactly when the period start is recorded, and the cycle's own length and current day |
| HealthReports.Percentage | src/modules/health-reports/health-reports.service.ts:130-133 | the percentage is 100 × count / days rounded to the nearest integer, halves up |
| HealthReports.GetSymptomFrequency | src/modules/health-reports/health-reports.service.ts:91-135 | all zeros for no logs; otherwise each field is the percentage of the category's entry count over the number of logs, and the digestion field repeats the mood field |
| HealthReports.SymptomFrequencyCanExceedHundred | src/modules/health-reports/health-reports.service.ts:119-130 | one log listing two pain symptoms scores 200 for physical pain |
| HealthReports.FlowPointsMembers | src/modules/health-reports/health-reports.service.ts:148-153 | a flow point is produced exactly for a log with positive intensity, with that log's date and intensity |
| HealthReports.GetFlowPattern | src/modules/health-reports/health-reports.service.ts:137-155 | the flow pattern is sorted by date, is a permutation of the positive-intensity points, and holds a point exactly when some log has that date and that positive intensity |
| HealthReports.FlowPointsSorted | src/modules/health-reports/health-reports.service.ts:148-153 | filtering and mapping logs in date order yields points in date order |
| HealthReports.FlowPatternOfFetchedLogs | src/modules/health-reports/health-reports.service.ts:142-154 | for logs as the date-range fetch returns them, the final sort changes nothing |
| HealthReports.GetTopSymptom | src/modules/health-reports/health-reports.service.ts:184-198 | "None" exactly when every category is empty; otherwise the label of the first non-empty category in priority order |
| HealthReports.TotalSymptoms | src/modules/health-reports/health-reports.service.ts:200-207 | the total is at most 10 and at most the summed entry count, and equals that count when it is below 10 |
| HealthReports.GetTotalSymptoms | src/modules/health-reports/health-reports.service.ts:200-207 | the accumulating method returns the capped total |
| HealthReports.HistoricalEntryOf | src/modules/health-reports/health-reports.service.ts:172-180 | an entry keeps the log's date and note ("" when absent), names its top symptom, and its "n/10" text parses back to the log's capped total |
| HealthReports.GetHistoricalLogs | src/modules/health-reports/health-reports.service.ts:157-182 | one entry per log, in order; each keeps its log's date and note, and each "n/10" text parses back to the log's capped total |
| HealthReports.CountWhere | src/modules/health-reports/health-reports.service.ts:215-217 | the count is at most the number of logs and positive exactly when some log qualifies |
| HealthReports.CountWhereAppend | src/modules/health-reports/health-reports.service.ts:215-217 | one log counts 1 exactly when it qualifies, and two runs of logs count the sum of their counts, so the count is the number of qualifying logs |
| HealthReports.GenerateSummaryText | src/modules/health-reports/health-reports.service.ts:209-230 | the built text is the summary text of the cycle and logs |
| HealthReports.PmsSentenceCases | src/modules/health-reports/health-reports.service.ts:215-225 | "more frequent" exactly when more than half the logs list a mood, "within normal range" exactly otherwise |
| HealthReports.SentencesDiffer | src/modules/health-reports/health-reports.service.ts:222-224 | the two PMS sentences are different |
| HealthReports.LengthSentenceReadsBack | src/modules/health-reports/health-reports.service.ts:214-219 | the number in the opening sentence parses back to the cycle's length, or 28 when that is 0 |
| HealthReports.Tips | src/modules/health-reports/health-reports.service.ts:232-256 | the cramp tip appears exactly when some log has flow above 7, the hydration tip exactly when some log lists Bloating; at most these two, cramp first |
| HealthReports.GenerateTips | src/modules/health-reports/health-reports.service.ts:232-256 | the built list is the tips of the logs |
| HealthReports.FindCycleInMonth | src/modules/health-reports/health-reports.service.ts:22-28 | none exactly when no cycle starts in the month; otherwise the first cycle, in history order, that does |
| HealthReports.GetMonthlyReport | src/modules/health-reports/health-reports.service.ts:13-64 | the report echoes month and year, summarises the first cycle starting in the month (none exactly when there is none, and then the no-cycle message), and carries the symptom frequency, flow pattern, historical lines, summary and tips of the month's logs |
| Text.ParseNatToString | src/modules/health-reports/health-reports.service.ts:178 | the decimal rendering of a natural number parses back to it |
| Text.ParseIntToString | src/modules/health-reports/health-reports.service.ts:219 | the decimal rendering of an integer, with a minus sign when negative, parses back to it |

## Left out

- Persistence (Mongoose queries, `save`, `findById`) is left out. Each service
  method takes the records its query would return as a parameter: a user's cycles
  newest first, or a user's logs. `DailyLogs.FetchedByDateRange` states what the
  date-range fetch returns.
- The not-found exceptions of `findOne`, `update` and `remove` are left out. So are
  `getCurrentCycle`, `findAll`'s user filter, and the recomputation of the cycle
  day in `update`. These are data access with no logic beyond the query.
- The wall clock is a parameter: `new Date()` in `create` is `today` in `Cycles.Create`.
- `getMonthlyReport` reads the month's logs between `new Date(year, month - 1, 1)`
  and `new Date(year, month, 0)`, which read a year from 0 to 99 as 1900 + year.
  Its cycle test compares `getFullYear()` with the year as given. For such a
  year the two disagree. The model takes the logs as a parameter and does not
  tie them to that range.
- Time of day, milliseconds, time zones and daylight saving are not modelled.
  Dates are whole days, so `Math.floor` of a millisecond difference in
  `calculateCycleDay` and `Math.ceil` in `getCycleSummary` are exact day differences.
- Floating point is not modelled: averages are exact rationals and percentages
  exact rounded integers. Flow intensity is an integer; the model does not cover
  fractional intensities.
- Property order of the returned objects is not modelled. Only the key order of
  the frequency maps, which decides ties, is kept.
- `getMonthlyReport` fetches the month's logs five times: four times
  through `getDailyLogsByDateRange` and once through `getTrends`. The model assumes every fetch sees
  the same logs. `getTrends` receives its logs unsorted from `find`, while
  `getSymptomFrequency` uses only the counts' totals, which do not depend on order.
- `generateTips` receives the cycle but does not read it. `HealthReports.Tips` takes only the logs.
- `getCycleSummary` reloads the cycle by id and predicts from its owner's cycles.
  `HealthReports.GetCycleSummary` takes the cycle and that history directly.
- Controllers, DTO validation, the seed script and the other modules (activities,
  articles, pregnancy tests, tips, users) are not part of this model.
- DailyLogs.MostFrequentSymptomFallback: assumes that no physical-pain symptom is
  the empty string. With an empty-string winner the code falls through to the mood
  map; `DailyLogs.Trends` models that case and the lemma does not cover it.
- Cycles.AppendCycle: requires the month to have at least 28 days, which
  `Calendar.MonthSpan` proves for every month.
