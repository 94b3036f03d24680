# Radar NUTRS planning dashboard — a Dafny model of its core

Radar NUTRS is a dashboard for a school-meal operation. Each branch (*filial*) runs weekly cycles.
A cycle is a purchase request covering a week: it is sent, then it runs, and then it is concluded or cancelled.
Daily records carry the planned and realized meal counts. A metrics table carries the consolidated totals of each cycle.

This project models the logic that turns those rows into what the dashboard shows:

- **Planning accuracy** (`useAssertividade`, modules `Assertividade` and `AssertividadeFacts`).
  - The cycles and metric rows arrive as parameters. Cancelled cycles are dropped first.
  - Every cycle with a non-zero planned total is analysed. Its signed variance `(realized − planned) / planned × 100` puts it in one of three buckets: accurate within ±5 %, deficit above +5 %, surplus below −5 %.
  - Each deficit raises a *ruptura* alert. A surplus above 10 % raises a *desperdício* alert.
  - The waste cost of a surplus is (planned − realized) × 12.
  - Per-branch counters are kept and then rolled up. Branches are ranked by accuracy. The alerts are sorted newest first and cut to ten.
  - The loop of the hook is an imperative method (`Assertividade.Analyze` and its helpers). It threads the fleet counters, the branch map with its insertion order, and the alert list. It is proved equal to a functional specification, `ReportOf`. The properties of the report are lemmas about that specification.
- **Cycles and their derived metrics** (`useCiclos`, module `Ciclos`).
  - The status rule.
  - The metric derived from a cycle's daily records.
  - The grouping loop (`Seqs.GroupBy`), the metric-map loop, and the join of cycles with their metric and status.
- **Lifecycle phases** (module `Progress`, plus one module per view).
  - The elapsed share of a cycle's week, with "today" passed in as a day number.
  - The five-phase state machines of the calendar (`CalendarTimeline`), the pipeline (`PipelineTimeline`) and the Gantt chart (`GanttView`).
- **The calendar view** (`CalendarTimeline`).
  - The sticky branch colour cache, as a class whose map field is updated in place.
  - The interval geometry of a cycle bar.
  - Grouping the cycles by branch, then sorting the branches and each branch's cycles.
  - The zoom and navigation state, as a class with `baseDate` and `weeksToShow`.
  - The loop that builds the day strip (module `Days`).
- **The headline indicators** (`useKPIs`, module `Kpis`) and **the gauge** (`Gauge`).

Modelling choices:

- Dates are day numbers counted from 1970-01-01, which was a Thursday. Weekday 0 is Monday.
- Quantities are `int`. Percentages and money are `real`, so the arithmetic is exact.
- `Math.round` is `RoundHalfUp`, that is, floor(x + ½).
- JavaScript's stable `Array.prototype.sort` is `Seqs.SortBy`, a stable insertion sort on a real key. Descending sorts negate the key.
- A `Map`'s iteration order is carried explicitly as the sequence of keys in first-insertion order (`Seqs.Keys`).
- A query's outcome is a `Fetch`: its rows (possibly `null`) or an error. An error becomes the message of a JavaScript `Error`, or else the hook's fixed fallback text.

## Model

| member | source | states |
|---|---|---|
| Ciclos.Status | src/hooks/useCiclos.ts:5-10 | cancelled wins, then concluded (a conclusion date), then in progress (a sending date), else planning — each status stated as an if-and-only-if on the three fields |
| Ciclos.MetricFromDaily | src/hooks/useCiclos.ts:13-45 | no metric exactly when there are no records or the planned sum is 0; otherwise the planned, realized and cost totals are the sums with missing fields as 0, the id is the first record's, the branch falls back to 0, the efficiency is a whole number of hundredths within half a hundredth of realized/planned×100, and the cost per meal is cost/realized when realized > 0, else 0 |
| Ciclos.DailyTotalsConcat | src/hooks/useCiclos.ts:16-18 | the three totals are additive over concatenated record lists |
| Ciclos.EmptyRecordCountsZero | src/hooks/useCiclos.ts:16-18 | a record with every field missing adds nothing to any total |
| Ciclos.EfficiencyBounds | src/hooks/useCiclos.ts:22-33 | when 0 ≤ realized ≤ planned, the rounded efficiency lies in [0, 100] up to the rounding step |
| Seqs.GroupBy | src/hooks/useCiclos.ts:80-85 | the grouping loop yields one entry per distinct key, in first-appearance order, each holding exactly that key's elements in encounter order |
| Seqs.GroupedStep | src/hooks/useCiclos.ts:81-85 | one more `get`/`push`/`set` step keeps the grouping invariant |
| Ciclos.GroupingPartition | src/hooks/useCiclos.ts:80-85 | every record lies in the group of its own cycle id, every group holds only its id's records, and the group sizes add up to the number of records |
| Ciclos.BuildMetrics | src/hooks/useCiclos.ts:80-94 | the two loops build exactly `MetricsOf`: one metric per group whose planned sum is non-zero |
| Ciclos.MetricsKeys | src/hooks/useCiclos.ts:88-94 | a cycle id has a metric if and only if some record carries it and its group's planned sum is non-zero |
| Ciclos.MetricsOwnId | src/hooks/useCiclos.ts:88-94 | the metric stored under an id is that id's, with the group's planned sum |
| Ciclos.Lookup | src/hooks/useCiclos.ts:98 | `Map.get`: present exactly when the key is in the map, and then the stored value |
| Ciclos.Join | src/hooks/useCiclos.ts:96-100 | the joined list has the fetched cycles' length and order, and each entry carries the metric for its own request id and its status |
| Ciclos.LoadCycles | src/hooks/useCiclos.ts:68-104 | a failed cycle query or a failed daily-record query gives its error text; otherwise the result is the join of the cycles (none for `null`) with the metrics of the records |
| Assertividade.Classify | src/hooks/useAssertividade.ts:125-143 | accurate iff \|v\| ≤ 5, deficit iff v > 5, surplus iff v < −5 |
| Assertividade.SampleOf | src/hooks/useAssertividade.ts:100-107 | an analysed cycle's planned total is its metric's non-zero planned total, its realized total is the metric's or 0, and its variance is the signed percentage |
| Assertividade.NonCancelled | src/hooks/useAssertividade.ts:63 | the cancelled filter keeps exactly the non-cancelled cycles |
| Assertividade.AlertOf | src/hooks/useAssertividade.ts:135-142 | a deficit raises one rupture alert with value v, a surplus beyond 10 % one waste alert with value \|v\|, any other cycle none; each carries the branch, the request and the week start |
| Assertividade.Variances | src/hooks/useAssertividade.ts:122 | `variacoes` holds the signed variances of the branch's cycles in order |
| Assertividade.BuildMetricMap | src/hooks/useAssertividade.ts:74-78 | the loop builds `MetricMap`, where a later row replaces an earlier one with the same id |
| Assertividade.CountSample | src/hooks/useAssertividade.ts:121-165 | the classification branch updates the fleet counters, the branch record and the alert list by exactly one step of their specifications |
| Assertividade.VisitCycle | src/hooks/useAssertividade.ts:99-166 | one iteration keeps the loop invariant; a skipped cycle adds no sample, and an analysed one adds its own sample |
| Assertividade.VisitedStep | src/hooks/useAssertividade.ts:103-165 | processing one more sample keeps the loop invariant: the counters, the branch table with its insertion order, and the alerts |
| Assertividade.BranchTableStep | src/hooks/useAssertividade.ts:110-122 | initialising a branch on first sight and updating it in place keeps each branch's record equal to the counters of its own samples |
| Assertividade.BranchEntryStep | src/hooks/useAssertividade.ts:110-122 | the updated record of the current branch equals the counters of its samples, with this one included |
| Assertividade.CountersAppend | src/hooks/useAssertividade.ts:121-153 | the branch counters of a group with one more sample are one `Tally` step further |
| Assertividade.TalliesAppend | src/hooks/useAssertividade.ts:103-152 | the fleet counters of one more sample are one `Step` further |
| Assertividade.AlertsAppend | src/hooks/useAssertividade.ts:135-164 | one more sample appends exactly its own alert, if any |
| Assertividade.SamplesAppend | src/hooks/useAssertividade.ts:99-101 | one more cycle adds one sample when it has data and none otherwise |
| Assertividade.BranchListStep | src/hooks/useAssertividade.ts:170-185 | each iteration of the rollup appends the summary of the next branch's counters |
| Assertividade.RollUp | src/hooks/useAssertividade.ts:169-185 | the rollup loop produces one summary per branch, in insertion order, from that branch's counters |
| Assertividade.AnalyseCycles | src/hooks/useAssertividade.ts:74-204 | the loop, the rollup and the two sorts produce `ReportFrom` of the analysed samples |
| Assertividade.Analyze | src/hooks/useAssertividade.ts:74-204 | with the cancelled filter and the metric lookup, the result is `ReportOf` of the fetched rows |
| Assertividade.FetchAssertividade | src/hooks/useAssertividade.ts:60-72 | a failed cycle query or metric query gives its error text (or the fallback message); otherwise the report of the rows (none for `null`) |
| AssertividadeFacts.VarianceBuckets | src/hooks/useAssertividade.ts:105-143 | for a positive plan the buckets are integer conditions: accurate iff 19p ≤ 20r ≤ 21p, deficit iff 20r > 21p, surplus iff 20r < 19p |
| AssertividadeFacts.BucketsPartition | src/hooks/useAssertividade.ts:125-143 | every analysed sample falls in exactly one bucket: the three counts add up to the number of samples |
| AssertividadeFacts.ReportBuckets | src/hooks/useAssertividade.ts:103-143 | accurate + deficits + surpluses equals the number of cycles analysed |
| AssertividadeFacts.SamplesConcat | src/hooks/useAssertividade.ts:99-101 | the samples of concatenated cycle lists are concatenated |
| AssertividadeFacts.NonCancelledConcat | src/hooks/useAssertividade.ts:63 | the cancelled filter distributes over concatenation |
| AssertividadeFacts.SkippedCycleIgnored | src/hooks/useAssertividade.ts:100-101 | a cancelled cycle, or one with no metric or a missing or zero plan, leaves the whole report unchanged: no counter, no branch entry, no alert |
| AssertividadeFacts.AlertCounts | src/hooks/useAssertividade.ts:135-164 | the number of alerts is deficits plus surpluses beyond 10 %, and the rupture alerts are exactly one per deficit |
| AssertividadeFacts.AlertValues | src/hooks/useAssertividade.ts:135-164 | every rupture alert's value exceeds 5, and every waste alert's value exceeds 10 |
| AssertividadeFacts.TopAlertsNewestFirst | src/hooks/useAssertividade.ts:191-203 | the first ten of the date-sorted alerts are newest first |
| AssertividadeFacts.ReportAlerts | src/hooks/useAssertividade.ts:191-203 | the report's alerts are the first ten of a permutation of all alerts, at most ten, newest first |
| AssertividadeFacts.BranchListSizes | src/hooks/useAssertividade.ts:121-177 | the branch totals add up to the group sizes |
| AssertividadeFacts.BranchListWaste | src/hooks/useAssertividade.ts:153-183 | the branch waste costs add up to the per-group waste sums |
| AssertividadeFacts.BranchListEntries | src/hooks/useAssertividade.ts:170-185 | entry i of the rolled-up list summarises the counters of the i-th branch |
| AssertividadeFacts.ReportBranchTotals | src/hooks/useAssertividade.ts:103-183 | the branch totals sum to the number analysed, and the branch waste costs sum to the fleet waste cost |
| AssertividadeFacts.PercentBounds | src/hooks/useAssertividade.ts:179-194 | a part-over-whole percentage lies in [0, 100] |
| AssertividadeFacts.BranchSummaryConsistent | src/hooks/useAssertividade.ts:171-184 | a branch that was seen has cycles = accurate + deficits + surpluses, and an accuracy of accurate/cycles×100 in [0, 100] |
| AssertividadeFacts.ReportBranchesRanked | src/hooks/useAssertividade.ts:170-188 | each branch id appears once, and the list is non-increasing in accuracy |
| AssertividadeFacts.BranchListIdsSound | src/hooks/useAssertividade.ts:110-170 | every listed branch has an analysed cycle |
| AssertividadeFacts.BranchListIdsComplete | src/hooks/useAssertividade.ts:110-170 | every analysed cycle's branch is listed |
| AssertividadeFacts.BranchListConsistent | src/hooks/useAssertividade.ts:170-185 | every listed branch summarises its own samples and is internally consistent |
| AssertividadeFacts.RankedBranchIds | src/hooks/useAssertividade.ts:188 | ranking keeps exactly the branches of the analysed cycles |
| AssertividadeFacts.RankedConsistent | src/hooks/useAssertividade.ts:188 | ranking keeps each entry equal to its branch's summary |
| AssertividadeFacts.ReportBranchEntries | src/hooks/useAssertividade.ts:110-188 | the report lists exactly the branches of the analysed cycles, each with the summary of its own samples |
| AssertividadeFacts.ReportAccuracy | src/hooks/useAssertividade.ts:194 | the overall accuracy is accurate/analysed×100 in [0, 100], and 0 when nothing was analysed |
| AssertividadeFacts.DeficitSum | src/hooks/useAssertividade.ts:133 | the deficit sum is 0 with no deficits, and otherwise exceeds 5 per deficit |
| AssertividadeFacts.SurplusSum | src/hooks/useAssertividade.ts:147-148 | the surplus sum is 0 with no surpluses, and otherwise exceeds 5 per surplus |
| AssertividadeFacts.MeanAbove | src/hooks/useAssertividade.ts:198-200 | a mean of a total above n·lo exceeds lo |
| AssertividadeFacts.BucketMeans | src/hooks/useAssertividade.ts:198-200 | each bucket mean is 0 for an empty bucket, and otherwise above the 5 % margin |
| AssertividadeFacts.ReportMeans | src/hooks/useAssertividade.ts:133-200 | `deficitMedio` and `sobraMedio` are the means of the deficit variances and of the absolute surplus variances, 0 when the bucket is empty, above 5 otherwise |
| AssertividadeFacts.MetricMapKeys | src/hooks/useAssertividade.ts:74-78 | the lookup's keys are exactly the ids of the metric rows |
| AssertividadeFacts.MetricMapLastWins | src/hooks/useAssertividade.ts:76-77 | the lookup holds the last row with each id |
| AssertividadeFacts.MetricMapValues | src/hooks/useAssertividade.ts:74-78 | every value of the lookup is one of the rows |
| AssertividadeFacts.SamplesFrom | src/hooks/useAssertividade.ts:99-107 | every sample comes from an input cycle that has data, read off its own metric |
| AssertividadeFacts.SurplusWaste | src/hooks/useAssertividade.ts:143-153 | for a positive plan, a surplus has realized < planned and a positive waste cost |
| AssertividadeFacts.WasteNonNegative | src/hooks/useAssertividade.ts:150-153 | with positive plans, the summed waste cost is non-negative |
| AssertividadeFacts.ReportWasteNonNegative | src/hooks/useAssertividade.ts:101-153 | when no metric row has a negative plan, the fleet waste cost is non-negative |
| AssertividadeFacts.NegativePlanWaste | src/hooks/useAssertividade.ts:101-153 | as written, a plan of −10 passes the filter, counts as a surplus and gives a negative waste cost (−120) |
| Seqs.SortBy | src/hooks/useAssertividade.ts:188 | the sort keeps the length and is a permutation |
| Seqs.SortBySorted | src/hooks/useAssertividade.ts:188-191 | the sort's result is ordered by the key |
| Seqs.SortByStable | src/hooks/useAssertividade.ts:191 | the sort is stable: elements with equal keys keep their relative order |
| Seqs.SortByElements | src/hooks/useAssertividade.ts:188 | the sort keeps exactly the same elements |
| Seqs.SortByDistinctBy | src/hooks/useAssertividade.ts:188 | sorting keeps distinct ids distinct |
| Seqs.Take | src/hooks/useAssertividade.ts:203 | `slice(0, n)`: the first min(n, length) elements |
| Seqs.MeanBounds | src/hooks/useAssertividade.ts:171-173 | the mean of values within [lo, hi] lies within [lo, hi] |
| Progress.ElapsedPercent | src/components/CalendarTimeline.tsx:88-90 | the elapsed percentage lies in [0, 100], is 0 up to the first day and 100 after the last |
| Progress.GanttElapsedPercent | src/components/GanttView.tsx:67-73 | with the elapsed days clamped to the week, the percentage lies in [0, 100] |
| Progress.ElapsedPercentsAgree | src/components/GanttView.tsx:72-73 | the Gantt chart's clamp-then-divide percentage equals the calendar's and the pipeline's divide-then-cap percentage on every day |
| Progress.ElapsedPercentMonotone | src/components/PipelineTimeline.tsx:33-35 | the elapsed percentage never decreases as the days go by |
| Progress.CurrentPhase | src/components/PipelineTimeline.tsx:65 | the current phase is progressoGeral div 20, in 0..5 |
| Progress.Cap100 | src/components/PipelineTimeline.tsx:69-72 | `Math.min(100, x)` is at most 100 and is x or 100 |
| Numbers.RoundHalfUp | src/components/GanttView.tsx:73 | `Math.round` lies within half a unit of its argument |
| Numbers.RoundMonotone | src/components/CalendarTimeline.tsx:90 | rounding is monotone |
| Numbers.RoundTo | src/hooks/useCiclos.ts:33 | rounding to 1/scale gives a whole number of 1/scale steps within half a step of its argument |
| PipelineTimeline.PipelinePhases | src/components/PipelineTimeline.tsx:29-84 | always five phases in the fixed order, each progress in [0, 100] |
| PipelineTimeline.CancelledPhases | src/components/PipelineTimeline.tsx:43-51 | cancellation wins: the request is completed at 100, the rest are pending at 0 |
| PipelineTimeline.ConcludedPhases | src/components/PipelineTimeline.tsx:39-61 | a concluded, non-cancelled cycle has every phase completed at 100 |
| PipelineTimeline.ActiveCyclePhases | src/components/PipelineTimeline.tsx:63-73 | in progress: the request is completed, phase k (1..3) is completed iff the current phase ≥ k, and closing is never completed and is ongoing iff the current phase ≥ 4 |
| PipelineTimeline.PlanningPhases | src/components/PipelineTimeline.tsx:76-83 | in planning, the request is completed/100 iff sent and otherwise ongoing/50; the rest are pending/0 |
| PipelineTimeline.PhasesInOrder | src/components/PipelineTimeline.tsx:43-83 | in every case statuses never rise along the phases, and at most one phase is in progress |
| PipelineTimeline.ActivePhasesInOrder | src/components/PipelineTimeline.tsx:63-73 | the in-progress shape is completed up to the current phase, with at most one phase ongoing |
| PipelineTimeline.WithStatusMembers | src/components/PipelineTimeline.tsx:232-234 | the status filter keeps exactly the cycles with that status |
| PipelineTimeline.StatusesPartition | src/components/PipelineTimeline.tsx:232-234 | the four status filters together are as long as the list |
| PipelineTimeline.BucketsOf | src/components/PipelineTimeline.tsx:232-267 | active and planning are the exact filters, the concluded list is the first 5 of its filter, and the planning cards are the first 6 |
| PipelineTimeline.BucketsSound | src/components/PipelineTimeline.tsx:232-267 | bucket membership matches the status, every shown card comes from the input, and no cycle is in two buckets |
| CalendarTimeline.Assign | src/components/CalendarTimeline.tsx:76-81 | a cached branch keeps its colour; a new one gets `FILIAL_COLORS[index mod 20]`; no other entry changes |
| CalendarTimeline.BranchColors.constructor | src/components/CalendarTimeline.tsx:73 | the colour cache starts empty |
| CalendarTimeline.BranchColors.GetColor | src/components/CalendarTimeline.tsx:76-81 | the cache becomes `Assign` of the old one, and the returned colour is the cached one, the first colour ever given when the branch was seen before |
| CalendarTimeline.BranchColors.ColorAll | src/components/CalendarTimeline.tsx:418-419 | colouring the rows in order leaves the cache at `ColorRows` and returns each row's colour |
| CalendarTimeline.ColorRowsStep | src/components/CalendarTimeline.tsx:418-419 | colouring one more row is one more `getFilialColor` call |
| CalendarTimeline.RowColorsFinal | src/components/CalendarTimeline.tsx:418-419 | each row shows the colour its branch has in the final cache |
| CalendarTimeline.ColorsSticky | src/components/CalendarTimeline.tsx:77-80 | a colour once assigned never changes, whatever indexes later calls pass |
| CalendarTimeline.ColorRowsKeys | src/components/CalendarTimeline.tsx:76-81 | the cache holds exactly the earlier branches and the coloured ones |
| CalendarTimeline.FreshColors | src/components/CalendarTimeline.tsx:418-419 | starting from an empty cache with distinct branches, row i gets `FILIAL_COLORS[i mod 20]` |
| CalendarTimeline.PaletteIndex | src/components/CalendarTimeline.tsx:49-70 | the palette lists twenty distinct colours |
| CalendarTimeline.FreshColorsDistinct | src/components/CalendarTimeline.tsx:49-81 | with at most twenty distinct branches on a fresh cache, no two rows share a colour |
| CalendarTimeline.ByIndex | src/components/CalendarTimeline.tsx:97-122 | five phases in the fixed order, with statuses given by position |
| CalendarTimeline.CalendarPhases | src/components/CalendarTimeline.tsx:84-123 | always five phases in the order request, order, receiving, production, closing |
| CalendarTimeline.NotUnderwayPhases | src/components/CalendarTimeline.tsx:105-110 | cancelled or not started: phase 0 is completed iff sent and otherwise ongoing; phases 1-4 are pending |
| CalendarTimeline.ConcludedPhases | src/components/CalendarTimeline.tsx:93-113 | a concluded, non-cancelled cycle has all five phases completed |
| CalendarTimeline.UnderwayPhases | src/components/CalendarTimeline.tsx:88-122 | underway: phases before the current one are completed, the current one is ongoing, later ones are pending |
| CalendarTimeline.PhasesInOrder | src/components/CalendarTimeline.tsx:105-122 | in every case, completed phases form a prefix and at most one phase is in progress |
| CalendarTimeline.CyclePosition | src/components/CalendarTimeline.tsx:268-280 | left ≥ 0, width ≥ the day width, and visible iff the cycle's days overlap the shown range |
| CalendarTimeline.PositionGeometry | src/components/CalendarTimeline.tsx:272-277 | left is the day offset times the day width (0 before the range); the width of a multi-day cycle is its days times the day width, minus 4 |
| CalendarTimeline.Entries | src/components/CalendarTimeline.tsx:247-257 | one map entry per branch, in first-appearance order, holding that branch's cycles |
| CalendarTimeline.GroupByBranch | src/components/CalendarTimeline.tsx:247-265 | the memo's loop, entry sort and per-branch sort compute `BranchRows` |
| CalendarTimeline.EntriesDistinct | src/components/CalendarTimeline.tsx:248-257 | each branch id has one entry |
| CalendarTimeline.RowsAscending | src/components/CalendarTimeline.tsx:257-258 | the branch rows are strictly ascending by id |
| CalendarTimeline.RowIsGroup | src/components/CalendarTimeline.tsx:259-264 | each row holds its branch's cycles, sorted |
| CalendarTimeline.RowCyclesSorted | src/components/CalendarTimeline.tsx:261-263 | each row's cycles are ascending by week start and belong to that branch |
| CalendarTimeline.RowsCover | src/components/CalendarTimeline.tsx:247-265 | every input cycle appears in its branch's row, and every row cycle is an input cycle |
| CalendarTimeline.CalendarView.constructor | src/components/CalendarTimeline.tsx:215-219 | the view starts four weeks wide, at the Monday of last week |
| CalendarTimeline.CalendarView.ZoomIn | src/components/CalendarTimeline.tsx:313 | one week fewer, never below 2; the start date is unchanged |
| CalendarTimeline.CalendarView.ZoomOut | src/components/CalendarTimeline.tsx:321 | one week more, never above 8; the start date is unchanged |
| CalendarTimeline.CalendarView.Previous | src/components/CalendarTimeline.tsx:289 | moves back exactly `weeksToShow` weeks |
| CalendarTimeline.CalendarView.Next | src/components/CalendarTimeline.tsx:290 | moves forward exactly `weeksToShow` weeks |
| CalendarTimeline.CalendarView.ScrollToToday | src/components/CalendarTimeline.tsx:283-286 | returns to the Monday of last week, keeping the zoom |
| CalendarTimeline.CalendarView.DayStrip | src/components/CalendarTimeline.tsx:227-244 | `weeksToShow × 7` consecutive days from the start, a week starting exactly at every seventh column |
| CalendarTimeline.CalendarView.Position | src/components/CalendarTimeline.tsx:268-280 | the bar of a cycle in the current view |
| CalendarTimeline.TodayOnStrip | src/components/CalendarTimeline.tsx:283-286 | after scrolling to today, today is on the strip at every zoom level |
| Days.Weekday | src/components/CalendarTimeline.tsx:238-239 | the weekday lies in 0..6 |
| Days.StartOfWeek | src/components/CalendarTimeline.tsx:217 | the Monday on or before the day, less than a week earlier |
| Days.Cells | src/components/GanttView.tsx:75-88 | n cells, cell i for day start + i |
| Days.GenerateDays | src/components/CalendarTimeline.tsx:228-243 | the push loop yields the cells of the first `count` days, none for a non-positive count |
| Days.CellsConsecutive | src/components/GanttView.tsx:77-78 | cell i is day start + i, so the days are consecutive |
| Days.TodayMarkedOnce | src/components/CalendarTimeline.tsx:237 | exactly one cell is today when today is in the strip, and none otherwise |
| Days.WeekdayNext | src/components/CalendarTimeline.tsx:239 | the weekday advances by one each day, wrapping from Sunday to Monday |
| Days.WeekdayShift | src/components/CalendarTimeline.tsx:289-290 | shifting by whole weeks keeps the weekday |
| Days.WeekStartsInStrip | src/components/CalendarTimeline.tsx:239 | in a strip that starts on a Monday, weeks start exactly at multiples of 7 |
| GanttView.GanttProgress | src/components/GanttView.tsx:67-73 | `progressoGeral` lies in [0, 100] and equals the calendar's percentage |
| GanttView.DayStrip | src/components/GanttView.tsx:75-88 | exactly `totalDias` cells, cell i for week start + i, none for an empty week |
| GanttView.Phases | src/components/GanttView.tsx:90-171 | five phases in the order planning, shopping, prep, production, closing, each progress in [0, 100] |
| GanttView.ChartPhases | src/components/GanttView.tsx:67-171 | the chart's phases are `Phases` at the elapsed percentage of the week |
| GanttView.ConcludedChart | src/components/GanttView.tsx:103-167 | a concluded cycle has every phase completed at 100, and every subtask after planning too |
| GanttView.PlanningBar | src/components/GanttView.tsx:103-104 | planning is completed/100 iff sent, active or concluded, and otherwise ongoing/50 |
| GanttView.PlanningSubtasks | src/components/GanttView.tsx:106-108 | the planning subtasks are completed at 100 exactly when the cycle was sent |
| GanttView.LateBarsWait | src/components/GanttView.tsx:134-164 | prep progress is 0 unless concluded, or active at ≥ 40 %; closing progress is 0 exactly unless concluded |
| GanttView.MealSubtasks | src/components/GanttView.tsx:151-153 | before conclusion each meal subtask shows the realized share rounded to within ½, over a divisor of at least 1 |
| GanttView.Layout | src/components/GanttView.tsx:101-167 | every subtask lies within its phase's span, the phases start in order, and the chart spans days 0 to 7 |
| GanttView.StatusesDescend | src/components/GanttView.tsx:103-163 | a later phase is never further along than an earlier one |
| Kpis.Positives | src/hooks/useKPIs.ts:42-48 | the filter keeps only strictly positive values |
| Kpis.PositivesMembers | src/hooks/useKPIs.ts:42-48 | a value is kept iff it is positive and some row carries it |
| Kpis.PositivesNone | src/hooks/useKPIs.ts:42-48 | with no positive values the filtered list is empty |
| Kpis.SumListPositive | src/hooks/useKPIs.ts:44-50 | a non-empty list of positive values has a positive sum and mean |
| Kpis.ComputeKpis | src/hooks/useKPIs.ts:38-65 | the counts (missing as 0), the meal totals, the mean efficiency as a whole number of tenths within half a tenth of the exact mean, the mean cost as a whole number of hundredths within half a hundredth of the exact mean, and the number and sum of the additions |
| Kpis.NoRowsNoTotals | src/hooks/useKPIs.ts:38-54 | with no rows, every count, total and sum is 0 and both reported means are 0 |
| Kpis.MeanEfficiencyOfPositives | src/hooks/useKPIs.ts:42-44 | with positive efficiencies present, the mean is theirs and lies in (0, hi] for any upper bound hi of the data |
| Kpis.MeanEfficiencyFallback | src/hooks/useKPIs.ts:45 | with no positive efficiency, the mean is realized/planned×100, or 0 without a positive plan |
| Kpis.MeanCostSign | src/hooks/useKPIs.ts:48-51 | the mean cost is positive when any reference cost is, and 0 when none is |
| Gauge.Clamp | src/components/Gauge.tsx:20 | the clamped value lies in [0, 100] and equals the value when in range |
| Gauge.Angle | src/components/Gauge.tsx:23 | the needle angle lies in [−90, 90], −90 at or below 0 and 90 at or above 100 |
| Gauge.Color | src/components/Gauge.tsx:26-30 | red iff clamped < danger, amber iff danger ≤ clamped < warning, green otherwise |
| Gauge.DashLength | src/components/Gauge.tsx:67 | the dash length lies in [0, 251.2] |
| Gauge.ClampMonotone | src/components/Gauge.tsx:20 | clamping is monotone and idempotent |
| Gauge.NeedleMatchesArc | src/components/Gauge.tsx:23-67 | the needle and the arc show the same share, and reach their ends together |
| Gauge.HigherIsBetter | src/components/Gauge.tsx:23-67 | a higher value never lowers the angle, the arc or the colour band |
| Gauge.DefaultBands | src/components/Gauge.tsx:17-30 | with the default thresholds 70 and 85, the bands are red below 70, amber to 85, and green above |

## Left out

- The database queries are not modelled. Their rows are parameters, taken in the order and number the query returns: the `order`/`limit`/`filial_id` filters of `useCiclos` and the sort of `useAssertividade`. The cancelled filter that the analysis query applies is modelled as the explicit first step, `NonCancelled`. A failed query is an abstract `DbError`.
- React state, effects, loading and error flags, JSX, styling, and the components that only display data are not modelled.
- date-fns is replaced by day numbers: parsing, time zones, `format` labels and the month-start flag. "Today" is a parameter.
- A date read as a truthy string is modelled as a present `Option`. An empty-string date, which is falsy in JavaScript, is not distinguished from a real date.
- The alert message strings, the `calculated_at` timestamp, IEEE floating point, and the gauge's trigonometric markers (Gauge.tsx lines 72-89) are not modelled.
- Reconciling the metrics table with the metrics derived from daily records is not modelled; no code relates the two.
- Progress.ElapsedPercent: requires `weekStart <= weekEnd`. For an empty or inverted week the source divides by zero or by a negative day count, and JavaScript yields `Infinity` or `NaN`, which the model does not represent.
- Progress.GanttElapsedPercent: requires `weekStart <= weekEnd`, for the same reason.
- GanttView.GanttProgress: requires `weekStart <= weekEnd`, for the same reason.
- GanttView.ChartPhases: requires `weekStart <= weekEnd`, for the same reason. `Phases` itself takes any percentage.
- PipelineTimeline.PipelinePhases: requires a valid week only when the percentage is read, which happens for an active cycle.
- CalendarTimeline.CalendarPhases: requires a valid week only when the percentage is read, which happens for an underway cycle that is not concluded.
- Ciclos.MetricFromDaily: states the efficiency as a whole number of hundredths within half a hundredth of the exact value (which fixes it uniquely, halves rounding up); where the IEEE double representation of the quotient falls on the other side of a half-hundredth is not captured.
- Kpis.ComputeKpis: states the rounded means as whole numbers of rounding steps within half a step of the exact means (which fixes them uniquely); IEEE representation error near a half step is not captured, for the same reason.
- AssertividadeFacts.ReportWasteNonNegative: requires that no metric row has a negative planned total. The code excludes only a missing or zero plan, so a negative plan is analysed as written; `NegativePlanWaste` exhibits the negative cost that follows.
- GanttView.DayStrip: its cells carry a first-of-week flag that the Gantt chart's day objects do not have. The flag is shared with the calendar and is never read for the chart.
- The in-place `sort` calls and the in-place `push` onto the grouped arrays are modelled on values (`SortBy`, map updates). Aliasing between the grouping `Map` and the sorted arrays is not modelled.
- `Map` iteration order is carried as an explicit sequence of keys in first-insertion order, because Dafny's `map` has no order.
