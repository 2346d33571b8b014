# Carbon-aware FinOps dashboard: a Dafny model of its cost pipeline

The dashboard shows what each Kubernetes namespace (or pod, or node) costs, from
Prometheus metrics. This project models its core and proves properties of it:

- **`fetchPrometheusHistory`** turns two range queries (CPU core-seconds and
  memory bytes) into daily cost rows, in five stages:
  1. it resolves the `window` and `step` parameters;
  2. it prices every (timestamp, key) pair with non-zero usage;
  3. it backfills the days of the window that have no real row with
     simulated rows;
  4. it stably sorts the rows by date;
  5. for "Entire window" requests, it collapses them into one summed row per key.
- **`fetchPrometheusMetrics`** turns three instant queries into one
  energy/carbon/cost entry per namespace, plus an "(Idle)" entry for unused
  cores.
- **`/api/metrics` and `/api/cost-allocation`** are the routes around these
  two functions. `/api/metrics` falls back to a mock list. `/api/cost-allocation`
  sets the defaults for the query string.
- **Two deployments.** Everything above runs on two copies of the service:
  - the long-running local Express server, `backend/src/index.ts`, written
    `LocalServer` in the model;
  - the serverless function, `api/index.ts`, written `Serverless`.

  Each stage is modelled once, with a `Variant` parameter where the copies
  differ.
- **The allocation table** (`AllocationTable.tsx`):
  - it groups rows by key and sums them;
  - it orders them by total, descending;
  - it pages them ten at a time, with clamped `<` and `>` buttons.
- **The allocation chart** (`AllocationChart.tsx`):
  - it pivots rows by date;
  - it has one bar series per key, in first-seen order;
  - it has the x-axis tick formatter and the eight-colour palette.
- **The client** (`opencostApi.ts`): the base URL and the query parameters it
  sends.

Modules and their files:

| module | file | models |
|---|---|---|
| `Money` | money.dfy | `parseFloat(x.toFixed(n))` on exact reals |
| `Records` | records.dfy | insertion-ordered JavaScript objects |
| `Sorting` | sorting.dfy | the stable sort |
| `Costs` | costs.dfy | the `DailyCost` row and group-by-key sums |
| `Window` | window.dfy | parameter resolution |
| `Series` | series.dfy | range-query results (`PromSeries`) and the lookups over them |
| `Materialise` | materialise.dfy | real rows |
| `Backfill` | backfill.dfy | simulated rows |
| `Accumulate` | accumulate.dfy | "Entire window" |
| `History` | history.dfy | the whole history pipeline |
| `Metrics` | metrics.dfy | `fetchPrometheusMetrics` |
| `Routes` | routes.dfy | the two handlers |
| `AllocationTable` | allocation_table.dfy | the table |
| `AllocationChart` | allocation_chart.dfy | the chart |
| `Client` | client.dfy | the client |

The model works on values, except where the source changes state step by step:

- **Loops become methods.** Each loop that fills a record or a list is a method
  with a `while` loop:
  - `Materialise.Materialise` and `Backfill.Backfill`;
  - `Accumulate.Aggregate` and `Metrics.CpuPass`;
  - `AllocationTable.Aggregate` and `AllocationChart.Transform`.

  Each method is proved equal to a specification function. The properties the
  code promises are lemmas about that function.
- **The table's page is a class.** Its state is a `Pager` object whose methods
  are the button clicks.

## Model

| member | source | states |
|---|---|---|
| Money.Round4 | backend/src/index.ts:109-113 | `toFixed(4)` then `parseFloat` moves an amount by at most half of 0.0001 and keeps it non-negative |
| Money.Round4Idempotent | backend/src/index.ts:185-192 | rounding an already rounded amount again leaves it unchanged |
| Money.Round4Monotone | backend/src/index.ts:109-113 | rounding never reverses the order of two amounts |
| Money.Round4Exact | backend/src/index.ts:109-113 | an amount with at most four decimals is unchanged |
| Money.Round2 | backend/src/index.ts:284-285 | `toFixed(2)` then `parseFloat` moves an amount by at most 0.005 and keeps it non-negative |
| Money.Round2Idempotent | backend/src/index.ts:259-264 | rounding twice to two decimals is rounding once |
| Money.Round2Monotone | backend/src/index.ts:284-285 | two-decimal rounding is monotone |
| Money.Round2Exact | backend/src/index.ts:284-285 | an amount with at most two decimals is unchanged |
| Records.Record.Put | backend/src/index.ts:166-181 | assigning to an object key: a new key is appended to the key order and an existing key keeps its place; the value map is updated at that key |
| Records.Record.Values | backend/src/index.ts:185 | `Object.values` lists the values in key-insertion order |
| Records.DistinctCard | backend/src/index.ts:163-182 | a key list without repeats has as many entries as distinct keys |
| Records.KeysInOrder | backend/src/index.ts:163-182 | the key order lists exactly the keys that hold values |
| Sorting.SortBy | backend/src/index.ts:159 | the sort returns an ordered permutation of its input for any total-preorder comparator |
| Sorting.InsertSorted | backend/src/index.ts:159 | inserting into an ordered sequence keeps it ordered |
| Sorting.SortStable | backend/src/index.ts:159 | the sort is stable: the elements tied with any value keep their original relative order |
| Sorting.InsertTied | backend/src/index.ts:159 | insertion puts an element before all the elements it ties with |
| Costs.RowsOf | frontend/src/components/AllocationTable.tsx:17-26 | a key's rows are exactly the rows carrying that key |
| Costs.KeysOf | frontend/src/components/AllocationChart.tsx:16-29 | the distinct keys are listed once each, and exactly the keys some row carries |
| Costs.TallyKeys | frontend/src/components/AllocationTable.tsx:17-20 | the per-key record's keys are the distinct keys in first-seen order |
| Costs.TallyIsSumOfKey | frontend/src/components/AllocationTable.tsx:21-25 | each key's running totals are the field sums over that key's rows |
| Costs.GrandTotalIsSumOfTallies | frontend/src/components/AllocationTable.tsx:27-31 | the global totals equal the sum of all the per-key totals |
| Costs.SumRowsPerm | backend/src/index.ts:159 | field sums do not depend on row order, so sorting does not change them |
| Costs.RowsOfPerm | backend/src/index.ts:159 | reordering the rows reorders each key's rows the same way |
| Costs.RowsOfAppend | frontend/src/components/AllocationTable.tsx:17-26 | a key's rows of two concatenated lists are its rows of the first followed by its rows of the second |
| Costs.RowsOfAbsent | frontend/src/components/AllocationTable.tsx:17-26 | a key that no row carries selects no rows |
| Costs.SumRowsAppend | frontend/src/components/AllocationTable.tsx:17-32 | the sum over two concatenated lists is the sum of the two sums |
| Window.DigitIn | backend/src/index.ts:41 | a digit of base `radix` has a value below `radix`; in base 10 the digits are exactly `0`-`9` |
| Window.DigitRun | backend/src/index.ts:41 | `parseInt` reads the leading run of digits of the chosen base, which is followed by a non-digit or by nothing |
| Window.TrimStart | backend/src/index.ts:41 | the leading white space is removed, and what is left does not start with white space |
| Window.ShowNat | backend/src/index.ts:41 | a decimal numeral is a non-empty run of digits, starting with `0` only for zero |
| Window.ValueShow | backend/src/index.ts:41 | the numeral of `n` reads back as `n` |
| Window.ParseIntShow | backend/src/index.ts:41 | `parseInt` recovers `n` from its numeral followed by text that does not continue it: not a digit, and after `0` not an `x` or `X` |
| Window.ParseIntSkipsSpace | backend/src/index.ts:41 | leading white space does not change what `parseInt` reads |
| Window.ParseIntSign | backend/src/index.ts:41 | a leading `+` changes nothing and a leading `-` negates the number; NaN stays NaN |
| Window.ParseIntHexAndNaN | backend/src/index.ts:41 | `0x3c` reads as 60 in base 16; `0x`, the empty text and `abc` read as NaN |
| Window.DefaultStepParses | backend/src/index.ts:41 | the daily default step `86400` reads as 86400 |
| Window.DefaultStepVariantsParse | backend/src/index.ts:41 | `86400s` and ` 86400` also read as 86400 |
| Window.ResolveWindow | backend/src/index.ts:40-48 | the span is `requiredDays` buckets (24 hourly for `24h`; 30 or 7 daily); the range is `1h` exactly for `24h`; the step is 3600 only for `24h` with the literal `86400`, else `parseInt(step)`, which may be NaN |
| Window.UnknownWindowIsWeek | backend/src/index.ts:40-48 | any window other than `24h` and `30d` resolves as `7d` |
| Window.HourlyOverrideIsTextual | backend/src/index.ts:45 | the hourly override compares text: `86400` becomes 3600, but `86400s` and ` 86400` keep 86400 |
| Series.FindSeries | backend/src/index.ts:73 | returns the first series with the label, or none when no series has it |
| Series.FindPoint | backend/src/index.ts:75 | returns the first sample at the timestamp, or none |
| Series.FindValue | backend/src/index.ts:72-77 | a non-zero value is the value of a sample at that timestamp in a series with that label; with no series so labelled the value is 0 |
| Series.FindValueFirst | backend/src/index.ts:72-77 | for the first series with the label, the value is that of its first sample at the timestamp, or 0 when it has none; later series with the same label are never read |
| Series.FirstSeriesShadowsLater | backend/src/index.ts:73-75 | a later series with the same label is never consulted, even when the first has no sample at the timestamp |
| Series.ObservedKeys | backend/src/index.ts:83-84 | the keys are the truthy labels of the CPU series, once each |
| Series.AddTimes | backend/src/index.ts:85 | adding a series' timestamps to the set keeps it duplicate-free and adds exactly those timestamps |
| Series.ObservedTimes | backend/src/index.ts:83-86 | the timestamps are those of every CPU sample, once each |
| Series.CollectKeysAndTimes | backend/src/index.ts:80-86 | the `forEach` fills exactly the key set and the timestamp set |
| Series.SortedTimes | backend/src/index.ts:88 | the timestamps sorted ascending, as a permutation |
| Materialise.Materialise | backend/src/index.ts:88-117 | the nested loops push exactly the real rows, in timestamp-then-key order |
| Materialise.PushRowsAt | backend/src/index.ts:91-116 | one timestamp's pass appends that timestamp's billable rows |
| Materialise.RealRowsSound | backend/src/index.ts:105-115 | every real row is the priced row of an observed (timestamp, key) pair with positive cost |
| Materialise.RealRowsComplete | backend/src/index.ts:105-115 | every observed pair with positive cost gets its row |
| Materialise.RealRowsSorted | backend/src/index.ts:88-89 | when the timestamps ascend, the real rows ascend by date |
| Materialise.RowTotalNearSum | backend/src/index.ts:109-113 | gpu and pv are 0; the total is within 0.00015 of cpu plus ram |
| Materialise.TotalIsNotSumOfRounded | backend/src/index.ts:109-113 | the total is rounded from unrounded parts, so it can differ from the sum of the rounded parts |
| Backfill.ActiveKeys | backend/src/index.ts:125 | the observed keys if there are any; otherwise the three defaults; never empty |
| Backfill.WindowDays | backend/src/index.ts:127-132 | the loop visits the `requiredDays` days ending today, oldest first |
| Backfill.DatesOf | backend/src/index.ts:122 | `existingDates` is exactly the set of the dates of the rows before the loop |
| Backfill.AppendDay | backend/src/index.ts:137-154 | one missing day appends one synthetic row per active key |
| Backfill.Backfill | backend/src/index.ts:127-156 | the loop appends the synthetic rows of the missing days after the real rows |
| Backfill.NoBackfillFor24h | backend/src/index.ts:136 | a `24h` window never gets synthetic rows |
| Backfill.SyntheticSound | backend/src/index.ts:136-154 | a synthetic row is dated on a window day with no real row, carries an active key, and is built from a draw |
| Backfill.SyntheticCovers | backend/src/index.ts:136-154 | every missing day gets a row for every active key |
| Backfill.SyntheticCountAllMissing | backend/src/index.ts:127-156 | with every day missing there are days times keys synthetic rows |
| Backfill.RowsForDaySound | backend/src/index.ts:137-154 | a row of a missing day is that day's row for one of the keys |
| Backfill.RowsForDayComplete | backend/src/index.ts:137-154 | every key gets a row on a missing day |
| Backfill.RowsForDayLength | backend/src/index.ts:137-154 | a missing day gets exactly one row per key |
| Backfill.SyntheticRowBounds | backend/src/index.ts:139-152 | with a draw in [0.8, 1.2): cpu is within 0.56 to 0.84 of the base cost; ram within 0.24 to 0.36; the total within 0.8 to 1.2 and equal to the rounded sum of the parts; gpu and pv are 0 |
| Backfill.KubeSystemBounds | backend/src/index.ts:139-143 | the concrete band of `kube-system` rows (base cost 0.05) |
| Backfill.OtherKeyBounds | backend/src/index.ts:139-143 | the concrete band of other keys' rows (base cost 0.02) |
| Backfill.SyntheticKeySums | backend/src/index.ts:127-154 | when every day is missing, a key's synthetic rows sum to no GPU or storage cost and a total between 0.8 and 1.2 times its base cost per day |
| Backfill.SyntheticKeyHead | backend/src/index.ts:127-154 | a missing first day adds exactly that day's row to a key's sums over the later days |
| Backfill.RowsOfDay | backend/src/index.ts:137-154 | with distinct keys, a missing day gives each key exactly one row |
| Backfill.WeekKeySums | backend/src/index.ts:127-154 | a fully backfilled week gives each default key a total between 0.8 and 1.2 times seven days of its base cost |
| Backfill.WeekTotalRounded | backend/src/index.ts:185-192 | rounding the week's sums to four decimals keeps that band and keeps zero GPU and storage costs |
| Backfill.BandRound | backend/src/index.ts:142-143 | rounding keeps a drawn amount between the rounded ends of its band |
| Accumulate.Aggregate | backend/src/index.ts:163-182 | the `forEach` builds the `aggregated` record of the specification |
| Accumulate.FinishAll | backend/src/index.ts:185-192 | the final `map` rounds each accumulator, keeping length and order |
| Accumulate.Accumulate | backend/src/index.ts:161-193 | the accumulate step as written equals its specification |
| Accumulate.Fold | backend/src/index.ts:165-182 | the `aggregated` record is a well-formed ordered record |
| Accumulate.FoldOrder | backend/src/index.ts:165-176 | `aggregated` has the keys of the rows in first-seen order |
| Accumulate.FoldValue | backend/src/index.ts:177-181 | each key's accumulator holds the field sums of that key's rows, on top of its seed |
| Accumulate.AccumulatedAt | backend/src/index.ts:185-192 | the i-th output row is the rounded accumulator of the i-th distinct key |
| Accumulate.AccumulatedLocal | backend/src/index.ts:161-193 | local server: one row per distinct key in first-seen order, dated `Total (<window>)`, each field the rounded sum of that key's rows |
| Accumulate.AccumulatedServerless | api/index.ts:115-131 | serverless: the same, except that gpu and pv are copied from the key's first row instead of summed |
| History.FetchHistory | backend/src/index.ts:37-201 | the pipeline stage by stage equals its specification; it gives [] when unconfigured (serverless), when the step is NaN or not positive (Prometheus refuses the query), when a query fails, or when a timestamp cannot be turned into a date |
| History.RowDateLeTotalPreorder | backend/src/index.ts:159 | comparing dates with `localeCompare` is a total preorder |
| History.DailyOrdered | backend/src/index.ts:159 | the daily answer is date-ordered, a permutation of the real rows then the synthetic rows, and stable among rows of the same date |
| History.InDaily | backend/src/index.ts:106-159 | a row is in the daily answer exactly when it is a real row or a synthetic one |
| History.EveryWindowDayCovered | backend/src/index.ts:119-156 | except for `24h`, every day of the window has at least one row in the daily answer |
| History.CoverageIsPerDate | backend/src/index.ts:122-136 | a day with any real row gets no synthetic rows, so a key missing on that day stays missing |
| History.HourlyWindowIsRealOnly | backend/src/index.ts:136 | a `24h` answer is a reordering of the real rows alone |
| History.NoSeriesWeek | backend/src/index.ts:125-156 | with no CPU series, a `7d` answer has 21 rows: the three default keys on each of the last seven days |
| History.NoSeriesWeekEntireWindow | backend/src/index.ts:125-193 | local server, no CPU series, `7d`, "Entire window": exactly three rows, one per default key, dated `Total (7d)`, with no GPU or storage cost and a total between 0.8 and 1.2 times seven days of the key's base cost |
| History.WeekAccumulated | backend/src/index.ts:161-193 | accumulating a daily list whose keys and per-key sums are those of a fully backfilled week gives those three rows |
| History.NoSeriesDailyKeys | backend/src/index.ts:83-156 | with no CPU series and a window other than `24h`, the daily list carries exactly the default keys |
| History.NoSeriesUnsorted | backend/src/index.ts:106-156 | with no CPU series, the rows before the sort are the backfill of every window day for the default keys |
| History.EntireWindowSumsDailyRows | backend/src/index.ts:161-193 | the "Entire window" answer is the accumulate step applied to the daily answer, whose per-key sums equal those of the unsorted rows |
| Metrics.CpuMap | backend/src/index.ts:229-250 | the CPU pass yields a well-formed ordered record |
| Metrics.IdleCores | backend/src/index.ts:253 | idle cores are non-negative, at least capacity minus allocated, and equal to one of 0 and that difference |
| Metrics.AfterIdle | backend/src/index.ts:252-265 | the record after the idle step stays well formed |
| Metrics.MemMap | backend/src/index.ts:268-280 | the memory pass keeps the record well formed |
| Metrics.Built | backend/src/index.ts:219-280 | the record before the final map is well formed |
| Metrics.CpuPass | backend/src/index.ts:229-250 | the CPU `forEach` builds the specified record and sums the allocated cores |
| Metrics.MemoryPass | backend/src/index.ts:268-280 | the memory `forEach` builds the specified record |
| Metrics.FinishAll | backend/src/index.ts:282-287 | the final `map` rounds energy and carbon to 2 decimals and cost to 4, keeping order |
| Metrics.FetchMetrics | backend/src/index.ts:205-293 | as written equals its specification; it gives [] when the function returns early or a query fails |
| Metrics.CpuMapEntry | backend/src/index.ts:229-250 | a key has an entry exactly when some CPU sample reports it; the entry holds 4 W, 475 g/kWh and $0.05 per summed core |
| Metrics.CpuEntryStep | backend/src/index.ts:236-249 | adding a sample's cores to an entry is the entry of the summed cores |
| Metrics.MemMapEntry | backend/src/index.ts:268-280 | the memory pass adds $0.005 per GB to each key's cost and creates entries for keys with memory but no CPU |
| Metrics.MemMapKeys | backend/src/index.ts:276-278 | after the memory pass a key has an entry exactly when it had one before or a memory sample reports it |
| Metrics.MemMapValue | backend/src/index.ts:279 | a key's entry after the memory pass is its entry before plus the cost of its summed bytes |
| Metrics.ReportsSnoc | backend/src/index.ts:229-230 | a key is reported by the samples exactly when an earlier sample or the last sample reports it |
| Metrics.KeyEntry | backend/src/index.ts:229-280 | an ordinary key is present iff CPU reports it (or memory does, local server only), with the energy, carbon and cost of its cores plus, locally, its memory cost |
| Metrics.IdleEntry | backend/src/index.ts:252-265 | "(Idle)" is present exactly when capacity exceeds allocated cores, and is reported as 2 W per idle core with the core price, rounded once |
| Metrics.IdleStored | backend/src/index.ts:253-264 | the stored "(Idle)" entry is the idle row of the idle cores, present exactly when they are positive |
| Metrics.IdleRounding | api/index.ts:174-188 | rounding the idle entry on storage (local server) and again on output is the same as rounding once (serverless) |
| Metrics.BuiltKeeps | backend/src/index.ts:244-279 | a key of the CPU pass, or "(Idle)" once stored, is still present at the end |
| Metrics.BytesOfUnreported | backend/src/index.ts:268-280 | a key no memory sample reports has no memory |
| Metrics.MetricsEmptyIff | backend/src/index.ts:205-293 | the result is empty iff the function returned early, or there were no CPU samples, no positive capacity and (local server) no memory samples |
| Routes.OrDefault | backend/src/index.ts:318-321 | `p as string \|\| d`: the default replaces an absent or empty parameter and nothing else |
| Routes.DefaultParam | api/index.ts:18 | a JavaScript default parameter replaces only an absent argument |
| Routes.AllocationRequest | backend/src/index.ts:316-325 | accumulate iff resolution is `Entire window`; local defaults with `\|\|`, serverless with default parameters |
| Routes.BareQueryDefaults | api/index.ts:204-207 | a bare query asks both deployments for a daily `7d` namespace request at step 86400 |
| Routes.EmptyParameterDiffers | api/index.ts:205-207 | an empty window or step is defaulted locally but passed through by the serverless copy, whose step is then NaN |
| Routes.StepUsableIff | backend/src/index.ts:321 | the step reaching Prometheus is a positive number exactly when it is absent, empty on the local server, or `parseInt` reads it as a positive number |
| Routes.CostAllocation | backend/src/index.ts:316-330 | the route answers [] when unconfigured (serverless), when the step is NaN or not positive, or when the queries fail |
| Routes.MetricsRoute | backend/src/index.ts:299-314 | an empty answer is replaced by the mock list; the data is never empty; the local source is `Mock` exactly when the answer was empty |
| Routes.UnconfiguredServesMock | api/index.ts:198-202 | without `PROMETHEUS_URL` the serverless route always serves the mock list |
| Routes.MockWhenNothingReported | backend/src/index.ts:299-307 | the mock list is served exactly when the pipeline returned early or had nothing to report; otherwise the pipeline's own answer is served |
| AllocationTable.Aggregate | frontend/src/components/AllocationTable.tsx:17-32 | the `forEach` builds exactly the per-key totals and the global totals |
| AllocationTable.Entries | frontend/src/components/AllocationTable.tsx:34-35 | one entry per key, in key order, with that key's totals |
| AllocationTable.TotalGeTotalPreorder | frontend/src/components/AllocationTable.tsx:36 | `b.total - a.total` is a total preorder |
| AllocationTable.TableRowsSpec | frontend/src/components/AllocationTable.tsx:13-39 | one row per distinct key, keys unique, totals non-increasing, each row holding the sums of its key's rows; rows with equal totals keep first-seen order |
| AllocationTable.RowsAreTallies | frontend/src/components/AllocationTable.tsx:34-36 | each table row is a data key with the sums of that key's rows |
| AllocationTable.EveryKeyHasRow | frontend/src/components/AllocationTable.tsx:34-36 | every key of the data has a table row |
| AllocationTable.SumTablePerm | frontend/src/components/AllocationTable.tsx:36 | the sum over table rows does not depend on their order |
| AllocationTable.TotalsLineIsSumOfRows | frontend/src/components/AllocationTable.tsx:27-36 | the "Totals" line equals the sum of the key rows over all pages |
| AllocationTable.TotalPages | frontend/src/components/AllocationTable.tsx:42 | `ceil(n / 10)`: the pages hold all rows and no page is wholly empty |
| AllocationTable.Displayed | frontend/src/components/AllocationTable.tsx:43 | a page shows at most ten rows, the rows from `page * 10` on, nothing past the end, and something when it starts before the end |
| AllocationTable.PagesCoverRows | frontend/src/components/AllocationTable.tsx:42-43 | paging through every page shows each row once, in order |
| AllocationTable.Caption | frontend/src/components/AllocationTable.tsx:90 | the caption starts at `page * 10 + 1` and ends at the smaller of the row count and the page's end |
| AllocationTable.CaptionMatchesDisplayed | frontend/src/components/AllocationTable.tsx:90 | the caption counts the shown rows when the page holds some, and reads `1-0 of 0` on an empty table |
| AllocationTable.Pager.constructor | frontend/src/components/AllocationTable.tsx:9 | the table starts on page 0, which is in range |
| AllocationTable.Pager.ClickPrev | frontend/src/components/AllocationTable.tsx:93-94 | `<` moves back one page when enabled, never below 0, and keeps the page in range |
| AllocationTable.Pager.ClickNext | frontend/src/components/AllocationTable.tsx:100-101 | `>` moves forward one page when enabled, never past the last page, and keeps the page in range |
| AllocationTable.Pager.NewData | frontend/src/components/AllocationTable.tsx:9-13 | new data recomputes the rows and keeps the page as it was |
| AllocationTable.Pager.NewDataFromFirstPage | frontend/src/components/AllocationTable.tsx:9-13 | corrected: new data recomputes the rows and returns to page 0, in range |
| AllocationTable.InRangeShowsRows | frontend/src/components/AllocationTable.tsx:42-43 | a non-empty table on an in-range page shows at least one row |
| AllocationTable.StalePage | frontend/src/components/AllocationTable.tsx:9-43 | as written: after two `>` clicks on a table with over 20 keys, new data with at most 10 keys shows no rows, the page is out of range and the caption reads `21-N of N` |
| AllocationTable.FreshPage | frontend/src/components/AllocationTable.tsx:9-43 | corrected: the same steps leave the page in range, with rows shown |
| AllocationChart.Pivot | frontend/src/components/AllocationChart.tsx:15-25 | the `grouped` record is a well-formed ordered record |
| AllocationChart.Points | frontend/src/components/AllocationChart.tsx:28 | `Object.values(grouped)`: one point per date, in insertion order |
| AllocationChart.PointLeTotalPreorder | frontend/src/components/AllocationChart.tsx:28 | comparing points by date is a total preorder |
| AllocationChart.Transform | frontend/src/components/AllocationChart.tsx:14-31 | the memoised loop yields the sorted pivot and the distinct keys in first-seen order |
| AllocationChart.PivotDates | frontend/src/components/AllocationChart.tsx:18-21 | the pivot has a point exactly for the dates of the rows |
| AllocationChart.PivotEntry | frontend/src/components/AllocationChart.tsx:23 | a key's value on a date is the cost of the last row for that date and key |
| AllocationChart.LastCostSomeIff | frontend/src/components/AllocationChart.tsx:23 | a date's point has a key exactly when some row has that date and key |
| AllocationChart.ChartOrdered | frontend/src/components/AllocationChart.tsx:28 | the chart points are in strictly ascending date order, one per date |
| AllocationChart.ChartDates | frontend/src/components/AllocationChart.tsx:14-28 | every point's date is a row's date, and every row's date has a point |
| AllocationChart.ChartCosts | frontend/src/components/AllocationChart.tsx:18-28 | each point holds exactly the keys with a row on its date, each at the cost of its last such row |
| AllocationChart.PointsArePivot | frontend/src/components/AllocationChart.tsx:28 | sorting only reorders the pivot's points |
| AllocationChart.TickLabel | frontend/src/components/AllocationChart.tsx:45-48 | a label containing `Total` shows `Total`; otherwise a label longer than five characters drops its first five; otherwise it is shown unchanged |
| AllocationChart.ExcludesWithoutFirst | frontend/src/components/AllocationChart.tsx:46 | a text without `T` does not include `Total` |
| AllocationChart.IsoDateTick | frontend/src/components/AllocationChart.tsx:45-48 | a `YYYY-MM-DD` date shows as its five-character `MM-DD` |
| AllocationChart.TotalTick | frontend/src/components/AllocationChart.tsx:45-48 | an accumulated `Total (<window>)` label shows `Total` |
| AllocationChart.Colour | frontend/src/components/AllocationChart.tsx:66 | every bar's colour comes from the palette |
| AllocationChart.ColoursCycle | frontend/src/components/AllocationChart.tsx:34-66 | keys fewer than eight apart get different colours; the colours repeat every eight keys |
| AllocationChart.PaletteDistinct | frontend/src/components/AllocationChart.tsx:34 | the eight palette colours are pairwise different |
| Client.Root | frontend/src/services/opencostApi.ts:16-20 | the configured URL when it is truthy; otherwise the local backend exactly when the page is on `localhost`; otherwise the empty (same-origin) root |
| Client.ApiBase | frontend/src/services/opencostApi.ts:21 | the base always ends with `/api`; a root already ending so is kept, any other gets exactly `/api` appended |
| Client.ApiBaseIdempotent | frontend/src/services/opencostApi.ts:21 | normalising an already normalised base changes nothing |
| Client.ApiBaseExtendsRoot | frontend/src/services/opencostApi.ts:21 | the base is the root or the root plus `/api`, and is the root exactly when it already ends with `/api` |
| Client.BaseUrls | frontend/src/services/opencostApi.ts:4-21 | `http://localhost:3001/api` on `localhost`, `/api` on any other host when no URL is configured, and `https://backend.onrender.com/api` for the documented deployment root |
| Client.Sent | frontend/src/services/opencostApi.ts:43-45 | a parameter is sent exactly when its key is present with a defined value |
| Client.BuildQueryParams | frontend/src/services/opencostApi.ts:33-41 | window, aggregate and resolution are always set; the step is set exactly when truthy; no other key; what is sent is the request the parameters describe |
| Client.DeploymentsAgreeOnClientQueries | frontend/src/services/opencostApi.ts:39-41 | the client never sends an empty step, so both deployments read the same step; with a non-empty window and aggregate they derive the same request |
| Client.MissingStepMeansOneDay | frontend/src/services/opencostApi.ts:39-41 | a call without a step gets the 86400-second step on both deployments |

## Left out

- Floating point: amounts are exact reals. `toFixed` is rounding half away from zero on the exact value. IEEE binary rounding, `-0` and `NaN` are not modelled.
- `Window.ParseInt` follows the JavaScript `parseInt` without a radix: leading white space, an optional sign, a `0x` or `0X` prefix, then the longest run of digits; NaN is `None`. It reads digits exactly, whereas JavaScript loses precision beyond 2^53, and it does not distinguish `-0` from `0`.
- A NaN, zero or negative step is sent to Prometheus, which refuses such a range query with an error. The model takes that refusal as given: the pipeline answers `[]` for such a step (`History.StepUsable`), as the `catch` does. Other refusals, such as too many points for the window, are part of the query outcome parameter.
- Series.SortedTimes: sorts the timestamps numerically. `Array.prototype.sort()` without a comparator compares decimal strings, which agrees only for epoch seconds of equal width.
- Sorting.SortBy: the in-place `Array.prototype.sort` is modelled on values, as a stable insertion sort. Aliasing of the sorted array is not modelled.
- `Date.now()`, `new Date()` and the local time zone are left out. The current UTC day is a parameter (`today`). Days are day numbers, and the local-time `setDate` arithmetic is taken as whole days in UTC.
- `Date.prototype.toISOString` throws a RangeError outside ±8.64e15 ms. The catch then answers `[]`, and `History.FetchHistory` models this.
- The hourly keys of the `24h` window are left out. With that window, real rows still carry a day label, and the backfill never runs (`Backfill.NoBackfillFor24h`).
- `Math.random()`: the backfill variance draws are a parameter, one per key per missing day. The table's random "Efficiency" column is left out.
- HTTP, axios, Express, CORS, `console` logging and `process.env` are left out. Their effects enter as parameters:
  - query outcomes (answered or failed);
  - whether `PROMETHEUS_URL` is configured;
  - the client's environment URL, browser flag and host name.
- The range-query `start`, `end` and query strings are left out. Only the window resolution that feeds them is modelled (`Window.ResolveWindow`).
- Object keys are assumed not to be integer-like strings and not to be names of `Object.prototype` members. For such keys, JavaScript would order or look them up differently.
- In the chart, a group key named `date` would overwrite a point's date field. This collision is not modelled.
- A repeated query parameter reaches Express as an array. Only single-valued parameters are modelled.
- The `timestamp` field of the `/api/metrics` body is left out, since it is a clock reading.
- The `/api/health` and `/api/recommendations` routes are left out. They return constant JSON.
- `frontend/src/App.tsx` and `frontend/src/api.ts` are not part of this model. `frontend/src/types.ts` is modelled only as the `DailyCost` and `MetricData` datatypes.
- `localeCompare` is modelled by `Costs.DateLe`. Day labels order chronologically, and every day label comes before every `Total (...)` label. All `Total` labels compare equal, which holds within one answer since they share the window.

## Findings

| source | as written | input that shows it | evidently intended | confidence | as-written member | corrected member |
|---|---|---|---|---|---|---|
| frontend/src/components/AllocationTable.tsx:9-43 | the `page` state survives a change of `data`, and is only clamped by the button handlers | 21 or more keys, `>` clicked twice (page 2), then new data with at most 10 keys: the table shows no rows and the caption reads `21-N of N` | new data should reset the page to the first page, or clamp it to the last page | medium, not executed | AllocationTable.StalePage | AllocationTable.FreshPage |
