# Daily production tracking: target, status and aggregation core

This project models the logic of a single-page dashboard for daily partner
production (`app_pip.py`). Users add production records one at a time or as
an uploaded table. The dashboard aggregates them into daily totals, an overall
total measured against a monthly target, and a per-partner rollup. The rollup
compares each partner's cumulative production with a dynamic target and puts
the partner in a status tier.

The model has six modules:

- `Records` (`records.dfy`): the record type, the constants (40 kg per
  operation per day, 84 t per day, 2500 t per month, 1000 kg per ton), and the
  basic queries. These are selection by key, the production and operation
  sums, and the sets of distinct dates and partners.
- `Ordering` (`ordering.dfy`): the sorted distinct keys a group-by produces.
  Dates are ordered as numbers. Partner names are ordered lexicographically by
  code point, which is how Python compares strings.
- `Target` (`target.dfy`): the per-partner target. It is 0 for a partner with
  no records. Otherwise it is 40 × (mean operations) × (number of distinct
  dates).
- `Classifier` (`classifier.dfy`): the four tiers "Belum Ada Target", "Baik",
  "Sedang" and "Buruk". The first is an escape for a target of 0. The others
  use inclusive thresholds at 100% and 75% of the target.
- `Store` (`store.dfy`): the record store as a class with a `seq<Record>`
  field. It has the two append operations, each behind its guard: a non-empty
  name and location for one record, and all six expected columns for a batch.
  Nothing is ever updated or removed.
- `Aggregates` (`aggregates.dfy`): the daily totals in kg and tons, the monthly
  percentage and its three message bands, the per-partner rollup, and the
  number of partners per status.

Quantities are exact `real`s, not floating point. Dates are day numbers. The
group-by, sum, mean and distinct-count steps of the data-frame library become
pure functions of the record sequence. So do the columns the script adds to
its result tables in place (tons, target, status): they are fields of each
row value.

In these points the model follows the code:

- A batch upload is accepted when every expected column is present. Extra
  columns do not cause a rejection (`app_pip.py:114-115`).
- The status labels are the Indonesian strings the code returns.
- The rollup does not call the target function `hitung_target_produksi`.
  Instead it applies the same formula to its own aggregated columns
  (`app_pip.py:205-207`). `Aggregates.RollupRow` states each aggregated column
  and the formula applied to them, and proves that the result agrees with the
  target function.
  The target function itself is never called by the script.
- Records from an upload are not validated. So operation counts and SPK
  numbers are `int`, not `nat`, and production may be negative. The facts
  that need non-negative counts take that as a hypothesis. The single-record
  form's widgets only accept non-negative values, and `AddSingle` requires
  that of its caller.

## Model

| member | source | states |
|---|---|---|
| `Records.Where` | app_pip.py:32 | selecting the records whose key equals a value keeps exactly those records, and no more than there were |
| `Records.WhereAppend` | app_pip.py:32 | selecting from a collection with one record appended gives the old selection, plus that record if its key matches |
| `Records.SumProdAppend` | app_pip.py:164 | the production total of two collections appended is the sum of their totals |
| `Records.SumOpsAppend` | app_pip.py:38 | the operation total of two collections appended is the sum of their totals |
| `Records.SumOpsZero` | app_pip.py:38 | with non-negative counts the operation sum is non-negative, and it is zero iff every count is zero |
| `Records.DistinctDays` | app_pip.py:41 | the number of distinct dates (`nunique`) is at most the number of records, and at least 1 for a non-empty collection |
| `Records.DatesAppend` | app_pip.py:41 | appending a record adds exactly its date to the set of distinct dates |
| `Records.DistinctDaysAppend` | app_pip.py:41 | a record for an already-reported date leaves the distinct day count unchanged; one for a new date raises it by exactly one |
| `Records.DistinctDaysPositive` | app_pip.py:41 | a non-empty collection has at least one distinct day |
| `Ordering.LexLeTotal` | app_pip.py:198 | any two partner names are comparable in string order |
| `Ordering.LexLeTransitive` | app_pip.py:198 | string order is transitive |
| `Ordering.LexLeAntisymmetric` | app_pip.py:198 | two names each at most the other are equal, so the group order is a total order |
| `Ordering.MinOf` | app_pip.py:145 | helper of the model's own sort of the group keys (the library sorts them internally): a least element of a non-empty key list is one of its elements and is at most every element |
| `Ordering.Without` | app_pip.py:145 | helper of the model's own sort of the group keys: removing a value keeps exactly the other values and strictly shortens a list that contained it |
| `Ordering.SortedDistinct` | app_pip.py:145 | group keys are exactly the values present, each once, in ascending order |
| `Ordering.DistinctCardinality` | app_pip.py:41 | a key list without repetitions has as many entries as distinct values, which links the group count to `nunique` |
| `Target.MeanOps` | app_pip.py:38 | the mean times the number of records is the total operation count |
| `Target.OfPartner` | app_pip.py:32 | a partner's records are exactly the records with that name, and there are some iff the name is among the partners |
| `Target.TargetOf` | app_pip.py:33-43 | no records give 0; otherwise target × record count = 40 × total operations × distinct days, i.e. 40 × mean × days |
| `Target.TargetFor` | app_pip.py:30-44 | the formula `Target.TargetOf` applied to the partner's records `Target.OfPartner`: a partner with no records gets target 0; with non-negative operation counts the target is non-negative; it is 0 when every count is 0 |
| `Target.TargetOfSign` | app_pip.py:37-43 | the formula 40 × mean × days is non-negative for non-negative counts and 0 when all counts are 0 |
| `Target.ZeroTargetIffNoOperations` | app_pip.py:34-43 | for a partner with records and non-negative counts, the target is 0 iff every operation count is 0 |
| `Target.TargetStableOnReportedDay` | app_pip.py:38-43 | a further record on an already-reported day, with an operation count equal to the current mean, leaves the target unchanged |
| `Target.MeanOpsAppendMean` | app_pip.py:38 | appending a record whose count equals the mean keeps the mean |
| `Target.OtherPartnerKeepsTarget` | app_pip.py:32 | `Target.OfPartner` ignores it, so a record of another partner does not change a partner's target |
| `Classifier.LabelInjective` | app_pip.py:47-55 | `Classifier.Label` gives the four tiers four distinct labels ("Belum Ada Target", "Baik", "Sedang", "Buruk") |
| `Classifier.Classify` | app_pip.py:47-55 | exactly one tier: "Belum Ada Target" iff the target is 0; "Baik" iff production ≥ target; "Sedang" iff 0.75·target ≤ production < target; otherwise "Buruk" |
| `Classifier.ClassifyMonotone` | app_pip.py:50-55 | for a fixed positive target, more production never gives a worse tier |
| `Classifier.ClassifyByRatio` | app_pip.py:50-55 | for a positive target the tier is decided by the ratio production/target alone: at least 1, at least 0.75, or below |
| `Classifier.ClassifyScaleInvariant` | app_pip.py:47-55 | scaling production and target by the same positive factor keeps the tier |
| `Store.CheckColumns` | app_pip.py:114-115 | the upload check succeeds iff every expected column name is present, and on failure some expected name is missing |
| `Store.RecordStore.constructor` | app_pip.py:61 | the store starts with exactly the loaded records |
| `Store.RecordStore.AddSingle` | app_pip.py:76-90 | a record is appended at the end iff name and location are both non-empty; earlier records are unchanged, and otherwise nothing changes |
| `Store.RecordStore.AddBatch` | app_pip.py:113-124 | all uploaded rows are appended in order iff every expected column is present; otherwise nothing changes |
| `Aggregates.GroupSumCons` | app_pip.py:145 | with distinct group keys, a further record adds its production to the grouped sum once if its key is listed, and not at all otherwise |
| `Aggregates.GroupSumIsTotal` | app_pip.py:145 | summing per group over distinct keys that cover every record gives the overall production |
| `Aggregates.GroupSumOfNothing` | app_pip.py:145 | base case of the model's grouped sum: grouping no records gives a zero sum |
| `Aggregates.DailyDates` | app_pip.py:145 | the daily groups are the distinct dates, strictly ascending, as many as the distinct day count |
| `Aggregates.DayRows` | app_pip.py:145-148 | one row per listed date, holding that date's total |
| `Aggregates.DailyTotals` | app_pip.py:145-148 | as many rows as distinct dates; row i is the row for the i-th date of the sorted distinct dates |
| `Aggregates.DailyTotalsAscending` | app_pip.py:145 | every daily row's date is a reported date, and the rows are strictly ascending by date |
| `Aggregates.DailyTotalsCoverDates` | app_pip.py:145 | every reported date has a daily row |
| `Aggregates.SumKgOfDayRows` | app_pip.py:145 | the daily rows' kg add up to the grouped sum over their dates |
| `Aggregates.SumTonsIsSumKg` | app_pip.py:148 | the tons column adds up to the kg column divided by 1000 |
| `Aggregates.DailyTotalsSumToTotal` | app_pip.py:145-165 | the daily totals add up to the overall production in kg and in tons |
| `Aggregates.MonthlyPercentage` | app_pip.py:164-167 | the percentage of the 2500 t monthly target, computed from `Aggregates.TotalTons` (kg / 1000): percentage × 25,000 = total production in kg |
| `Aggregates.MonthlyBand` | app_pip.py:173-178 | "reached" iff the percentage is ≥ 100, "approaching" iff 75 ≤ percentage < 100, "needs effort" iff < 75 |
| `Aggregates.MonthlyBandByKg` | app_pip.py:164-178 | the target is reached from 2,500,000 kg and approached from 1,875,000 kg, with inclusive boundaries |
| `Aggregates.PartnerNames` | app_pip.py:198 | the rollup's groups are the distinct partner names, each once, in string order |
| `Aggregates.RollupRow` | app_pip.py:198-212 | a partner's row has that partner's production total, the mean of its operation counts and its number of distinct dates (at least 1); its target is 40 × mean × days, which equals `hitung_target_produksi` for that partner; its status is the classification of total against target |
| `Aggregates.RollupRows` | app_pip.py:198-212 | one row per listed partner, in the same order |
| `Aggregates.PartnerRollup` | app_pip.py:198-212 | exactly as many rows as distinct partners; row i is the row for the i-th partner name |
| `Aggregates.RollupHasOneRowPerPartner` | app_pip.py:198-202 | every partner with records has a row, and no partner has two |
| `Aggregates.RollupNoTargetIffNoOperations` | app_pip.py:205-212 | with non-negative counts, a partner is in the "Belum Ada Target" tier iff all its operation counts are 0 |
| `Aggregates.SumTotalsOfRollupRows` | app_pip.py:199 | the rows' totals add up to the grouped sum over their partners |
| `Aggregates.PartnerTotalsSumToTotal` | app_pip.py:183 | the per-partner totals add up to the overall production |
| `Aggregates.CountsCoverRows` | app_pip.py:217 | every row is counted under exactly one status, so the four counts add up to the number of rows |
| `Aggregates.CountStatusPositive` | app_pip.py:217 | a status has a positive count iff some row has it |
| `Aggregates.StatusCounts` | app_pip.py:217-218 | the count table lists exactly the statuses that occur, each with its positive number of partners |
| `Aggregates.StatusCountsSumToPartners` | app_pip.py:198-218 | the partners-per-status counts add up to the number of distinct partners |
| `Aggregates.TwoDayExample` | app_pip.py:198-212 | 10 and 20 operations on two days and 300 + 500 kg give target 1200 kg and tier "Buruk" |
| `Aggregates.ThreeDayExample` | app_pip.py:198-212 | adding a third day with 30 operations and 1000 kg gives target 2400 kg; 1800 kg is exactly 75%, tier "Sedang" |
| `Aggregates.MonthlyExample` | app_pip.py:164-178 | 1,875,000 kg is 75% of the monthly target, which is the "approaching" band |

## Left out

- Reading and writing the data file (`load_data`, `save_data`), CSV/Excel parsing and date parsing (`app_pip.py:17-27`, `108-111`, `119`): this is file I/O and library parsing. The store's constructor takes the loaded records, and dates are given as day numbers.
- Store.RecordStore.constructor: states only that the store holds the loaded records; it does not model the file, or the empty six-column table used when there is no file.
- The generic exception path of the upload (`app_pip.py:126-127`), and NaN or malformed cells: these depend on the data-frame library. Uploaded rows are taken as well-formed records.
- Store.RecordStore.AddBatch: an upload's extra columns are dropped. The script concatenates them into the table as columns filled with missing values, which no aggregation reads.
- Aggregates.StatusCounts: gives the counts as a map. The library's ordering of the count table (by descending count) only affects the bar chart.
- The widgets, messages and tables of the dashboard, including the display-only sort by date at `app_pip.py:134`: these are UI.
- The charts (`app_pip.py:151-160`, `184-187`, `220-224`): these are rendering calls. The 84 t daily target appears only as the chart's reference line, so it is declared but not used.
- The `df.empty` guards (`app_pip.py:133`, `143`, `196`): the aggregate functions are total. On no records they give empty tables and a zero total, which the dashboard then does not show.
- Floating-point rounding at the 0.75 and 75% boundaries, and the number formatting at `app_pip.py:169-171`: the model uses exact reals.
- Concurrent submissions racing on the shared file (last writer wins): the code does not address concurrency.
- Recomputing an aggregate from the same records gives the same result: every aggregate is a function, so this holds by construction and is not stated as a lemma.
