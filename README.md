# Order analytics: a Dafny model

This project models the order-analytics engine of a small dashboard. The dashboard reads a CSV export of order lines (order number, SKU, quantity, date). It compares two periods of them and projects the next three months of orders and packaging.

The model covers, core file by core file:

- **SKU normalisation.** Both versions are modelled: `parseSkuQuantity` in `analysis.ts` and `processSku` in `salesAnalysis.ts`. Lemmas pin down where the two disagree.
- **Packaging.** Both classifiers of orders into envelope / six-month box / twelve-month box are modelled. Each is proved to put every distinct order in exactly one box.
- **Dates.** The model parses dates and computes the week, month, quarter and year keys and the period labels. It does this on its own proleptic Gregorian calendar, with `(year, month, day)` triples and day numbers.
- **Period slices.** The model covers period filtering and period metrics, the available and initial periods, and the monthly analytics. It also covers the small `calculateMetrics` / `processData` helpers of the three analytics panels.
- **CSV reading.** Rows are skipped one by one inside a batch that may fail as a whole.
- **Projections.** The model covers both projections, including the integer split of a forecast into simulated orders.
- **Selection state.** The period selection of the application shell, the custom-range inputs, and the upload panel are modelled as classes whose methods change their fields.

Imperative source code becomes methods with loop invariants. Each method is proved equal to a specification function, and the functions carry the properties. Dictionaries that JavaScript fills in insertion order (`Record`, `Map`) become `Common.Record`: a key sequence plus a map. Sets become de-duplicated sequences. `Array.prototype.sort` becomes a stable insertion sort (`Sorting.SortBy`, and `Text.SortStrings` for the default string order).

Modules, one per file:
- `Common`: lines, records, grouping and totals;
- `Text`: string built-ins and number parsing;
- `Sorting`;
- `Dates`;
- `Analysis`;
- `SalesAnalysis`;
- `TimeComparison`;
- `ParseData`;
- `Analytics`;
- `OrderAnalysis`;
- `CustomerAnalysis`;
- `ProductPerformance`;
- `AppState`;
- `TimeComparisonSelector`;
- `FileUpload`.

Points where the code's behaviour may be unexpected:

- The `sachet` / `half` test in `parseSkuQuantity` is case-sensitive.
- The bottle tests are case-sensitive:
  - `startsWith('nb-btl')` / `startsWith('nb-bt-')` in `analysis.ts`, applied to the normalised SKU when called from `analyzeOrders`;
  - `includes('nb-btl')` on the raw SKU in `salesAnalysis.ts`.
  - So an upper-case `NB-BTL-…` SKU never marks a bottle.
- A day-first date with an out-of-range day or month rolls over through the `Date` constructor; it is not rejected.
- `calculatePeriodMetrics` counts raw SKUs, not normalised ones.

## Model

| member | source | states |
|---|---|---|
| Analysis.Multiplier | src/utils/analysis.ts:17-24 | The pack size of a SKU: the sum of the numbers `parseInt` reads from its `_`-pieces after the first. Its meaning is stated by `SumPackParts` and `SkuQuantityShape`. |
| Analysis.KeepsSku | src/utils/analysis.ts:5-34 | The SKU is kept: it contains `sachet` or `half`, has no `_`, or its pack size is not positive. `SkuQuantityShape` states what that means for the result. |
| Analysis.SkuQuantity | src/utils/analysis.ts:3-35 | The normalised SKU and quantity of a line: unchanged when kept, otherwise the first `_`-piece and the quantity times the pack size. `ParseSkuQuantity` and `SkuQuantityShape` state its properties. |
| Analysis.ParseSkuQuantity | src/utils/analysis.ts:3-35 | A SKU containing `sachet` or `half`, one without `_`, or one whose pack size is not positive comes back unchanged. Any other SKU yields the text before its first `_` (a `_`-free prefix of the SKU) and the quantity times the sum of the parseable numbers after it. |
| Analysis.SumPackParts | src/utils/analysis.ts:17-24 | The `multiplier` loop ends with the sum of `parseInt` over every piece after the first, skipping pieces that are NaN. |
| Analysis.SkuQuantityShape | src/utils/analysis.ts:3-35 | The normalisation rule by cases: kept SKUs are unchanged; otherwise the base is a `_`-free prefix ending before a `_`, and the quantity is scaled by the pack size. |
| Analysis.SkuQuantityIdempotent | src/utils/analysis.ts:10-31 | Normalising an already normalised line changes nothing: a base SKU has no `_`. |
| Analysis.SkuQuantityExample | src/utils/analysis.ts:10-31 | `NB-ADV_3_2` with quantity 1 normalises to `NB-ADV` with quantity 5. |
| Analysis.HasBottle | src/utils/analysis.ts:115-118 | An order has a bottle iff one of its lines' SKUs starts with `nb-btl` or `nb-bt-`. |
| Analysis.BoxFor | src/utils/analysis.ts:114-126 | Twelve-month box iff a bottle or at least 9 items; six-month box iff no bottle and 5 to 8 items; envelope iff no bottle and fewer than 5. |
| Analysis.CountBoxesSum | src/utils/analysis.ts:113-127 | Over any list of orders, the three box counts add up to the number of orders. |
| Analysis.PackagingOf | src/utils/analysis.ts:100-130 | The packaging of a list of lines: each distinct order number, classified once on all of its lines. `CalculatePackaging` and `PackagingTotal` state its properties. |
| Analysis.PackOrder | src/utils/analysis.ts:120-126 | Classifying one order adds one to exactly the counter of its box and leaves the other two unchanged. |
| Analysis.LinePackaging | src/utils/analysis.ts:113-127 | The packaging of a list whose lines are each an order of their own: each line is classified on its own. `OneLineOrdersPackaging` ties it to `PackagingOf`. |
| Analysis.OneLineOrdersPackaging | src/utils/analysis.ts:100-130 | When no two lines share an order number, the packaging classifies each line on its own, in order. |
| Analysis.CountBoxesOneLine | src/utils/analysis.ts:113-127 | When no two lines share an order number, counting the boxes of the first `m` orders is counting the boxes of the first `m` lines, each taken alone. |
| Analysis.BottleLineBoxes | src/utils/analysis.ts:115-121 | One-line orders that all hold a bottle all go into twelve-month boxes: no envelope, no six-month box. |
| Analysis.CalculatePackaging | src/utils/analysis.ts:100-130 | The counters equal the box counts of the distinct order numbers, each classified once on all of its lines, and they sum to the number of distinct orders. |
| Analysis.PackagingTotal | src/utils/analysis.ts:101-129 | Envelopes plus six-month boxes plus twelve-month boxes equal the number of distinct order numbers. |
| Analysis.NormaliseAll | src/utils/analysis.ts:47-59 | One normalised line per input line, at the same position. |
| Analysis.NormaliseLines | src/utils/analysis.ts:47-61 | The loop's output is every line normalised, in order. |
| Analysis.SkuTotalsOf | src/utils/analysis.ts:70-75 | Each listed SKU is assigned, once and in order, its total quantity in the month, 0 for a SKU without lines there. |
| Analysis.SummariseMonth | src/utils/analysis.ts:65-90 | A history entry: the month, per-SKU totals, the packaging of the month's lines, sizes equal to the packaging counts, and the distinct-order count. The boxes add up to that count. |
| Analysis.SummariseMonths | src/utils/analysis.ts:64-91 | One entry per month in ascending key order, each summarising that month's lines. |
| Analysis.AnalyzeOrders | src/utils/analysis.ts:37-98 | `ordersByMonth` groups the normalised lines by month, in input order, with nothing else. `uniqueSkus` holds the distinct normalised SKUs in first-appearance order. The history has one entry per month, with strictly ascending months, each summarising its month. |
| Analysis.RoundNearest | src/utils/analysis.ts:164 | `Math.round(x)` is within half a unit of `x` (halves rounded up). |
| Analysis.PredictedQuantity | src/utils/analysis.ts:163-164 | A SKU's forecast is never negative. |
| Analysis.PredictedSteady | src/utils/analysis.ts:163-164 | At growth rate 1 a SKU's forecast, every month ahead, is its last month's quantity (0 if negative). |
| Analysis.PredictedGrowing | src/utils/analysis.ts:164 | At a growth rate of at least 1, the forecast of a non-negative quantity never falls from one month to the next. |
| Analysis.NextMonthKeyOf | src/utils/analysis.ts:152-154 | The forecast month `i` ahead of a `yyyy-MM` key is the key `i` calendar months later, with the year carried over after December. |
| Analysis.NextMonthKeyParsed | src/utils/analysis.ts:152-154 | The month key `i` ahead is computed from the parsed first of the last month. |
| Analysis.SkuAverage | src/utils/analysis.ts:175-181 | The per-line average quantity of a SKU is at least 1. |
| Analysis.LastMonth | src/utils/analysis.ts:137-148 | The last month is one of the history's months. |
| Analysis.LastMonthLatest | src/utils/analysis.ts:137-148 | Every other month of the history sorts before the last month. |
| Analysis.CeilDivBounds | src/utils/analysis.ts:183 | For `q, a >= 1`, `n = ceil(q / a)` lies in `1..q` and `(n - 1) * a < q <= n * a`. |
| Analysis.BaseQuantityBounds | src/utils/analysis.ts:184 | With `1 <= n <= q`, `floor(q / n)` is at least 1, and `n` orders of it fall short of `q` by less than `n`. |
| Analysis.PredictionIdInjective | src/utils/analysis.ts:190 | Two simulated order numbers of one month are equal only for equal counters. |
| Analysis.SimulateSku | src/utils/analysis.ts:183-196 | A forecast `q > 0` with average `a` yields exactly `ceil(q / a)` one-line orders. Each has quantity `floor(q / n)`, the SKU, the first of the month as its date, and the next counter value. Their total is at most `q` and short of it by less than the number of orders: the remainder is dropped. |
| Analysis.RemainingCoversOrder | src/utils/analysis.ts:187-188 | Before each of the `n` orders the remaining quantity is at least the base quantity, so `Math.min` always picks the base and the loop never stops early. |
| Analysis.DistinctIds | src/utils/analysis.ts:190-200 | Orders numbered by consecutive counters are all distinct orders. |
| Analysis.Run | src/utils/analysis.ts:187-196 | The `n` one-line orders made for one SKU from counter `start`: order `l` is numbered `pred-<month>-<start + l>`, holds `floor(q / n)` items of the SKU and is dated the first of the month. `RunIsSkuRun` states their properties. |
| Analysis.RunIsSkuRun | src/utils/analysis.ts:183-196 | For `1 <= n <= q`, the run of `n` orders has `n` lines of the SKU, each with at least one item, consecutively numbered from `start`, and its total falls short of `q` by less than `n`. |
| Analysis.RunOfSkuRun | src/utils/analysis.ts:183-196 | Any list with those properties is the run itself: the loop's output is fully determined. |
| Analysis.SkuSimulation | src/utils/analysis.ts:172-197 | The orders simulated for one SKU: a run of `ceil(q / avg)` orders for a forecast `q > 0`, nothing otherwise. `SkuSimulationFacts` states their count and totals. |
| Analysis.SkuSimulationFacts | src/utils/analysis.ts:172-197 | One SKU's block holds `OrdersFor` orders, all of that SKU, each with at least one item, dated the first of the month and consecutively numbered; for a forecast `q > 0` its total is at most `q` and short of it by less than its length. |
| Analysis.SimulationOf | src/utils/analysis.ts:169-198 | The orders simulated for the forecast SKUs in key order, each SKU's block numbered on from the orders before it. The lemmas below state its properties. |
| Analysis.SimulationCount | src/utils/analysis.ts:169-198 | The simulation has as many orders as the per-SKU order counts add up to. |
| Analysis.SimulationLines | src/utils/analysis.ts:187-196 | Every simulated order is numbered by its position, dated the first of the month, holds at least one item and is for a SKU forecast above zero. |
| Analysis.SimulationPerSku | src/utils/analysis.ts:172-197 | For SKUs without repeats, each SKU has exactly its `ceil(q / avg)` orders holding `q` but for fewer items than orders, and no order is for any other SKU. |
| Analysis.SimulationSimulates | src/utils/analysis.ts:169-198 | For SKUs without repeats, the simulation meets the whole specification of the simulated orders: count, numbering, dates and per-SKU totals. |
| Analysis.SimulateOrders | src/utils/analysis.ts:169-198 | The orders are exactly `SimulationOf` the forecasts: per SKU in key order, for a forecast `q > 0` with average `avg`, `ceil(q / avg)` orders of `floor(q / n)` items, numbered on from the previous SKU's orders and dated the first of the month. The counter ends at the number of orders. Each SKU's orders hold `q` but for fewer items than orders. |
| Analysis.PredictSkus | src/utils/analysis.ts:156-166 | Each SKU is assigned, once and in order, its last month's quantity grown `i` times and rounded, never below zero. |
| Analysis.ForecastOf | src/utils/analysis.ts:200-213 | A prediction assembled from the forecasts, their simulated orders and the packaging of those orders is the forecast `i` months ahead. |
| Analysis.SimulationPackaging | src/utils/analysis.ts:169-200 | The simulated orders all have distinct numbers, so their packaging classifies each simulated order on its own line. |
| Analysis.BottleSimulationPackaging | src/utils/analysis.ts:169-200 | When every SKU forecast above zero is a bottle, every simulated order goes into a twelve-month box. |
| Analysis.ForecastPackaging | src/utils/analysis.ts:200-211 | A forecast month's packaging classifies each of its simulated orders on its own line. |
| Analysis.BottleForecastBoxes | src/utils/analysis.ts:200-211 | When every SKU forecast above zero is a bottle, a forecast month needs no envelope and no six-month box, and one twelve-month box per simulated order. |
| Analysis.PredictMonth | src/utils/analysis.ts:151-213 | One forecast month has the following parts. Month key: `i` months after the last. SKU forecasts: the last month's quantities grown `i` times. Packaging: the packaging of exactly the orders `SimulationOf` the forecasts, with sizes repeating the box counts, one box per simulated order. Total orders: the larger of the simulated count and the rounded monthly average grown `i` times. |
| Analysis.PredictNextMonths | src/utils/analysis.ts:132-217 | Without history there is no forecast (the source computes NaN). Otherwise exactly three months are forecast, for 1, 2 and 3 months after the last, each as in `PredictMonth`, including the packaging of its simulated orders. |
| SalesAnalysis.ProcessSku | src/utils/salesAnalysis.ts:14-30 | The quantity `processSku` gives a line, from the `_`-pieces of its SKU. The lemmas below state it by case. |
| SalesAnalysis.ProcessParts | src/utils/salesAnalysis.ts:17-29 | A piece marked sachet or half keeps the quantity; otherwise the pack size, when there is one, scales it. |
| SalesAnalysis.PackSize | src/utils/salesAnalysis.ts:21-27 | Three pieces with the last two numeric give their sum, two pieces with a numeric second give that number, anything else gives none. |
| SalesAnalysis.ProcessSkuPlain | src/utils/salesAnalysis.ts:14-30 | A SKU without `_` keeps its quantity. |
| SalesAnalysis.ProcessSkuKept | src/utils/salesAnalysis.ts:17-19 | A SKU whose leading piece is or contains a sachet/half marker keeps its quantity, whatever follows. |
| SalesAnalysis.ProcessSkuPair | src/utils/salesAnalysis.ts:25-27 | `base_n`, with `n` a number, scales the quantity by `n`. |
| SalesAnalysis.ProcessSkuTriple | src/utils/salesAnalysis.ts:21-23 | `base_a_b`, with `a` and `b` numbers, scales the quantity by `a + b`. |
| SalesAnalysis.ProcessPartsThree | src/utils/salesAnalysis.ts:21-23 | Three pieces, none kept and the last two numeric, scale the quantity by the sum of those two. |
| SalesAnalysis.ProcessSkuLong | src/utils/salesAnalysis.ts:21-29 | A SKU of four or more pieces keeps its quantity. |
| SalesAnalysis.ZeroPackDiverges | src/utils/salesAnalysis.ts:25-27 | `X_0` gives quantity 0 under `processSku`, while `parseSkuQuantity` keeps `X_0` unchanged: the two normalisations differ. |
| SalesAnalysis.PairAgrees | src/utils/salesAnalysis.ts:25-27 | For `base_n` with `n > 0` and no sachet/half marker, the two normalisations give the same quantity. |
| SalesAnalysis.CalculateOrderSize | src/utils/salesAnalysis.ts:32-40 | Large iff bottle or at least 9 items; medium iff no bottle and 5 to 8; small iff no bottle and fewer than 5. |
| SalesAnalysis.SizeMatchesBox | src/utils/salesAnalysis.ts:32-40 | Given the same total and bottle flag, the sales sizes and the analysis boxes agree: large/twelve-month, medium/six-month, small/envelope. |
| SalesAnalysis.FoldAddLine | src/utils/salesAnalysis.ts:61-69 | Folding an order's lines gives their `processSku`-scaled total and whether any raw SKU contains `nb-btl`. |
| SalesAnalysis.CountSizesSum | src/utils/salesAnalysis.ts:75-86 | Over any list of orders, the three size counts add up to the number of orders. |
| SalesAnalysis.SalesPackagingTotal | src/utils/salesAnalysis.ts:71-88 | The boxes add up to the number of distinct order numbers. |
| SalesAnalysis.CalculatePackaging | src/utils/salesAnalysis.ts:42-89 | Empty input gives all zeros. Otherwise each distinct order is sized once on its scaled total and bottle flag; `orderSizes` repeats the box counts, and these add up to the number of distinct orders. |
| SalesAnalysis.GroupByMonth | src/utils/salesAnalysis.ts:91-106 | Lines are grouped by `yyyy-MM` key in input order, with nothing else; empty input gives `{}`. |
| SalesAnalysis.GroupByMonthPartition | src/utils/salesAnalysis.ts:96-105 | Every line sits in its own month's bucket, every bucket holds only lines of its month, and the buckets' quantities add up to the total quantity. |
| SalesAnalysis.MonthsNonEmpty | src/utils/salesAnalysis.ts:116-121 | Non-empty input has at least one month, so the `months.length === 0` return is unreachable. |
| SalesAnalysis.LatestMonthOf | src/utils/salesAnalysis.ts:116-128 | The sorted keys of the grouping are the lines' months, and the last one's bucket is the latest month's lines, never empty. |
| SalesAnalysis.SkuAverages | src/utils/salesAnalysis.ts:133-145 | Each distinct SKU is assigned its mean monthly quantity over all observed months, with months without the SKU counting as 0. |
| SalesAnalysis.MonthlyTotal | src/utils/salesAnalysis.ts:137-143 | The sum of a SKU's monthly quantities over the listed months. |
| SalesAnalysis.SkuTotalAcrossMonths | src/utils/salesAnalysis.ts:137-143 | Summed over all months, a SKU's monthly quantities give its total quantity. |
| SalesAnalysis.AverageLookup | src/utils/salesAnalysis.ts:155 | `skuAverages.get(sku) \|\| quantity` yields the SKU's mean, or the line's own quantity when the mean is 0. |
| SalesAnalysis.PredictMonthSales | src/utils/salesAnalysis.ts:154-167 | One month's forecast: for each latest-month line in order, a line `pred-<month>-<index>` dated the first of the month, with the rounded grown quantity, only when that quantity is positive. |
| SalesAnalysis.PredictMonths | src/utils/salesAnalysis.ts:148-168 | The three months' forecasts, in month order. |
| SalesAnalysis.PredictFutureSales | src/utils/salesAnalysis.ts:108-171 | Empty input gives `[]`; otherwise the output is the three-month forecast of the latest month's lines. |
| SalesAnalysis.MonthSalesFrom | src/utils/salesAnalysis.ts:154-167 | Every forecast line comes from a latest-month line with a positive forecast quantity. |
| SalesAnalysis.MonthSalesHas | src/utils/salesAnalysis.ts:159-166 | Every latest-month line with a positive forecast quantity is forecast. |
| SalesAnalysis.SalesFrom | src/utils/salesAnalysis.ts:148-168 | Each line of month `i`'s forecast is the forecast of some latest-month line whose grown quantity is positive. |
| SalesAnalysis.SalesHas | src/utils/salesAnalysis.ts:148-168 | Each latest-month line whose grown quantity is positive appears in month `i`'s forecast. |
| SalesAnalysis.SalesLength | src/utils/salesAnalysis.ts:154-167 | A month's forecast has at most as many lines as the latest month. |
| SalesAnalysis.SalesForecastLength | src/utils/salesAnalysis.ts:112-168 | Empty input gives no lines; otherwise at most three times the latest month's line count. |
| SalesAnalysis.SaleSteady | src/utils/salesAnalysis.ts:155-157 | At growth rate 0 every month's forecast quantity is the rounded base quantity. |
| Common.AccumulateBy | src/utils/analytics.ts:14-21 | A keyed `reduce` ends with one entry per distinct key, in first-appearance order: the fold of that key's lines from the initial value. |
| Common.GroupBy | src/utils/analytics.ts:14-21 | Grouping by a key gives each distinct key's lines, in input order, and nothing else. |
| Common.TotalBy | src/utils/analytics.ts:35-41 | Totalling by a key gives each distinct key's total quantity, and nothing else. |
| Common.CountDistinct | src/utils/timeComparison.ts:53 | `new Set(data.map(key)).size` is the number of distinct keys: at most the line count, and at least 1 on non-empty input. |
| Common.SumGroupTotals | src/utils/analytics.ts:56-57 | Adding up the per-order totals gives the total quantity of all lines. |
| Dates.DaysInMonth | src/utils/dateUtils.ts:8 | Every month has 28 to 31 days. |
| Dates.NextDay | src/utils/dateUtils.ts:114 | The next calendar day is a valid date one day number on. |
| Dates.PrevDay | src/utils/dateUtils.ts:77 | The previous calendar day is a valid date one day number back. |
| Dates.AddDays | src/utils/dateUtils.ts:114 | `addDays(d, k)` is a valid date exactly `k` day numbers away. |
| Dates.DayNumberInjective | src/utils/timeComparison.ts:21 | Distinct valid dates have distinct day numbers, so comparing dates compares day numbers. |
| Dates.DayOfWeek | src/utils/dateUtils.ts:77 | The weekday is in 0..6, with 0 for Sunday. |
| Dates.StartOfWeek | src/utils/dateUtils.ts:77 | The week start is a Monday, no later than the date and at most six days earlier. |
| Dates.StartOfWeekSame | src/utils/dateUtils.ts:75-83 | Two dates have the same week start iff they fall in the same Monday-to-Sunday week. |
| Dates.MakeDate | src/utils/dateUtils.ts:8 | `new Date(y, m0, d)` as a calendar date: years 0..99 mean 1900..1999, and the month and day overflow into the next months and years. The time-value limit is applied by `InTimeRange` where the source checks `getTime()`. |
| Dates.InTimeRange | src/utils/dateUtils.ts:9-11 | A date is a valid time value iff it lies at most 100,000,000 days from 1 January 1970. |
| Dates.TimeRangeEnds | src/utils/dateUtils.ts:9-11 | The valid time values run from 20 April -271821 to 13 September 275760: the days just outside are invalid. |
| Dates.InTimeRangeYears | src/utils/dateUtils.ts:9-11 | Every valid date in years -271820 to 275759 is a valid time value. |
| Dates.MakeDateInRange | src/utils/dateUtils.ts:8 | An in-range day and month (outside years 0..99) build that very date. |
| Dates.FebruaryRollOver | src/utils/dateUtils.ts:8-11 | `31/02/yyyy` gives 2 March in a leap year and 3 March otherwise: no error. |
| Dates.ParseIso | src/utils/dateUtils.ts:15-18 | `new Date(str)` on `yyyy-MM-dd` accepts only valid calendar dates. |
| Dates.ParseDate | src/utils/dateUtils.ts:3-24 | A parsed date is valid; a failure carries `Invalid date format: <text>`. |
| Dates.ParseDateAgrees | src/utils/dateUtils.ts:14-19 | Text that `new Date` reads as a `yyyy-MM-dd` date has no `/`, and `parseDate` gives that date. |
| Dates.ParseDayFirst | src/utils/dateUtils.ts:6-13 | A parsed day-first date is valid; a failure carries the format message. |
| Dates.ParseDateDayFirst | src/utils/dateUtils.ts:6-12 | Writing a date (year at least 100, a valid time value) as `d/m/yyyy` and parsing it gives the date back. |
| Dates.ParseDateDayFirstOutOfRange | src/utils/dateUtils.ts:6-22 | A `d/m/yyyy` date beyond the time-value range fails with `Invalid date format: <text>`. |
| Dates.ParseDateSlash | src/utils/dateUtils.ts:6-12 | Text with a `/` whose first three pieces are numbers gives `new Date(year, month - 1, day)` when that is a valid time value, and `Invalid date format: <text>` otherwise. |
| Dates.ParseDateOfIso | src/utils/dateUtils.ts:14-19 | Text without `/` that reads as `yyyy-MM-dd` gives that date. |
| Dates.ParseDateIso | src/utils/dateUtils.ts:26-28 | Formatting a date as `yyyy-MM-dd` and parsing it gives the date back. |
| Dates.FormatDate | src/utils/dateUtils.ts:26-33 | `format(date, 'yyyy-MM-dd')`: the era year padded to four digits, the month and day to two. |
| Dates.FormatLocal | src/utils/parseData.ts:79-86 | The local `formatDate`: the year as a number, the month and day padded to two digits. |
| Dates.FormatDateRoundTrip | src/utils/dateUtils.ts:26-28 | The `yyyy-MM-dd` rendering reads back as the same date. |
| Dates.FormatLocalRoundTrip | src/utils/parseData.ts:79-82 | The `<year>-MM-dd` rendering of a four-digit year reads back as the same date. |
| Dates.MonthKey | src/utils/dateUtils.ts:46-53 | `format(date, 'yyyy-MM')`. `MonthKeySame` states when two dates share it. |
| Dates.QuarterKey | src/utils/dateUtils.ts:55-64 | `<year>-Q<quarter>`. `QuarterKeySame` states when two dates share it. |
| Dates.YearKey | src/utils/dateUtils.ts:66-73 | `format(date, 'yyyy')`. `YearKeySame` states when two dates share it. |
| Dates.WeekKey | src/utils/dateUtils.ts:75-83 | The `yyyy-MM-dd` rendering of the week's Monday. `WeekKeySameWeek` and `WeekKeyParses` state its properties. |
| Dates.QuarterOf | src/utils/dateUtils.ts:57-58 | `floor(month0 / 3) + 1` lies in 1..4. |
| Dates.MonthKeySame | src/utils/dateUtils.ts:46-48 | Two dates have the same month key iff they lie in the same month of the same era year. |
| Dates.MonthKeySamePositive | src/utils/dateUtils.ts:46-48 | For positive years, two dates have the same month key iff they have the same year and month. |
| Dates.QuarterKeySame | src/utils/dateUtils.ts:55-59 | Two dates have the same quarter key iff they have the same year and quarter. |
| Dates.YearKeySame | src/utils/dateUtils.ts:66-68 | Two dates have the same year key iff they have the same era year. |
| Dates.WeekKeySameWeek | src/utils/dateUtils.ts:75-78 | Two dates in the same Monday-to-Sunday week have the same week key. |
| Dates.FormatPeriod | src/utils/dateUtils.ts:85-109 | The label of a period by type: the week range, `<month name> <year>`, `Q<n> <year>`, or the value itself. The lemmas below state each case. |
| Dates.MonthLabelOf | src/utils/dateUtils.ts:92-95 | The month label of `<year>-<month>` pieces that are numbers is the label of the first of that month when that date is a valid time value, and `Invalid Period` otherwise. |
| Dates.FormatQuarterLabel | src/utils/dateUtils.ts:96-98 | The label of a quarter key is `Q<n> <year>`. |
| Dates.FormatMonthLabel | src/utils/dateUtils.ts:92-95 | The label of a month key is `<full month name> <year>`, for years 100 to 275759. |
| Dates.FormatYearLabel | src/utils/dateUtils.ts:100-103 | Year and custom values are labelled as themselves. |
| Dates.MonthKeyParts | src/utils/dateUtils.ts:93 | Splitting a month key at `-` gives the padded year and the padded month. |
| Dates.GetWeekRange | src/utils/dateUtils.ts:111-115 | A week key that parses gives a range that starts on the parsed date and ends six days later; any other key gives no valid range (None). |
| Dates.WeekRangeOfKey | src/utils/dateUtils.ts:111-115 | The range of a date's week key runs from that week's Monday to its Sunday. |
| Dates.WeekKeyParses | src/utils/dateUtils.ts:75-78 | A week key reads back as its Monday. |
| Text.NatToString | src/utils/analysis.ts:190 | A number renders as digits without a leading zero. |
| Text.NatToStringValue | src/utils/analysis.ts:190 | The rendering of `n` has the value `n`. |
| Text.PadNat | src/utils/dateUtils.ts:48 | `padStart(w, '0')` yields digits only. |
| Text.PadNatValue | src/utils/dateUtils.ts:48 | Zero-padding keeps the value. |
| Text.PadNatInjective | src/utils/dateUtils.ts:48 | Distinct numbers have distinct paddings. |
| Text.Includes | src/utils/analysis.ts:5 | `includes` holds iff the text occurs somewhere. |
| Text.Split | src/utils/analysis.ts:10 | `split` always yields at least one piece. |
| Text.SplitJoin | src/utils/analysis.ts:10 | Joining the pieces of a split with the separator gives the text back. |
| Text.SplitSingle | src/utils/analysis.ts:13-15 | A split gives one piece iff the separator character does not occur, and then that piece is the text. |
| Text.SplitLines | src/utils/parseData.ts:6 | Splitting at `\r\n` or `\n` yields at least one line. |
| Text.SplitLinesFree | src/utils/parseData.ts:6 | No line holds a newline. |
| Text.TrimShape | src/utils/parseData.ts:11 | `trim` removes white space from both ends only, leaving a text that neither starts nor ends with white space. |
| Text.TrimIdempotent | src/utils/parseData.ts:11 | Trimming twice is trimming once. |
| Text.ToLower | src/components/FileUpload.tsx:23 | Lower-casing keeps the length and maps each letter `A`-`Z` to lower case. |
| Text.ParseInt | src/utils/parseData.ts:35 | `parseInt` is a number iff a digit follows the leading white space and sign. |
| Text.ParseIntIntToString | src/utils/parseData.ts:35 | `parseInt` of a rendered integer gives the integer back. |
| Text.ToNumber | src/utils/salesAnalysis.ts:21 | `Number('')` is 0; any other numeric text is an optionally signed digit string. |
| Text.ToNumberNat | src/utils/salesAnalysis.ts:21 | `Number` of a rendered natural number gives it back. |
| Text.SortStringsSorted | src/utils/timeComparison.ts:94-97 | The default sort of distinct strings is strictly ascending. |
| Text.SortStringsSameElements | src/utils/timeComparison.ts:94-97 | Sorting keeps exactly the same strings. |
| Text.SortStringsPerm | src/utils/analysis.ts:64 | Sorting is a permutation. |
| Text.StrictlySortedLastTwo | src/utils/timeComparison.ts:115-116 | In a strictly sorted list the last two come in order, and every other entry precedes both. |
| Text.LexLessTotal | src/utils/timeComparison.ts:94 | The default order is total on distinct strings. |
| Text.LexLessTransitive | src/utils/timeComparison.ts:94 | The default order is transitive. |
| Sorting.SortBy | src/utils/analytics.ts:46 | A sort is a permutation of its input. |
| Sorting.SortBySorted | src/utils/analytics.ts:46 | The sort by descending score is non-increasing, keeps the length, and keeps exactly the same entries. |
| Sorting.SortByHead | src/components/analytics/ProductPerformance.tsx:121-122 | The first entry after the stable sort is the first entry of largest score. |
| Sorting.FirstBest | src/components/analytics/ProductPerformance.tsx:121-122 | The first entry of maximal score: no entry scores more, and none before it scores as much. |
| Sorting.SortByNoDups | src/components/analytics/ProductPerformance.tsx:76-79 | Sorting entries without duplicates keeps them without duplicates. |
| TimeComparison.FilterDataByPeriod | src/utils/timeComparison.ts:4-41 | The lines of the period, in input order. `FilterKeeps`, `FilterByKey` and `FilterByRange` state which. |
| TimeComparison.FilterKeeps | src/utils/timeComparison.ts:14-40 | A line is in the filtered slice iff it is in the input and in the period. |
| TimeComparison.FilterAppend | src/utils/timeComparison.ts:14-40 | Filtering keeps input order: it distributes over concatenation, and the slice is no longer than its input. |
| TimeComparison.FilterByKey | src/utils/timeComparison.ts:24-39 | For week, month, quarter and year, a line is kept iff its date parses and has the period as its key. |
| TimeComparison.FilterByRange | src/utils/timeComparison.ts:18-22 | For a custom range, a line is kept iff its date and both bounds parse and the date lies within the bounds, inclusive. |
| TimeComparison.FilterCustomWithoutRange | src/utils/timeComparison.ts:24-35 | A custom type without a range keeps nothing. |
| TimeComparison.CalculatePeriodMetrics | src/utils/timeComparison.ts:43-63 | Empty input gives zeros. Otherwise: the distinct order numbers, the distinct raw SKUs (each between 1 and the line count), and the total quantity. |
| TimeComparison.PeriodAverage | src/utils/timeComparison.ts:60 | The average times the order count is the total quantity. |
| TimeComparison.AvailableOf | src/utils/timeComparison.ts:65-99 | The four lists of available week, month, quarter and year keys. `AvailableKeysSpec` and `AvailableKeysSorted` state their contents and order. |
| TimeComparison.GetAvailablePeriods | src/utils/timeComparison.ts:65-99 | The one-pass fold over four sets gives, per granularity, the de-duplicated keys of the parseable lines, sorted. |
| TimeComparison.AvailableKeysSorted | src/utils/timeComparison.ts:93-98 | Each list of available keys is strictly ascending, so it has no duplicates. |
| TimeComparison.AvailableKeysSpec | src/utils/timeComparison.ts:75-91 | A key is available iff some line's date parses and has that key; lines with unparseable dates are skipped. |
| TimeComparison.AvailableEmpty | src/utils/timeComparison.ts:66-73 | Empty input has no available keys. |
| TimeComparison.GetInitialPeriods | src/utils/timeComparison.ts:101-124 | The initial selection: the two newest months, or none. `InitialPeriodsSpec` states it. |
| TimeComparison.InitialPeriodsSpec | src/utils/timeComparison.ts:101-124 | `null` iff fewer than two months. Otherwise: type month, empty custom bounds, and the second-newest and newest months as `period1 < period2`; every other month precedes `period1`. |
| ParseData.IndexOf | src/utils/parseData.ts:13-16 | `indexOf` is the first position of the header, or -1 iff it is absent. |
| ParseData.FindColumns | src/utils/parseData.ts:12-24 | Found columns are valid header positions. |
| ParseData.FindColumnsSpec | src/utils/parseData.ts:12-24 | The columns are found iff all four mapped headers are present, and then each position holds its header. Otherwise the error names the first missing field, in the order order_number, sku, quantity, date. |
| ParseData.SplitFields | src/utils/parseData.ts:29 | A line split at `,` with every value trimmed. |
| ParseData.ParseRow | src/utils/parseData.ts:29-60 | The line a data row makes, or none when the row is skipped. `ParseRowSpec` states when and what. |
| ParseData.ParseRowSpec | src/utils/parseData.ts:28-64 | A row is kept iff its value count is the header count, its quantity parses as a non-negative integer, its date parses, and its order number and SKU are non-empty. The line carries the row's values with the date re-rendered. |
| ParseData.RowLine | src/utils/parseData.ts:48-58 | A kept line has a non-negative quantity, a non-empty order number and SKU, and a rendered valid date. |
| ParseData.KeptRowsHas | src/utils/parseData.ts:26-66 | A line is kept iff some row makes it. |
| ParseData.KeptRowsAppend | src/utils/parseData.ts:26-66 | The kept lines follow the row order. |
| ParseData.ParseCSVData | src/utils/parseData.ts:4-77 | The read: the lines of the trimmed text, the header row, the mapped columns, and the kept data rows, failing as a whole. `ParseCSVDataFails` and `ParseCSVDataRows` state its outcome. |
| ParseData.ParseCSVDataKept | src/utils/parseData.ts:6-72 | A successful read has at least two lines and finds every mapped column, and returns the lines kept from the rows after the header. |
| ParseData.ParseCSVDataFails | src/utils/parseData.ts:4-77 | The read fails iff there are fewer than two lines, a mapped column is missing, or no row passes. The error says which: the line count first, then the missing column, then no rows. |
| ParseData.ParseCSVDataRows | src/utils/parseData.ts:26-72 | A successful read returns exactly the lines that data rows make. |
| ParseData.ParseCSVDataValid | src/utils/parseData.ts:48-58 | Every returned line has a non-negative quantity, a non-empty order number and SKU, and a `yyyy-MM-dd` date. |
| Analytics.MonthOverMonthGrowth | src/utils/analytics.ts:23-32 | The growth of line counts from the second-newest month to the newest. `GrowthSpec` and `GrowthPercent` state it. |
| Analytics.GrowthSpec | src/utils/analytics.ts:24-32 | With fewer than two months the growth is 0. With two or more, the second-newest month has at least one line. |
| Analytics.GrowthPercent | src/utils/analytics.ts:31-32 | Over a positive base the growth times the base is the change in percent, and it has the change's sign. |
| Analytics.GroupSize | src/utils/analytics.ts:25-29 | The line count of the `k`-th newest month, or 0 when there are fewer months. |
| Analytics.MonthGrowth | src/utils/analytics.ts:23-32 | The growth computed from the grouping is the month-over-month growth of line counts. |
| Analytics.SortedTotals | src/utils/analytics.ts:44-46 | The sorted SKU totals keep every SKU exactly once. |
| Analytics.TopSkusShape | src/utils/analytics.ts:44-47 | At most five top SKUs (fewer only when there are fewer SKUs), non-increasing by quantity. |
| Analytics.TopSkusTotals | src/utils/analytics.ts:35-47 | Each top SKU is a SKU of the input with its raw total quantity. |
| Analytics.TopSkusBest | src/utils/analytics.ts:44-47 | A SKU left out of the top five sells no more than any of them. |
| Analytics.TopSellingSkus | src/utils/analytics.ts:44-47 | The sort-and-slice of the totals record gives the top SKUs. |
| Analytics.AnalyticsOf | src/utils/analytics.ts:3-65 | The analytics of a list of lines. `AnalyticsSpec`, `AverageSpec` and the top-SKU lemmas state them. |
| Analytics.CalculateAnalytics | src/utils/analytics.ts:3-65 | The result is the specified analytics: zeros on empty input, otherwise distinct orders, average, top five and growth. |
| Analytics.AnalyticsSpec | src/utils/analytics.ts:4-60 | Empty input gives zeros. The order count is the number of distinct order numbers, between 1 and the line count on non-empty input. |
| Analytics.AverageSpec | src/utils/analytics.ts:56-60 | The average order size times the order count is the total quantity. |
| OrderAnalysis.PeriodData | src/components/analytics/OrderAnalysis.tsx:31-43 | One side's slice: the custom range's bounds for that side when the type is custom with a range, otherwise that side's period. `PeriodDataHas` states it. |
| OrderAnalysis.PeriodDataHas | src/components/analytics/OrderAnalysis.tsx:31-43 | With type custom and a range, a slice holds the lines within that side's bounds. With type custom and no range it is empty. Otherwise it holds the lines whose key is that side's period. |
| OrderAnalysis.PeriodDataAppend | src/components/analytics/OrderAnalysis.tsx:31-43 | A slice keeps input order and is no longer than the input. |
| OrderAnalysis.OrderSizesSum | src/components/analytics/OrderAnalysis.tsx:54-60 | The per-order sizes add up to the total quantity. |
| OrderAnalysis.OrderSizesCount | src/components/analytics/OrderAnalysis.tsx:54-64 | There is one size per distinct order number. |
| OrderAnalysis.MaxOf | src/components/analytics/OrderAnalysis.tsx:63 | `Math.max(...sizes)` is one of the sizes and no size exceeds it. |
| OrderAnalysis.OneRange | src/components/analytics/OrderAnalysis.tsx:66-69 | Every size lies in exactly one of the four ranges. |
| OrderAnalysis.RangesPartition | src/components/analytics/OrderAnalysis.tsx:66-69 | The four range counts add up to the number of sizes. |
| OrderAnalysis.CalculateMetrics | src/components/analytics/OrderAnalysis.tsx:53-72 | The Map filled line by line gives the specified metrics. |
| OrderAnalysis.MetricsOf | src/components/analytics/OrderAnalysis.tsx:53-72 | The metrics of a slice from its per-order sizes: average, maximum, order count and the four range counts. `MetricsSpec` and `MetricsMean` state them. |
| OrderAnalysis.MetricsSpec | src/components/analytics/OrderAnalysis.tsx:53-72 | The order count is the number of distinct order numbers, and the range counts add up to it. Empty input gives average and maximum 0. Otherwise the maximum is some order's total and no order's total exceeds it. |
| OrderAnalysis.MetricsMean | src/components/analytics/OrderAnalysis.tsx:62 | On non-empty input the average is the total quantity over the number of orders. |
| OrderAnalysis.ChartData | src/components/analytics/OrderAnalysis.tsx:77-81 | One chart row per size range, with the two periods' counts under their labels. `ChartDataSpec` states it. |
| OrderAnalysis.ChartDataSpec | src/components/analytics/OrderAnalysis.tsx:77-81 | Four rows in the order 1-2, 3-5, 6-10, 11+. Each carries the two periods' counts under the two labels; the second count wins when the labels coincide. |
| CustomerAnalysis.AddLine | src/components/analytics/CustomerAnalysis.tsx:54-72 | Adding a line to an order's entry: its quantity and one more line; the line's date becomes the last date when it is the order's first line or compares after the last date. `EntryCounts` and `EntryLatest` state the result. |
| CustomerAnalysis.EntryCounts | src/components/analytics/CustomerAnalysis.tsx:54-64 | An order's entry counts its items and its lines. |
| CustomerAnalysis.EntryLatest | src/components/analytics/CustomerAnalysis.tsx:59-69 | When every date is valid, the last order date is the latest of the order's dates. |
| CustomerAnalysis.EntryInvalidFirst | src/components/analytics/CustomerAnalysis.tsx:59-69 | An invalid first date stays: no comparison with it succeeds. |
| CustomerAnalysis.CalculateMetrics | src/components/analytics/CustomerAnalysis.tsx:53-84 | The reduce into per-order entries gives the specified metrics. |
| CustomerAnalysis.CustomerMetricsOf | src/components/analytics/CustomerAnalysis.tsx:74-83 | The customer count, average and item total. `CustomerMetricsSpec` and `CustomerAverage` state them. |
| CustomerAnalysis.CustomerMetricsSpec | src/components/analytics/CustomerAnalysis.tsx:74-76 | The customer count is the number of distinct order numbers, zero iff there are no lines. The items are the total quantity. |
| CustomerAnalysis.CustomerAverage | src/components/analytics/CustomerAnalysis.tsx:77 | The average is 0 without customers; otherwise it times the customer count is the item total. |
| CustomerAnalysis.GrowthRate | src/components/analytics/CustomerAnalysis.tsx:89-91 | The change in customers in percent of the first period's, or 0 without customers there. `GrowthLabelSpec` states its sign. |
| CustomerAnalysis.GrowthLabel | src/components/analytics/CustomerAnalysis.tsx:139 | `Increase` for a positive rate, `Decrease` for a negative one, `No Change` otherwise. |
| CustomerAnalysis.GrowthLabelSpec | src/components/analytics/CustomerAnalysis.tsx:89-91 | Increase iff the first period has orders and the second more; Decrease iff it has orders and the second fewer; No Change otherwise. |
| ProductPerformance.StatsOf | src/components/analytics/ProductPerformance.tsx:54-63 | A statistics record holds one entry per distinct SKU with its quantity and line count. `ProcessData` establishes it. |
| ProductPerformance.StatsCounts | src/components/analytics/ProductPerformance.tsx:55-62 | A SKU's accumulator holds its total quantity and its line count. |
| ProductPerformance.ProcessData | src/components/analytics/ProductPerformance.tsx:54-63 | One entry per distinct SKU, in first-appearance order, with its quantity and line count. |
| ProductPerformance.StatsQuantity | src/components/analytics/ProductPerformance.tsx:73-74 | `stats[sku]?.quantity \|\| 0` is the SKU's quantity in the period, 0 when absent. |
| ProductPerformance.RowValues | src/components/analytics/ProductPerformance.tsx:71-79 | A row holds the two quantity keys. The sort score is the sum of the two quantities, or twice the second when the labels coincide. |
| ProductPerformance.AllSkus | src/components/analytics/ProductPerformance.tsx:69 | The SKUs of both periods, de-duplicated. `AllSkusSpec` states it. |
| ProductPerformance.AllSkusSpec | src/components/analytics/ProductPerformance.tsx:69-70 | The chart candidates are the SKUs of either period, each once, the first period's first. |
| ProductPerformance.ComparisonChart | src/components/analytics/ProductPerformance.tsx:70-80 | The rows sorted by combined quantity, the first ten. `ChartShape`, `ChartRows`, `ChartDistinct` and `ChartBest` state it. |
| ProductPerformance.ChartShape | src/components/analytics/ProductPerformance.tsx:76-80 | At most ten rows (fewer only with fewer SKUs), non-increasing by combined quantity. |
| ProductPerformance.ChartDistinct | src/components/analytics/ProductPerformance.tsx:69-80 | No SKU is charted twice. |
| ProductPerformance.ChartRows | src/components/analytics/ProductPerformance.tsx:69-80 | Each row is a candidate SKU with its two periods' quantities, 0 where absent. |
| ProductPerformance.ChartBest | src/components/analytics/ProductPerformance.tsx:76-80 | A SKU left off the chart scores no more than any charted row. |
| ProductPerformance.TopSkuOf | src/components/analytics/ProductPerformance.tsx:121-122 | The first key of the statistics sorted by quantity, or `N/A`. `TopSkuSpec` states it. |
| ProductPerformance.TopSkuSpec | src/components/analytics/ProductPerformance.tsx:121-132 | `N/A` for an empty period. Otherwise the first SKU of largest quantity, or `N/A` when that SKU is the empty string. |
| ProductPerformance.BestQuantities | src/components/analytics/ProductPerformance.tsx:121-122 | The first best entry of the totals is the first SKU to sell the most. |
| ProductPerformance.TopSku | src/components/analytics/ProductPerformance.tsx:121-122 | The sort of the statistics picks the top SKU. |
| ProductPerformance.ProductPanel | src/components/analytics/ProductPerformance.tsx:65-132 | The panel's chart and both top SKUs are those of the two period slices. |
| AppState.PeriodsOfTypeAvailable | src/App.tsx:105-106 | `availablePeriods[type + 's']` is the sorted available keys of that granularity. |
| AppState.InitialSlicesEmpty | src/App.tsx:24-34 | Under the initial selection both compared slices are empty, whatever the lines. |
| AppState.KeySliceNonEmpty | src/App.tsx:105-113 | A period taken from the available keys has a non-empty slice. |
| AppState.TypeChanged | src/App.tsx:92-116 | The selection after a type change. `TypeChangedToCustom`, `TypeChangedTooFew` and `TypeChangedToKey` state it by case. |
| AppState.TypeChangedToCustom | src/App.tsx:93-103 | Choosing custom sets the type, keeps both periods and clears the four bounds, so both slices are empty. |
| AppState.TypeChangedTooFew | src/App.tsx:105-115 | With fewer than two keys of the chosen granularity, the selection is left entirely unchanged. |
| AppState.TypeChangedToKey | src/App.tsx:105-113 | With at least two keys: the type, no custom range, and the two newest keys in order, every other key preceding both. |
| AppState.TypeChangedSlices | src/App.tsx:105-113 | After such a change both compared slices are non-empty. |
| AppState.PeriodsChanged | src/App.tsx:118-124 | The selection with new periods. `PeriodsChangedSlices` states it. |
| AppState.CustomRangeChanged | src/App.tsx:126-137 | The selection with type custom and the new range. `CustomRangeChangedSlices` states it. |
| AppState.PeriodsChangedSlices | src/App.tsx:118-124 | Only the periods change. A custom range still decides the slices; otherwise the slices follow the new periods. |
| AppState.CustomRangeChangedSlices | src/App.tsx:126-137 | The periods are kept, and the slices become the lines within the new ranges. |
| AppState.SelectionAfterParse | src/App.tsx:49-52 | The initial periods of the new lines when there are any, else the old selection. `SelectionAfterParseSpec` states it. |
| AppState.SelectionAfterParseSpec | src/App.tsx:49-52 | With fewer than two months the selection is kept. Otherwise it becomes the initial selection, and both its slices are non-empty. |
| AppState.NextSelection | src/App.tsx:92-116 | Computing the next selection for a type change gives the specified transition. |
| AppState.App.constructor | src/App.tsx:12-34 | No lines, and the initial selection. |
| AppState.App.HandlePeriodTypeChange | src/App.tsx:92-116 | The lines stay; the selection makes the type-change transition. |
| AppState.App.HandlePeriodChange | src/App.tsx:118-124 | The lines stay; only the two periods are replaced. |
| AppState.App.HandleCustomRangeChange | src/App.tsx:126-137 | The lines stay; the type becomes custom with the new range, and the periods are kept. |
| AppState.App.HandleFileLoaded | src/App.tsx:36-59 | A failed read raises the alert and changes nothing. A successful one stores the lines and applies the initial selection when there is one. |
| TimeComparisonSelector.WithField | src/components/TimeComparisonSelector.tsx:39 | Editing a field sets that field and keeps the other three. |
| TimeComparisonSelector.WithFieldSame | src/components/TimeComparisonSelector.tsx:39 | Writing back a field's own value changes nothing. |
| TimeComparisonSelector.InputFrom | src/components/TimeComparisonSelector.tsx:22-36 | Without a range every input is empty; with one, the inputs are its bounds. |
| TimeComparisonSelector.AcceptedSpec | src/components/TimeComparisonSelector.tsx:42-48 | The guard passes iff all four bounds are valid dates with `start1 <= end1 < start2 <= end2`. The emptiness test is implied by validity. |
| TimeComparisonSelector.AcceptedDisjoint | src/components/TimeComparisonSelector.tsx:42-49 | A range the guard lets through never puts a line in both compared slices. |
| TimeComparisonSelector.Selector.constructor | src/components/TimeComparisonSelector.tsx:22-27 | The first render reads the dashboard's range. |
| TimeComparisonSelector.Selector.Resync | src/components/TimeComparisonSelector.tsx:29-36 | The effect re-reads the dashboard's range. |
| TimeComparisonSelector.Selector.HandleCustomDateChange | src/components/TimeComparisonSelector.tsx:38-52 | The edit always reaches the local input, even when invalid. The callback fires iff the new input is complete and ordered, and then receives exactly that input. |
| FileUpload.FindIndex | src/components/FileUpload.tsx:46-49 | `find` gives the first header whose lower-case text contains the keyword, or none iff no header does. |
| FileUpload.FindHeader | src/components/FileUpload.tsx:46-49 | `find(...) \|\| ''`: the first header mentioning the keyword, or the empty string. `FindHeaderSpec` states it. |
| FileUpload.AutoMapping | src/components/FileUpload.tsx:45-51 | The four guessed columns for order, SKU, quantity and date. `FindHeaderSpec` and `AutoMappingFindsColumns` state them. |
| FileUpload.FindHeaderSpec | src/components/FileUpload.tsx:45-51 | A field is mapped iff some header mentions its keyword, and then to the first such header. |
| FileUpload.InHeaders | src/components/FileUpload.tsx:45-51 | A guessed header is one of the headers. |
| FileUpload.AutoMappingFindsColumns | src/components/FileUpload.tsx:45-51 | A complete guess lets the reader find every mapped column. |
| FileUpload.AcceptedTextReads | src/components/FileUpload.tsx:35-51 | A text the panel accepts and fully maps fails to read only for want of valid rows. |
| FileUpload.Uploader.constructor | src/components/FileUpload.tsx:10-20 | No file, no headers, four unmapped fields. |
| FileUpload.Uploader.ProcessFile | src/components/FileUpload.tsx:22-61 | Without a MIME type and a `.csv` name (any case), the file is refused and nothing changes. Fewer than two lines clear the file and headers and keep the mapping. Otherwise: the headers from the first line, the file selected, the mapping guessed. |
| FileUpload.Uploader.ConfirmMapping | src/components/FileUpload.tsx:87-93 | The file and mapping are forwarded iff a file is selected and all four fields are mapped; otherwise the alert. Nothing changes. |

## Left out

- Reading files (`FileReader`), `alert`, `console` logging, DOM lookups, React rendering and hooks: the model takes the text read as a parameter and returns alerts as values.
- PDF export (`pdfExport.ts`) and every presentation-only component. That includes `SeasonalTrends`, which only combines the modelled filter and metrics.
- `FieldMapper`'s validity check duplicates `FileUpload.Uploader.ConfirmMapping`. `PredictionAdjustment` only converts a slider value.
- `ComparisonMetrics` divides by a zero baseline into IEEE infinities. IEEE floating point is not modelled; averages and growth are exact reals, and `Math.round` is `floor(x + 1/2)`.
- Time zones: `new Date('yyyy-MM-dd')` is read as UTC while `getMonth` and `format` use local time. The model reads every date as a calendar day.
- `new Date(str)` is modelled only for strict `yyyy-MM-dd` text with a valid day. Other strings JavaScript accepts (times, month names, two-part dates) are treated as invalid.
- `Number` and `parseInt` are modelled on optionally signed digit strings, with `Number('')` equal to 0. Decimals, exponents and hex are not modelled.
- `toLowerCase` is modelled on ASCII letters only; no other Unicode case mapping.
- The order of integer-like keys in JavaScript objects (ascending, ahead of insertion order) is not modelled. Records keep insertion order for every key, so ties in the sorts fall in first-appearance order.
- Prototype-inherited keys such as `constructor` in `{}` records are not modelled.
- Analysis.PredictNextMonths: returns no forecast on empty history instead of the NaN-filled months JavaScript would compute.
- AppState.App.HandleFileLoaded: the `parsedData.length === 0` guard is unreachable, because `parseCSVData` throws first, so it is not modelled.
- FileUpload.Uploader.ProcessFile: the `typeof text !== 'string'` check and the drag-and-drop path are not modelled. The text is always a string here.
- `CustomerAnalysis`'s charted "Total Items" row, and the other display-only parts of the three panels, are not modelled.
- The three panels build their period slices with identical code; it is modelled once, as `OrderAnalysis.PeriodData`.
- The synthetic-order split drops the remainder of a forecast. The model states that shortfall (`Analysis.SimulateSku`); it does not redistribute it.
- Dates.MakeDate: builds the calendar date without the time-value limit of about 8.64e15 ms (20 April -271821 to 13 September 275760). The limit is `Dates.InTimeRange`, applied where the source checks `getTime()`: in `parseDate` and in `formatPeriod`'s month label. Local-time offsets on the boundary days are not modelled.
