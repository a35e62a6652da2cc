# Sales forecast and plan desktop tool — a Dafny model of its core

The application is a PyQt desktop tool for a cosmetics distributor. This project models
its data-handling core in Dafny and proves properties of that model:

- **Forecast and plan** (`forecast_w.py`). The daily revenue history of the last year
  goes into a gap-filled grid, one series per product. Products whose history adds up
  to more than zero are forecast. For each of the next 30 days, the raw model
  prediction (`yhat`) of each such product passes through five multiplicative rules:
  season, product-linked marketing, shelf life, pH and client engagement. The result
  is clamped at zero. A plan markup of 5 %, or 10 % while any marketing activity runs,
  then gives the plan. The rows are saved into the `sales_plan` table by
  (date, product): a hit updates the row, a miss inserts one. The counts of each are
  returned, and there is one commit at the end.
- **Sales report** (`analytics_w.py`, `build_report`). Sales are totalled per day. The
  stored forecast and plan of the day sit next to the total, with the completion
  percentage or "-". Plan-only days are merged in. The summary is sorted by date, the
  order lines are shown in detail, and the chart series are built.
- **Overview tab** (`main_tab.py`). There are day, week and month modes. The
  previous and next arrows step through the calendar, and the date range handed to
  the report is the current day, its Monday-to-Sunday week or its calendar month.
- **Stock tab** (`stok_w.py`). The product list is sorted in place by shelf life,
  with one frame per product. Products that keep fewer than 60 days are flagged in red.

Module layout:

- `dates.dfy` (`Dates`): Python's `datetime.date` — day arithmetic, ordinal, weekday
  and ordering.
- `isodate.dfy` (`IsoDate`): `strptime(s, "%Y-%m-%d")`.
- `adjustment.dfy` (`Adjustment`): the factor chain and the plan factor.
- `clients.dfy` (`ClientActivity`): `get_client_activity`.
- `revenue.dfy` (`RevenueGrid`): the history grid.
- `upsert.dfy` (`PlanUpsert`): the store reconciliation.
- `forecast.dfy` (`ForecastPlan`): the forecast rows and the widget.
- `report.dfy` (`Report`), `overview.dfy` (`Overview`), `stock.dfy` (`Stock`).
- `wrappers.dfy` (`Wrappers`): `Option`.

Where the source loops and updates state, the model does the same:
- methods with loop invariants;
- classes whose fields the methods update;
- an in-place `array` sort.

Each loop method is either proved equal to a specification function, whose
properties are then lemmas, or specified directly by the properties in its `ensures`
(the stock sort, the sales grid methods and the overview handlers).

Points where the code and the written description of the system disagree; the model
follows the code:
- The history window is `pd.date_range(date_from, date_to)` with both ends included.
  That is 366 days, not 365.
- A failing model fit for one product is not caught per product. The whole run ends
  in the method's own exception handler (forecast_w.py:349-354), which leaves
  forecast_data as it was. That handler is not modelled. Apart from it, a run ends in
  one of four ways: rows built, or one of three early warnings (no products, no sales
  history, nothing forecastable).
- The client-engagement factor is, in exact arithmetic, always 1. The deviations from
  the mean cancel (`Adjustment.EngagementFactorIsOne`).
- The plan markup checks only whether some activity runs on the date. It does not
  check whether that activity lists the product (`Adjustment.PlanBoostWithoutLink`).

## Model

| member | source | states |
|---|---|---|
| Dates.DaysInMonth | main_tab.py:187-188 | a month has 28 to 31 days, and 29 exactly for February of a leap year |
| Dates.NextDay | main_tab.py:170 | the next day is strictly later |
| Dates.PrevDay | main_tab.py:156 | the previous day is strictly earlier |
| Dates.LeIffOrdinal | forecast_w.py:268 | comparing dates field by field agrees with comparing their ordinals, and equal ordinals mean equal dates |
| Dates.AddDaysOrdinal | main_tab.py:147 | moving n days (timedelta) moves the ordinal by exactly n |
| Dates.AddDaysCancel | main_tab.py:147 | moving n days and back returns the same day |
| Dates.AddDaysOrder | forecast_w.py:137-139 | date + n days is not earlier than the date exactly when n >= 0, and not later exactly when n <= 0 |
| Dates.AddDaysCompose | main_tab.py:175-176 | two moves compose into one move by the sum |
| Dates.AddDaysInjective | forecast_w.py:137 | different offsets give different days |
| IsoDate.SplitMonth | forecast_w.py:158 | an accepted month field is 1..12, and the rest of the text is shorter |
| IsoDate.ParseIsoDate | forecast_w.py:156-162 | an accepted text yields a calendar date (the result type admits no impossible day) with a year in 1..9999, and has a length of 8 to 10 with '-' after the four-digit year |
| IsoDate.FormatIsoDate | forecast_w.py:158 | an ISO text is ten characters with dashes at 4 and 7 |
| IsoDate.ParseFormatRoundTrip | forecast_w.py:158 | every date of years 1..9999, written in ISO form, parses back to itself |
| IsoDate.ParseCanonical | forecast_w.py:158 | a ten-character accepted text whose day is not space-padded is the ISO form of the parsed date |
| IsoDate.RefusesImpossibleDates | forecast_w.py:157-162 | 2023-02-29, year 0 and month 13 are refused; the unpadded 2024-1-5 is accepted |
| Adjustment.NormalizeShelfLife | forecast_w.py:155-162 | a text becomes a date exactly when strptime accepts it and None otherwise; no text survives; other values are kept |
| Adjustment.InfoOf | forecast_w.py:163-167 | product_info keeps the name and pH and the normalised shelf life |
| Adjustment.SeasonalFactor | forecast_w.py:266 | 1.1 exactly in months 3, 4, 5, 9, 10, 11, otherwise 1.0 |
| Adjustment.ScanPromotes | forecast_w.py:267-271 | the in-order scan is true exactly when some activity is active on the day (bounds inclusive) and lists the product |
| Adjustment.ScanActive | forecast_w.py:283 | the in-order scan is true exactly when some activity is active on the day |
| Adjustment.MarketingFactor | forecast_w.py:267-271 | 1.1 exactly when an activity active on the day lists the product, otherwise 1.0 |
| Adjustment.ShelfLifeFactor | forecast_w.py:272-274 | 0.5 exactly when the shelf life is a date not after the day; a day count, None or an unparsed text give 1.0 |
| Adjustment.PhFactor | forecast_w.py:275-276 | 1.2 exactly when pH is present and in [5.0, 6.0] (zero is outside that range anyway), otherwise 1.0 |
| Adjustment.Divisor | forecast_w.py:247 | `avg or 1` is never zero |
| Adjustment.ClientAdjustments | forecast_w.py:247-248 | one adjustment per client, each 1 + 0.05 (count - avg) / (avg or 1) |
| Adjustment.SumOfAdjustments | forecast_w.py:247-248 | the adjustments add up to n plus the scaled sum of deviations |
| Adjustment.DeviationsCancel | forecast_w.py:246 | the deviations from avg add up to sum - n * avg |
| Adjustment.EngagementFactorIsOne | forecast_w.py:246-248 | the engagement factor is exactly 1.0 for every list of order counts, empty or not |
| Adjustment.Factors | forecast_w.py:266-277 | exactly five factors per product and day |
| Adjustment.FactorProductPositive | forecast_w.py:279 | positive factors have a positive product |
| Adjustment.FactorProductUpdate | forecast_w.py:279 | setting one neutral factor to k multiplies the product by k |
| Adjustment.AdjustedForecast | forecast_w.py:278-280 | the adjusted forecast is never negative, and for a non-negative raw value and a non-negative factor product it is raw times that product |
| Adjustment.AdjustedIsProduct | forecast_w.py:278-280 | the factor product of the chain is positive, so the clamp gives raw times that product for a non-negative raw value and 0 for a non-positive one |
| Adjustment.ToggleOneFactor | forecast_w.py:266-280 | switching one rule on scales the adjusted forecast by exactly that rule's multiplier |
| Adjustment.PlanFactor | forecast_w.py:282-284 | 1.10 exactly when any activity runs on the day, otherwise 1.05 |
| Adjustment.PlanValue | forecast_w.py:291 | the plan of a non-negative forecast is at least the forecast |
| Adjustment.PlanClampIsNeutral | forecast_w.py:285-291 | for a non-negative forecast the stored plan of line 291 is non-negative and is forecast * 1.10 or forecast * 1.05, so the max(0, ·) of line 285 never changes it |
| Adjustment.PromotionImpliesPlanBoost | forecast_w.py:267-284 | a promoted product always gets the 10 % plan markup |
| Adjustment.PlanBoostWithoutLink | forecast_w.py:283-284 | an activity that lists no product still raises the plan factor while leaving the marketing factor at 1.0 |
| Adjustment.QueryActivities | forecast_w.py:251-254 | the query keeps only activities overlapping the forecast horizon, all taken from the table |
| Adjustment.PrefilterKeepsActive | forecast_w.py:251-254 | an activity active on a horizon day survives the query filter |
| Adjustment.PrefilterPreservesFactors | forecast_w.py:251-254 | on a horizon day both marketing rules give the same factor with or without the filter |
| Adjustment.AprilPromotionExample | forecast_w.py:265-291 | raw 1000 in April, promoted, pH 5.5, gives forecast 1452 and plan 1597.2 |
| ClientActivity.StatsOf | forecast_w.py:124 | a NULL average check becomes 0, and the order count is kept |
| ClientActivity.Put | forecast_w.py:124 | a dictionary store keeps keys distinct, holds the new entry, keeps every other client's entry, grows only for a new client and then appends it at the end |
| ClientActivity.ActivityItems | forecast_w.py:124 | the dictionary has distinct clients, exactly the clients of the rows, at most one per row |
| ClientActivity.GetClientActivity | forecast_w.py:108-129 | a failed query gives an empty dictionary |
| ClientActivity.ActivityKeepsGroupedRows | forecast_w.py:121-124 | rows grouped by client become one item each, in query order |
| ClientActivity.ActivityTakesLastRow | forecast_w.py:124 | the entry built from a client's last row is the one in the dictionary |
| ClientActivity.OrderCounts | forecast_w.py:246 | the order counts in dictionary order |
| ClientActivity.ClientActivityIsNeutral | forecast_w.py:245-248 | the engagement factor of any query outcome is 1.0 |
| RevenueGrid.SumRevenueNonNegative | forecast_w.py:204 | non-negative revenues add up to a non-negative cell |
| RevenueGrid.SumRevenueAbsent | forecast_w.py:204 | a (day, product) without rows has revenue 0 |
| RevenueGrid.AccumulateSales | forecast_w.py:198-204 | the dictionary has exactly the sale days; each cell is the sum of its rows, and a cell exists exactly when a row has that day and product |
| RevenueGrid.FillMissingDays | forecast_w.py:206-209 | every window day gets an entry; existing days are unchanged; new days hold 0 for every known product; no cell value changes |
| RevenueGrid.HistoryWindow | forecast_w.py:138-139 | 366 consecutive days from date_from |
| RevenueGrid.HistoryWindowShape | forecast_w.py:138-139 | the window ends yesterday, lies before today and is strictly increasing |
| RevenueGrid.Series | forecast_w.py:214-217 | one value per window day, each the revenue of that day |
| RevenueGrid.SeriesComplete | forecast_w.py:206-217 | every grid value is non-negative and 0 where nothing sold |
| RevenueGrid.SeriesTotalNonNegative | forecast_w.py:219-221 | the series total is never negative |
| RevenueGrid.ForecastableIds | forecast_w.py:213-223 | a product is selected exactly when it is in the catalogue and its total is positive |
| RevenueGrid.ForecastableIdsDistinct | forecast_w.py:213 | with unique product ids the selected ids are distinct |
| RevenueGrid.SelectForecastable | forecast_w.py:212-223 | the nested loops select exactly ForecastableIds |
| PlanUpsert.EntryOf | forecast_w.py:383-394 | the stored values are round(plan, 2) and round(forecast, 2) |
| PlanUpsert.RowKeys | forecast_w.py:372-373 | a key is present exactly when some row has it |
| PlanUpsert.CountsAddUp | forecast_w.py:365-398 | inserts plus updates equal the number of rows |
| PlanUpsert.UpsertKeys | forecast_w.py:381-398 | the stored keys afterwards are the old keys plus the rows' keys |
| PlanUpsert.UpsertLeavesOthers | forecast_w.py:376-398 | keys no row has keep their stored values |
| PlanUpsert.UpsertTakesLatest | forecast_w.py:381-398 | a key some row has holds the last such row's rounded values |
| PlanUpsert.InsertsGrowStore | forecast_w.py:388-397 | each insert adds exactly one stored row |
| PlanUpsert.UpsertIgnoresReplacedRows | forecast_w.py:376-398 | old values under the rows' keys do not affect the result |
| PlanUpsert.NoInsertsWhenAllStored | forecast_w.py:381-387 | when every key is stored, every row is an update |
| PlanUpsert.UpsertIdempotent | forecast_w.py:356-410 | saving the same rows again changes nothing, inserts nothing and updates every row |
| PlanUpsert.CountsForDistinctKeys | forecast_w.py:365-398 | with distinct keys, inserts are the keys not yet stored and updates are those already stored |
| PlanUpsert.InsertThenUpdateExample | forecast_w.py:381-398 | a first save inserts one row; a re-save updates it to the new forecast |
| ForecastPlan.ForecastDates | forecast_w.py:135-137 | 30 days, today plus 0..29 |
| ForecastPlan.ForecastDatesShape | forecast_w.py:137 | the days start today and strictly increase |
| ForecastPlan.InfoMap | forecast_w.py:152-167 | product_info has exactly the catalogue ids |
| ForecastPlan.InfoMapTakesLast | forecast_w.py:163-167 | an id holds the normalised record of its last product |
| ForecastPlan.BuildProductInfo | forecast_w.py:152-167 | the loop builds exactly InfoMap |
| ForecastPlan.RowFor | forecast_w.py:278-292 | a row has the day, the product and its name, a non-negative forecast and a plan at least the forecast |
| ForecastPlan.RowForValues | forecast_w.py:278-291 | the row's forecast is the clamped adjusted prediction, and its plan is forecast * plan factor |
| ForecastPlan.RowsOn | forecast_w.py:262-292 | a day gives at most one row per product, each on that day and for one of the products |
| ForecastPlan.ForecastRows | forecast_w.py:258-292 | every row has a forecast day and a forecastable product |
| ForecastPlan.BuildDayRows | forecast_w.py:262-292 | the inner loop builds exactly RowsOn for its day |
| ForecastPlan.BuildRows | forecast_w.py:258-292 | the outer loop builds exactly ForecastRows, day by day |
| ForecastPlan.RowsOnMembers | forecast_w.py:262-292 | a day's rows are exactly RowFor of the products predicted on that day |
| ForecastPlan.ForecastRowsMembers | forecast_w.py:261-292 | forecast_data holds exactly one RowFor per predicted (day, product) |
| ForecastPlan.RowsOnComplete | forecast_w.py:262-264 | with a prediction for every product, a day has one row per product |
| ForecastPlan.ForecastRowsComplete | forecast_w.py:261-264 | with full predictions there are days * products rows |
| ForecastPlan.RowsOnDistinct | forecast_w.py:262-292 | distinct products give rows with distinct keys |
| ForecastPlan.ForecastRowsDistinct | forecast_w.py:261-292 | distinct days and products give distinct (date, product) keys |
| ForecastPlan.ProductIds | forecast_w.py:209 | the ids of the catalogue, in order |
| ForecastPlan.ForecastableHaveInfo | forecast_w.py:213 | every selected product has a product_info entry |
| ForecastPlan.ForecastRun | forecast_w.py:131-292 | an empty catalogue gives the no-products warning, and an empty history the no-sales warning. With both present, no product of positive revenue gives the no-forecast warning (lines 236-242), and otherwise the run builds rows |
| ForecastPlan.ForecastRunRows | forecast_w.py:131-292 | each row of a run falls in the 30-day horizon, has a positive history and a prediction, its forecast is the clamped raw value times the five rules (engagement 1), and its plan is the marked-up forecast |
| ForecastPlan.SaveCountsOfRun | forecast_w.py:356-398 | saving a run counts missing keys as inserts and present keys as updates |
| ForecastPlan.ForecastWidget.constructor | forecast_w.py:21-25 | creating the widget runs a build, which sets forecast_data exactly when the run succeeds |
| ForecastPlan.ForecastWidget.BuildForecastAndPlan | forecast_w.py:131-292 | the method's outcome is ForecastRun; forecast_data is replaced only on success; the store is untouched |
| ForecastPlan.ForecastWidget.SaveForecastAndPlan | forecast_w.py:356-410 | without forecast_data it fails and stores nothing; with empty data it warns; otherwise a commit stores UpsertAll and reports both counters, and a failed commit rolls back |
| Report.ForecastByDate | analytics_w.py:162 | the keys are the plan dates |
| Report.PlanByDate | analytics_w.py:163 | the keys are the plan dates |
| Report.ByDateTakesLast | analytics_w.py:162-163 | a date holds the sums of its last plan row |
| Report.Get | analytics_w.py:173-174 | `get(d, 0)` is 0 for a missing date and the stored value otherwise |
| Report.CompletionOf | analytics_w.py:175-178 | "-" exactly when the plan is not positive; otherwise the share of sales over plan |
| Report.CompletionMeans | analytics_w.py:176 | percentage * plan = 100 * sales; 100 % exactly when the plan is met, and at least 100 % exactly when it is reached |
| Report.SummaryOf | analytics_w.py:179 | the row carries its day and its sales |
| Report.SummaryFor | analytics_w.py:170-179 | the row shown for a day carries that day |
| Report.SalesTotalAbsent | analytics_w.py:172 | a day without sales totals 0 |
| Report.SalesTotalStep | analytics_w.py:172 | one more line adds its total to its own day only |
| Report.SalesTotalAppend | analytics_w.py:170-172 | day totals add over split batches of rows |
| Report.SalesTotalNonNegative | analytics_w.py:172 | non-negative lines give a non-negative total |
| Report.PlanOnlyRow | analytics_w.py:184-191 | a plan-only day shows sales 0, its own forecast and plan, and 0 % or "-" |
| Report.SalesOnlyRow | analytics_w.py:173-178 | a sales-only day shows forecast 0, plan 0 and "-" |
| Report.Insert | analytics_w.py:239 | insertion adds exactly one element |
| Report.InsertSorted | analytics_w.py:239 | insertion keeps a date-sorted list sorted |
| Report.SortBy | analytics_w.py:239 | sorting is a permutation |
| Report.SortBySorted | analytics_w.py:239 | the sorted list is in non-decreasing date order |
| Report.StrictlySortedUnique | analytics_w.py:313 | two strictly increasing date lists with the same dates are equal |
| Report.SortByDateStrict | analytics_w.py:239 | rows with distinct dates sort into strictly increasing dates, the same rows |
| Report.ChartDatesAreSummaryDates | analytics_w.py:313 | the chart's sorted date set is the summary's date column |
| Report.SalesScanKeys | analytics_w.py:170-172 | sales_by_date has exactly the sale dates |
| Report.SalesScanTotals | analytics_w.py:170-172 | sales_by_date holds each date's total |
| Report.SalesScanRows | analytics_w.py:173-179 | each summary row is the row of its date's final total |
| Report.SalesScanOrder | analytics_w.py:179 | the insertion order lists each summary date once |
| Report.SalesScanDetails | analytics_w.py:181 | details copy the sales rows one for one, in order |
| Report.SalesPass | analytics_w.py:169-181 | the sales loop computes exactly SalesScan |
| Report.PlanScanKeys | analytics_w.py:184-191 | the plan pass adds exactly the plan dates |
| Report.PlanScanRows | analytics_w.py:184-191 | existing rows stay; each new date gets a row with sales 0 |
| Report.PlanScanOrder | analytics_w.py:184-191 | the insertion order still lists each date once |
| Report.PlanPass | analytics_w.py:183-191 | the plan loop computes exactly PlanScan |
| Report.TableValues | analytics_w.py:239 | `summary_rows.values()` in insertion order |
| Report.ReportTable | analytics_w.py:165-191 | after both loops there is one row per report date, each the row that date shows |
| Report.TableValuesDistinct | analytics_w.py:239 | the table's rows have distinct dates |
| Report.SortedRows | analytics_w.py:239 | sorting a table's rows gives each date once with its row |
| Report.SortedSummary | analytics_w.py:239 | the sorted summary has strictly increasing dates, one per report date, each with its row |
| Report.ChartSeries | analytics_w.py:313-317 | one chart point per date, with `get(d, 0)` of the three dictionaries |
| Report.ChartMatchesSummary | analytics_w.py:313-317 | over the summary dates, the chart shows each day's summary values |
| Report.BuildReport | analytics_w.py:162-191 | details copy the rows; the summary has strictly increasing dates, exactly the report dates, each with its row; the chart matches the summary point for point |
| Overview.NextMonthStart | main_tab.py:182-187 | day 1 of the next month, and after December day 1 of January of the next year |
| Overview.PrevMonthStart | main_tab.py:149-154 | day 1 of the previous month, and before January day 1 of December of the previous year |
| Overview.WeekdayShift | main_tab.py:175 | moving n days moves the weekday by n modulo 7 |
| Overview.WeekStartIsMonday | main_tab.py:175 | the week starts on a Monday |
| Overview.WeekRangeWeekdays | main_tab.py:174-177 | the week runs from a Monday to a Sunday |
| Overview.WeekRangeHoldsDate | main_tab.py:174-177 | the week holds the date and spans seven days |
| Overview.WeekdayInWeek | main_tab.py:175 | the k-th day after a Monday is weekday k |
| Overview.DaysOfWeek | main_tab.py:174-177 | each of the seven days from a Monday has that Monday's week |
| Overview.MonthRangeShape | main_tab.py:180-189 | the month range is from the first to the last day of the calendar month |
| Overview.MonthRangeContains | main_tab.py:180-189 | the month range holds the date |
| Overview.RangeHoldsDate | main_tab.py:100-106 | the range of every mode holds the current date; day mode is the date alone |
| Overview.NextRangeFollows | main_tab.py:159-171 | after ">>" the range starts the day after the old range ended |
| Overview.PrevRangePrecedes | main_tab.py:145-157 | after "<<" the range ends the day before the old range started |
| Overview.NextThenPrev | main_tab.py:145-171 | ">>" then "<<" returns to the same date, or to day 1 of the month in month mode |
| Overview.PrevThenNext | main_tab.py:145-171 | "<<" then ">>" returns to the same date, or to day 1 of the month in month mode |
| Overview.OverviewWidget.constructor | main_tab.py:31-39 | a new tab is in week mode on today's date, with the week button checked and the week shown |
| Overview.OverviewWidget.LoadData | main_tab.py:100-110 | the report range becomes the range of the mode and date; nothing else changes |
| Overview.OverviewWidget.OnWeekClicked | main_tab.py:112-117 | week mode, only the week button checked, the week shown, the date kept |
| Overview.OverviewWidget.OnMonthClicked | main_tab.py:119-124 | month mode, only the month button checked, the month shown, the date kept |
| Overview.OverviewWidget.OnDayClicked | main_tab.py:126-143 | a picked date gives day mode on that date; a cancel falls back to week mode on the old date; the buttons match the mode |
| Overview.OverviewWidget.OnPrevClicked | main_tab.py:145-157 | the date steps back by StepPrev, the mode and buttons are kept, and the new range is shown |
| Overview.OverviewWidget.OnNextClicked | main_tab.py:159-171 | the date steps forward by StepNext, the mode and buttons are kept, and the new range is shown |
| Overview.ExactlyOneChecked | main_tab.py:112-142 | buttons that match the mode have exactly one checked |
| Stock.StyleFor | stok_w.py:81-98 | the warning style exactly below 60 days of shelf life, the normal style otherwise |
| Stock.StyleMonotone | stok_w.py:82 | a product that keeps no longer than a flagged one is flagged |
| Stock.InsertDown | stok_w.py:56 | one insertion step extends the sorted prefix by one element and is a permutation |
| Stock.SortByShelfLife | stok_w.py:56 | the array ends up in non-decreasing shelf-life order, as a permutation of its old contents |
| Stock.FrameFor | stok_w.py:59-61 | a frame shows its product with that product's style |
| Stock.FrameItems | stok_w.py:58-77 | one frame per product, in list order |
| Stock.ShownFrameItems | stok_w.py:58-79 | reading the products back from the frames (and the stretch) gives the list |
| Stock.WarningsFirst | stok_w.py:56-61 | in the sorted list a flagged frame is never after a normal one |
| Stock.FlaggedProductsKept | stok_w.py:54-61 | a product is flagged on screen exactly when it is in the query result with a shelf life below 60 |
| Stock.StockWidget.constructor | stok_w.py:7-51 | a new tab shows every queried product once, sorted by shelf life, followed by the stretch |
| Stock.StockWidget.LoadProducts | stok_w.py:53-79 | the products are sorted, as a permutation; the layout gains one styled frame per product, in that order, then a stretch |

## Left out

- Prophet's fit and predict (forecast_w.py:225-234) are a foreign statistical library
  with floating-point numerics. The predictions are the input map `yhat`. A failing fit, or
  any query that raises, ends the run in the method's own `except Exception` handler
  (forecast_w.py:349-354). That handler is not modelled; it clears the table and the
  chart and leaves forecast_data unchanged, since line 258 is never reached.
- SQLAlchemy queries, sessions and ORM classes: query results are input sequences and
  the `sales_plan` table is a map.
  - `commit` is a `commitSucceeds` parameter.
  - The session's autoflush is modelled: a later row sees an earlier row's insert.
  - The aggregation done by SQL comes in as its result rows: SUM, COUNT, AVG, GROUP BY.
- `round(x, 2)` is a function parameter `round2`. Float rounding and every other
  floating-point effect is replaced by exact `real` arithmetic. So 1.05 + 0.05 is
  exactly 1.10.
- Dates have unbounded years: Python's OverflowError outside years 1..9999 is not
  modelled. `date.today()` is the parameter `today`.
- IsoDate.ParseIsoDate: accepts ASCII digits only; Python's `\d` in strptime also
  matches other Unicode decimal digits.
- Qt widgets, styles, labels, message boxes, the table widgets and matplotlib
  drawing: only the data they show is modelled. That data is:
  - the rows, the chart series and the frames;
  - the check state of the mode buttons;
  - the report range.
  Text formatting (`strftime`, `:.2f`, the label f-strings) is left out.
- `DatePickerDialog` is the `picked` parameter of `OnDayClicked`: the chosen date, or
  None for a cancel. The overview's call of `build_report` is the report range it sets.
  The report itself is `Report.BuildReport` on the query rows.
- The forecast widget's chart totals, `total_forecasts` and `total_plans`
  (forecast_w.py:294-301), are left out. So is the IndexError they raise when a
  forecast product lacks a row on some forecast day. The rows that are saved do not
  depend on them.
- ForecastPlan.ForecastWidget.BuildForecastAndPlan: the chart-totals IndexError path
  above is not modelled. Any such error would leave forecast_data already replaced.
- Report sums that SQL returns as NULL (a plan date whose sums are all NULL) are
  modelled as numbers: the model has no None in the report.
- Report.CompletionOf: the completion is kept as its two operands (`Share(sales,
  plan)`), and `Percentage` is the displayed value `sales / plan * 100`.
- Report.BuildReport: the chart's `sorted(set(...))` of the dates is computed from the
  summary's insertion order. `Report.ChartDatesAreSummaryDates` proves that order holds
  the same dates. The plan pass walks the plan rows rather than the keys of
  forecast_by_date; both give the same dates.
- Stock.SortByShelfLife: does not promise the stability of Python's sort (products
  with equal shelf life may come out in another order).
- Stock.StockWidget.LoadProducts: a NULL, text or date shelf life is not modelled; the
  column is an Integer there. Python 3 raises TypeError for such a value, both in the
  sort (line 56) and in the `< 60` test (line 82).
- Stock.StyleFor: the `today` argument of get_style_for_product is unused by the rule,
  so it is left out.
- Overview.OverviewWidget.OnDayClicked: the dialog's own state and any date limits
  are not modelled.
- data_simulator.py (demo data generation), main.py and interface.py (the window
  around the tabs), and logging are not part of this model.
