# Optiflow stock alerts, order quantities and forecast anomalies

A Dafny model of the decision logic of Optiflow's machine-learning scripts.

The model covers four parts.

- **Alert classifier** (`AlertCalculator`). From the current stock, the
  replenishment lead time, the unit price and a daily sales forecast, it puts
  a product in one of three tiers:
  - CRITIQUE: the stock runs out during the lead time;
  - ATTENTION: it runs out in the three days after the lead time;
  - OK: neither.

  Each tier has its own details: the stockout day and the lost sales, the
  order deadline and the benefit of ordering, or the order window. A
  suggested quantity is attached to each alert. A batch run counts the
  alerts per tier.
- **Quantity suggester** (`QuantitySuggester`). The order quantity is
  `(cumulated forecast − stock) × (1 + margin)` over a coverage window of at
  most 90 days, with the margin kept in [0, 50]%. It also produces the
  contextual recommendations, the batch totals and the budget-capped
  variant.
- **Anomaly detector** (`ProphetAnomalyDetector`).
  - A day whose actual sale differs from its prediction by more than 50% is
    an anomaly, with a kind and a severity.
  - Anomalies are kept in an anomalies table keyed by (product, date) with
    an id index. Per-day errors go to a feedback table.
  - A review status can be set per anomaly. Ignoring one removes its days
    from training.
  - The "clean" MAPE averages the per-day errors, leaving out ignored
    anomalies.
  - The pending anomalies are listed worst first.
- **Name mapping**. Logical table and column names are looked up, and a
  query template is rewritten by plain substring replacement.

Forecasts are sequences of non-negative daily quantities indexed from today.
Dates are whole day offsets. Database rows are parameters: an `Option` of
the product row, the latest stock reading, and so on.
`AlertCalculator` and `QuantitySuggester` hold only a database connection,
so their operations are functions and methods over values.
`ProphetAnomalyDetector` is a class. Its fields are the anomalies table
(`rows`, `index`, `nextId`), the feedback table and the reference MAPE that
the source keeps in `last_improvement_mape`.

Every loop of the source is a Dafny method with loop invariants. Each method
is proved equal to a specification function, and the properties are proved
about those functions. Examples:
- `Alerts.CalculateAlert` equals `Alerts.AlertSpec`.
- `Quantity.CalculateQuantity` equals `Quantity.QuantitySpec`.
- `ProphetAnomalyDetector.SaveAnomaliesToDb` equals `AnomalyTables.SaveAll`.

Three behaviours of the code are modelled as written:
- `calculate_alert` applies its margin without clamping it.
- The historical scan writes feedback before it saves that run's anomalies.
  New anomalies' feedback rows therefore carry no anomaly id, and
  `ScanFeedback` is taken against the table as it was before the run.
- `build_query` rewrites `FROM stock_levels` a second time, into
  `FROM stock_levels_levels`.

## Model

| member | source | states |
|---|---|---|
| Catalog.UnitPrice | scripts_ml/Page_alertes/calculate_alerts.py:73 | the unit price is the stored price unless it is missing or zero, then 1000; never zero |
| Catalog.LeadTime | scripts_ml/Page_alertes/calculate_alerts.py:74 | the lead time is the stored one unless it is missing or zero, then 5; never zero |
| Numeric.Trunc | scripts_ml/Page_alertes/calculate_alerts.py:145 | Python `int()` on a float: truncation toward zero, for both signs |
| Numeric.Round | scripts_ml/Page_alertes/suggest_quantity.py:147 | Python `round()`: within one half of the argument, and a tie goes to the even integer |
| Numeric.RoundTo | scripts_ml/prophet_anomaly_detector.py:353-357 | `round(x, digits)` lies within half a unit of the last digit from x |
| Forecast.First | scripts_ml/Page_alertes/calculate_alerts.py:208-215 | the first day in a range where a running-stock probe hits, or none; no earlier day hits |
| Forecast.FirstAtMost | scripts_ml/Page_alertes/calculate_alerts.py:208-215 | if some day k hits, the search finds a day no later than k |
| Forecast.SumSplit | scripts_ml/Page_alertes/calculate_alerts.py:185-191 | the forecast sum over [s, e) splits at any m between s and e |
| Forecast.SumMonotone | scripts_ml/Page_alertes/calculate_alerts.py:185-191 | a later end never lowers the sum |
| Forecast.SumBeyondHorizon | scripts_ml/Page_alertes/calculate_alerts.py:185-191 | days past the forecast horizon contribute nothing |
| Forecast.SumBeforeHorizon | scripts_ml/Page_alertes/calculate_alerts.py:185-191 | days before today contribute nothing |
| Forecast.SumAtMostTotal | scripts_ml/Page_alertes/calculate_alerts.py:185-191 | a prefix sum never exceeds the whole forecast |
| Forecast.PrefixLength | scripts_ml/Page_alertes/calculate_alerts.py:208 | the length of `predictions[:k]` under Python slice rules, also for negative k |
| Alerts.SumPredictions | scripts_ml/Page_alertes/calculate_alerts.py:185-191 | the loop returns the sum of the forecast over [start, end) clipped to the horizon |
| Alerts.CalculateCritique | scripts_ml/Page_alertes/calculate_alerts.py:193-244 | the loop returns the CRITIQUE details: first stockout day within the lead time, days short, lost sales and the loss |
| Alerts.CalculateAttention | scripts_ml/Page_alertes/calculate_alerts.py:246-289 | the loop returns the ATTENTION details: order deadline, stockout without an order, sales saved and the benefit |
| Alerts.FirstCovered | scripts_ml/Page_alertes/calculate_alerts.py:306-321 | the loop returns the first day whose sales up to that day plus the window reach the stock, as both order-window searches need it |
| Alerts.CountDaysOfStock | scripts_ml/Page_alertes/calculate_alerts.py:326-335 | the loop returns the days of stock: the days before the running stock first goes negative, or the whole forecast |
| Alerts.CalculateOk | scripts_ml/Page_alertes/calculate_alerts.py:291-350 | returns the OK details: earliest and latest order day from the two coverage searches, and the days of stock |
| Alerts.TierSpec | scripts_ml/Page_alertes/calculate_alerts.py:105-132 | the details computed are those of the tier the classification rule picks |
| Alerts.ClassifyByCoverage | scripts_ml/Page_alertes/calculate_alerts.py:105-132 | for every lead time, negative ones included: CRITIQUE iff the stock is below the lead-time sales; ATTENTION iff it covers them but not three days more; OK iff it covers both |
| Alerts.CritiqueStockoutInsideLead | scripts_ml/Page_alertes/calculate_alerts.py:193-244 | in CRITIQUE the stockout day is the first day the running stock goes negative, within the lead time; the lost sales cover the shortfall; a non-negative price gives a non-negative loss |
| Alerts.AttentionDeadlineWithinThreeDays | scripts_ml/Page_alertes/calculate_alerts.py:246-289 | in ATTENTION the order deadline is between 0 and 3; the stockout without an order is the deadline plus the lead time; the benefit prices the lead-time sales |
| Alerts.OkOrderWindowOrdered | scripts_ml/Page_alertes/calculate_alerts.py:291-350 | the earliest order day is never after the latest one |
| Alerts.OkStockLastsBeyondLead | scripts_ml/Page_alertes/calculate_alerts.py:105-132 | in OK the stock lasts at least the lead time plus three days, or the whole forecast |
| Alerts.DaysOfStockIsFirstShortfall | scripts_ml/Page_alertes/calculate_alerts.py:326-335 | the days of stock are the days before the running stock first goes negative |
| Alerts.SuggestedQuantity | scripts_ml/Page_alertes/calculate_alerts.py:142-145 | a non-negative margin gives at least the net need; a margin of at least −100% gives a non-negative quantity; a margin up to 100% gives at most twice the need |
| Alerts.MarginBounds | scripts_ml/Page_alertes/calculate_alerts.py:145 | bounds of `need × (1 + margin/100)` behind the quantity bounds |
| Alerts.AlertSpec | scripts_ml/Page_alertes/calculate_alerts.py:80-183 | ERROR exactly for an unknown product; the tier follows the rule; custom lead time and price override; the loss appears only in CRITIQUE and the benefit only in ATTENTION; net need over 30 days; quantity bounds |
| Alerts.ClassifyAndDetail | scripts_ml/Page_alertes/calculate_alerts.py:101-132 | lead-time sales, stock after the lead time and the details of the chosen tier |
| Alerts.CalculateAlert | scripts_ml/Page_alertes/calculate_alerts.py:80-183 | the method returns exactly the alert the specification gives |
| Alerts.TierCountsPartition | scripts_ml/Page_alertes/calculate_alerts.py:368-396 | every result is counted in exactly one tier or is an ERROR entry |
| Alerts.CountTierSnoc | scripts_ml/Page_alertes/calculate_alerts.py:385-388 | appending a result counts it in its own tier and in no other |
| Alerts.CalculateBatchAlerts | scripts_ml/Page_alertes/calculate_alerts.py:357-402 | one alert per request in order; the summary counts the tiers, which never exceed the total |
| Quantity.EffectiveMargin | scripts_ml/Page_alertes/suggest_quantity.py:96-98 | a margin in [0, 50] is kept, any other becomes 15 |
| Quantity.CoverageDays | scripts_ml/Page_alertes/suggest_quantity.py:107-124 | the coverage is between 1 and 90: the requested days, capped at 90, or 30 when there is no target or it is not in the future |
| Quantity.Recommendations | scripts_ml/Page_alertes/suggest_quantity.py:216-246 | low-margin advice iff margin < 10; high-margin iff > 30; sufficient-stock iff need is 0; strong-demand iff need > 500 |
| Quantity.RoundedQuantity | scripts_ml/Page_alertes/suggest_quantity.py:141-147 | the rounded quantity covers the need and exceeds it by at most half the need plus one half |
| Quantity.MarginUnitsBounds | scripts_ml/Page_alertes/suggest_quantity.py:141 | the margin articles lie between 0 and half the need |
| Quantity.NetNeed | scripts_ml/Page_alertes/suggest_quantity.py:133-138 | the net need is zero iff the stock covers the forecast, and stock plus need always covers it |
| Quantity.Suggestion | scripts_ml/Page_alertes/suggest_quantity.py:133-193 | the quantity covers the net need; stock after the order covers the forecast; cost is quantity times price |
| Quantity.QuantitySpec | scripts_ml/Page_alertes/suggest_quantity.py:73-201 | error exactly for an unknown product or an unreadable date; otherwise margin and coverage in range, forecast summed over the coverage, and the order covers it; the quantity is never negative |
| Quantity.SuggestionCoversWindow | scripts_ml/Page_alertes/suggest_quantity.py:107-147 | for a known product the order brings the stock up to the window's forecast, and is zero when the stock already covers it |
| Quantity.SumPredictionsUntilDate | scripts_ml/Page_alertes/suggest_quantity.py:203-214 | the loop returns the sum of the first `days` forecast quantities |
| Quantity.CalculateQuantity | scripts_ml/Page_alertes/suggest_quantity.py:73-201 | the method returns exactly the specified suggestion |
| Quantity.ApplyMargin | scripts_ml/Page_alertes/suggest_quantity.py:133-193 | net need, margin and rounding give the specified suggestion |
| Quantity.ReportedQuantityAppend | scripts_ml/Page_alertes/suggest_quantity.py:283-287 | appending a result adds its reported quantity |
| Quantity.TotalsSnoc | scripts_ml/Page_alertes/suggest_quantity.py:283-287 | appending a result adds its quantity and cost to the totals exactly when it is a suggestion |
| Quantity.TotalQuantityCountsEveryEntry | scripts_ml/Page_alertes/suggest_quantity.py:283-287 | skipping error entries in the total loses nothing, since an error entry reports 0 |
| Quantity.TotalQuantityNonNegative | scripts_ml/Page_alertes/suggest_quantity.py:283-287 | non-negative quantities give a non-negative total |
| Quantity.CalculateBatchQuantities | scripts_ml/Page_alertes/suggest_quantity.py:248-301 | one result per request, per-item target and margin overriding the common ones; summary totals; the total quantity is non-negative |
| Quantity.BudgetSpec | scripts_ml/Page_alertes/suggest_quantity.py:303-364 | error exactly for an unknown product; a limited result orders fewer than the ideal and reports the positive deficit |
| Quantity.BudgetQuantityIsMin | scripts_ml/Page_alertes/suggest_quantity.py:316-345 | within budget iff the ideal fits the cap, and then the ideal is returned; otherwise the cap is ordered |
| Quantity.BudgetCapWithinBudget | scripts_ml/Page_alertes/suggest_quantity.py:317 | the cap's cost fits the budget, and one more unit does not |
| Quantity.CoveredDaysIsFirstExcess | scripts_ml/Page_alertes/suggest_quantity.py:336-342 | the covered days are the index of the first day where the cumulated forecast exceeds the available stock, 0 if none |
| Quantity.CountCoveredDays | scripts_ml/Page_alertes/suggest_quantity.py:336-342 | the loop returns the covered days of the specification |
| Quantity.OptimizeQuantityForBudget | scripts_ml/Page_alertes/suggest_quantity.py:303-364 | the method returns exactly the specified budget result |
| AnomalyRules.Deviation | scripts_ml/prophet_anomaly_detector.py:181-188 | relative gap to the prediction; with nothing predicted 100% above 5 sold, else the day is skipped |
| AnomalyRules.SeverityOf | scripts_ml/prophet_anomaly_detector.py:208-217 | critical iff > 2, high iff in (1, 2], medium iff in (0.75, 1], low otherwise |
| AnomalyRules.SeverityMonotone | scripts_ml/prophet_anomaly_detector.py:208-217 | a larger deviation never gets a lower severity |
| AnomalyRules.Detect | scripts_ml/prophet_anomaly_detector.py:177-204 | a day is flagged iff its deviation exceeds 50%; the anomaly carries the day's data, spike iff sold above the prediction, deviation in percent, severity |
| AnomalyRules.DetectByRatio | scripts_ml/prophet_anomaly_detector.py:181-191 | with a positive prediction, flagged iff the sale is outside (50%, 150%) of it; never with a negative one; with zero iff more than 5 sold |
| AnomalyRules.DetectionsExact | scripts_ml/prophet_anomaly_detector.py:167-206 | every reported anomaly comes from a flagged day, every flagged day is reported, at most one per day |
| AnomalyRules.FeedbackMape | scripts_ml/prophet_anomaly_detector.py:233-236 | the per-day error is 100 for a predicted day without sales, 0 for neither, non-negative with sales, 0 when exact |
| AnomalyTables.KeysOfSnoc | scripts_ml/prophet_anomaly_detector.py:261-305 | the keys of the anomalies grow one detection at a time |
| AnomalyTables.InsertValid | scripts_ml/prophet_anomaly_detector.py:290-305 | inserting a new key with a fresh id keeps the id index consistent |
| AnomalyTables.UpsertResetValid | scripts_ml/prophet_anomaly_detector.py:265-305 | an update-or-insert keeps the id index consistent |
| AnomalyTables.SaveAllValid | scripts_ml/prophet_anomaly_detector.py:261-305 | saving all anomalies keeps the id index consistent |
| AnomalyTables.SaveAllFrame | scripts_ml/prophet_anomaly_detector.py:261-305 | the saved keys are the old ones plus the detections'; other rows are untouched; ids never change |
| AnomalyTables.SaveAllResetsToPending | scripts_ml/prophet_anomaly_detector.py:274-305 | every saved anomaly is pending afterwards, a reviewed status included |
| AnomalyTables.SaveAllLastWins | scripts_ml/prophet_anomaly_detector.py:261-305 | of several detections on one key, the last one's data is kept |
| AnomalyTables.UpsertKeepValid | scripts_ml/prophet_anomaly_detector.py:524-571 | the incremental insert keeps the id index consistent |
| AnomalyTables.SaveNewValid | scripts_ml/prophet_anomaly_detector.py:514-573 | the incremental save keeps the id index consistent |
| AnomalyTables.UpsertKeepCount | scripts_ml/prophet_anomaly_detector.py:554-570 | the incremental insert adds a row exactly for an absent key |
| AnomalyTables.UpsertKeepPreserves | scripts_ml/prophet_anomaly_detector.py:531-570 | one incremental insert keeps every status and id, leaves reviewed rows untouched and adds only pending rows |
| AnomalyTables.SaveNewKeys | scripts_ml/prophet_anomaly_detector.py:514-573 | the keys after the incremental save are the old ones plus the detections' |
| AnomalyTables.SaveNewCount | scripts_ml/prophet_anomaly_detector.py:514-573 | the returned count is exactly the number of rows added |
| AnomalyTables.SaveNewPreservesClassified | scripts_ml/prophet_anomaly_detector.py:514-573 | statuses and ids of existing rows are kept, reviewed rows are unchanged, and new rows are pending |
| AnomalyTables.SaveNewLastWins | scripts_ml/prophet_anomaly_detector.py:531-570 | a detected key that was absent or pending holds the values of its last detection and is pending afterwards |
| AnomalyTables.SaveNewSecondRun | scripts_ml/prophet_anomaly_detector.py:514-573 | a second run on the same anomalies adds nothing and changes no status |
| AnomalyTables.WithStatus | scripts_ml/prophet_anomaly_detector.py:386-400 | the status of one anomaly is set; keys, ids and every other row are unchanged |
| AnomalyTables.WithStatusWellIndexed | scripts_ml/prophet_anomaly_detector.py:386-400 | a status change keeps the id index consistent |
| AnomalyTables.ObservedKeysSnoc | scripts_ml/prophet_anomaly_detector.py:219-259 | the feedback keys grow one observed day at a time |
| AnomalyTables.SaveFeedbackEffect | scripts_ml/prophet_anomaly_detector.py:219-259 | one feedback row per observed day, others untouched; each such row is back in training and links to that day's anomaly id when one exists |
| AnomalyTables.SaveFeedbackLastWins | scripts_ml/prophet_anomaly_detector.py:219-259 | of several observations on one day, the last one's row is kept |
| AnomalyTables.IgnoreCascade | scripts_ml/prophet_anomaly_detector.py:405-411 | feedback linked to an ignored anomaly leaves training; nothing else changes |
| AnomalyTables.MapeSumRemove | scripts_ml/prophet_anomaly_detector.py:313-346 | the sum of the errors splits off any one counted day |
| AnomalyTables.AnomaliesExcludedIsZero | scripts_ml/prophet_anomaly_detector.py:313-358 | ignored anomalies are filtered out before they are counted, so the excluded count is always 0 |
| AnomalyTables.StatusChangeOnCounted | scripts_ml/prophet_anomaly_detector.py:313-331 | ignoring an anomaly removes exactly its day from the clean MAPE; moving an ignored one to another status puts its day back when it has feedback in the period; a change between non-ignored statuses leaves the days unchanged |
| AnomalyTables.ReportOf | scripts_ml/prophet_anomaly_detector.py:343-359 | the report's MAPE and improvement are the rounded values; no reference MAPE gives zero improvement |
| AnomalyTables.PendingAmongAdd | scripts_ml/prophet_anomaly_detector.py:575-600 | the pending rows of a larger key set add that key's row if pending |
| AnomalyTables.PendingRowFresh | scripts_ml/prophet_anomaly_detector.py:575-600 | a row's id makes it differ from the rows of every other key |
| AnomalyTables.InsertDesc | scripts_ml/prophet_anomaly_detector.py:593 | inserting into the ordered list adds exactly one element |
| AnomalyTables.InsertDescAdds | scripts_ml/prophet_anomaly_detector.py:593 | the insertion adds exactly the new row to the multiset of rows |
| AnomalyTables.InsertDescBounded | scripts_ml/prophet_anomaly_detector.py:593 | inserting into rows below a bound a row below it keeps every row below it |
| AnomalyTables.InsertDescSorted | scripts_ml/prophet_anomaly_detector.py:593 | the insertion keeps deviations in descending order |
| AnomalyTables.InsertDescDistinct | scripts_ml/prophet_anomaly_detector.py:593 | inserting an absent row keeps the rows distinct |
| AnomalyTables.CollectPendingStep | scripts_ml/prophet_anomaly_detector.py:575-600 | one more pending key keeps the list sorted, distinct and equal to the pending rows seen so far |
| AnomalyDetection.ScanDetectionsAtMostPredictions | scripts_ml/prophet_anomaly_detector.py:58-102 | a scan never reports more anomalies than predictions checked |
| AnomalyDetection.ScanFeedbackEffect | scripts_ml/prophet_anomaly_detector.py:61-89 | the scan's feedback has a row for every observed day of every scanned product; other rows are untouched |
| AnomalyDetection.RateOf | scripts_ml/prophet_anomaly_detector.py:103 | the anomaly rate lies in [0, 100] and is 0 without predictions or without anomalies |
| AnomalyDetection.NewOnlyKeepsStatuses | scripts_ml/prophet_anomaly_detector.py:436-512 | the incremental run keeps every existing status and id and leaves reviewed rows untouched |
| AnomalyDetection.NewOnlyCountsAddedRows | scripts_ml/prophet_anomaly_detector.py:436-512 | the reported new-anomaly count is exactly the number of rows added |
| AnomalyDetection.NewOnlyWellIndexed | scripts_ml/prophet_anomaly_detector.py:436-512 | the incremental run keeps the id index consistent |
| AnomalyDetection.ProphetAnomalyDetector.constructor | scripts_ml/prophet_anomaly_detector.py:21-26 | a detector over given tables with no reference MAPE |
| AnomalyDetection.ProphetAnomalyDetector.DetectAnomaliesInPredictions | scripts_ml/prophet_anomaly_detector.py:167-206 | the loop returns the anomalies of the days in day order |
| AnomalyDetection.ProphetAnomalyDetector.SaveAnomaliesToDb | scripts_ml/prophet_anomaly_detector.py:261-305 | the table becomes the full save of the anomalies; feedback and reference unchanged |
| AnomalyDetection.ProphetAnomalyDetector.SaveNewAnomaliesOnly | scripts_ml/prophet_anomaly_detector.py:514-573 | the table becomes the incremental save, and the count returned is the rows added; by `SaveNewLastWins` new and pending rows carry the detection's values |
| AnomalyDetection.ProphetAnomalyDetector.SavePredictionFeedback | scripts_ml/prophet_anomaly_detector.py:219-259 | the feedback table gets one row per observed day against the current anomalies |
| AnomalyDetection.ProphetAnomalyDetector.DetectHistoricalAnomalies | scripts_ml/prophet_anomaly_detector.py:28-110 | feedback for every product scanned, then all anomalies saved (reset to pending); the report counts products, predictions, anomalies and the rate |
| AnomalyDetection.ProphetAnomalyDetector.DetectNewAnomaliesOnly | scripts_ml/prophet_anomaly_detector.py:436-512 | per product, the incremental save and then the feedback, so new anomalies' feedback rows are linked to them; the report counts only new anomalies |
| AnomalyDetection.ProphetAnomalyDetector.CalculateCleanMape | scripts_ml/prophet_anomaly_detector.py:307-362 | the loop averages the errors of the feedback days in the period that are not ignored anomalies; the excluded count is 0 |
| AnomalyDetection.ProphetAnomalyDetector.TrackImprovement | scripts_ml/prophet_anomaly_detector.py:364-368 | the reference becomes the rounded clean MAPE over all days |
| AnomalyDetection.ProphetAnomalyDetector.UpdateAnomalyStatus | scripts_ml/prophet_anomaly_detector.py:370-434 | succeeds iff the id exists, else changes nothing; sets the status; ignoring cascades to feedback; the first call records the reference MAPE |
| AnomalyDetection.ProphetAnomalyDetector.CollectPending | scripts_ml/prophet_anomaly_detector.py:575-600 | the loop collects exactly the pending anomalies of known products, sorted by deviation and without repeats |
| AnomalyDetection.ProphetAnomalyDetector.GetPendingAnomalies | scripts_ml/prophet_anomaly_detector.py:575-600 | at most `limit` pending rows, worst first; all of them when fewer; no row left out deviates more than one returned |
| DbMapping.Lookup | scripts_ml/db_mapping.py:60-68 | dictionary `get`: the value of the first entry with the key, none iff no entry has it |
| DbMapping.LookupDistinct | scripts_ml/db_mapping.py:60-68 | with distinct keys every entry is found by its own key |
| DbMapping.GetTableName | scripts_ml/db_mapping.py:60-62 | a mapped logical name gives its table name, any other name is returned unchanged |
| DbMapping.ColumnKeysDistinct | scripts_ml/db_mapping.py:19-58 | each table's column mapping has distinct logical names |
| DbMapping.GetColumnName | scripts_ml/db_mapping.py:64-68 | a mapped column of a mapped table gives its physical name, otherwise the name is unchanged |
| DbMapping.ReplaceLength | scripts_ml/db_mapping.py:77-81 | `str.replace` changes the length by the replaced count times the length difference |
| DbMapping.ReplaceAbsent | scripts_ml/db_mapping.py:77-81 | a text without the pattern is unchanged |
| DbMapping.ReplaceBySelf | scripts_ml/db_mapping.py:77-81 | replacing a pattern by itself is the identity |
| DbMapping.AbsentInside | scripts_ml/db_mapping.py:77-81 | a text without a name contains no pattern built around that name |
| DbMapping.ReplaceAtStart | scripts_ml/db_mapping.py:77-81 | `str.replace` at an occurrence writes the replacement and goes on after it |
| DbMapping.ReplaceSkip | scripts_ml/db_mapping.py:77-81 | `str.replace` copies a character that cannot start the pattern |
| DbMapping.ReplaceSingle | scripts_ml/db_mapping.py:77-81 | a single occurrence is replaced and the text around it copied |
| DbMapping.EndsAbsent | scripts_ml/db_mapping.py:77-81 | a text where the pattern's first and last characters never sit at its distance does not contain it |
| DbMapping.RewriteTableUnmentioned | scripts_ml/db_mapping.py:76-81 | a query containing none of the five patterns of a logical name is not touched by its rewrites |
| DbMapping.NameAbsentMentionsNone | scripts_ml/db_mapping.py:77-81 | a query without a logical name contains none of its five patterns |
| DbMapping.RewriteTableAbsent | scripts_ml/db_mapping.py:76-81 | a query that never mentions a logical name is not touched by its rewrites |
| DbMapping.RewriteAllAbsent | scripts_ml/db_mapping.py:70-82 | a query containing none of the five patterns of any entry is returned unchanged |
| DbMapping.RewriteAllSplit | scripts_ml/db_mapping.py:76-81 | rewriting by a mapping is rewriting by its first k entries and then by the rest |
| DbMapping.RewriteTableIdentity | scripts_ml/db_mapping.py:76-81 | an entry mapping a name to itself leaves every query unchanged |
| DbMapping.OnlyFromRewritten | scripts_ml/db_mapping.py:77-81 | when only the FROM pattern of an entry occurs, before and after its rewrite, the entry is that one rewrite |
| DbMapping.BuildQuery | scripts_ml/db_mapping.py:70-82 | the loop applies the five rewrites of every entry in dictionary order |
| DbMapping.DocstringExample | scripts_ml/db_mapping.py:70-82 | `build_query` turns `SELECT * FROM articles` into `SELECT * FROM products`, as its docstring says |
| DbMapping.StockLevelsRewrittenAgain | scripts_ml/db_mapping.py:9-82 | `build_query` turns `SELECT * FROM stock_levels` into `SELECT * FROM stock_levels_levels`: the FROM rewrite of the `stock` entry fires on the physical name |

## Left out

- Prophet model loading, retroactive prediction and the sales queries are
  not modelled. Each product's scan takes the predicted and actual sales
  per day as input (`ProductScan`). A product whose model is missing is an
  absent sequence.
- SQL text, connections, commits, logging and the `datetime.now()` clock are
  not modelled. Tables are maps, and dates are whole day offsets from today.
- Formatting of dates (`_get_date_plus_days`, `strftime`), of messages and of
  the explanatory `calcul_detaille` strings is not modelled.
- Floats are modelled as exact reals. Binary rounding error is not modelled.
  `int()` and `round()` are modelled exactly (`Numeric.Trunc`,
  `Numeric.Round`).
- A forecast entry without a `quantity` key is not modelled. Forecasts are
  sequences of quantities, so every entry has one.
- Exceptions raised by the database are not modelled. The unknown-product
  path that leads to the ERROR entry or `success: False` is modelled, as is
  an unreadable target date in `calculate_quantity`.
- `save_alerts_to_db` and the command-line `main` are not modelled. They
  only write or print results.
- `Quantity.Recommendations` has no stock-rate advice. The rate is the
  constant 50, so neither of those branches can be taken.
- `Alerts.AlertSpec` bounds the quantity only for margins of at least −100%.
  `calculate_alert` does not clamp its margin, so a lower margin gives a
  negative quantity, and so does the model.
- `AnomalyDetection.ProphetAnomalyDetector.UpdateAnomalyStatus` takes one
  of the four known statuses. An arbitrary status string is not modelled.
  Its exception path, which returns False after a database error, is not
  modelled either.
- `AnomalyDetection.ProphetAnomalyDetector.GetPendingAnomalies` does not
  model the order among rows with equal deviations, which SQL leaves
  unspecified. Product names come in as a map, standing for the join with
  the products table.
- `AnomalyDetection.ProphetAnomalyDetector.CalculateCleanMape` models a
  missing start or end date, but not an empty-string date. Both are falsy
  in Python and disable the bound.
- `DbMapping.BuildQuery` is related to its specification for every
  template, and its result is worked out for two templates only
  (`DbMapping.DocstringExample`, `DbMapping.StockLevelsRewrittenAgain`).
- `AnomalyTables.CleanAverage` and `AnomalyTables.MapeSum` are ghost
  definitions: an average over a set of days. The method computing the
  average is compiled code.
