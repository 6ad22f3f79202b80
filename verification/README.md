# BIST tracker: portfolio accounting and scoring core

This project models the accounting and scoring logic of a personal portfolio tracker for Borsa Istanbul (BIST) stocks and TEFAS funds. The tracker has two halves:
- a Flask/SQLAlchemy app under `app/`;
- a FastAPI/Flask backend under `backend/`.

Both halves keep one table of transactions (buy, sell, deposit, withdrawal, dividend, split, ...). They answer questions by replaying that table:
- which symbols are held and how many shares;
- what the cash balance is;
- what the holdings are worth in TRY, EUR and USD;
- what the FIFO cost basis of a position is;
- how a position has performed since purchase.

On top of the replay sit:
- stock-split and corporate-action arithmetic;
- a day-by-day valuation walk;
- table-driven scorers: risk score, letter grade, investment signal, position size, portfolio insights;
- CSV import validation and export summaries;
- the mapping of an asset search response to search results.

How the source is represented:
- Each database query becomes the `seq<Transaction>` it returns. A query without ORDER BY returns the table order. Where the order matters and the query orders by date, the member takes the rows in date order, stated by `Records.SortedByDate`; the database decides the order of rows sharing a date.
- Dates are day ordinals (`int`). Quantities and prices are `real`.
- Every price, exchange-rate, cost-basis or search fetch is a parameter (an `Option` or a function value).
- Python dictionaries that are read in insertion order become a key sequence plus a `map`.
- Code that loops and updates variables is a `method` proved against a specification function. The split adjustment, which rewrites a price table in place, works on an `array`.

The modules:
- `Records`: the transaction record and the ledger filters.
- `Ledger`: the share-count replay shared by most callers.
- `AppPortfolioCalculator`: `app/utils/portfolio_calculator.py`, including the FIFO lot queue.
- `HistoricalSplits`, `HistoricalTimeline`, `HistoricalRisk`, `HistoricalScoring`, `HistoricalInsights`: `app/utils/historical_fetcher.py`.
- `BackendMain`: `backend/main.py`.
- `BackendPortfolioCalculator`: `backend/utils/portfolio_calculator.py`.
- `BackendApp`: `backend/app.py`.
- `DataImportExport`: `backend/utils/data_import_export.py`.
- `EventParser`: `backend/utils/event_parser.py`.
- `SearchService`: `backend/utils/search_service.py`.
- `Wrappers`, `Text` and `Dates`: the `Option` type, ASCII string functions and the proleptic Gregorian calendar.

## Model

| member | source | states |
|---|---|---|
| Records.ShareDelta | backend/main.py:50-57 | buy and split add the quantity, sell subtracts it, every other type leaves the share count alone |
| Records.ForSymbol | backend/main.py:44-47 | the `symbol == sym` filter keeps exactly the rows of that symbol |
| Records.DatedBefore | backend/main.py:44-47 | the `date < event_date` filter keeps exactly the rows strictly before the date |
| Records.DatedThrough | app/utils/historical_fetcher.py:241-242 | the `tx.date <= target_date` test keeps exactly the rows on or before the date |
| Records.ForSymbolAppend | backend/main.py:44-47 | the symbol filter keeps the rows' order: filtering a concatenation is the concatenation of the filtered parts |
| Records.DatedBeforeAppend | backend/main.py:44-47 | the `date < event_date` filter keeps the rows' order in the same sense |
| Records.DatedThroughAppend | app/utils/historical_fetcher.py:241-242 | the `tx.date <= target_date` filter keeps the rows' order in the same sense |
| Records.ForSymbolKeepsDateOrder | app/utils/portfolio_calculator.py:76-78 | the symbol's rows of a date-ordered table are themselves in date order, as the FIFO query's ORDER BY date returns them |
| Records.ForSymbolDatedBeforeCommute | backend/main.py:44-47 | filtering by symbol and by date commute, so the two WHERE clauses may be applied in either order |
| Ledger.NetQtyIsBuysMinusSellsPlusSplits | app/utils/portfolio_calculator.py:14-20 | a symbol's replayed quantity is its bought total minus its sold total plus its split total |
| Ledger.UntouchedIsZero | app/utils/portfolio_calculator.py:14-20 | a symbol no buy, sell or split names has quantity 0 |
| Ledger.NetQtyOtherSymbols | app/utils/portfolio_calculator.py:14-20 | appending rows of other symbols leaves a symbol's quantity unchanged |
| Ledger.ForSymbolKeepsNetQty | app/utils/portfolio_calculator.py:76-79 | replaying only a symbol's own rows gives the same quantity as replaying the whole ledger |
| Ledger.FirstSeenIsTouchedKeys | app/utils/portfolio_calculator.py:14-20 | the holdings dictionary's keys are distinct and are exactly the symbols some buy, sell or split names |
| Ledger.HoldingsStep | backend/main.py:205-221 | one more row updates the holdings dictionary as the `defaultdict` update does and adds its symbol as a key on first sight |
| Ledger.Replay | app/utils/portfolio_calculator.py:10-20 | the replay loop's keys are the first-seen symbols and each value is that symbol's net quantity |
| AppPortfolioCalculator.PricedRow | app/utils/portfolio_calculator.py:26-32 | a listed row carries the symbol, quantity and price and values the position at quantity times price |
| AppPortfolioCalculator.ValuedRowsAreHeldPositions | app/utils/portfolio_calculator.py:22-34 | every listed row is a symbol with positive quantity, priced from the map with 0.0 for a missing price; every positive symbol is listed |
| AppPortfolioCalculator.CalculatePortfolioValue | app/utils/portfolio_calculator.py:6-39 | the returned holdings are the positive positions in first-seen order and total_value is the sum of their values |
| AppPortfolioCalculator.HeldAmongMembership | app/utils/portfolio_calculator.py:49-54 | keeping keys above 0.001 yields distinct keys, exactly those above the threshold |
| AppPortfolioCalculator.HeldIffAboveThreshold | app/utils/portfolio_calculator.py:41-54 | a symbol is currently held iff its replayed quantity exceeds 0.001 |
| AppPortfolioCalculator.GetCurrentHoldings | app/utils/portfolio_calculator.py:41-54 | the method returns the held symbols, those above 0.001, in first-seen order |
| AppPortfolioCalculator.GetCurrentHoldingsWithQuantities | app/utils/portfolio_calculator.py:56-69 | the map has the same key set as get_current_holdings, and each value is the replayed quantity |
| AppPortfolioCalculator.CostBasisOf | app/utils/portfolio_calculator.py:122-139 | total cost is the walked lots' cost; average cost times the quantity taken is the total cost, or 0 when nothing was taken; an unpriced lot in the walk fails |
| AppPortfolioCalculator.PositiveLotsTotal | app/utils/portfolio_calculator.py:82-118 | a queue of positive lots holds a non-negative total, positive when non-empty |
| AppPortfolioCalculator.ConsumeSellRemovesSoldShares | app/utils/portfolio_calculator.py:85-94 | a sell keeps every lot positive and removes exactly min(sell, queue total) shares; a non-positive sell changes nothing |
| AppPortfolioCalculator.OversellEmptiesQueue | app/utils/portfolio_calculator.py:85-94 | a sell at least as large as the queue empties it and the excess is dropped |
| AppPortfolioCalculator.ConsumeSellKeepsNewestLots | app/utils/portfolio_calculator.py:85-94 | a sell only pops lots from the head and may shrink the new head; the tail is untouched |
| AppPortfolioCalculator.FifoLotsHoldClampedHolding | app/utils/portfolio_calculator.py:82-118 | the open lots are positive and add up to the holding replayed with oversells clamped at zero |
| AppPortfolioCalculator.ClampedHoldingIsNetQty | app/utils/portfolio_calculator.py:82-118 | when no sell exceeds the shares then held, the clamped holding equals the net quantity |
| AppPortfolioCalculator.OpenLotsAddUpToHolding | app/utils/portfolio_calculator.py:71-118 | for a ledger never oversold, the symbol's open lots add up to its replayed quantity |
| AppPortfolioCalculator.TakeAtMostNeeded | app/utils/portfolio_calculator.py:125-137 | the cost walk never takes more shares than current_quantity |
| AppPortfolioCalculator.TakeFromPricedLots | app/utils/portfolio_calculator.py:125-137 | over priced positive lots the walk succeeds and takes min(current_quantity, queue total) shares |
| AppPortfolioCalculator.ReplayBuyQueue | app/utils/portfolio_calculator.py:82-118 | the in-place queue loop leaves the queue that the FIFO lot function specifies: buys appended, sells consumed from the head, splits appended at price 0 |
| AppPortfolioCalculator.PriceOpenLots | app/utils/portfolio_calculator.py:120-139 | the attribution loop returns the cost basis the lot walk specifies |
| AppPortfolioCalculator.CalculateCostBasisFifo | app/utils/portfolio_calculator.py:71-139 | given the symbol's rows in date order, the cost basis is the lot walk over the FIFO queue those rows leave, for the current quantity |
| AppPortfolioCalculator.FifoWorkedExample | app/utils/portfolio_calculator.py:71-139 | buying 10 at 100 and 10 at 200 and then selling 15 leaves one lot of 5 at 200, with cost 1000 and average 200 |
| AppPortfolioCalculator.FirstBuyDate | app/utils/portfolio_calculator.py:169-172 | the first purchase date is the earliest buy date of the symbol, absent iff it was never bought |
| AppPortfolioCalculator.UserPerformanceSincePurchase | app/utils/portfolio_calculator.py:141-201 | the quantity comes from the table and the FIFO from the same rows in date order; error when the quantity is ≤ 0.001, when FIFO fails, or when the price is missing or 0; otherwise value, return, gain percent (0 when cost ≤ 0), days held and annualised return (0 unless days, cost and value are positive) |
| HistoricalSplits.FormatTicker | app/utils/historical_fetcher.py:46-51 | a symbol gains ".IS" unless it already ends in it (case-insensitively) or is EURTRY=X |
| HistoricalSplits.FormatTickerIdempotent | app/utils/historical_fetcher.py:46-51 | formatting a formatted symbol changes nothing |
| HistoricalSplits.FormatSymbols | app/utils/historical_fetcher.py:46-51 | the loop formats each symbol in place order |
| HistoricalSplits.KnownSplit | app/utils/historical_fetcher.py:21-26 | only CCOLA has a known split: ratio 11 on 2024-08-01 |
| HistoricalSplits.Scale | app/utils/historical_fetcher.py:105-108 | an adjusted row has its open, high, low and close divided by the ratio and its volume multiplied by it |
| HistoricalSplits.SplitPassScalesEarlyRows | app/utils/historical_fetcher.py:103-108 | with distinct dates, the loop rescales exactly the rows dated before the split |
| HistoricalSplits.SplitAdjusted | app/utils/historical_fetcher.py:86-110 | the intended adjustment: rows strictly before the split date are rescaled, later rows are unchanged |
| HistoricalSplits.SplitPassIsIntendedOnDistinctDates | app/utils/historical_fetcher.py:103-108 | on a history with one row per date the as-written loop equals the intended adjustment |
| HistoricalSplits.RepeatedDateScalesFirstRowTwice | app/utils/historical_fetcher.py:106-108 | with two rows on the same date, the first is rescaled twice and the second never |
| HistoricalSplits.AdjustForStockSplits | app/utils/historical_fetcher.py:86-110 | a symbol without a known split keeps its rows; otherwise the rows are rewritten by the loop, and with distinct dates exactly the rows before the split are rescaled |
| HistoricalSplits.AdjustCell | app/utils/historical_fetcher.py:219-230 | only the symbol's own ".IS" column changes, divided by 11 on dates before the split |
| HistoricalSplits.AdjustDayTouchesOnlyCcola | app/utils/historical_fetcher.py:219-230 | the timeline's split pass changes no column but CCOLA.IS, and nothing when CCOLA is not held |
| HistoricalSplits.AdjustTimelineTable | app/utils/historical_fetcher.py:219-230 | each row of the price table is replaced by its adjusted row |
| HistoricalTimeline.HeldOn | app/utils/historical_fetcher.py:239-249 | the holding on a date is the quantity replayed through that date when positive, else 0 |
| HistoricalTimeline.DayValueNonNegative | app/utils/historical_fetcher.py:278-288 | with non-negative prices a date's portfolio value is non-negative |
| HistoricalTimeline.DayValueSkipsUnpriced | app/utils/historical_fetcher.py:280-288 | a symbol with no price column that day adds nothing to the portfolio value |
| HistoricalTimeline.VersusCost | app/utils/historical_fetcher.py:299-304 | cumulative performance is (price − cost)/cost when cost > 0, else 0 |
| HistoricalTimeline.InitialSeries | app/utils/historical_fetcher.py:256-264 | a series is tracked exactly for the held symbols with a user performance record |
| HistoricalTimeline.AnyNonZeroIsExists | app/utils/historical_fetcher.py:327 | `any(val != 0 ...)` holds iff some entry is non-zero |
| HistoricalTimeline.Cleaned | app/utils/historical_fetcher.py:324-333 | a symbol is returned iff its cumulative performance has a non-zero entry |
| HistoricalTimeline.ValueDay | app/utils/historical_fetcher.py:278-320 | one date's loop sums quantity times price over priced symbols and updates the series as the loop body does |
| HistoricalTimeline.ValueTimeline | app/utils/historical_fetcher.py:266-333 | dates and portfolio values have one entry per valid date, each value being that date's sum, and the series are the cleaned tracked series |
| HistoricalTimeline.GetPortfolioTimelineData | app/utils/historical_fetcher.py:193-348 | no holdings or no history gives the error result; otherwise the table is split-adjusted in place, the dates are the table's dates in order, each value is that day's holdings value, and the series are the cleaned per-symbol series |
| HistoricalTimeline.PaddingBranchMisalignsSeries | app/utils/historical_fetcher.py:310-320 | one date where the first symbol lacks a price leaves the second symbol with two entries for one date |
| HistoricalTimeline.SymbolStepIntended | app/utils/historical_fetcher.py:280-320 | the intended body extends only the current symbol's series by one entry |
| HistoricalTimeline.DayStepIntendedAddsOne | app/utils/historical_fetcher.py:280-320 | with the intended padding, a date adds exactly one entry to each listed symbol's series |
| HistoricalTimeline.IntendedSeriesAlignWithDates | app/utils/historical_fetcher.py:270-320 | with the intended padding, every series has exactly one entry per date |
| HistoricalTimeline.TenSharesTimelineValues | backend/tests/test_timeline.py:52-56 | 10 shares priced 100 and then 106 are valued 1000.0 and 1060.0 |
| HistoricalRisk.UserReturnsLength | app/utils/historical_fetcher.py:1137-1144 | there are at most as many returns as prices, exactly as many when cost and prices are positive |
| HistoricalRisk.UserReturnSeries | app/utils/historical_fetcher.py:1128-1148 | the symbol is skipped iff it has fewer than 5 prices, cost ≤ 0, or fewer than 5 returns; otherwise the return series starts from the cost basis |
| HistoricalRisk.PositivePricesAreNotSkipped | app/utils/historical_fetcher.py:1132-1148 | five positive prices and a positive cost are never skipped |
| HistoricalRisk.Wealth | app/utils/historical_fetcher.py:1164-1169 | the compounded wealth path has one value per return |
| HistoricalRisk.Peak | app/utils/historical_fetcher.py:1172 | the running peak is the largest wealth value so far |
| HistoricalRisk.PositiveWealthDrawdown | app/utils/historical_fetcher.py:1172-1174 | over positive wealth the maximum drawdown is defined and lies in (−100, 0] |
| HistoricalRisk.WealthStaysPositive | app/utils/historical_fetcher.py:1164-1169 | returns above −1 keep the wealth path positive |
| HistoricalRisk.PositivePricesGiveBoundedReturns | app/utils/historical_fetcher.py:1137-1144 | positive prices and cost give returns above −1 |
| HistoricalRisk.UndefinedDrawdownPersists | app/utils/historical_fetcher.py:1172-1174 | once the running minimum is undefined, a zero or negative peak keeps it undefined |
| HistoricalRisk.WealthPath | app/utils/historical_fetcher.py:1164-1169 | the loop builds the wealth path |
| HistoricalRisk.LowestDrawdown | app/utils/historical_fetcher.py:1171-1174 | the method returns the minimum of wealth/peak − 1, in percent |
| HistoricalRisk.MaxDrawdown | app/utils/historical_fetcher.py:1163-1174 | max_drawdown is the minimum drawdown of the wealth path of the returns |
| HistoricalRisk.WealthIsPriceOverCost | app/utils/historical_fetcher.py:1137-1169 | with positive prices, wealth on day i is price_i / cost |
| HistoricalRisk.DrawdownFromCostIsNonPositive | app/utils/historical_fetcher.py:1128-1174 | for positive prices the drawdown measured from the cost basis is in (−100, 0] |
| HistoricalRisk.SharpeRatio | app/utils/historical_fetcher.py:1161 | Sharpe is return/volatility when volatility > 0 (same sign as the return), else 0 |
| HistoricalRisk.DaysHeldAtLeastOne | app/utils/historical_fetcher.py:1157 | days held is at least 1 and equals the recorded days when those are ≥ 1 |
| HistoricalScoring.VolatilityScore | app/utils/historical_fetcher.py:435-447 | the volatility band score lies in [−20, 20] |
| HistoricalScoring.SharpeScore | app/utils/historical_fetcher.py:449-461 | the Sharpe band score lies in [−15, 20] |
| HistoricalScoring.DrawdownScore | app/utils/historical_fetcher.py:463-475 | the drawdown band score lies in [−20, 20] |
| HistoricalScoring.SortinoScore | app/utils/historical_fetcher.py:478-487 | the Sortino band score lies in [−5, 8] |
| HistoricalScoring.BetaScore | app/utils/historical_fetcher.py:488-496 | the beta score is 8 iff 0.8 ≤ beta ≤ 1.2, 5 iff beta lies in [0.6, 0.8) or (1.2, 1.4], 3 iff beta < 0.6, and −5 iff beta > 1.4 |
| HistoricalScoring.MomentumScore | app/utils/historical_fetcher.py:498-508 | the momentum band score lies in [−9, 9] |
| HistoricalScoring.ReturnScore | app/utils/historical_fetcher.py:510-525 | the annual-return band score lies in [−15, 15] |
| HistoricalScoring.RiskCategoryOf | app/utils/historical_fetcher.py:534-549 | VERY_LOW iff ≥ 80, LOW iff in [65, 80), MODERATE iff in [50, 65), HIGH iff in [35, 50), VERY_HIGH iff < 35 |
| HistoricalScoring.AdvancedRiskScore | app/utils/historical_fetcher.py:426-565 | the score is 50 plus the seven band scores clamped into [0, 100]; category and description follow the score |
| HistoricalScoring.RawRiskScoreRange | app/utils/historical_fetcher.py:528-532 | before clamping the score lies in [−39, 150] |
| HistoricalScoring.RiskScoreMonotone | app/utils/historical_fetcher.py:426-532 | lower volatility and higher Sharpe, drawdown, return, Sortino and momentum never lower the risk score |
| HistoricalScoring.ReturnPoints | app/utils/historical_fetcher.py:755-771 | return points lie in [0, 35] |
| HistoricalScoring.SharpePoints | app/utils/historical_fetcher.py:773-787 | Sharpe points lie in [0, 25] |
| HistoricalScoring.VolatilityPoints | app/utils/historical_fetcher.py:789-801 | volatility points lie in [0, 20] |
| HistoricalScoring.DrawdownPoints | app/utils/historical_fetcher.py:803-813 | drawdown points lie in [0, 10] |
| HistoricalScoring.SortinoPoints | app/utils/historical_fetcher.py:815-825 | Sortino points lie in [0, 10] |
| HistoricalScoring.GradeOf | app/utils/historical_fetcher.py:830-890 | the grade band of the total at cutoffs 90/85/80/75/65/55/45/35/25, each an iff |
| HistoricalScoring.GradePoints | app/utils/historical_fetcher.py:830-890 | grade points lie in [0, 4.3] |
| HistoricalScoring.GradePointsMonotone | app/utils/historical_fetcher.py:830-890 | grade points never decrease as the total rises |
| HistoricalScoring.PoorGradeIsTotalBelow35 | app/utils/historical_fetcher.py:830-890 | grade points are below 2.0 iff the total is below 35 |
| HistoricalScoring.RiskQuality | app/utils/historical_fetcher.py:893 | the risk quality is Low iff the score is ≥ 70, Moderate iff in [50, 70), High iff below 50 |
| HistoricalScoring.ReturnQuality | app/utils/historical_fetcher.py:894 | the return quality is Excellent iff the return is > 20, Good iff in (10, 20], Fair iff in (0, 10], Poor iff ≤ 0 |
| HistoricalScoring.CategorizeAdvancedPerformance | app/utils/historical_fetcher.py:746-916 | the total is the sum of the five bucket points and lies in [0, 100]; grade and points follow the total; description, investment tier and recommendation follow the grade; the risk quality comes from the risk score and the return quality from the return; the assessment joins the two qualities |
| HistoricalScoring.ReturnRaisesGrade | app/utils/historical_fetcher.py:755-890 | a higher annual return never lowers the grade points |
| HistoricalScoring.ActionLabel | app/utils/historical_fetcher.py:702-712 | the action is one of STRONG_BUY, BUY_MORE, BUY_SMALL, HOLD, MONITOR_CLOSELY, REDUCE_POSITION, CONSIDER_SELL |
| HistoricalScoring.ActionLabelInjective | app/utils/historical_fetcher.py:702-712 | distinct actions have distinct labels |
| HistoricalScoring.PerformanceBlock | app/utils/historical_fetcher.py:575-599 | the performance block adds one factor and a change in [−20, 25], and starts on the sell side iff performance ≤ −10 |
| HistoricalScoring.SharpeBlock | app/utils/historical_fetcher.py:601-619 | the Sharpe block changes the score by [−15, 20] and never crosses between the sell side and the rest |
| HistoricalScoring.VolatilityBlock | app/utils/historical_fetcher.py:621-636 | the volatility block changes the score by [−15, 10] and keeps the side |
| HistoricalScoring.DrawdownBlock | app/utils/historical_fetcher.py:638-649 | the drawdown block changes the score by [−20, 15] and keeps the side |
| HistoricalScoring.HoldingPeriodBlock | app/utils/historical_fetcher.py:651-661 | the holding-period block changes the score by [−10, 5] and never changes the action |
| HistoricalScoring.RiskBlock | app/utils/historical_fetcher.py:663-676 | the risk block changes the score by [−15, 15] and keeps the side |
| HistoricalScoring.GradeBlock | app/utils/historical_fetcher.py:678-691 | grade points below 2.0 force a sell-side action; otherwise the side is kept |
| HistoricalScoring.MomentumBlock | app/utils/historical_fetcher.py:693-699 | the momentum block changes the score by [−10, 10] and never changes the action |
| HistoricalScoring.ConfidenceOf | app/utils/historical_fetcher.py:714-724 | confidence buckets at 60/40/20/0, each an iff |
| HistoricalScoring.StrengthOf | app/utils/historical_fetcher.py:726-736 | strength is NEGATIVE exactly for REDUCE_POSITION and CONSIDER_SELL |
| HistoricalScoring.EnhancedInvestmentSignal | app/utils/historical_fetcher.py:566-745 | grade points < 2 give REDUCE_POSITION or CONSIDER_SELL; otherwise the action is sell-side iff performance ≤ −10; also the confidence bucket, strength, factor count and score range |
| HistoricalScoring.LowGradeTotalMeansSellSide | app/utils/historical_fetcher.py:687-712 | a performance total below 35 always yields a sell-side signal |
| HistoricalScoring.PositionRecommendation | app/utils/historical_fetcher.py:917-947 | MINIMAL iff risk < 40; LARGE iff risk ≥ 70 and performance > 15; SMALL only when risk ≥ 40 |
| HistoricalScoring.PositionIgnoresVolatility | app/utils/historical_fetcher.py:917-947 | the recommendation never depends on volatility |
| HistoricalScoring.PositionMonotone | app/utils/historical_fetcher.py:917-940 | higher risk score and performance never shrink the recommended size |
| HistoricalInsights.Average | app/utils/historical_fetcher.py:959 | avg_sharpe times the number of stocks is the Sharpe total |
| HistoricalInsights.WeightedSumBounds | app/utils/historical_fetcher.py:956-957 | with non-negative values the value-weighted return sum lies between min and max return times the total value |
| HistoricalInsights.WeightedReturnBetweenExtremes | app/utils/historical_fetcher.py:956-957 | the weighted return lies between the smallest and largest stock return |
| HistoricalInsights.SymbolsWithAction | app/utils/historical_fetcher.py:962-965 | a list holds exactly the symbols whose signal action is in the list's action set |
| HistoricalInsights.ActionListsDisjoint | app/utils/historical_fetcher.py:962-965 | lists built from disjoint action sets share no symbol |
| HistoricalInsights.HighRiskSymbols | app/utils/historical_fetcher.py:974 | the high-risk list holds exactly the symbols with risk score below 40, at most one entry per stock |
| HistoricalInsights.HighRiskValueBounds | app/utils/historical_fetcher.py:974-975 | the value in high-risk stocks lies between 0 and the total value |
| HistoricalInsights.ExposureIsPercentage | app/utils/historical_fetcher.py:975 | high-risk exposure lies in [0, 100] |
| HistoricalInsights.RiskLevelOf | app/utils/historical_fetcher.py:977-999 | risk level HIGH iff exposure > 40, MEDIUM iff in (20, 40], LOW iff ≤ 20 |
| HistoricalInsights.PortfolioGradeOf | app/utils/historical_fetcher.py:1001-1025 | A, B+, C and D bands each as an iff, first match wins; B is the remainder |
| HistoricalInsights.PortfolioGradeMonotone | app/utils/historical_fetcher.py:1001-1019 | higher return, lower volatility and higher Sharpe never lower the portfolio grade |
| HistoricalInsights.NatToString | app/utils/historical_fetcher.py:1036-1042 | a count prints as a non-empty run of digits |
| HistoricalInsights.PortfolioStrategy | app/utils/historical_fetcher.py:1026-1054 | AGGRESSIVE_GROWTH iff a strong buy exists and return > 10; the growth and cleanup strategies need a non-empty list; BALANCED_HOLD needs volatility ≤ 50 |
| HistoricalInsights.EmptyListsStrategy | app/utils/historical_fetcher.py:1032-1048 | with four empty lists only the volatility rule decides |
| HistoricalInsights.PortfolioInsights | app/utils/historical_fetcher.py:948-1000 | empty input gives no insights; otherwise the counts, the total value, the value-weighted return and volatility, the mean Sharpe ratio, the portfolio grade of those three, the four action lists, the high-risk list, the exposure and its risk level, and the strategy of the four list sizes; consider_sells holds exactly the sell-side stocks |
| HistoricalInsights.SellSideListed | app/utils/historical_fetcher.py:965 | the CONSIDER_SELL/REDUCE_POSITION list holds exactly the symbols whose action is on the sell side |
| HistoricalInsights.InsightListsDisjoint | app/utils/historical_fetcher.py:962-965 | with distinct symbols, strong buys, buy-more and holds never overlap consider-sells, and holds never overlap buy-more |
| BackendMain.HoldingsOnDate | backend/main.py:42-57 | the holding is buys − sells + splits over the symbol's rows strictly before the event date |
| BackendMain.OversoldHoldingIsNegative | backend/main.py:49-57 | a lone sell of 5 gives a holding of −5: the result is not clamped |
| BackendMain.SameDayTransactionNotCounted | backend/main.py:44-47 | a row dated on the event date does not count toward the holding |
| BackendMain.SplitMultipliesHolding | backend/main.py:295-300 | the recorded split adds held·(ratio − 1) shares, so the holding becomes held·ratio |
| BackendMain.AddEvent | backend/main.py:264-304 | an unparsed message is rejected; no shares held (≤ 0) is rejected; a dividend logs quantity 0 at price held·pct/100; a split logs held·(ratio − 1) at price 0 |
| BackendMain.CashDelta | backend/main.py:96-109 | cash: buy −q·p, sell +q·p, deposit +q, withdrawal −q, dividend +price, everything else unchanged |
| BackendMain.ApplyTransaction | backend/main.py:95-110 | one row updates holdings and cash as the loop body does |
| BackendMain.ApplyExtendsReplay | backend/main.py:94-110 | applying the next row to the replay of a prefix gives the replay of the longer prefix |
| BackendMain.ReplayedKeysAreSymbols | backend/main.py:120-122 | every holdings key is a symbol, so the column name can be built |
| BackendMain.BackendColumn | backend/main.py:122 | the price column ends in ".IS" and equals the symbol iff the symbol already does |
| BackendMain.StockValueNonNegative | backend/main.py:119-124 | with non-negative prices the TRY value is non-negative |
| BackendMain.ValueHoldings | backend/main.py:119-124 | the loop sums qty·price over positive holdings that have a price; cash is excluded |
| BackendMain.ValueEur | backend/main.py:127-128 | the EUR value is value_try / rate when a positive rate is present, else 0 |
| BackendMain.RowsThrough | backend/main.py:90-134 | at most one value row per calendar day |
| BackendMain.ApplyDay | backend/main.py:93-110 | the index advances over exactly the rows dated on or before the day, each applied once |
| BackendMain.WalkDay | backend/main.py:90-134 | one day of the walk keeps the replay and the rows equal to those of the dates so far |
| BackendMain.GetDailyPortfolioValue | backend/main.py:62-136 | the walk returns one row per priced day from the first transaction to today, each valued from the rows dated through that day |
| BackendMain.LatestPrice | backend/main.py:229 | `get_latest_price(symbol) or 0`: the fetched price, or 0 when none |
| BackendMain.HeldRowsListPositiveKeys | backend/main.py:227-240 | a symbol is listed iff its quantity is positive, and each row carries that quantity |
| BackendMain.HeldRowsAreOpenPositions | backend/main.py:205-240 | the listed symbols are exactly those with buys − sells + splits > 0 |
| BackendMain.TotalProfitIsSumOfRows | backend/main.py:238-259 | total value − total cost equals the sum of the rows' profit |
| BackendMain.HeldRowsProfit | backend/main.py:230-238 | each row's profit is current value − cost, with cost = buy_total − sell_total |
| BackendMain.AccumulateTrades | backend/main.py:205-221 | the first loop leaves the replayed quantities and each symbol's buy and sell q·p totals |
| BackendMain.ListHeld | backend/main.py:227-242 | the second loop lists the positive rows and sums their value and cost |
| BackendMain.TotalValueEur | backend/main.py:251-252 | the EUR total is value / rate when the rate is truthy (non-zero), else 0 |
| BackendMain.ProfitLoss | backend/main.py:196-262 | rows for exactly the positive symbols; totals are the row sums, profit is their difference, and the EUR total is converted by the latest rate |
| BackendPortfolioCalculator.PriceOrZero | backend/utils/portfolio_calculator.py:13 | a missing price counts as 0 |
| BackendPortfolioCalculator.TradeDelta | backend/utils/portfolio_calculator.py:15-20 | buy adds, sell subtracts, other types (split, dividend) do not change holdings |
| BackendPortfolioCalculator.CashChange | backend/utils/portfolio_calculator.py:15-24 | cash: buy −q·p, sell +q·p, deposit +q, withdrawal −q, other types 0 |
| BackendPortfolioCalculator.TradedKeysAreTradedSymbols | backend/utils/portfolio_calculator.py:10-20 | holdings keys are distinct and are exactly the upper-cased symbols of buys and sells |
| BackendPortfolioCalculator.UntradedIsZero | backend/utils/portfolio_calculator.py:10-20 | an upper-cased symbol never traded has quantity 0 |
| BackendPortfolioCalculator.UpperCased | backend/utils/portfolio_calculator.py:11 | upper-casing keeps the number of rows |
| BackendPortfolioCalculator.QuantityIsUpperCasedBuysMinusSells | backend/utils/portfolio_calculator.py:10-20 | the quantity under a key is buys − sells over the rows whose upper-cased symbol is that key, so differently-cased symbols aggregate |
| BackendPortfolioCalculator.StepLemma | backend/utils/portfolio_calculator.py:10-24 | one more row updates keys, holdings and cash as the loop body does |
| BackendPortfolioCalculator.Accumulate | backend/utils/portfolio_calculator.py:10-24 | the loop raises (None) iff some row has no symbol; otherwise it returns the keys, holdings and cash |
| BackendPortfolioCalculator.ValuePriced | backend/utils/portfolio_calculator.py:26-29 | total value is cash plus qty·price over the keys present in the price map |
| BackendPortfolioCalculator.CalculatePortfolioValue | backend/utils/portfolio_calculator.py:6-35 | fails iff a symbol is missing; otherwise holdings, cash, and total = cash + priced value including zero and negative quantities |
| BackendPortfolioCalculator.HoldingsKeepEveryTradedKey | backend/utils/portfolio_calculator.py:33 | the returned holdings have a key for every traded symbol, even at quantity ≤ 0 |
| BackendApp.OrDefault | backend/app.py:40 | `value or default`: a missing or empty value gives the default |
| BackendApp.RateOrZero | backend/app.py:47-48 | a missing rate counts as 0 |
| BackendApp.FirstMetaIsFirstMove | backend/app.py:37-40 | a symbol has metadata iff some buy, sell or split names it, taken from the first such row |
| BackendApp.FirstMetaIsStable | backend/app.py:39-40 | later rows never change a symbol's metadata |
| BackendApp.ToTry | backend/app.py:62-64 | USD is times usd_rate, EUR is times eur_rate, other currencies unchanged |
| BackendApp.ProfitPercent | backend/app.py:71-72 | pl_pct is pl/cost·100 when cost > 0, else 0 |
| BackendApp.PerRate | backend/app.py:85-86 | a total is divided by the rate when rate > 0, else 0 |
| BackendApp.EntriesListPositiveKeys | backend/app.py:52-54 | an entry is listed iff its quantity is positive, and each entry carries that quantity |
| BackendApp.EntriesAreOpenPositions | backend/app.py:37-54 | the listed symbols are exactly those with buys − sells + splits > 0 |
| BackendApp.MetaStep | backend/app.py:37-44 | one more row keeps the metadata map in step with the holdings map |
| BackendApp.AddToMap | backend/app.py:38-44 | one row updates the quantity map and sets the metadata on first sight |
| BackendApp.BuildHoldingsMap | backend/app.py:35-44 | the holdings map is the replayed quantities, with each symbol's metadata from its first row |
| BackendApp.ListEntries | backend/app.py:50-83 | the second loop builds the entries and their TRY total |
| BackendApp.CalculateTotals | backend/app.py:33-93 | entries for exactly the positive symbols; the TRY total is their sum, and USD and EUR are converted only when the rate is > 0 |
| DataImportExport.NormalSymbol | backend/utils/data_import_export.py:166-171 | a symbol is upper-cased and stripped; an empty result becomes None |
| DataImportExport.ParseRow | backend/utils/data_import_export.py:148-207 | accepted iff date and type parse, the file has a symbol column, quantity and price parse and the business rules hold; fields normalised, blanks become 0, an empty note becomes None; each fault is stated as an iff, in the order the checks run: date, type, symbol lookup (KeyError without the column), quantity, price, symbol required, positive trade, positive amount |
| DataImportExport.NoSymbolColumnRejectsEveryRow | backend/utils/data_import_export.py:166-169 | in a file without a symbol column every row raises, at the latest on the KeyError of the symbol lookup |
| DataImportExport.ValueEur | backend/utils/data_import_export.py:217-221 | set iff rate, price and quantity are truthy and the type is buy, sell or dividend; price·qty/rate for trades, price/rate for dividends |
| DataImportExport.ValidTradeHasPositiveEurValue | backend/utils/data_import_export.py:191-221 | an accepted buy or sell at a positive rate gets a positive EUR value |
| DataImportExport.ZeroQuantityDividendHasNoEurValue | backend/utils/data_import_export.py:217 | a dividend recorded with quantity 0 never gets an EUR value |
| DataImportExport.Missing | backend/utils/data_import_export.py:87-88 | the missing columns are exactly the required ones not present |
| DataImportExport.RowsAccountedFor | backend/utils/data_import_export.py:96-110 | every row is either imported or reported |
| DataImportExport.ErrorRowNumbers | backend/utils/data_import_export.py:109 | error row numbers lie in [2, n+1] and increase |
| DataImportExport.ErrorNamesRejectedRow | backend/utils/data_import_export.py:99-110 | a rejected row i is reported as row i+2 with its fault; an accepted row is never reported |
| DataImportExport.ImportTransactions | backend/utils/data_import_export.py:77-126 | missing columns give the missing-columns result; otherwise accepted rows are stored, rejected rows reported, and imported + errors = rows |
| DataImportExport.TitleCasing | backend/utils/data_import_export.py:250 | `str.title`: a letter after a non-letter is upper-cased, every other letter lower-cased |
| DataImportExport.SummaryValue | backend/utils/data_import_export.py:243-246 | trades add price·qty when both are truthy; dividend, deposit and withdrawal add the price when truthy; all else adds 0, including a trade of quantity 0 |
| DataImportExport.TypesSeenDistinct | backend/utils/data_import_export.py:241-248 | the summary types are distinct and are exactly the types that occur |
| DataImportExport.UnseenTypeCountsZero | backend/utils/data_import_export.py:241-242 | a type that never occurs has count 0 |
| DataImportExport.SummaryCountsAddUp | backend/utils/data_import_export.py:230-255 | the summary counts add up to the number of transactions |
| DataImportExport.CreateSummaryData | backend/utils/data_import_export.py:230-255 | one summary row per type in first-seen order, with counts adding up to the transaction count |
| DataImportExport.TypeValueUnseen | backend/utils/data_import_export.py:241-246 | a type that never occurs has total value 0 |
| DataImportExport.SheetQtyIsLedgerQty | backend/utils/data_import_export.py:264-271 | skipping rows with quantity 0 does not change a symbol's net quantity |
| DataImportExport.SheetKeysAreTouched | backend/utils/data_import_export.py:264-271 | the sheet's keys are exactly the non-empty symbols with a non-zero buy, sell or split |
| DataImportExport.UntouchedSheetIsZero | backend/utils/data_import_export.py:264-271 | a symbol never counted has quantity 0 |
| DataImportExport.SheetRowsListPositiveKeys | backend/utils/data_import_export.py:273-279 | a row is listed iff its quantity is positive |
| DataImportExport.SheetListsOpenPositions | backend/utils/data_import_export.py:257-281 | the holdings sheet lists exactly the non-empty symbols with positive net quantity |
| DataImportExport.CreateHoldingsData | backend/utils/data_import_export.py:257-281 | the method returns the sheet, with exactly the open positions |
| EventParser.MonthNumber | backend/utils/event_parser.py:7-10 | a known abbreviation maps to its month 1..12; an unknown one to nothing |
| EventParser.Words | backend/utils/event_parser.py:14 | `split()` yields non-empty words without whitespace |
| EventParser.ParseInt | backend/utils/event_parser.py:19-20 | a digit string parses to its value |
| EventParser.ParseDateRobustly | backend/utils/event_parser.py:12-24 | unknown month iff the first word's prefix is not a month; a date parses iff the month, day (word 2) and year 2000 + word 3 parse and form a valid date, and then it is that date |
| EventParser.DateFromWords | backend/utils/event_parser.py:15-24 | the same iff, stated over the words of the lower-cased text |
| EventParser.ParseDecimal | backend/utils/event_parser.py:38 | a captured percentage parses to a non-negative number |
| EventParser.ParseDottedDate | backend/utils/event_parser.py:36 | a text parses iff it has the DD.MM.YYYY shape and names a valid date, and then to that date's ordinal |
| EventParser.ParseEventMessage | backend/utils/event_parser.py:26-52 | no match gives nothing; the dividend pattern wins; it raises iff the chosen match's date or percentage does not convert; a split's ratio is 1 + pct/100, at least 1; the date and numbers come from the captures |
| SearchService.FundGuess | backend/utils/search_service.py:14-21 | a result iff the query is three letters: the upper-cased code as a TRY fund on TEFAS |
| SearchService.CurrencyOf | backend/utils/search_service.py:48-56 | TRY iff .IS suffix or IST exchange, else EUR iff .DE, else GBP iff .L, else USD |
| SearchService.RemoveAll | backend/utils/search_service.py:61 | `replace` never lengthens the symbol |
| SearchService.NameOf | backend/utils/search_service.py:40 | `shortname or longname or symbol` |
| SearchService.ScanStopsOnNullSymbol | backend/utils/search_service.py:33-72 | the loop ends early iff some kept quote has a null symbol |
| SearchService.ScanResultsComeFromKeptQuotes | backend/utils/search_service.py:33-70 | every result comes from an EQUITY, ETF or MUTUALFUND quote |
| SearchService.ScanWithoutNullsKeepsAll | backend/utils/search_service.py:33-70 | without null symbols every kept quote gives a result, in order |
| SearchService.SuffixOnlyIsStripped | backend/utils/search_service.py:59-61 | a symbol whose only ".IS" is its suffix loses just the suffix |
| SearchService.InnerOccurrencesAreRemovedToo | backend/utils/search_service.py:59-61 | `replace` also removes inner ".IS": A.ISB.IS displays as AB |
| SearchService.ThreeLetterCodeIsOfferedAsFund | backend/tests/test_search.py:4-8 | "MAC" yields the TEFAS fund result MAC |
| SearchService.IstanbulListingIsShownBare | backend/tests/test_search.py:19-25 | THYAO.IS displays as THYAO, a TRY stock, keeping the Yahoo symbol |
| SearchService.SearchAssets | backend/utils/search_service.py:5-74 | results are the fund guess followed by the scanned quotes; a failed request adds none |
| SearchService.StoppedScanStaysStopped | backend/utils/search_service.py:71-72 | once the loop has stopped, later quotes add nothing |

## Left out

- Network fetchers are parameters of the members that use them: yfinance, TEFAS, exchange rates, the Yahoo search request and `get_historical_data`. The project reads no clock either: `date.today()` and `datetime.now()` are parameters.
- The database session is left out: commits, rollbacks, `crud.create_transaction` and query construction. Each query is the sequence it returns. An unordered query is taken in table order.
- The HTTP layer, Flask views and templates are left out, along with pydantic schemas, CSV/Excel serialisation of exports, the sample template, the sector analysis, the dashboard metrics and their cache.
- The numpy statistics are left out: volatility, VaR, Sortino, beta and momentum. Their values are inputs to the scorers.
- `round(...)` is not modelled; amounts are exact reals.
- The CAGR power `(value/cost) ** (365/days)` is the `growth` parameter of `AppPortfolioCalculator.UserPerformanceSincePurchase`.
- Regular expressions are not modelled. The capture groups are inputs to `EventParser.ParseEventMessage`.
- `pd.to_datetime` and `float(...)` on CSV cells are not modelled. A cell arrives already classified as blank, number or unparsable, and a date as an ordinal or missing.
- A `pd.read_csv` failure is not modelled.
- Strings are ASCII only. `upper`, `lower`, `strip`, `split`, `isalpha` and `title` do no Unicode case mapping.
- Error messages are modelled as fault values, not text.
- `calculate_cost_basis_fifo` in `backend/app.py` is imported from a module that does not define it. The cost basis is therefore a parameter of `BackendApp.Market`.
- The timeline's symbols are plain strings. Splitting the result keys by symbol type is not modelled.
- HistoricalTimeline.GetPortfolioTimelineData: `symbols`, `userCost` and `ledger` are inputs. The model does not tie `symbols` to `get_current_holdings`, `userCost` to the average purchase prices of the performance reports that are not errors, or `ledger` to the query by symbol and end date (app/utils/historical_fetcher.py:202-210, 234-236, 256-264).
- HistoricalTimeline.GetPortfolioTimelineData: the catch-all `except Exception` (app/utils/historical_fetcher.py:344-348) is not modelled. It turns any raise into an error dictionary, including the `TypeError` of a FIFO walk over a lot without a price. The model has only the two explicit error results.
- BackendMain.GetDailyPortfolioValue: requires every row to be priced and every buy, sell and split to name a symbol. The FastAPI schema and the CSV import always store a price; a NULL price would raise `TypeError`. The symbol is not guaranteed: the CSV import stores a split, dividend or capital-increase row with a blank symbol as `symbol=None` (backend/utils/data_import_export.py:166-171, 191-198). A split without a symbol and with a positive quantity makes `symbol.endswith('.IS')` raise `AttributeError` (backend/main.py:122). The model does not represent either raise.
- BackendMain.ProfitLoss: requires every row to be priced, as the FastAPI schema guarantees. `cash_invested` and `cash_returned` are computed by the source but never used, so they are not modelled.
- BackendMain.HoldingsOnDate: the rows are those the database returns. The model does not include the ORDER BY, which cannot change a sum of reals.
- AppPortfolioCalculator.CostBasisOf: a lot without a price raises `TypeError` in the source; the model reports this as `None`, the error result.
- HistoricalScoring.VolatilityScore: the contract states the band table's range, not each cutoff. The same holds for SharpeScore, DrawdownScore, SortinoScore, MomentumScore and ReturnScore; RiskScoreMonotone states their order.
- HistoricalScoring.ReturnPoints: the contract states the bucket range, not each cutoff. The same holds for SharpePoints, VolatilityPoints, DrawdownPoints and SortinoPoints; ReturnRaisesGrade states their order.
- HistoricalScoring.GradePoints: states the range [0, 4.3]. GradePointsMonotone states the order; each grade's value is not stated one by one.
- HistoricalScoring.StrengthOf: states NEGATIVE exactly, and only necessary conditions for the two positive strengths.
- HistoricalScoring.EnhancedInvestmentSignal: states which side (buy or sell) the final action is on, the confidence bucket and the strength. It does not state which of the seven actions is chosen.
- HistoricalScoring.PositionRecommendation: states MINIMAL and LARGE exactly and SMALL one way; MEDIUM_LARGE and MEDIUM are left as the remainder.
- HistoricalInsights.PortfolioStrategy: states AGGRESSIVE_GROWTH exactly and only necessary conditions for the other strategies.
- EventParser.Words: states that words are non-empty and whitespace-free, not that they cover the input.
- EventParser.ParseInt: states the digit-string case; a sign is accepted, and Python's underscores and surrounding blanks are not.
- EventParser.ParseDecimal: states non-negativity and the digit-only case; the fractional value is not stated digit by digit.
- SearchService.RemoveAll: states only that the result is no longer. SuffixOnlyIsStripped and InnerOccurrencesAreRemovedToo state what `replace` removes.

## Findings

| source | as written | input that shows it | evidently intended | confidence | as-written member | corrected member |
|---|---|---|---|---|---|---|
| app/utils/historical_fetcher.py:310-320 | when one symbol has no price on a date, the else-branch appends an entry to every tracked symbol's series, on top of the entries those symbols get from their own branch | two held symbols A and B; on the only date A has no price and B has one; B's series ends with two entries for one date | pad only the symbol that lacks a price, so every series has one entry per date | not executed; high | HistoricalTimeline.PaddingBranchMisalignsSeries | HistoricalTimeline.IntendedSeriesAlignWithDates |
| app/utils/historical_fetcher.py:103-108 | each row is located again with `list(index).index(idx)`, which returns the first row with that date | two rows on 2024-07-01 (distinct timestamps) for CCOLA; the first is divided by 11 twice and the second is left unadjusted | rescale each row dated before the split exactly once | not executed; medium | HistoricalSplits.RepeatedDateScalesFirstRowTwice | HistoricalSplits.SplitAdjusted |
