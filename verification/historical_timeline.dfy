/**
 * The valuation loop of `get_portfolio_timeline_data`: for every trading
 * date of the price table, the value of the holdings on that date, and per
 * symbol a daily-return series and a series of performance against the
 * user's average purchase price.
 */
module HistoricalTimeline {
  import opened Wrappers
  import opened Records
  import opened Ledger
  import opened HistoricalSplits

  /** The quantity of `symbol` held on `d`: transactions up to and including `d`, kept only when positive. */
  function HeldOn(ledger: seq<Transaction>, symbol: string, d: int): (q: real)
    ensures q >= 0.0
    ensures q == 0.0 || q == NetQty(DatedThrough(ledger, d), Some(symbol))
    ensures NetQty(DatedThrough(ledger, d), Some(symbol)) > 0.0 ==> q == NetQty(DatedThrough(ledger, d), Some(symbol))
  {
    var n := NetQty(DatedThrough(ledger, d), Some(symbol));
    if n > 0.0 then n else 0.0
  }

  /** The portfolio value on `day`: held quantity times price, over the symbols with a price that day. */
  function DayValue(ledger: seq<Transaction>, symbols: seq<string>, day: Day): real
  {
    if symbols == [] then 0.0
    else
      var s := Last(symbols);
      DayValue(ledger, Init(symbols), day)
      + (if Column(s) in day.prices then PositionValue(HeldOn(ledger, s, day.date), day.prices[Column(s)]) else 0.0)
  }

  /** With non-negative prices the portfolio value is never negative. */
  lemma {:induction false} DayValueNonNegative(ledger: seq<Transaction>, symbols: seq<string>, day: Day)
    requires forall c :: c in day.prices ==> day.prices[c] >= 0.0
    ensures DayValue(ledger, symbols, day) >= 0.0
  {
    if symbols != [] {
      DayValueNonNegative(ledger, Init(symbols), day);
    }
  }

  /** A symbol with no price that day adds nothing, whatever is held. */
  lemma {:induction false} DayValueSkipsUnpriced(ledger: seq<Transaction>, symbols: seq<string>, extra: string, day: Day)
    requires Column(extra) !in day.prices
    ensures DayValue(ledger, symbols + [extra], day) == DayValue(ledger, symbols, day)
  {
    assert Init(symbols + [extra]) == symbols && Last(symbols + [extra]) == extra;
  }

  /** One symbol's series: daily returns, performance against cost, and the user's average cost. */
  datatype Series = Series(dailyReturns: seq<real>, cumulative: seq<real>, userCostBasis: real)

  /** The state the loop threads through the dates: the series and the previous price per symbol. */
  datatype Tracker = Tracker(series: map<string, Series>, prev: map<string, real>)

  predicate Aligned(se: Series)
  {
    |se.dailyReturns| == |se.cumulative|
  }

  predicate AllAligned(series: map<string, Series>)
  {
    forall k :: k in series ==> Aligned(series[k])
  }

  /** The return since the previous price, 0 without a positive previous price. */
  function DailyReturn(prev: map<string, real>, s: string, price: real): real
  {
    if s in prev && prev[s] > 0.0 then (price - prev[s]) / prev[s] else 0.0
  }

  /** Performance against the user's average purchase price, 0 without a positive cost. */
  function VersusCost(price: real, cost: real): (r: real)
    ensures cost > 0.0 ==> r * cost == price - cost
    ensures cost <= 0.0 ==> r == 0.0
  {
    if cost > 0.0 then (price - cost) / cost else 0.0
  }

  /** A day without data: a 0.0 return and the last performance repeated (0.0 before any). */
  function Pad(se: Series): (r: Series)
    requires Aligned(se)
    ensures Aligned(r) && |r.dailyReturns| == |se.dailyReturns| + 1 && r.userCostBasis == se.userCostBasis
  {
    if se.dailyReturns != [] then
      Series(se.dailyReturns + [0.0], se.cumulative + [Last(se.cumulative)], se.userCostBasis)
    else
      Series(se.dailyReturns + [0.0], se.cumulative + [0.0], se.userCostBasis)
  }

  /** A day with a price for `s`: the series of `s` grows by one entry and its previous price moves on. */
  function Record(t: Tracker, s: string, price: real): (r: Tracker)
    requires s in t.series && AllAligned(t.series)
    ensures AllAligned(r.series) && r.series.Keys == t.series.Keys
  {
    var se := t.series[s];
    Tracker(t.series[s := Series(se.dailyReturns + [DailyReturn(t.prev, s, price)],
                                 se.cumulative + [VersusCost(price, se.userCostBasis)],
                                 se.userCostBasis)],
            t.prev[s := price])
  }

  /**
   * The loop body for one symbol on one day, as written: with a price, the
   * symbol's series is extended; without one, EVERY tracked series is padded.
   */
  function SymbolStep(t: Tracker, s: string, day: Day): (r: Tracker)
    requires AllAligned(t.series)
    ensures AllAligned(r.series) && r.series.Keys == t.series.Keys
  {
    if Column(s) in day.prices then
      if s in t.series then Record(t, s, day.prices[Column(s)]) else t
    else
      Tracker(map k | k in t.series :: Pad(t.series[k]), t.prev)
  }

  /** The symbols loop of one day, as written. */
  function DayStep(t: Tracker, symbols: seq<string>, day: Day): (r: Tracker)
    requires AllAligned(t.series)
    ensures AllAligned(r.series) && r.series.Keys == t.series.Keys
  {
    if symbols == [] then t else SymbolStep(DayStep(t, Init(symbols), day), Last(symbols), day)
  }

  /** The series created before the loop: one per symbol with a user performance record. */
  function InitialSeries(symbols: seq<string>, userCost: map<string, real>): (series: map<string, Series>)
    ensures AllAligned(series)
    ensures forall k :: k in series <==> k in symbols && k in userCost
  {
    map k | k in symbols && k in userCost :: Series([], [], userCost[k])
  }

  /** The tracker after the first `days`, as written. */
  function TrackDays(days: seq<Day>, symbols: seq<string>, userCost: map<string, real>): (r: Tracker)
    ensures AllAligned(r.series) && r.series.Keys == InitialSeries(symbols, userCost).Keys
  {
    if days == [] then Tracker(InitialSeries(symbols, userCost), map[])
    else DayStep(TrackDays(Init(days), symbols, userCost), symbols, Last(days))
  }

  /** One output entry: the series without the internal cost field. */
  datatype SymbolTimeline = SymbolTimeline(dailyReturns: seq<real>, cumulativePerformance: seq<real>)

  predicate AnyNonZero(xs: seq<real>)
  {
    xs != [] && (xs[0] != 0.0 || AnyNonZero(xs[1..]))
  }

  lemma {:induction false} AnyNonZeroIsExists(xs: seq<real>)
    ensures AnyNonZero(xs) <==> exists i :: 0 <= i < |xs| && xs[i] != 0.0
  {
    if xs != [] {
      AnyNonZeroIsExists(xs[1..]);
      if !AnyNonZero(xs) {
        forall i | 0 <= i < |xs| ensures xs[i] == 0.0 {
          if i > 0 { assert xs[i] == xs[1..][i - 1]; }
        }
      } else if xs[0] == 0.0 {
        var i :| 0 <= i < |xs[1..]| && xs[1..][i] != 0.0;
        assert xs[i + 1] != 0.0;
      }
    }
  }

  /** The clean-up: only symbols whose performance series is non-zero somewhere. */
  function Cleaned(series: map<string, Series>): (r: map<string, SymbolTimeline>)
    ensures forall k :: k in r <==> k in series && exists i :: 0 <= i < |series[k].cumulative| && series[k].cumulative[i] != 0.0
  {
    forall k | k in series ensures AnyNonZero(series[k].cumulative) <==> exists i :: 0 <= i < |series[k].cumulative| && series[k].cumulative[i] != 0.0 {
      AnyNonZeroIsExists(series[k].cumulative);
    }
    map k | k in series && AnyNonZero(series[k].cumulative) :: SymbolTimeline(series[k].dailyReturns, series[k].cumulative)
  }

  lemma DayValueSnoc(ledger: seq<Transaction>, symbols: seq<string>, s: string, day: Day)
    ensures DayValue(ledger, symbols + [s], day) == DayValue(ledger, symbols, day)
      + (if Column(s) in day.prices then PositionValue(HeldOn(ledger, s, day.date), day.prices[Column(s)]) else 0.0)
  {
    assert Init(symbols + [s]) == symbols && Last(symbols + [s]) == s;
  }

  lemma DayStepSnoc(t: Tracker, symbols: seq<string>, s: string, day: Day)
    requires AllAligned(t.series)
    ensures DayStep(t, symbols + [s], day) == SymbolStep(DayStep(t, symbols, day), s, day)
  {
    assert Init(symbols + [s]) == symbols && Last(symbols + [s]) == s;
  }

  /** The date loop's body: the day's portfolio value and the updated series. */
  method ValueDay(day: Day, symbols: seq<string>, ledger: seq<Transaction>, tracked0: map<string, Series>, prev0: map<string, real>)
    returns (total: real, tracked: map<string, Series>, prevPrices: map<string, real>)
    requires AllAligned(tracked0)
    ensures total == DayValue(ledger, symbols, day)
    ensures Tracker(tracked, prevPrices) == DayStep(Tracker(tracked0, prev0), symbols, day)
  {
    tracked, prevPrices := tracked0, prev0;
    var through := DatedThrough(ledger, day.date);
    var keys, holdings := Replay(through);
    total := 0.0;
    ghost var start := Tracker(tracked0, prev0);
    for j := 0 to |symbols|
      invariant total == DayValue(ledger, symbols[..j], day)
      invariant AllAligned(tracked)
      invariant Tracker(tracked, prevPrices) == DayStep(start, symbols[..j], day)
    {
      var symbol := symbols[j];
      assert symbols[..j + 1] == symbols[..j] + [symbol];
      DayValueSnoc(ledger, symbols[..j], symbol, day);
      DayStepSnoc(start, symbols[..j], symbol, day);
      var column := Column(symbol);
      if column in day.prices {
        var currentPrice := day.prices[column];
        var quantity := 0.0;
        if Some(symbol) in holdings && holdings[Some(symbol)] > 0.0 {
          quantity := holdings[Some(symbol)];
        } else if Some(symbol) !in holdings {
          FirstSeenIsTouchedKeys(through);
          UntouchedIsZero(through, Some(symbol));
        }
        assert quantity == HeldOn(ledger, symbol, day.date);
        total := total + PositionValue(quantity, currentPrice);
        if symbol in tracked {
          var se := tracked[symbol];
          var dailyReturn := DailyReturn(prevPrices, symbol, currentPrice);
          var cumulative := VersusCost(currentPrice, se.userCostBasis);
          tracked := tracked[symbol := Series(se.dailyReturns + [dailyReturn], se.cumulative + [cumulative], se.userCostBasis)];
          prevPrices := prevPrices[symbol := currentPrice];
        }
      } else {
        tracked := map k | k in tracked :: Pad(tracked[k]);
      }
    }
    assert symbols[..|symbols|] == symbols;
  }

  /**
   * The loop over the trading dates of `get_portfolio_timeline_data`, given
   * the split-adjusted table, the held symbols, the average purchase price of
   * every symbol whose performance could be computed, and the transactions
   * of the held symbols up to the end date in date order.
   */
  method ValueTimeline(days: seq<Day>, symbols: seq<string>, userCost: map<string, real>, ledger: seq<Transaction>)
    returns (dates: seq<int>, values: seq<real>, series: map<string, SymbolTimeline>)
    ensures |dates| == |days| && |values| == |days|
    ensures forall i :: 0 <= i < |days| ==> dates[i] == days[i].date && values[i] == DayValue(ledger, symbols, days[i])
    ensures series == Cleaned(TrackDays(days, symbols, userCost).series)
  {
    dates, values := [], [];
    var tracked := InitialSeries(symbols, userCost);
    var prevPrices: map<string, real> := map[];
    for i := 0 to |days|
      invariant |dates| == i && |values| == i
      invariant forall k :: 0 <= k < i ==> dates[k] == days[k].date && values[k] == DayValue(ledger, symbols, days[k])
      invariant Tracker(tracked, prevPrices) == TrackDays(days[..i], symbols, userCost)
    {
      var day := days[i];
      assert Init(days[..i + 1]) == days[..i] && Last(days[..i + 1]) == day;
      dates := dates + [day.date];
      var total;
      total, tracked, prevPrices := ValueDay(day, symbols, ledger, tracked, prevPrices);
      values := values + [total];
    }
    assert days[..|days|] == days;
    series := Cleaned(tracked);
  }

  /** The whole computation, with the two error returns and the in-place split adjustment. */
  datatype Timeline =
    | NoHoldings   // {"error": "No stocks currently held in portfolio"}
    | NoHistory    // {"error": "No historical data available for timeline"}
    | Timeline(dates: seq<int>, portfolioPerformance: seq<real>, symbols: map<string, SymbolTimeline>)

  method GetPortfolioTimelineData(symbols: seq<string>, userCost: map<string, real>, table: array<Day>, ledger: seq<Transaction>)
    returns (r: Timeline)
    modifies table
    ensures symbols == [] ==> r == NoHoldings && table[..] == old(table[..])
    ensures symbols != [] && table.Length == 0 ==> r == NoHistory
    ensures symbols != [] && table.Length > 0 ==>
      && (forall i :: 0 <= i < table.Length ==> table[i] == AdjustDay(old(table[i]), symbols))
      && r.Timeline?
      && |r.dates| == |r.portfolioPerformance| == table.Length
      && (forall i :: 0 <= i < table.Length ==> r.dates[i] == table[i].date)
      && (forall i :: 0 <= i < table.Length ==> r.portfolioPerformance[i] == DayValue(ledger, symbols, table[i]))
      && r.symbols == Cleaned(TrackDays(table[..], symbols, userCost).series)
  {
    if symbols == [] {
      return NoHoldings;
    }
    if table.Length == 0 {
      return NoHistory;
    }
    AdjustTimelineTable(table, symbols);
    var dates, values, series := ValueTimeline(table[..], symbols, userCost, ledger);
    r := Timeline(dates, values, series);
  }

  // ---------------------------------------------------------------------------
  // The padding branch pads every symbol
  // ---------------------------------------------------------------------------

  /** Two held symbols; on the only date the first has no price and the second has one. */
  lemma PaddingBranchMisalignsSeries()
    ensures var days := [Day(1, map["B.IS" := 2.0])];
      var tracked := TrackDays(days, ["A", "B"], map["A" := 1.0, "B" := 1.0]).series;
      "B" in tracked && |tracked["B"].dailyReturns| == 2 != |days|
  {
    var day := Day(1, map["B.IS" := 2.0]);
    ConcreteColumns();
    assert Column("A") !in day.prices && Column("B") in day.prices;
    var cost := map["A" := 1.0, "B" := 1.0];
    var t0 := Tracker(InitialSeries(["A", "B"], cost), map[]);
    assert "B" in t0.series && t0.series["B"].dailyReturns == [];
    assert Init([day]) == [] && Last([day]) == day;
    TwoSymbolDay(t0, day);
    var t1 := SymbolStep(t0, "A", day);
    UnpricedPadsAll(t0, "A", day);
    PricedRecords(t1, "B", day);
  }

  lemma ConcreteColumns()
    ensures Column("A") == "A.IS" && Column("B") == "B.IS"
  {
  }

  /** The symbols loop over `["A", "B"]` is the step for "A" followed by the step for "B". */
  lemma TwoSymbolDay(t: Tracker, day: Day)
    requires AllAligned(t.series)
    ensures DayStep(t, ["A", "B"], day) == SymbolStep(SymbolStep(t, "A", day), "B", day)
  {
    assert [] + ["A"] == ["A"] && ["A"] + ["B"] == ["A", "B"];
    DayStepSnoc(t, [], "A", day);
    DayStepSnoc(t, ["A"], "B", day);
  }

  /** As written, a symbol without a price pads every tracked series by one entry. */
  lemma UnpricedPadsAll(t: Tracker, s: string, day: Day)
    requires AllAligned(t.series) && Column(s) !in day.prices
    ensures forall k :: k in t.series ==>
      |SymbolStep(t, s, day).series[k].dailyReturns| == |t.series[k].dailyReturns| + 1
  {
  }

  /** A tracked symbol with a price grows its own series by one entry. */
  lemma PricedRecords(t: Tracker, s: string, day: Day)
    requires AllAligned(t.series) && Column(s) in day.prices && s in t.series
    ensures |SymbolStep(t, s, day).series[s].dailyReturns| == |t.series[s].dailyReturns| + 1
  {
  }

  /** The evidently intended loop body: a symbol without a price that day pads only its own series. */
  function SymbolStepIntended(t: Tracker, s: string, day: Day): (r: Tracker)
    requires AllAligned(t.series)
    ensures AllAligned(r.series) && r.series.Keys == t.series.Keys
    ensures forall k :: k in t.series ==>
      |r.series[k].dailyReturns| == |t.series[k].dailyReturns| + (if k == s then 1 else 0)
  {
    if s in t.series then
      if Column(s) in day.prices then Record(t, s, day.prices[Column(s)])
      else Tracker(t.series[s := Pad(t.series[s])], t.prev)
    else t
  }

  function DayStepIntended(t: Tracker, symbols: seq<string>, day: Day): (r: Tracker)
    requires AllAligned(t.series)
    ensures AllAligned(r.series) && r.series.Keys == t.series.Keys
  {
    if symbols == [] then t else SymbolStepIntended(DayStepIntended(t, Init(symbols), day), Last(symbols), day)
  }

  function TrackDaysIntended(days: seq<Day>, symbols: seq<string>, userCost: map<string, real>): (r: Tracker)
    ensures AllAligned(r.series) && r.series.Keys == InitialSeries(symbols, userCost).Keys
  {
    if days == [] then Tracker(InitialSeries(symbols, userCost), map[])
    else DayStepIntended(TrackDaysIntended(Init(days), symbols, userCost), symbols, Last(days))
  }

  /** Over distinct symbols, one day extends each listed symbol's series by exactly one entry. */
  lemma {:induction false} DayStepIntendedAddsOne(t: Tracker, symbols: seq<string>, day: Day)
    requires AllAligned(t.series) && Distinct(symbols)
    ensures forall k :: k in t.series ==>
      |DayStepIntended(t, symbols, day).series[k].dailyReturns|
      == |t.series[k].dailyReturns| + (if k in symbols then 1 else 0)
  {
    if symbols != [] {
      assert symbols == Init(symbols) + [Last(symbols)];
      DayStepIntendedAddsOne(t, Init(symbols), day);
    }
  }

  /** With the intended padding every series has exactly one entry per date. */
  lemma {:induction false} IntendedSeriesAlignWithDates(days: seq<Day>, symbols: seq<string>, userCost: map<string, real>)
    requires Distinct(symbols)
    ensures forall k :: k in TrackDaysIntended(days, symbols, userCost).series ==>
      |TrackDaysIntended(days, symbols, userCost).series[k].dailyReturns| == |days|
      && |TrackDaysIntended(days, symbols, userCost).series[k].cumulative| == |days|
  {
    if days != [] {
      IntendedSeriesAlignWithDates(Init(days), symbols, userCost);
      DayStepIntendedAddsOne(TrackDaysIntended(Init(days), symbols, userCost), symbols, Last(days));
    }
  }

  // ---------------------------------------------------------------------------
  // The repository's timeline test
  // ---------------------------------------------------------------------------

  /** Ten THYAO shares bought on the first date are worth 1000.0 at 100.0 and 1060.0 at 106.0. */
  lemma TenSharesTimelineValues()
    ensures var ledger := [Transaction("buy", Some("THYAO"), 10.0, None, 738521, None, None)];
      && DayValue(ledger, ["THYAO"], Day(738521, map["THYAO.IS" := 100.0])) == 1000.0
      && DayValue(ledger, ["THYAO"], Day(738525, map["THYAO.IS" := 106.0])) == 1060.0
  {
    var ledger := [Transaction("buy", Some("THYAO"), 10.0, None, 738521, None, None)];
    TenSharesHeld(738521);
    TenSharesHeld(738525);
    ThyaoColumn();
    OneSymbolDayValue(ledger, "THYAO", Day(738521, map["THYAO.IS" := 100.0]));
    OneSymbolDayValue(ledger, "THYAO", Day(738525, map["THYAO.IS" := 106.0]));
  }

  lemma ThyaoColumn()
    ensures Column("THYAO") == "THYAO.IS"
  {
  }

  /** A single buy of ten shares is held on every later date. */
  lemma TenSharesHeld(d: int)
    requires d >= 738521
    ensures HeldOn([Transaction("buy", Some("THYAO"), 10.0, None, 738521, None, None)], "THYAO", d) == 10.0
  {
    var ledger := [Transaction("buy", Some("THYAO"), 10.0, None, 738521, None, None)];
    assert Init(ledger) == [] && Last(ledger) == ledger[0];
    assert DatedThrough(ledger, d) == ledger;
    assert NetQty(ledger, Some("THYAO")) == 10.0;
  }

  lemma OneSymbolDayValue(ledger: seq<Transaction>, s: string, day: Day)
    ensures DayValue(ledger, [s], day)
         == if Column(s) in day.prices then PositionValue(HeldOn(ledger, s, day.date), day.prices[Column(s)]) else 0.0
  {
    assert Init([s]) == [] && Last([s]) == s;
  }
}
