/**
 * Portfolio-level insights over the per-stock risk metrics: value-weighted
 * return and volatility, the action lists, the high-risk exposure, the
 * portfolio grade and the strategy recommendation.
 */
module HistoricalInsights {
  import opened Wrappers
  import opened HistoricalScoring

  /** The fields of one `risk_metrics` entry that the insights read. */
  datatype StockMetrics = StockMetrics(
    symbol: string, currentValue: real, annualizedReturn: real, volatility: real,
    sharpeRatio: real, riskScore: int, action: Action)

  predicate DistinctSymbols(ms: seq<StockMetrics>)
  {
    forall i, j :: 0 <= i < j < |ms| ==> ms[i].symbol != ms[j].symbol
  }

  function TotalValue(ms: seq<StockMetrics>): real
  {
    if ms == [] then 0.0 else ms[0].currentValue + TotalValue(ms[1..])
  }

  function Weighted(x: real, value: real): real
  {
    x * value
  }

  /** `sum(stock['annualized_return'] * stock['current_value'])`. */
  function ReturnTimesValue(ms: seq<StockMetrics>): real
  {
    if ms == [] then 0.0 else Weighted(ms[0].annualizedReturn, ms[0].currentValue) + ReturnTimesValue(ms[1..])
  }

  function VolatilityTimesValue(ms: seq<StockMetrics>): real
  {
    if ms == [] then 0.0 else Weighted(ms[0].volatility, ms[0].currentValue) + VolatilityTimesValue(ms[1..])
  }

  function SharpeTotal(ms: seq<StockMetrics>): real
  {
    if ms == [] then 0.0 else ms[0].sharpeRatio + SharpeTotal(ms[1..])
  }

  /** The value-weighted mean, or 0 when the total value is not positive. */
  function WeightedMean(weightedSum: real, total: real): real
  {
    if total > 0.0 then weightedSum / total else 0.0
  }

  /** The plain mean of `n` values summing to `total`. */
  function Average(total: real, n: nat): (a: real)
    requires n > 0
    ensures a * (n as real) == total
  {
    total / (n as real)
  }

  predicate NonNegativeValues(ms: seq<StockMetrics>)
  {
    forall i :: 0 <= i < |ms| ==> ms[i].currentValue >= 0.0
  }

  lemma {:induction false} WeightedSumBounds(ms: seq<StockMetrics>, lo: real, hi: real)
    requires NonNegativeValues(ms)
    requires forall i :: 0 <= i < |ms| ==> lo <= ms[i].annualizedReturn <= hi
    ensures lo * TotalValue(ms) <= ReturnTimesValue(ms) <= hi * TotalValue(ms)
  {
    if ms != [] {
      var m := ms[0];
      assert forall i :: 0 <= i < |ms[1..]| ==> ms[1..][i] == ms[i + 1];
      WeightedSumBounds(ms[1..], lo, hi);
      WeightedSumStep(lo, m.annualizedReturn, hi, m.currentValue, ReturnTimesValue(ms[1..]), TotalValue(ms[1..]));
    }
  }

  /** One more stock keeps the weighted sum between `lo` and `hi` times the total. */
  lemma WeightedSumStep(lo: real, x: real, hi: real, v: real, rest: real, restTotal: real)
    requires lo <= x <= hi && v >= 0.0
    requires lo * restTotal <= rest <= hi * restTotal
    ensures lo * (v + restTotal) <= Weighted(x, v) + rest <= hi * (v + restTotal)
  {
    ScaleBetween(lo, x, hi, v);
    assert lo * (v + restTotal) == lo * v + lo * restTotal;
    assert hi * (v + restTotal) == hi * v + hi * restTotal;
  }

  lemma ScaleBetween(lo: real, x: real, hi: real, v: real)
    requires lo <= x <= hi && v >= 0.0
    ensures lo * v <= x * v <= hi * v
  {
  }

  lemma QuotientBetween(lo: real, s: real, hi: real, t: real)
    requires t > 0.0 && lo * t <= s <= hi * t
    ensures lo <= s / t <= hi
  {
    var q := s / t;
    assert q * t == s;
  }

  /** With non-negative values and a positive total, the weighted return lies between the smallest and largest return. */
  lemma WeightedReturnBetweenExtremes(ms: seq<StockMetrics>, lo: real, hi: real)
    requires NonNegativeValues(ms) && TotalValue(ms) > 0.0
    requires forall i :: 0 <= i < |ms| ==> lo <= ms[i].annualizedReturn <= hi
    ensures lo <= WeightedMean(ReturnTimesValue(ms), TotalValue(ms)) <= hi
  {
    WeightedSumBounds(ms, lo, hi);
    QuotientBetween(lo, ReturnTimesValue(ms), hi, TotalValue(ms));
  }

  /** The symbols whose signal action is one of `actions`, in dictionary order. */
  function SymbolsWithAction(ms: seq<StockMetrics>, actions: set<Action>): (r: seq<string>)
    ensures |r| <= |ms|
    ensures forall i :: 0 <= i < |ms| && ms[i].action in actions ==> ms[i].symbol in r
    ensures forall sym :: sym in r ==> exists i :: 0 <= i < |ms| && ms[i].symbol == sym && ms[i].action in actions
  {
    if ms == [] then []
    else
      assert forall i :: 0 <= i < |ms[1..]| ==> ms[1..][i] == ms[i + 1];
      (if ms[0].action in actions then [ms[0].symbol] else []) + SymbolsWithAction(ms[1..], actions)
  }

  /** With distinct symbols, stocks whose actions lie in disjoint sets land in disjoint lists. */
  lemma ActionListsDisjoint(ms: seq<StockMetrics>, a1: set<Action>, a2: set<Action>)
    requires DistinctSymbols(ms) && a1 !! a2
    ensures forall sym :: sym in SymbolsWithAction(ms, a1) ==> sym !in SymbolsWithAction(ms, a2)
  {
  }

  /** The symbols with `risk_score < 40`, in dictionary order. */
  function HighRiskSymbols(ms: seq<StockMetrics>): (r: seq<string>)
    ensures |r| <= |ms|
    ensures forall i :: 0 <= i < |ms| && ms[i].riskScore < 40 ==> ms[i].symbol in r
    ensures forall sym :: sym in r ==> exists i :: 0 <= i < |ms| && ms[i].symbol == sym && ms[i].riskScore < 40
  {
    if ms == [] then []
    else
      assert forall i :: 0 <= i < |ms[1..]| ==> ms[1..][i] == ms[i + 1];
      (if ms[0].riskScore < 40 then [ms[0].symbol] else []) + HighRiskSymbols(ms[1..])
  }

  /** The value held in stocks with `risk_score < 40`. */
  function HighRiskValue(ms: seq<StockMetrics>): real
  {
    if ms == [] then 0.0
    else (if ms[0].riskScore < 40 then ms[0].currentValue else 0.0) + HighRiskValue(ms[1..])
  }

  lemma {:induction false} HighRiskValueBounds(ms: seq<StockMetrics>)
    requires NonNegativeValues(ms)
    ensures 0.0 <= HighRiskValue(ms) <= TotalValue(ms)
  {
    if ms != [] {
      assert forall i :: 0 <= i < |ms[1..]| ==> ms[1..][i] == ms[i + 1];
      HighRiskValueBounds(ms[1..]);
    }
  }

  /** `high_risk_exposure_percent`: the high-risk share of the value, in percent, 0 without value. */
  function HighRiskExposure(ms: seq<StockMetrics>): real
  {
    if TotalValue(ms) > 0.0 then HighRiskValue(ms) / TotalValue(ms) * 100.0 else 0.0
  }

  /** With non-negative values the exposure is a percentage. */
  lemma ExposureIsPercentage(ms: seq<StockMetrics>)
    requires NonNegativeValues(ms)
    ensures 0.0 <= HighRiskExposure(ms) <= 100.0
  {
    HighRiskValueBounds(ms);
    if TotalValue(ms) > 0.0 {
      QuotientBetween(0.0, HighRiskValue(ms), 1.0, TotalValue(ms));
    }
  }

  datatype RiskLevel = HighExposure | MediumExposure | LowExposure

  function RiskLevelOf(exposure: real): (l: RiskLevel)
    ensures l == HighExposure <==> exposure > 40.0
    ensures l == MediumExposure <==> 20.0 < exposure <= 40.0
    ensures l == LowExposure <==> exposure <= 20.0
  {
    if exposure > 40.0 then HighExposure else if exposure > 20.0 then MediumExposure else LowExposure
  }

  function RiskLevelLabel(l: RiskLevel): string
  {
    match l
    case HighExposure => "HIGH"
    case MediumExposure => "MEDIUM"
    case LowExposure => "LOW"
  }

  // ---------------------------------------------------------------------------
  // Portfolio grade
  // ---------------------------------------------------------------------------

  datatype PortfolioGrade = PortfolioA | PortfolioBPlus | PortfolioB | PortfolioC | PortfolioD

  function RankOfPortfolioGrade(g: PortfolioGrade): nat
  {
    match g
    case PortfolioD => 0
    case PortfolioC => 1
    case PortfolioB => 2
    case PortfolioBPlus => 3
    case PortfolioA => 4
  }

  function PortfolioGradeLabel(g: PortfolioGrade): string
  {
    match g
    case PortfolioA => "A"
    case PortfolioBPlus => "B+"
    case PortfolioB => "B"
    case PortfolioC => "C"
    case PortfolioD => "D"
  }

  function PortfolioGradeDescription(g: PortfolioGrade): string
  {
    match g
    case PortfolioA => "Excellent portfolio performance"
    case PortfolioBPlus => "Good portfolio performance"
    case PortfolioB => "Fair portfolio performance"
    case PortfolioC => "Below average performance"
    case PortfolioD => "Poor portfolio performance"
  }

  /** `calculate_portfolio_grade`: the first band the weighted figures reach. */
  function PortfolioGradeOf(weightedReturn: real, weightedVolatility: real, avgSharpe: real): (g: PortfolioGrade)
    ensures g == PortfolioA <==> weightedReturn > 15.0 && weightedVolatility < 30.0 && avgSharpe > 0.5
    ensures g == PortfolioBPlus <==>
      !(weightedReturn > 15.0 && weightedVolatility < 30.0 && avgSharpe > 0.5) && weightedReturn > 10.0 && weightedVolatility < 40.0
    ensures g == PortfolioD <==> weightedReturn <= 0.0
    ensures g == PortfolioC <==> 0.0 < weightedReturn <= 5.0
  {
    if weightedReturn > 15.0 && weightedVolatility < 30.0 && avgSharpe > 0.5 then PortfolioA
    else if weightedReturn > 10.0 && weightedVolatility < 40.0 then PortfolioBPlus
    else if weightedReturn > 5.0 then PortfolioB
    else if weightedReturn > 0.0 then PortfolioC
    else PortfolioD
  }

  /** A higher return, lower volatility and higher Sharpe never lower the portfolio grade. */
  lemma PortfolioGradeMonotone(ret1: real, vol1: real, sharpe1: real, ret2: real, vol2: real, sharpe2: real)
    requires ret1 <= ret2 && vol2 <= vol1 && sharpe1 <= sharpe2
    ensures RankOfPortfolioGrade(PortfolioGradeOf(ret1, vol1, sharpe1)) <= RankOfPortfolioGrade(PortfolioGradeOf(ret2, vol2, sharpe2))
  {
  }

  // ---------------------------------------------------------------------------
  // Strategy
  // ---------------------------------------------------------------------------

  datatype Strategy = AggressiveGrowth | ModerateGrowth | PortfolioCleanup | RiskReduction | BalancedHold

  function StrategyLabel(s: Strategy): string
  {
    match s
    case AggressiveGrowth => "AGGRESSIVE_GROWTH"
    case ModerateGrowth => "MODERATE_GROWTH"
    case PortfolioCleanup => "PORTFOLIO_CLEANUP"
    case RiskReduction => "RISK_REDUCTION"
    case BalancedHold => "BALANCED_HOLD"
  }

  function DigitChar(d: nat): char
    requires d < 10
  {
    ('0' as int + d) as char
  }

  /** `str(n)` for a count. */
  function NatToString(n: nat): (s: string)
    ensures s != []
    ensures forall i :: 0 <= i < |s| ==> '0' <= s[i] <= '9'
  {
    if n < 10 then [DigitChar(n)] else NatToString(n / 10) + [DigitChar(n % 10)]
  }

  datatype StrategyRecommendation = StrategyRecommendation(strategy: Strategy, description: string)

  /** `generate_portfolio_strategy`: the first rule that applies, comparing list sizes against the four lists' total. */
  function PortfolioStrategy(
    strongBuys: nat, buyMore: nat, holds: nat, considerSells: nat,
    weightedReturn: real, weightedVolatility: real): (r: StrategyRecommendation)
    ensures r.strategy == AggressiveGrowth <==> strongBuys > 0 && weightedReturn > 10.0
    ensures r.strategy == BalancedHold ==> weightedVolatility <= 50.0
    ensures r.strategy == ModerateGrowth ==> buyMore > 0
    ensures r.strategy == PortfolioCleanup ==> considerSells > 0
  {
    var total := strongBuys + buyMore + holds + considerSells;
    var strategy :=
      if strongBuys > 0 && weightedReturn > 10.0 then AggressiveGrowth
      else if buyMore as real > total as real * 0.4 then ModerateGrowth
      else if considerSells as real > total as real * 0.3 then PortfolioCleanup
      else if weightedVolatility > 50.0 then RiskReduction
      else BalancedHold;
    StrategyRecommendation(strategy, StrategyDescription(strategy, strongBuys, buyMore, considerSells))
  }

  /** The recommendation's sentence, quoting the size of the list that decided it. */
  function StrategyDescription(strategy: Strategy, strongBuys: nat, buyMore: nat, considerSells: nat): string
  {
    match strategy
    case AggressiveGrowth => "Focus on " + NatToString(strongBuys) + " strong performers. Consider increasing positions."
    case ModerateGrowth => "Good opportunity to increase positions in " + NatToString(buyMore) + " stocks."
    case PortfolioCleanup => "Consider reducing or selling " + NatToString(considerSells) + " underperforming stocks."
    case RiskReduction => "High portfolio volatility. Focus on stability and risk management."
    case BalancedHold => "Maintain current positions and monitor performance."
  }

  /** With no stock in any of the four lists only the volatility rule can fire. */
  lemma EmptyListsStrategy(weightedReturn: real, weightedVolatility: real)
    ensures PortfolioStrategy(0, 0, 0, 0, weightedReturn, weightedVolatility).strategy
         == (if weightedVolatility > 50.0 then RiskReduction else BalancedHold)
  {
  }

  // ---------------------------------------------------------------------------
  // Insights
  // ---------------------------------------------------------------------------

  datatype Insights = Insights(
    totalValue: real, weightedAnnualReturn: real, weightedVolatility: real,
    averageSharpeRatio: real, portfolioGrade: PortfolioGrade,
    strongBuys: seq<string>, buyMore: seq<string>, holds: seq<string>, considerSells: seq<string>,
    strongBuyCount: nat, totalStocks: nat,
    highRiskStocks: seq<string>, highRiskExposurePercent: real, riskLevel: RiskLevel,
    strategy: StrategyRecommendation)

  /** `calculate_portfolio_insights`; `None` stands for the empty dictionary returned when there are no metrics. */
  function PortfolioInsights(ms: seq<StockMetrics>): (r: Option<Insights>)
    ensures r.None? <==> ms == []
    ensures r.Some? ==> r.value.totalStocks == |ms| && r.value.totalValue == TotalValue(ms)
    ensures r.Some? ==> r.value.strongBuyCount == |r.value.strongBuys|
    ensures r.Some? ==> r.value.averageSharpeRatio == Average(SharpeTotal(ms), |ms|)
    ensures r.Some? ==> r.value.weightedAnnualReturn == WeightedMean(ReturnTimesValue(ms), TotalValue(ms))
    ensures r.Some? ==> r.value.riskLevel == RiskLevelOf(r.value.highRiskExposurePercent)
    ensures r.Some? ==> r.value.highRiskExposurePercent == HighRiskExposure(ms)
    ensures r.Some? ==> r.value.weightedVolatility == WeightedMean(VolatilityTimesValue(ms), TotalValue(ms))
    ensures r.Some? ==>
      r.value.portfolioGrade == PortfolioGradeOf(r.value.weightedAnnualReturn, r.value.weightedVolatility, r.value.averageSharpeRatio)
    ensures r.Some? ==> r.value.strongBuys == SymbolsWithAction(ms, {StrongBuy})
    ensures r.Some? ==> r.value.buyMore == SymbolsWithAction(ms, {BuyMore})
    ensures r.Some? ==> r.value.holds == SymbolsWithAction(ms, {Hold})
    ensures r.Some? ==> r.value.considerSells == SymbolsWithAction(ms, {ConsiderSell, ReducePosition})
    ensures r.Some? ==> forall i :: 0 <= i < |ms| && IsSellSide(ms[i].action) ==> ms[i].symbol in r.value.considerSells
    ensures r.Some? ==> forall sym :: sym in r.value.considerSells ==>
      exists i :: 0 <= i < |ms| && ms[i].symbol == sym && IsSellSide(ms[i].action)
    ensures r.Some? ==> r.value.highRiskStocks == HighRiskSymbols(ms)
    ensures r.Some? ==> r.value.strategy == PortfolioStrategy(
      |r.value.strongBuys|, |r.value.buyMore|, |r.value.holds|, |r.value.considerSells|,
      r.value.weightedAnnualReturn, r.value.weightedVolatility)
  {
    if ms == [] then None
    else
      var total := TotalValue(ms);
      var weightedReturn := WeightedMean(ReturnTimesValue(ms), total);
      var weightedVolatility := WeightedMean(VolatilityTimesValue(ms), total);
      var avgSharpe := Average(SharpeTotal(ms), |ms|);
      var strongBuys := SymbolsWithAction(ms, {StrongBuy});
      var buyMore := SymbolsWithAction(ms, {BuyMore});
      var holds := SymbolsWithAction(ms, {Hold});
      var considerSells := SymbolsWithAction(ms, {ConsiderSell, ReducePosition});
      SellSideListed(ms);
      var exposure := HighRiskExposure(ms);
      Some(Insights(
        total, weightedReturn, weightedVolatility, avgSharpe,
        PortfolioGradeOf(weightedReturn, weightedVolatility, avgSharpe),
        strongBuys, buyMore, holds, considerSells, |strongBuys|, |ms|,
        HighRiskSymbols(ms), exposure, RiskLevelOf(exposure),
        PortfolioStrategy(|strongBuys|, |buyMore|, |holds|, |considerSells|, weightedReturn, weightedVolatility)))
  }

  /** The sell list holds exactly the symbols whose action is `CONSIDER_SELL` or `REDUCE_POSITION`. */
  lemma SellSideListed(ms: seq<StockMetrics>)
    ensures var sells := SymbolsWithAction(ms, {ConsiderSell, ReducePosition});
      && (forall i :: 0 <= i < |ms| && IsSellSide(ms[i].action) ==> ms[i].symbol in sells)
      && (forall sym :: sym in sells ==> exists i :: 0 <= i < |ms| && ms[i].symbol == sym && IsSellSide(ms[i].action))
  {
  }

  /** With distinct symbols no stock is both a strong buy and a sell candidate, both bought more and sold, both held and sold, nor both held and added to. */
  lemma InsightListsDisjoint(ms: seq<StockMetrics>)
    requires ms != [] && DistinctSymbols(ms)
    ensures var r := PortfolioInsights(ms).value;
      (forall sym :: sym in r.strongBuys ==> sym !in r.considerSells)
      && (forall sym :: sym in r.buyMore ==> sym !in r.considerSells)
      && (forall sym :: sym in r.holds ==> sym !in r.considerSells)
      && (forall sym :: sym in r.holds ==> sym !in r.buyMore)
  {
    ActionListsDisjoint(ms, {StrongBuy}, {ConsiderSell, ReducePosition});
    ActionListsDisjoint(ms, {BuyMore}, {ConsiderSell, ReducePosition});
    ActionListsDisjoint(ms, {Hold}, {ConsiderSell, ReducePosition});
    ActionListsDisjoint(ms, {Hold}, {BuyMore});
  }
}
