/**
 * The per-stock threshold-band scorers of the Flask app's risk analysis:
 * the advanced risk score, the letter grade, the investment signal and the
 * position size. Every input is a metric computed elsewhere.
 */
module HistoricalScoring {
  import opened Text

  function Clamp(x: int, lo: int, hi: int): (c: int)
    requires lo <= hi
    ensures lo <= c <= hi
    ensures lo <= x <= hi ==> c == x
    ensures x < lo ==> c == lo
    ensures x > hi ==> c == hi
  {
    if x < lo then lo else if x > hi then hi else x
  }

  lemma ClampMonotone(x: int, y: int, lo: int, hi: int)
    requires x <= y && lo <= hi
    ensures Clamp(x, lo, hi) <= Clamp(y, lo, hi)
  {
  }

  // ---------------------------------------------------------------------------
  // Advanced risk score
  // ---------------------------------------------------------------------------

  function VolatilityScore(volatility: real): (s: int)
    ensures -20 <= s <= 20
  {
    if volatility < 15.0 then 20
    else if volatility < 25.0 then 15
    else if volatility < 35.0 then 10
    else if volatility < 50.0 then 0
    else if volatility < 70.0 then -10
    else -20
  }

  function SharpeScore(sharpeRatio: real): (s: int)
    ensures -15 <= s <= 20
  {
    if sharpeRatio > 1.5 then 20
    else if sharpeRatio > 1.0 then 15
    else if sharpeRatio > 0.5 then 10
    else if sharpeRatio > 0.0 then 5
    else if sharpeRatio > -0.5 then -5
    else -15
  }

  function DrawdownScore(maxDrawdown: real): (s: int)
    ensures -20 <= s <= 20
  {
    if maxDrawdown > -5.0 then 20
    else if maxDrawdown > -10.0 then 15
    else if maxDrawdown > -20.0 then 10
    else if maxDrawdown > -35.0 then 0
    else if maxDrawdown > -50.0 then -10
    else -20
  }

  function SortinoScore(sortinoRatio: real): (s: int)
    ensures -5 <= s <= 8
  {
    if sortinoRatio > 1.0 then 8
    else if sortinoRatio > 0.5 then 5
    else if sortinoRatio > 0.0 then 2
    else -5
  }

  /** Beta scores best near 1, and a defensive beta below 0.6 beats an aggressive one above 1.4. */
  function BetaScore(beta: real): (s: int)
    ensures -5 <= s <= 8
    ensures s == 8 <==> 0.8 <= beta <= 1.2
    ensures s == 5 <==> (0.6 <= beta < 0.8 || 1.2 < beta <= 1.4)
    ensures s == 3 <==> beta < 0.6
    ensures s == -5 <==> beta > 1.4
  {
    if 0.8 <= beta <= 1.2 then 8
    else if 0.6 <= beta <= 1.4 then 5
    else if beta < 0.6 then 3
    else -5
  }

  function MomentumScore(momentum6m: real): (s: int)
    ensures -9 <= s <= 9
  {
    if momentum6m > 15.0 then 9
    else if momentum6m > 5.0 then 6
    else if momentum6m > -5.0 then 3
    else if momentum6m > -15.0 then -3
    else -9
  }

  function ReturnScore(annualReturn: real): (s: int)
    ensures -15 <= s <= 15
  {
    if annualReturn > 25.0 then 15
    else if annualReturn > 15.0 then 12
    else if annualReturn > 10.0 then 8
    else if annualReturn > 5.0 then 5
    else if annualReturn > 0.0 then 2
    else if annualReturn > -10.0 then -5
    else -15
  }

  datatype RiskCategory = VeryLowRisk | LowRisk | ModerateRisk | HighRisk | VeryHighRisk

  function RiskCategoryOf(score: int): (c: RiskCategory)
    ensures c == VeryLowRisk <==> score >= 80
    ensures c == LowRisk <==> 65 <= score < 80
    ensures c == ModerateRisk <==> 50 <= score < 65
    ensures c == HighRisk <==> 35 <= score < 50
    ensures c == VeryHighRisk <==> score < 35
  {
    if score >= 80 then VeryLowRisk
    else if score >= 65 then LowRisk
    else if score >= 50 then ModerateRisk
    else if score >= 35 then HighRisk
    else VeryHighRisk
  }

  function RiskCategoryLabel(c: RiskCategory): string
  {
    match c
    case VeryLowRisk => "VERY_LOW"
    case LowRisk => "LOW"
    case ModerateRisk => "MODERATE"
    case HighRisk => "HIGH"
    case VeryHighRisk => "VERY_HIGH"
  }

  function RiskDescription(c: RiskCategory): string
  {
    match c
    case VeryLowRisk => "Excellent risk-reward profile"
    case LowRisk => "Good risk-reward profile"
    case ModerateRisk => "Balanced risk-reward profile"
    case HighRisk => "Higher risk investment"
    case VeryHighRisk => "High risk investment"
  }

  datatype RiskComponents = RiskComponents(
    volatility: int, sharpeRatio: int, maxDrawdown: int, sortinoRatio: int,
    beta: int, momentum6m: int, annualReturn: int)

  function ComponentSum(c: RiskComponents): int
  {
    c.volatility + c.sharpeRatio + c.maxDrawdown + c.sortinoRatio + c.beta + c.momentum6m + c.annualReturn
  }

  datatype RiskAssessment = RiskAssessment(
    riskScore: int, category: RiskCategory, description: string, components: RiskComponents)

  /** `calculate_advanced_risk_score`: 0 to 100, higher is better. */
  function AdvancedRiskScore(
    volatility: real, sharpeRatio: real, maxDrawdown: real, annualReturn: real,
    sortinoRatio: real, beta: real, momentum6m: real): (r: RiskAssessment)
    ensures 0 <= r.riskScore <= 100
    ensures r.components == RiskComponents(
      VolatilityScore(volatility), SharpeScore(sharpeRatio), DrawdownScore(maxDrawdown),
      SortinoScore(sortinoRatio), BetaScore(beta), MomentumScore(momentum6m), ReturnScore(annualReturn))
    ensures 0 <= 50 + ComponentSum(r.components) <= 100 ==> r.riskScore == 50 + ComponentSum(r.components)
    ensures 50 + ComponentSum(r.components) < 0 ==> r.riskScore == 0
    ensures 50 + ComponentSum(r.components) > 100 ==> r.riskScore == 100
    ensures r.category == RiskCategoryOf(r.riskScore)
    ensures r.description == RiskDescription(r.category)
  {
    var components := RiskComponents(
      VolatilityScore(volatility), SharpeScore(sharpeRatio), DrawdownScore(maxDrawdown),
      SortinoScore(sortinoRatio), BetaScore(beta), MomentumScore(momentum6m), ReturnScore(annualReturn));
    var finalScore := Clamp(50 + ComponentSum(components), 0, 100);
    var category := RiskCategoryOf(finalScore);
    RiskAssessment(finalScore, category, RiskDescription(category), components)
  }

  /** The raw sum ranges over [-39, 150], so the clamp matters at both ends. */
  lemma RawRiskScoreRange(
    volatility: real, sharpeRatio: real, maxDrawdown: real, annualReturn: real,
    sortinoRatio: real, beta: real, momentum6m: real)
    ensures var c := AdvancedRiskScore(volatility, sharpeRatio, maxDrawdown, annualReturn, sortinoRatio, beta, momentum6m).components;
      -39 <= 50 + ComponentSum(c) <= 150
  {
  }

  /**
   * Better inputs never lower the score: lower volatility, higher Sharpe,
   * Sortino, drawdown (closer to 0), momentum and return, at the same beta.
   */
  lemma RiskScoreMonotone(
    vol1: real, sharpe1: real, dd1: real, ret1: real, sortino1: real, mom1: real,
    vol2: real, sharpe2: real, dd2: real, ret2: real, sortino2: real, mom2: real, beta: real)
    requires vol2 <= vol1 && sharpe1 <= sharpe2 && dd1 <= dd2 && ret1 <= ret2
    requires sortino1 <= sortino2 && mom1 <= mom2
    ensures AdvancedRiskScore(vol1, sharpe1, dd1, ret1, sortino1, beta, mom1).riskScore
         <= AdvancedRiskScore(vol2, sharpe2, dd2, ret2, sortino2, beta, mom2).riskScore
  {
    assert VolatilityScore(vol1) <= VolatilityScore(vol2);
    assert SharpeScore(sharpe1) <= SharpeScore(sharpe2);
    assert DrawdownScore(dd1) <= DrawdownScore(dd2);
    assert ReturnScore(ret1) <= ReturnScore(ret2);
    assert SortinoScore(sortino1) <= SortinoScore(sortino2);
    assert MomentumScore(mom1) <= MomentumScore(mom2);
    var c1 := AdvancedRiskScore(vol1, sharpe1, dd1, ret1, sortino1, beta, mom1).components;
    var c2 := AdvancedRiskScore(vol2, sharpe2, dd2, ret2, sortino2, beta, mom2).components;
    ClampMonotone(50 + ComponentSum(c1), 50 + ComponentSum(c2), 0, 100);
  }

  // ---------------------------------------------------------------------------
  // Letter grade
  // ---------------------------------------------------------------------------

  function ReturnPoints(annualReturn: real): (p: int)
    ensures 0 <= p <= 35
  {
    if annualReturn > 30.0 then 35
    else if annualReturn > 20.0 then 30
    else if annualReturn > 15.0 then 25
    else if annualReturn > 10.0 then 20
    else if annualReturn > 5.0 then 15
    else if annualReturn > 0.0 then 10
    else if annualReturn > -10.0 then 5
    else 0
  }

  function SharpePoints(sharpeRatio: real): (p: int)
    ensures 0 <= p <= 25
  {
    if sharpeRatio > 2.0 then 25
    else if sharpeRatio > 1.5 then 22
    else if sharpeRatio > 1.0 then 18
    else if sharpeRatio > 0.5 then 14
    else if sharpeRatio > 0.0 then 10
    else if sharpeRatio > -0.5 then 5
    else 0
  }

  function VolatilityPoints(volatility: real): (p: int)
    ensures 0 <= p <= 20
  {
    if volatility < 15.0 then 20
    else if volatility < 25.0 then 17
    else if volatility < 35.0 then 14
    else if volatility < 50.0 then 10
    else if volatility < 70.0 then 6
    else 0
  }

  function DrawdownPoints(maxDrawdown: real): (p: int)
    ensures 0 <= p <= 10
  {
    if maxDrawdown > -10.0 then 10
    else if maxDrawdown > -20.0 then 8
    else if maxDrawdown > -35.0 then 5
    else if maxDrawdown > -50.0 then 2
    else 0
  }

  function SortinoPoints(sortinoRatio: real): (p: int)
    ensures 0 <= p <= 10
  {
    if sortinoRatio > 1.5 then 10
    else if sortinoRatio > 1.0 then 8
    else if sortinoRatio > 0.5 then 5
    else if sortinoRatio > 0.0 then 3
    else 0
  }

  datatype Grade = APlus | A | AMinus | BPlus | B | BMinus | CPlus | C | D | F

  function GradeOf(total: int): (g: Grade)
    ensures g == APlus <==> total >= 90
    ensures g == A <==> 85 <= total < 90
    ensures g == AMinus <==> 80 <= total < 85
    ensures g == BPlus <==> 75 <= total < 80
    ensures g == B <==> 65 <= total < 75
    ensures g == BMinus <==> 55 <= total < 65
    ensures g == CPlus <==> 45 <= total < 55
    ensures g == C <==> 35 <= total < 45
    ensures g == D <==> 25 <= total < 35
    ensures g == F <==> total < 25
  {
    if total >= 90 then APlus
    else if total >= 85 then A
    else if total >= 80 then AMinus
    else if total >= 75 then BPlus
    else if total >= 65 then B
    else if total >= 55 then BMinus
    else if total >= 45 then CPlus
    else if total >= 35 then C
    else if total >= 25 then D
    else F
  }

  function GradePoints(g: Grade): (p: real)
    ensures 0.0 <= p <= 4.3
  {
    match g
    case APlus => 4.3
    case A => 4.0
    case AMinus => 3.7
    case BPlus => 3.3
    case B => 3.0
    case BMinus => 2.7
    case CPlus => 2.3
    case C => 2.0
    case D => 1.0
    case F => 0.0
  }

  function GradeLabel(g: Grade): string
  {
    match g
    case APlus => "A+"
    case A => "A"
    case AMinus => "A-"
    case BPlus => "B+"
    case B => "B"
    case BMinus => "B-"
    case CPlus => "C+"
    case C => "C"
    case D => "D"
    case F => "F"
  }

  function GradeDescription(g: Grade): string
  {
    match g
    case APlus => "Outstanding: Exceptional returns with minimal risk"
    case A => "Excellent: Strong returns with low risk"
    case AMinus => "Very Good: Solid returns with manageable risk"
    case BPlus => "Good: Positive returns with moderate risk"
    case B => "Fair: Decent returns with acceptable risk"
    case BMinus => "Below Average: Mixed performance"
    case CPlus => "Weak: Underperforming with elevated risk"
    case C => "Poor: Negative returns with high risk"
    case D => "Very Poor: Large losses with very high risk"
    case F => "Failing: Severe losses with extreme risk"
  }

  function InvestmentTier(g: Grade): string
  {
    match g
    case APlus => "TIER_1_PREMIUM"
    case A => "TIER_1"
    case AMinus | BPlus => "TIER_2"
    case B | BMinus => "TIER_3"
    case CPlus | C => "TIER_4"
    case D | F => "TIER_5"
  }

  function RecommendationForGrade(g: Grade): string
  {
    match g
    case APlus => "Core holding - maximize position"
    case A => "Core holding - large position"
    case AMinus => "Strong buy - significant position"
    case BPlus => "Buy - moderate position"
    case B => "Hold - maintain position"
    case BMinus => "Monitor closely"
    case CPlus => "Consider reducing position"
    case C => "Reduce position significantly"
    case D => "Consider selling"
    case F => "Sell immediately"
  }

  /** A higher total never earns fewer grade points. */
  lemma GradePointsMonotone(t1: int, t2: int)
    requires t1 <= t2
    ensures GradePoints(GradeOf(t1)) <= GradePoints(GradeOf(t2))
  {
  }

  /** Grade points fall below 2.0 (C- or worse) exactly when the total is below 35. */
  lemma PoorGradeIsTotalBelow35(total: int)
    ensures GradePoints(GradeOf(total)) < 2.0 <==> total < 35
  {
  }

  function RiskQuality(riskScore: int): (q: string)
    ensures q in {"Low", "Moderate", "High"}
    ensures q == "Low" <==> riskScore >= 70
    ensures q == "Moderate" <==> 50 <= riskScore < 70
    ensures q == "High" <==> riskScore < 50
  {
    if riskScore >= 70 then "Low" else if riskScore >= 50 then "Moderate" else "High"
  }

  function ReturnQuality(annualReturn: real): (q: string)
    ensures q in {"Excellent", "Good", "Fair", "Poor"}
    ensures q == "Excellent" <==> annualReturn > 20.0
    ensures q == "Good" <==> 10.0 < annualReturn <= 20.0
    ensures q == "Fair" <==> 0.0 < annualReturn <= 10.0
    ensures q == "Poor" <==> annualReturn <= 0.0
  {
    if annualReturn > 20.0 then "Excellent"
    else if annualReturn > 10.0 then "Good"
    else if annualReturn > 0.0 then "Fair"
    else "Poor"
  }

  datatype ScoreBreakdown = ScoreBreakdown(
    totalScore: int, returnPoints: int, sharpePoints: int, volatilityPoints: int,
    drawdownPoints: int, sortinoPoints: int)

  datatype PerformanceGrade = PerformanceGrade(
    grade: Grade, gradePoints: real, description: string, investmentTier: string,
    recommendation: string, breakdown: ScoreBreakdown,
    riskQuality: string, returnQuality: string, overallAssessment: string)

  /** `categorize_advanced_performance`: five bucket scores summed into a 0..100 total and graded. */
  function CategorizeAdvancedPerformance(
    annualReturn: real, volatility: real, sharpeRatio: real,
    sortinoRatio: real, maxDrawdown: real, riskScore: int): (r: PerformanceGrade)
    ensures 0 <= r.breakdown.totalScore <= 100
    ensures r.breakdown.totalScore == r.breakdown.returnPoints + r.breakdown.sharpePoints
      + r.breakdown.volatilityPoints + r.breakdown.drawdownPoints + r.breakdown.sortinoPoints
    ensures r.breakdown.returnPoints == ReturnPoints(annualReturn)
    ensures r.breakdown.sharpePoints == SharpePoints(sharpeRatio)
    ensures r.breakdown.volatilityPoints == VolatilityPoints(volatility)
    ensures r.breakdown.drawdownPoints == DrawdownPoints(maxDrawdown)
    ensures r.breakdown.sortinoPoints == SortinoPoints(sortinoRatio)
    ensures r.grade == GradeOf(r.breakdown.totalScore) && r.gradePoints == GradePoints(r.grade)
    ensures r.description == GradeDescription(r.grade) && r.investmentTier == InvestmentTier(r.grade)
    ensures r.recommendation == RecommendationForGrade(r.grade)
    ensures r.riskQuality == RiskQuality(riskScore) && r.returnQuality == ReturnQuality(annualReturn)
    ensures r.overallAssessment == r.returnQuality + " returns with " + Lower(r.riskQuality) + " risk"
  {
    var breakdown := ScoreBreakdown(
      ReturnPoints(annualReturn) + SharpePoints(sharpeRatio) + VolatilityPoints(volatility)
        + DrawdownPoints(maxDrawdown) + SortinoPoints(sortinoRatio),
      ReturnPoints(annualReturn), SharpePoints(sharpeRatio), VolatilityPoints(volatility),
      DrawdownPoints(maxDrawdown), SortinoPoints(sortinoRatio));
    var grade := GradeOf(breakdown.totalScore);
    var riskQuality := RiskQuality(riskScore);
    var returnQuality := ReturnQuality(annualReturn);
    PerformanceGrade(
      grade, GradePoints(grade), GradeDescription(grade), InvestmentTier(grade),
      RecommendationForGrade(grade), breakdown,
      riskQuality, returnQuality, returnQuality + " returns with " + Lower(riskQuality) + " risk")
  }

  /** A better annual return never lowers the grade points. */
  lemma ReturnRaisesGrade(
    ret1: real, ret2: real, volatility: real, sharpeRatio: real,
    sortinoRatio: real, maxDrawdown: real, riskScore: int)
    requires ret1 <= ret2
    ensures CategorizeAdvancedPerformance(ret1, volatility, sharpeRatio, sortinoRatio, maxDrawdown, riskScore).gradePoints
         <= CategorizeAdvancedPerformance(ret2, volatility, sharpeRatio, sortinoRatio, maxDrawdown, riskScore).gradePoints
  {
    var r1 := CategorizeAdvancedPerformance(ret1, volatility, sharpeRatio, sortinoRatio, maxDrawdown, riskScore);
    var r2 := CategorizeAdvancedPerformance(ret2, volatility, sharpeRatio, sortinoRatio, maxDrawdown, riskScore);
    ReturnPointsMonotone(ret1, ret2);
    GradePointsMonotone(r1.breakdown.totalScore, r2.breakdown.totalScore);
  }

  lemma ReturnPointsMonotone(ret1: real, ret2: real)
    requires ret1 <= ret2
    ensures ReturnPoints(ret1) <= ReturnPoints(ret2)
  {
  }

  // ---------------------------------------------------------------------------
  // Investment signal
  // ---------------------------------------------------------------------------

  /** The working action; `Monitor` is reported as MONITOR_CLOSELY. */
  datatype Action = StrongBuy | BuyMore | BuySmall | Hold | Monitor | ReducePosition | ConsiderSell

  predicate IsSellSide(a: Action)
  {
    a == ReducePosition || a == ConsiderSell
  }

  /** The `final_actions` table. */
  function ActionLabel(a: Action): (l: string)
    ensures l in {"STRONG_BUY", "BUY_MORE", "BUY_SMALL", "HOLD", "MONITOR_CLOSELY", "REDUCE_POSITION", "CONSIDER_SELL"}
  {
    match a
    case StrongBuy => "STRONG_BUY"
    case BuyMore => "BUY_MORE"
    case BuySmall => "BUY_SMALL"
    case Hold => "HOLD"
    case Monitor => "MONITOR_CLOSELY"
    case ReducePosition => "REDUCE_POSITION"
    case ConsiderSell => "CONSIDER_SELL"
  }

  lemma ActionLabelInjective(a: Action, b: Action)
    requires ActionLabel(a) == ActionLabel(b)
    ensures a == b
  {
  }

  /** What one block of the signal generator contributes: reasons, a confidence change, the action after it. */
  datatype Block = Block(factors: seq<string>, delta: int, action: Action)

  function PerformanceBlock(performance: real): (b: Block)
    ensures |b.factors| == 1 && -20 <= b.delta <= 25
    ensures IsSellSide(b.action) <==> performance <= -10.0
  {
    if performance > 30.0 then Block(["Exceptional performance (+30%)"], 25, StrongBuy)
    else if performance > 15.0 then Block(["Strong performance (+15%)"], 20, BuyMore)
    else if performance > 5.0 then Block(["Positive performance (+5%)"], 10, Hold)
    else if performance > -10.0 then Block(["Minor losses (-10%)"], 5, Monitor)
    else if performance > -25.0 then Block(["Significant losses (-25%)"], -10, ReducePosition)
    else Block(["Major losses (-25%+)"], -20, ConsiderSell)
  }

  function SharpeBlock(sharpeRatio: real, a: Action): (b: Block)
    ensures |b.factors| <= 1 && -15 <= b.delta <= 20
    ensures IsSellSide(b.action) <==> IsSellSide(a)
  {
    if sharpeRatio > 1.5 then
      Block(["Excellent risk-adjusted returns (Sharpe > 1.5)"], 20, if a == Hold || a == Monitor then BuyMore else a)
    else if sharpeRatio > 1.0 then Block(["Good risk-adjusted returns (Sharpe > 1.0)"], 15, a)
    else if sharpeRatio > 0.5 then Block(["Fair risk-adjusted returns"], 5, a)
    else if sharpeRatio < 0.0 then
      Block(["Poor risk-adjusted returns"], -15, if a == BuyMore then Hold else if a == Hold then Monitor else a)
    else Block([], 0, a)
  }

  function VolatilityBlock(volatility: real, performance: real, a: Action): (b: Block)
    ensures |b.factors| <= 1 && -15 <= b.delta <= 10
    ensures IsSellSide(b.action) <==> IsSellSide(a)
  {
    if volatility > 60.0 then
      Block(["Very high volatility (>60%)"], -15, if a == StrongBuy || a == BuyMore then BuySmall else a)
    else if volatility > 40.0 then
      Block(["High volatility (>40%)"], -10, if a == StrongBuy then BuyMore else a)
    else if volatility < 25.0 then
      Block(["Low volatility (<25%)"], 10, if a == Hold && performance > 0.0 then BuyMore else a)
    else Block([], 0, a)
  }

  function DrawdownBlock(maxDrawdown: real, a: Action): (b: Block)
    ensures |b.factors| <= 1 && -20 <= b.delta <= 15
    ensures IsSellSide(b.action) <==> IsSellSide(a)
  {
    if maxDrawdown < -40.0 then
      Block(["Severe historical drawdowns (-40%+)"], -20, if a == StrongBuy || a == BuyMore then BuySmall else a)
    else if maxDrawdown < -25.0 then Block(["Large historical drawdowns (-25%)"], -10, a)
    else if maxDrawdown > -10.0 then Block(["Minimal historical drawdowns"], 15, a)
    else Block([], 0, a)
  }

  function HoldingPeriodBlock(daysHeld: int, performance: real, a: Action): (b: Block)
    ensures |b.factors| <= 2 && -10 <= b.delta <= 5 && b.action == a
  {
    if daysHeld < 90 then Block(["Recently acquired (< 3 months)"], 5, a)
    else if daysHeld > 730 then
      if performance < -15.0 then
        Block(["Long-term holding (2+ years)", "Long-term underperformance suggests reconsideration"], -10, a)
      else Block(["Long-term holding (2+ years)"], 5, a)
    else Block([], 0, a)
  }

  function RiskBlock(riskScore: int, a: Action): (b: Block)
    ensures |b.factors| <= 1 && -15 <= b.delta <= 15
    ensures IsSellSide(b.action) <==> IsSellSide(a)
  {
    if riskScore >= 80 then Block(["Very low risk profile"], 15, if a == Monitor then Hold else a)
    else if riskScore >= 65 then Block(["Low risk profile"], 10, a)
    else if riskScore < 40 then
      Block(["High risk profile"], -15, if a == StrongBuy || a == BuyMore then BuySmall else a)
    else Block([], 0, a)
  }

  function GradeBlock(gradePoints: real, a: Action): (b: Block)
    ensures |b.factors| <= 1 && -20 <= b.delta <= 20
    ensures gradePoints < 2.0 ==> IsSellSide(b.action)
    ensures gradePoints >= 2.0 ==> (IsSellSide(b.action) <==> IsSellSide(a))
  {
    if gradePoints >= 4.0 then
      Block(["A-grade investment quality"], 20, if a == Hold then BuyMore else a)
    else if gradePoints >= 3.0 then Block(["B-grade investment quality"], 10, a)
    else if gradePoints < 2.0 then
      Block(["Poor investment grade (C- or below)"], -20, if IsSellSide(a) then a else ReducePosition)
    else Block([], 0, a)
  }

  function MomentumBlock(momentum6m: real, a: Action): (b: Block)
    ensures |b.factors| <= 1 && -10 <= b.delta <= 10 && b.action == a
  {
    if momentum6m > 15.0 then Block(["Strong positive momentum"], 10, a)
    else if momentum6m < -15.0 then Block(["Negative momentum trend"], -10, a)
    else Block([], 0, a)
  }

  datatype Confidence = VeryHighConfidence | HighConfidence | MediumConfidence | LowConfidence | VeryLowConfidence

  function ConfidenceOf(score: int): (c: Confidence)
    ensures c == VeryHighConfidence <==> score >= 60
    ensures c == HighConfidence <==> 40 <= score < 60
    ensures c == MediumConfidence <==> 20 <= score < 40
    ensures c == LowConfidence <==> 0 <= score < 20
    ensures c == VeryLowConfidence <==> score < 0
  {
    if score >= 60 then VeryHighConfidence
    else if score >= 40 then HighConfidence
    else if score >= 20 then MediumConfidence
    else if score >= 0 then LowConfidence
    else VeryLowConfidence
  }

  datatype Strength = StrongPositive | Positive | Neutral | Negative

  function StrengthOf(score: int, a: Action): (s: Strength)
    ensures s == Negative <==> IsSellSide(a)
    ensures s == StrongPositive ==> score >= 50 && (a == StrongBuy || a == BuyMore)
    ensures s == Positive ==> score >= 30 && (a == BuyMore || a == BuySmall)
  {
    if score >= 50 && (a == StrongBuy || a == BuyMore) then StrongPositive
    else if score >= 30 && (a == BuyMore || a == BuySmall) then Positive
    else if a == Hold then Neutral
    else if IsSellSide(a) then Negative
    else Neutral
  }

  /** `"; ".join(parts)`. */
  function Join(parts: seq<string>, sep: string): string
  {
    if parts == [] then ""
    else if |parts| == 1 then parts[0]
    else parts[0] + sep + Join(parts[1..], sep)
  }

  datatype Signal = Signal(
    action: Action, strength: Strength, reasoning: string, factors: seq<string>,
    confidence: Confidence, confidenceScore: int)

  /** `generate_enhanced_investment_signal`: the eight blocks applied in order to the action and the confidence. */
  function EnhancedInvestmentSignal(
    performance: real, volatility: real, sharpeRatio: real, maxDrawdown: real,
    annualReturn: real, daysHeld: int, riskScore: int, gradePoints: real, momentum6m: real): (s: Signal)
    ensures -125 <= s.confidenceScore <= 120
    ensures 1 <= |s.factors| <= 9
    ensures gradePoints < 2.0 ==> IsSellSide(s.action)
    ensures gradePoints >= 2.0 ==> (IsSellSide(s.action) <==> performance <= -10.0)
    ensures s.strength == Negative <==> IsSellSide(s.action)
    ensures s.confidence == ConfidenceOf(s.confidenceScore)
    ensures s.reasoning == Join(s.factors, "; ")
  {
    var b1 := PerformanceBlock(performance);
    var b2 := SharpeBlock(sharpeRatio, b1.action);
    var b3 := VolatilityBlock(volatility, performance, b2.action);
    var b4 := DrawdownBlock(maxDrawdown, b3.action);
    var b5 := HoldingPeriodBlock(daysHeld, performance, b4.action);
    var b6 := RiskBlock(riskScore, b5.action);
    var b7 := GradeBlock(gradePoints, b6.action);
    var b8 := MomentumBlock(momentum6m, b7.action);
    var factors := b1.factors + b2.factors + b3.factors + b4.factors + b5.factors + b6.factors + b7.factors + b8.factors;
    var score := b1.delta + b2.delta + b3.delta + b4.delta + b5.delta + b6.delta + b7.delta + b8.delta;
    Signal(b8.action, StrengthOf(score, b8.action), Join(factors, "; "), factors, ConfidenceOf(score), score)
  }

  /** A grade total below 35 always ends in a sell-side signal. */
  lemma LowGradeTotalMeansSellSide(
    performance: real, volatility: real, sharpeRatio: real, maxDrawdown: real,
    annualReturn: real, daysHeld: int, riskScore: int, sortinoRatio: real, momentum6m: real)
    requires CategorizeAdvancedPerformance(annualReturn, volatility, sharpeRatio, sortinoRatio, maxDrawdown, riskScore).breakdown.totalScore < 35
    ensures var g := CategorizeAdvancedPerformance(annualReturn, volatility, sharpeRatio, sortinoRatio, maxDrawdown, riskScore);
      IsSellSide(EnhancedInvestmentSignal(performance, volatility, sharpeRatio, maxDrawdown,
        annualReturn, daysHeld, riskScore, g.gradePoints, momentum6m).action)
  {
    var g := CategorizeAdvancedPerformance(annualReturn, volatility, sharpeRatio, sortinoRatio, maxDrawdown, riskScore);
    PoorGradeIsTotalBelow35(g.breakdown.totalScore);
  }

  // ---------------------------------------------------------------------------
  // Position size
  // ---------------------------------------------------------------------------

  datatype PositionSize = Large | MediumLarge | Medium | Small | Minimal

  function SizeRank(s: PositionSize): nat
  {
    match s
    case Minimal => 0
    case Small => 1
    case Medium => 2
    case MediumLarge => 3
    case Large => 4
  }

  datatype Position = Position(size: PositionSize, percentageOfPortfolio: string, rationale: string)

  /** `calculate_position_recommendation`: the first band the risk score and performance reach. */
  function PositionRecommendation(riskScore: int, performance: real, volatility: real): (p: Position)
    ensures p.size == Minimal <==> riskScore < 40
    ensures p.size == Large <==> riskScore >= 70 && performance > 15.0
    ensures p.size == Small ==> riskScore >= 40
  {
    if riskScore >= 70 && performance > 15.0 then
      Position(Large, "15-20%", "High-quality stock with strong performance")
    else if riskScore >= 60 && performance > 10.0 then
      Position(MediumLarge, "10-15%", "Good stock with solid performance")
    else if riskScore >= 50 && performance > 0.0 then
      Position(Medium, "5-10%", "Average stock, moderate allocation")
    else if riskScore >= 40 then
      Position(Small, "2-5%", "Higher risk, smaller position")
    else
      Position(Minimal, "1-3%", "High risk, very small position or consider selling")
  }

  /** The volatility argument is never consulted. */
  lemma PositionIgnoresVolatility(riskScore: int, performance: real, v1: real, v2: real)
    ensures PositionRecommendation(riskScore, performance, v1) == PositionRecommendation(riskScore, performance, v2)
  {
  }

  /** A higher risk score and a better performance never recommend a smaller position. */
  lemma PositionMonotone(risk1: int, perf1: real, risk2: int, perf2: real, volatility: real)
    requires risk1 <= risk2 && perf1 <= perf2
    ensures SizeRank(PositionRecommendation(risk1, perf1, volatility).size)
         <= SizeRank(PositionRecommendation(risk2, perf2, volatility).size)
  {
  }
}
