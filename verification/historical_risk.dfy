/**
 * The per-symbol risk inputs of the Flask app's risk metrics: rets
 * measured from the user's own cost basis, the drawdown of the wealth path
 * they describe, and the Sharpe ratio.
 */
module HistoricalRisk {
  import opened Wrappers
  import opened Records

  /** The price each return is measured from: the cost for the first price, the previous price after that. */
  function PrevPrice(cost: real, prices: seq<real>, i: nat): real
    requires i < |prices|
  {
    if i == 0 then cost else prices[i - 1]
  }

  /** `(price - prev) / prev`, recorded only when `prev > 0`. */
  function UserReturns(cost: real, prices: seq<real>): seq<real>
  {
    if prices == [] then []
    else
      var prev := PrevPrice(cost, prices, |prices| - 1);
      UserReturns(cost, Init(prices)) + (if prev > 0.0 then [(Last(prices) - prev) / prev] else [])
  }

  lemma {:induction false} UserReturnsLength(cost: real, prices: seq<real>)
    ensures |UserReturns(cost, prices)| <= |prices|
    ensures cost > 0.0 && (forall i :: 0 <= i < |prices| ==> prices[i] > 0.0) ==> |UserReturns(cost, prices)| == |prices|
  {
    if prices != [] {
      assert forall i :: 0 <= i < |Init(prices)| ==> Init(prices)[i] == prices[i];
      UserReturnsLength(cost, Init(prices));
    }
  }

  /**
   * The return series of one symbol, or `None` when the symbol is skipped:
   * fewer than 5 prices, a cost basis that is not positive, or fewer than 5 rets.
   */
  method UserReturnSeries(prices: seq<real>, cost: real) returns (r: Option<seq<real>>)
    ensures r.None? <==> |prices| < 5 || cost <= 0.0 || |UserReturns(cost, prices)| < 5
    ensures r.Some? ==> r.value == UserReturns(cost, prices)
  {
    if |prices| < 5 || cost <= 0.0 {
      return None;
    }
    var userReturns := [];
    var prevPrice := cost;
    for i := 0 to |prices|
      invariant userReturns == UserReturns(cost, prices[..i])
      invariant prevPrice == if i == 0 then cost else prices[i - 1]
    {
      assert Init(prices[..i + 1]) == prices[..i] && Last(prices[..i + 1]) == prices[i];
      assert PrevPrice(cost, prices[..i + 1], i) == prevPrice;
      if prevPrice > 0.0 {
        userReturns := userReturns + [(prices[i] - prevPrice) / prevPrice];
      }
      prevPrice := prices[i];
    }
    assert prices[..|prices|] == prices;
    if |userReturns| < 5 {
      return None;
    }
    return Some(userReturns);
  }

  /** With at least 5 positive prices and a positive cost a symbol is never skipped. */
  lemma PositivePricesAreNotSkipped(prices: seq<real>, cost: real)
    requires |prices| >= 5 && cost > 0.0
    requires forall i :: 0 <= i < |prices| ==> prices[i] > 0.0
    ensures |UserReturns(cost, prices)| >= 5
  {
    UserReturnsLength(cost, prices);
  }

  /** `cumulative_value *= (1 + ret)`. */
  function Grow(value: real, ret: real): real
  {
    value * (1.0 + ret)
  }

  /** The cumulative wealth after each return, starting from 1.0. */
  function Wealth(rets: seq<real>): (ws: seq<real>)
    ensures |ws| == |rets|
  {
    if rets == [] then []
    else
      var before := Wealth(Init(rets));
      before + [Grow(if before == [] then 1.0 else Last(before), Last(rets))]
  }

  /** The running maximum `np.maximum.accumulate` at position `i`. */
  function Peak(ws: seq<real>, i: nat): (p: real)
    requires i < |ws|
    ensures forall j :: 0 <= j <= i ==> ws[j] <= p
    ensures exists j :: 0 <= j <= i && ws[j] == p
  {
    if i == 0 then ws[0]
    else
      var p := Peak(ws, i - 1);
      if ws[i] > p then ws[i] else p
  }

  /** The smallest of `(ws[j] / peak_j - 1) * 100` for `j < n`, `None` if a peak is 0 (numpy would yield inf or NaN). */
  function MinDrawdown(ws: seq<real>, n: nat): Option<real>
    requires 0 < n <= |ws|
  {
    var peak := Peak(ws, n - 1);
    if peak == 0.0 then None
    else
      var here := (ws[n - 1] / peak - 1.0) * 100.0;
      if n == 1 then Some(here)
      else match MinDrawdown(ws, n - 1)
        case None => None
        case Some(m) => Some(if here < m then here else m)
  }

  /** When every wealth value is positive the drawdown is defined and lies in (-100, 0]. */
  lemma {:induction false} PositiveWealthDrawdown(ws: seq<real>, n: nat)
    requires 0 < n <= |ws|
    requires forall j :: 0 <= j < |ws| ==> ws[j] > 0.0
    ensures MinDrawdown(ws, n).Some?
    ensures -100.0 < MinDrawdown(ws, n).value <= 0.0
  {
    var peak := Peak(ws, n - 1);
    assert peak > 0.0;
    var ratio := ws[n - 1] / peak;
    assert ws[n - 1] <= peak;
    assert 0.0 < ratio <= 1.0 by {
      assert ratio * peak == ws[n - 1];
    }
    if n > 1 {
      PositiveWealthDrawdown(ws, n - 1);
    }
  }

  lemma PositiveProduct(a: real, b: real)
    requires a > 0.0 && b > 0.0
    ensures a * b > 0.0
  {
  }

  /** A return above -100% keeps positive wealth positive. */
  lemma {:induction false} WealthStaysPositive(rets: seq<real>)
    requires forall i :: 0 <= i < |rets| ==> rets[i] > -1.0
    ensures forall j :: 0 <= j < |Wealth(rets)| ==> Wealth(rets)[j] > 0.0
  {
    if rets != [] {
      assert forall i :: 0 <= i < |Init(rets)| ==> Init(rets)[i] == rets[i];
      WealthStaysPositive(Init(rets));
      var before := Wealth(Init(rets));
      var v := if before == [] then 1.0 else Last(before);
      assert v > 0.0 by {
        if before != [] { assert Last(before) == before[|before| - 1]; }
      }
      assert Last(rets) == rets[|rets| - 1];
      PositiveProduct(v, 1.0 + Last(rets));
      assert Grow(v, Last(rets)) > 0.0;
      assert Wealth(rets) == before + [Grow(v, Last(rets))];
      forall j | 0 <= j < |Wealth(rets)| ensures Wealth(rets)[j] > 0.0 {
        if j < |before| { assert Wealth(rets)[j] == before[j]; }
      }
    }
  }

  /** Returns measured between positive prices are all above -100%. */
  lemma {:induction false} PositivePricesGiveBoundedReturns(cost: real, prices: seq<real>)
    requires cost > 0.0
    requires forall i :: 0 <= i < |prices| ==> prices[i] > 0.0
    ensures forall i :: 0 <= i < |UserReturns(cost, prices)| ==> UserReturns(cost, prices)[i] > -1.0
  {
    if prices != [] {
      assert forall i :: 0 <= i < |Init(prices)| ==> Init(prices)[i] == prices[i];
      PositivePricesGiveBoundedReturns(cost, Init(prices));
      var prev := PrevPrice(cost, prices, |prices| - 1);
      assert prev > 0.0;
      var r := (Last(prices) - prev) / prev;
      assert r * prev == Last(prices) - prev;
      assert r > -1.0;
    }
  }

  /** Once a zero peak has made the drawdown undefined it stays undefined. */
  lemma {:induction false} UndefinedDrawdownPersists(ws: seq<real>, n: nat, m: nat)
    requires 0 < n <= m <= |ws|
    requires MinDrawdown(ws, n).None?
    ensures MinDrawdown(ws, m).None?
    decreases m
  {
    if m > n {
      UndefinedDrawdownPersists(ws, n, m - 1);
    }
  }

  /** The loop `cumulative_value *= (1 + ret)`, collecting each value. */
  method WealthPath(rets: seq<real>) returns (cumulativeValues: seq<real>)
    ensures cumulativeValues == Wealth(rets)
  {
    cumulativeValues := [];
    var cumulativeValue := 1.0;
    for i := 0 to |rets|
      invariant cumulativeValues == Wealth(rets[..i])
      invariant cumulativeValue == if i == 0 then 1.0 else Last(cumulativeValues)
    {
      assert Init(rets[..i + 1]) == rets[..i] && Last(rets[..i + 1]) == rets[i];
      cumulativeValue := Grow(cumulativeValue, rets[i]);
      cumulativeValues := cumulativeValues + [cumulativeValue];
    }
    assert rets[..|rets|] == rets;
  }

  /** `np.min((values - running_max) / running_max) * 100` over a non-empty wealth path. */
  method LowestDrawdown(ws: seq<real>) returns (lowest: Option<real>)
    requires ws != []
    ensures lowest == MinDrawdown(ws, |ws|)
  {
    var peak := ws[0];
    if peak == 0.0 {
      UndefinedDrawdownPersists(ws, 1, |ws|);
      return None;
    }
    var low := (ws[0] / peak - 1.0) * 100.0;
    for n := 1 to |ws|
      invariant peak == Peak(ws, n - 1)
      invariant MinDrawdown(ws, n) == Some(low)
    {
      if ws[n] > peak {
        peak := ws[n];
      }
      if peak == 0.0 {
        UndefinedDrawdownPersists(ws, n + 1, |ws|);
        return None;
      }
      var drawdown := (ws[n] / peak - 1.0) * 100.0;
      if drawdown < low {
        low := drawdown;
      }
    }
    lowest := Some(low);
  }

  /**
   * The drawdown block: grow wealth by each return, then take the smallest
   * drop below the running peak, in percent.
   */
  method MaxDrawdown(rets: seq<real>) returns (maxDrawdown: Option<real>)
    requires rets != []
    ensures maxDrawdown == MinDrawdown(Wealth(rets), |rets|)
  {
    var cumulativeValues := WealthPath(rets);
    maxDrawdown := LowestDrawdown(cumulativeValues);
  }

  lemma QuotientUnique(x: real, a: real, b: real)
    requires b > 0.0 && x * b == a
    ensures x == a / b
  {
    var q := a / b;
    assert q * b == a;
    assert (x - q) * b == 0.0;
  }

  /** One growth step from `prev / cost` by the return from `prev` to `price` lands on `price / cost`. */
  lemma GrowTelescopes(prev: real, price: real, cost: real)
    requires prev > 0.0 && cost > 0.0
    ensures Grow(prev / cost, (price - prev) / prev) == price / cost
  {
    var r := (price - prev) / prev;
    assert r * prev == price - prev;
    assert (1.0 + r) * prev == price;
    QuotientUnique(1.0 + r, price, prev);
    calc {
      Grow(prev / cost, r);
      (prev / cost) * (price / prev);
      price / cost;
    }
  }

  /** Each price as a fraction of the cost. */
  function Ratios(prices: seq<real>, cost: real): (r: seq<real>)
    requires cost > 0.0
    ensures |r| == |prices|
    ensures forall i :: 0 <= i < |prices| ==> r[i] == prices[i] / cost
  {
    if prices == [] then [] else Ratios(Init(prices), cost) + [Last(prices) / cost]
  }

  lemma SelfQuotient(c: real)
    requires c > 0.0
    ensures c / c == 1.0
  {
    QuotientUnique(1.0, c, c);
  }

  /** The wealth path of the returns measured from the cost, as a sequence. */
  lemma {:induction false} WealthFromCost(cost: real, prices: seq<real>)
    requires cost > 0.0
    requires forall i :: 0 <= i < |prices| ==> prices[i] > 0.0
    ensures Wealth(UserReturns(cost, prices)) == Ratios(prices, cost)
  {
    if prices != [] {
      var init := Init(prices);
      var k := |prices| - 1;
      assert forall i :: 0 <= i < |init| ==> init[i] == prices[i];
      WealthFromCost(cost, init);
      var prev := PrevPrice(cost, prices, k);
      assert prev > 0.0;
      var r := (prices[k] - prev) / prev;
      var rs := UserReturns(cost, prices);
      assert rs == UserReturns(cost, init) + [r];
      assert Init(rs) == UserReturns(cost, init) && Last(rs) == r;
      var before := Ratios(init, cost);
      var v := if before == [] then 1.0 else Last(before);
      if k == 0 {
        SelfQuotient(cost);
      } else {
        assert Last(before) == Last(init) / cost;
      }
      assert v == prev / cost;
      GrowTelescopes(prev, prices[k], cost);
      assert Wealth(rs) == before + [prices[k] / cost];
    }
  }

  /** Measured from the user's cost, the wealth path is each price over the cost. */
  lemma WealthIsPriceOverCost(cost: real, prices: seq<real>)
    requires cost > 0.0
    requires forall i :: 0 <= i < |prices| ==> prices[i] > 0.0
    ensures |UserReturns(cost, prices)| == |prices|
    ensures forall i :: 0 <= i < |prices| ==> Wealth(UserReturns(cost, prices))[i] == prices[i] / cost
  {
    UserReturnsLength(cost, prices);
    WealthFromCost(cost, prices);
  }

  /** Measured from a positive cost over positive prices, the maximum drawdown is defined and in (-100, 0]. */
  lemma DrawdownFromCostIsNonPositive(cost: real, prices: seq<real>)
    requires cost > 0.0 && prices != []
    requires forall i :: 0 <= i < |prices| ==> prices[i] > 0.0
    ensures var rs := UserReturns(cost, prices);
      rs != [] && MinDrawdown(Wealth(rs), |rs|).Some? && -100.0 < MinDrawdown(Wealth(rs), |rs|).value <= 0.0
  {
    UserReturnsLength(cost, prices);
    PositivePricesGiveBoundedReturns(cost, prices);
    WealthStaysPositive(UserReturns(cost, prices));
    PositiveWealthDrawdown(Wealth(UserReturns(cost, prices)), |prices|);
  }

  /** `sharpe_ratio`: the annualized return per unit of volatility, 0 without volatility. */
  function SharpeRatio(annualReturn: real, volatility: real): (s: real)
    ensures volatility > 0.0 ==> s * volatility == annualReturn
    ensures volatility <= 0.0 ==> s == 0.0
    ensures volatility > 0.0 ==> (s > 0.0 <==> annualReturn > 0.0)
  {
    if volatility > 0.0 then annualReturn / volatility else 0.0
  }

  /** `days_held = max(days_held, 1)`. */
  function DaysHeldAtLeastOne(days: int): (d: int)
    ensures d >= 1 && d >= days && (days >= 1 ==> d == days)
  {
    if days > 1 then days else 1
  }
}
