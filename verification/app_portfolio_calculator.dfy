/**
 * The Flask app's portfolio calculator: current holdings and their value,
 * the FIFO cost basis of a position, and the user's performance since the
 * first purchase.
 */
module AppPortfolioCalculator {
  import opened Wrappers
  import opened Records
  import opened Ledger

  // ---------------------------------------------------------------------------
  // Holdings and value
  // ---------------------------------------------------------------------------

  /** One entry of the `holdings` list of `calculate_portfolio_value`. */
  datatype HoldingRow = HoldingRow(symbol: Key, quantity: real, price: real, value: real)

  /** `current_prices.get(symbol, 0.0)`: a NULL symbol never matches a price key. */
  function PriceOrZero(prices: map<string, real>, key: Key): real
  {
    if key.Some? && key.value in prices then prices[key.value] else 0.0
  }

  /** The rows listed for `keys`: only keys whose replayed quantity is positive. */
  function ValuedRows(txs: seq<Transaction>, keys: seq<Key>, prices: map<string, real>): seq<HoldingRow>
  {
    if keys == [] then []
    else
      ValuedRows(txs, Init(keys), prices) + RowIfHeld(txs, Last(keys), prices)
  }

  /** The row for `k` held in quantity `q` at price `p`. */
  function PricedRow(k: Key, q: real, p: real): (r: HoldingRow)
    ensures r.symbol == k && r.quantity == q && r.price == p && r.value == q * p
  {
    HoldingRow(k, q, p, q * p)
  }

  /** The row for `k` when its replayed quantity is positive, none otherwise. */
  function RowIfHeld(txs: seq<Transaction>, k: Key, prices: map<string, real>): seq<HoldingRow>
  {
    var q := NetQty(txs, k);
    if q > 0.0 then [PricedRow(k, q, PriceOrZero(prices, k))] else []
  }

  lemma RowIfHeldPositive(txs: seq<Transaction>, k: Key, prices: map<string, real>, q: real)
    requires q == NetQty(txs, k) && q > 0.0
    ensures RowIfHeld(txs, k, prices) == [PricedRow(k, q, PriceOrZero(prices, k))]
  {
  }

  lemma ValuedRowsSnoc(txs: seq<Transaction>, keys: seq<Key>, k: Key, prices: map<string, real>)
    ensures ValuedRows(txs, keys + [k], prices) == ValuedRows(txs, keys, prices) + RowIfHeld(txs, k, prices)
  {
    assert Init(keys + [k]) == keys && Last(keys + [k]) == k;
  }

  /** One step of the valuation loop for a symbol held in positive quantity `q`. */
  lemma ValuedStep(txs: seq<Transaction>, done: seq<Key>, k: Key, prices: map<string, real>, q: real, rows: seq<HoldingRow>)
    requires rows == ValuedRows(txs, done, prices)
    requires q == NetQty(txs, k) && q > 0.0
    ensures rows + [PricedRow(k, q, PriceOrZero(prices, k))] == ValuedRows(txs, done + [k], prices)
    ensures SumValues(rows + [PricedRow(k, q, PriceOrZero(prices, k))])
      == SumValues(rows) + PricedRow(k, q, PriceOrZero(prices, k)).value
  {
    ValuedRowsSnoc(txs, done, k, prices);
    RowIfHeldPositive(txs, k, prices, q);
    SumValuesSnoc(rows, PricedRow(k, q, PriceOrZero(prices, k)));
  }

  function SumValues(rows: seq<HoldingRow>): real
  {
    if rows == [] then 0.0 else SumValues(Init(rows)) + Last(rows).value
  }

  lemma SumValuesSnoc(rows: seq<HoldingRow>, row: HoldingRow)
    ensures SumValues(rows + [row]) == SumValues(rows) + row.value
  {
    assert Init(rows + [row]) == rows && Last(rows + [row]) == row;
  }

  /**
   * A symbol is listed exactly when its replayed quantity is positive, with
   * that quantity, its price (0.0 when unknown) and their product.
   */
  lemma {:induction false} ValuedRowsAreHeldPositions(txs: seq<Transaction>, keys: seq<Key>, prices: map<string, real>)
    ensures forall r :: r in ValuedRows(txs, keys, prices) ==>
      r.symbol in keys && r.quantity == NetQty(txs, r.symbol) && r.quantity > 0.0
      && r.price == PriceOrZero(prices, r.symbol) && r.value == r.quantity * r.price
    ensures forall k :: k in keys && NetQty(txs, k) > 0.0 ==>
      exists r :: r in ValuedRows(txs, keys, prices) && r.symbol == k
  {
    ValuedRowsAreHeld(txs, keys, prices);
    HeldKeysAreListed(txs, keys, prices);
  }

  lemma {:induction false} ValuedRowsAreHeld(txs: seq<Transaction>, keys: seq<Key>, prices: map<string, real>)
    ensures forall r :: r in ValuedRows(txs, keys, prices) ==>
      r.symbol in keys && r.quantity == NetQty(txs, r.symbol) && r.quantity > 0.0
      && r.price == PriceOrZero(prices, r.symbol) && r.value == r.quantity * r.price
  {
    if keys != [] {
      var init := Init(keys);
      ValuedRowsAreHeld(txs, init, prices);
      var front := ValuedRows(txs, init, prices);
      var tail := RowIfHeld(txs, Last(keys), prices);
      assert ValuedRows(txs, keys, prices) == front + tail;
      forall r: HoldingRow | r in front + tail
        ensures r.symbol in keys && r.quantity == NetQty(txs, r.symbol) && r.quantity > 0.0
          && r.price == PriceOrZero(prices, r.symbol) && r.value == r.quantity * r.price
      {
        if r in front {
          assert r.symbol in init;
          InitLast(keys);
        } else {
          assert r in tail;
        }
      }
    }
  }

  lemma {:induction false} HeldKeysAreListed(txs: seq<Transaction>, keys: seq<Key>, prices: map<string, real>)
    ensures forall k :: k in keys && NetQty(txs, k) > 0.0 ==>
      exists r :: r in ValuedRows(txs, keys, prices) && r.symbol == k
  {
    if keys != [] {
      var init := Init(keys);
      HeldKeysAreListed(txs, init, prices);
      var front := ValuedRows(txs, init, prices);
      var rows := ValuedRows(txs, keys, prices);
      assert rows == front + RowIfHeld(txs, Last(keys), prices);
      InitLast(keys);
      forall k | k in keys && NetQty(txs, k) > 0.0
        ensures exists r :: r in rows && r.symbol == k
      {
        if k in init {
          var r :| r in front && r.symbol == k;
          assert r in rows;
        } else {
          assert k == Last(keys);
          var r := PricedRow(k, NetQty(txs, k), PriceOrZero(prices, k));
          assert RowIfHeld(txs, k, prices) == [r];
          assert r in rows;
        }
      }
    }
  }

  /**
   * `calculate_portfolio_value`: replay buys, sells and splits, then list every
   * symbol held in positive quantity with its value; the total is their sum.
   */
  method CalculatePortfolioValue(txs: seq<Transaction>, prices: map<string, real>)
    returns (totalValue: real, holdings: seq<HoldingRow>)
    ensures holdings == ValuedRows(txs, FirstSeen(txs), prices)
    ensures totalValue == SumValues(holdings)
  {
    var keys, portfolio := Replay(txs);
    totalValue, holdings := 0.0, [];
    var i := 0;
    while i < |keys|
      invariant 0 <= i <= |keys|
      invariant holdings == ValuedRows(txs, keys[..i], prices)
      invariant totalValue == SumValues(holdings)
    {
      ReplayedLookup(txs, keys, portfolio, i);
      var symbol := keys[i];
      var quantity := portfolio[symbol];
      if quantity <= 0.0 {
        ValuedRowsSnoc(txs, keys[..i], symbol, prices);
      }
      if quantity > 0.0 {
        var row := PricedRow(symbol, quantity, PriceOrZero(prices, symbol));
        ValuedStep(txs, keys[..i], symbol, prices, quantity, holdings);
        totalValue := totalValue + row.value;
        holdings := holdings + [row];
      }
      i := i + 1;
    }
    assert keys[..i] == keys;
  }

  /** The `i`-th replayed key is in the dictionary with its replayed quantity. */
  lemma ReplayedLookup(txs: seq<Transaction>, keys: seq<Key>, portfolio: map<Key, real>, i: nat)
    requires i < |keys|
    requires portfolio.Keys == set k | k in keys
    requires forall k :: k in portfolio ==> portfolio[k] == NetQty(txs, k)
    ensures keys[i] in portfolio && portfolio[keys[i]] == NetQty(txs, keys[i])
    ensures keys[..i + 1] == keys[..i] + [keys[i]]
  {
    assert keys[i] in keys;
  }

  /** Quantities at or below this are treated as not held (floating-point dust). */
  const HeldThreshold: real := 0.001

  /** The insertion-ordered keys of `keys` whose replayed quantity exceeds the threshold. */
  function HeldAmong(txs: seq<Transaction>, keys: seq<Key>): seq<Key>
  {
    if keys == [] then []
    else HeldAmong(txs, Init(keys)) + (if NetQty(txs, Last(keys)) > HeldThreshold then [Last(keys)] else [])
  }

  /** The symbols `get_current_holdings` lists. */
  function HeldSymbols(txs: seq<Transaction>): seq<Key>
  {
    HeldAmong(txs, FirstSeen(txs))
  }

  lemma {:induction false} HeldAmongMembership(txs: seq<Transaction>, keys: seq<Key>)
    requires Distinct(keys)
    ensures Distinct(HeldAmong(txs, keys))
    ensures forall k :: k in HeldAmong(txs, keys) <==> k in keys && NetQty(txs, k) > HeldThreshold
  {
    if keys != [] {
      assert keys == Init(keys) + [Last(keys)];
      HeldAmongMembership(txs, Init(keys));
    }
  }

  /** A symbol is currently held iff its replayed quantity is strictly above 0.001. */
  lemma HeldIffAboveThreshold(txs: seq<Transaction>)
    ensures Distinct(HeldSymbols(txs))
    ensures forall k :: k in HeldSymbols(txs) <==> NetQty(txs, k) > HeldThreshold
  {
    FirstSeenIsTouchedKeys(txs);
    HeldAmongMembership(txs, FirstSeen(txs));
    forall k | NetQty(txs, k) > HeldThreshold ensures k in FirstSeen(txs) {
      if !Touched(txs, k) { UntouchedIsZero(txs, k); }
    }
  }

  /** `get_current_holdings`: the symbols whose replayed quantity exceeds 0.001. */
  method GetCurrentHoldings(txs: seq<Transaction>) returns (symbols: seq<Key>)
    ensures symbols == HeldSymbols(txs)
  {
    var keys, holdings := Replay(txs);
    symbols := [];
    var i := 0;
    while i < |keys|
      invariant 0 <= i <= |keys|
      invariant symbols == HeldAmong(txs, keys[..i])
    {
      assert Init(keys[..i + 1]) == keys[..i] && Last(keys[..i + 1]) == keys[i];
      if holdings[keys[i]] > HeldThreshold {
        symbols := symbols + [keys[i]];
      }
      i := i + 1;
    }
    assert keys[..i] == keys;
  }

  /**
   * `get_current_holdings_with_quantities`: the same symbols as
   * `get_current_holdings`, each with its replayed quantity.
   */
  method GetCurrentHoldingsWithQuantities(txs: seq<Transaction>) returns (held: map<Key, real>)
    ensures held.Keys == set k | k in HeldSymbols(txs)
    ensures forall k :: k in held <==> NetQty(txs, k) > HeldThreshold
    ensures forall k :: k in held ==> held[k] == NetQty(txs, k)
  {
    var keys, holdings := Replay(txs);
    held := map[];
    var i := 0;
    while i < |keys|
      invariant 0 <= i <= |keys|
      invariant held.Keys == set k | k in HeldAmong(txs, keys[..i])
      invariant forall k :: k in held ==> held[k] == NetQty(txs, k)
    {
      assert Init(keys[..i + 1]) == keys[..i] && Last(keys[..i + 1]) == keys[i];
      if holdings[keys[i]] > HeldThreshold {
        held := held[keys[i] := holdings[keys[i]]];
      }
      i := i + 1;
    }
    assert keys[..i] == keys;
    HeldIffAboveThreshold(txs);
  }
  // ---------------------------------------------------------------------------
  // FIFO cost basis
  // ---------------------------------------------------------------------------

  /** One entry of the buy queue: shares still open from one purchase (or split). */
  datatype Lot = Lot(qty: real, price: Option<real>, date: int)

  /** The cost and the share count attributed to the still-held position. */
  datatype Taken = Taken(cost: real, quantity: real)

  /** `(total_cost, avg_cost)` as returned by `calculate_cost_basis_fifo`. */
  datatype CostBasis = CostBasis(totalCost: real, averageCost: real)

  function Min(a: real, b: real): real
  {
    if a <= b then a else b
  }

  function TotalQty(lots: seq<Lot>): real
  {
    if lots == [] then 0.0 else lots[0].qty + TotalQty(lots[1..])
  }

  predicate PositiveLots(lots: seq<Lot>)
  {
    forall i :: 0 <= i < |lots| ==> lots[i].qty > 0.0
  }

  /**
   * A sale of `sell` shares against the queue: the oldest lot is reduced
   * when it is larger than what is left to sell, and removed otherwise.
   */
  function ConsumeSell(lots: seq<Lot>, sell: real): seq<Lot>
    decreases |lots|
  {
    if sell <= 0.0 || lots == [] then lots
    else if lots[0].qty > sell then [lots[0].(qty := lots[0].qty - sell)] + lots[1..]
    else ConsumeSell(lots[1..], sell - lots[0].qty)
  }

  /** The queue after one transaction: buys and positive splits join the tail, sells consume the head. */
  function FifoStep(lots: seq<Lot>, tx: Transaction): seq<Lot>
  {
    if tx.kind == "buy" then lots + [Lot(tx.quantity, tx.price, tx.date)]
    else if tx.kind == "sell" then ConsumeSell(lots, tx.quantity)
    else if tx.kind == "split" && tx.quantity > 0.0 then lots + [Lot(tx.quantity, Some(0.0), tx.date)]
    else lots
  }

  /** The buy queue after replaying a symbol's date-ordered history. */
  function FifoLots(txs: seq<Transaction>): seq<Lot>
  {
    if txs == [] then [] else FifoStep(FifoLots(Init(txs)), Last(txs))
  }

  /**
   * Walking the queue from the oldest lot, take `min(needed, lot)` shares of
   * each lot until nothing more is needed. A lot without a price that is
   * reached makes the multiplication fail (`None`).
   */
  function TakeFromLots(lots: seq<Lot>, needed: real): Option<Taken>
    decreases |lots|
  {
    if needed <= 0.0 || lots == [] then Some(Taken(0.0, 0.0))
    else
      var take := Min(needed, lots[0].qty);
      if lots[0].price.None? then None
      else match TakeFromLots(lots[1..], needed - take)
        case None => None
        case Some(rest) => Some(Taken(Charge(take, lots[0].price.value) + rest.cost, take + rest.quantity))
  }

  /** What `take` shares bought at `price` cost. */
  function Charge(take: real, price: real): real
  {
    take * price
  }

  /** The total and the per-share cost of the attributed shares. */
  function CostBasisOf(lots: seq<Lot>, needed: real): (r: Option<CostBasis>)
    ensures r.None? <==> TakeFromLots(lots, needed).None?
    ensures r.Some? ==> r.value.totalCost == TakeFromLots(lots, needed).value.cost
    ensures r.Some? && TakeFromLots(lots, needed).value.quantity > 0.0 ==>
      r.value.averageCost * TakeFromLots(lots, needed).value.quantity == r.value.totalCost
    ensures r.Some? && TakeFromLots(lots, needed).value.quantity <= 0.0 ==> r.value.averageCost == 0.0
  {
    match TakeFromLots(lots, needed)
    case None => None
    case Some(t) => Some(CostBasis(t.cost, if t.quantity > 0.0 then t.cost / t.quantity else 0.0))
  }

  /** `t` with `cost` and `quantity` already accumulated in front of it. */
  function Behind(t: Option<Taken>, cost: real, quantity: real): Option<Taken>
  {
    match t
    case None => None
    case Some(rest) => Some(Taken(cost + rest.cost, quantity + rest.quantity))
  }

  /** Taking from the queue's suffix at `j`: one lot, then the rest. */
  lemma TakeFromLotsSuffix(lots: seq<Lot>, j: nat, needed: real)
    requires j < |lots| || (j == 0 && lots == [])
    ensures j == 0 ==> lots[j..] == lots
    ensures j < |lots| && needed > 0.0 && lots[j].price.None? ==> TakeFromLots(lots[j..], needed) == None
    ensures j < |lots| && needed > 0.0 && lots[j].price.Some? ==>
      TakeFromLots(lots[j..], needed)
      == Behind(TakeFromLots(lots[j + 1..], needed - Min(needed, lots[j].qty)),
                Charge(Min(needed, lots[j].qty), lots[j].price.value), Min(needed, lots[j].qty))
  {
    if j < |lots| {
      var l := lots[j..];
      assert l[0] == lots[j] && l[1..] == lots[j + 1..];
    }
  }

  lemma BehindTwice(t: Option<Taken>, c1: real, q1: real, c2: real, q2: real)
    ensures Behind(Behind(t, c2, q2), c1, q1) == Behind(t, c1 + c2, q1 + q2)
  {
  }

  lemma {:induction false} TotalQtyAppend(lots: seq<Lot>, l: Lot)
    ensures TotalQty(lots + [l]) == TotalQty(lots) + l.qty
  {
    if lots != [] {
      assert (lots + [l])[1..] == lots[1..] + [l];
      TotalQtyAppend(lots[1..], l);
    }
  }

  lemma {:induction false} PositiveLotsTotal(lots: seq<Lot>)
    requires PositiveLots(lots)
    ensures TotalQty(lots) >= 0.0
    ensures lots != [] ==> TotalQty(lots) > 0.0
  {
    if lots != [] {
      PositiveLotsTotal(lots[1..]);
    }
  }

  /**
   * A sale removes `min(sell, open shares)` from the queue, and the lots it
   * leaves all stay positive; a non-positive sale changes nothing.
   */
  lemma {:induction false} ConsumeSellRemovesSoldShares(lots: seq<Lot>, sell: real)
    requires PositiveLots(lots)
    ensures PositiveLots(ConsumeSell(lots, sell))
    ensures sell <= 0.0 ==> ConsumeSell(lots, sell) == lots
    ensures sell > 0.0 ==> TotalQty(ConsumeSell(lots, sell)) == TotalQty(lots) - Min(sell, TotalQty(lots))
    decreases |lots|
  {
    if sell > 0.0 && lots != [] {
      PositiveLotsTotal(lots[1..]);
      if lots[0].qty > sell {
        var r := [lots[0].(qty := lots[0].qty - sell)] + lots[1..];
        assert r[1..] == lots[1..];
      } else {
        ConsumeSellRemovesSoldShares(lots[1..], sell - lots[0].qty);
      }
    }
  }

  /** Selling at least every open share empties the queue. */
  lemma {:induction false} OversellEmptiesQueue(lots: seq<Lot>, sell: real)
    requires PositiveLots(lots)
    requires sell >= TotalQty(lots)
    ensures ConsumeSell(lots, sell) == []
    decreases |lots|
  {
    if lots != [] {
      PositiveLotsTotal(lots);
      PositiveLotsTotal(lots[1..]);
      OversellEmptiesQueue(lots[1..], sell - lots[0].qty);
    }
  }

  /**
   * Sales consume the oldest lots first: what remains is a suffix of the
   * queue whose first lot may have been reduced, keeping its price and date.
   */
  lemma {:induction false} ConsumeSellKeepsNewestLots(lots: seq<Lot>, sell: real)
    ensures |ConsumeSell(lots, sell)| <= |lots|
    ensures var r := ConsumeSell(lots, sell); var d := |lots| - |r|;
      r != [] ==>
        r[1..] == lots[d + 1..] && r[0].price == lots[d].price && r[0].date == lots[d].date && r[0].qty <= lots[d].qty
    decreases |lots|
  {
    if sell > 0.0 && lots != [] {
      if lots[0].qty > sell {
        var r := [lots[0].(qty := lots[0].qty - sell)] + lots[1..];
        assert r[1..] == lots[1..];
      } else {
        ConsumeSellKeepsNewestLots(lots[1..], sell - lots[0].qty);
        var r := ConsumeSell(lots[1..], sell - lots[0].qty);
        var d := |lots[1..]| - |r|;
        if r != [] {
          assert lots[1..][d + 1..] == lots[d + 2..];
          assert lots[1..][d] == lots[d + 1];
        }
      }
    }
  }

  /** Every buy, sell and split of the history moves a positive quantity. */
  predicate PositiveQuantities(txs: seq<Transaction>)
  {
    forall i :: 0 <= i < |txs| && MovesShares(txs[i]) ==> txs[i].quantity > 0.0
  }

  /** The share count of a replay in which a sale never takes the holding below zero. */
  function ClampedHolding(txs: seq<Transaction>): real
  {
    if txs == [] then 0.0
    else
      var h := ClampedHolding(Init(txs));
      var tx := Last(txs);
      if tx.kind == "buy" || tx.kind == "split" then h + tx.quantity
      else if tx.kind == "sell" then (if h > tx.quantity then h - tx.quantity else 0.0)
      else h
  }

  lemma PositiveQuantitiesInit(txs: seq<Transaction>)
    requires txs != [] && PositiveQuantities(txs)
    ensures PositiveQuantities(Init(txs))
    ensures MovesShares(Last(txs)) ==> Last(txs).quantity > 0.0
  {
    assert forall i :: 0 <= i < |Init(txs)| ==> Init(txs)[i] == txs[i];
  }

  /** With positive quantities the queue holds exactly the clamped replay's share count, in positive lots. */
  lemma {:induction false} FifoLotsHoldClampedHolding(txs: seq<Transaction>)
    requires PositiveQuantities(txs)
    ensures PositiveLots(FifoLots(txs))
    ensures TotalQty(FifoLots(txs)) == ClampedHolding(txs)
  {
    if txs != [] {
      PositiveQuantitiesInit(txs);
      FifoLotsHoldClampedHolding(Init(txs));
      var lots := FifoLots(Init(txs));
      var tx := Last(txs);
      if tx.kind == "buy" || (tx.kind == "split" && tx.quantity > 0.0) {
        var l := if tx.kind == "buy" then Lot(tx.quantity, tx.price, tx.date) else Lot(tx.quantity, Some(0.0), tx.date);
        TotalQtyAppend(lots, l);
      } else if tx.kind == "sell" {
        ConsumeSellRemovesSoldShares(lots, tx.quantity);
      }
    }
  }

  /** No sale of the history exceeds the shares held just before it. */
  predicate NeverOversold(txs: seq<Transaction>)
  {
    txs == [] || (NeverOversold(Init(txs)) && (Last(txs).kind == "sell" ==> Last(txs).quantity <= ClampedHolding(Init(txs))))
  }

  /** When nothing is oversold, the clamped replay is the plain replay of the symbol. */
  lemma {:induction false} ClampedHoldingIsNetQty(txs: seq<Transaction>, sym: string)
    requires forall tx :: tx in txs ==> tx.symbol == Some(sym)
    requires NeverOversold(txs)
    ensures ClampedHolding(txs) == NetQty(txs, Some(sym))
  {
    if txs != [] {
      assert Last(txs) in txs;
      assert forall tx :: tx in Init(txs) ==> tx in txs;
      ClampedHoldingIsNetQty(Init(txs), sym);
    }
  }

  /**
   * For a history of positive quantities that never sells more than it
   * holds, the open lots add up to the replayed holding of the symbol.
   */
  lemma OpenLotsAddUpToHolding(ledger: seq<Transaction>, sym: string)
    requires PositiveQuantities(ForSymbol(ledger, sym))
    requires NeverOversold(ForSymbol(ledger, sym))
    ensures TotalQty(FifoLots(ForSymbol(ledger, sym))) == NetQty(ledger, Some(sym))
  {
    FifoLotsHoldClampedHolding(ForSymbol(ledger, sym));
    ClampedHoldingIsNetQty(ForSymbol(ledger, sym), sym);
    ForSymbolKeepsNetQty(ledger, sym);
  }

  /** Never more than `needed` shares are attributed. */
  lemma {:induction false} TakeAtMostNeeded(lots: seq<Lot>, needed: real)
    ensures TakeFromLots(lots, needed).Some? ==> TakeFromLots(lots, needed).value.quantity <= (if needed > 0.0 then needed else 0.0)
    decreases |lots|
  {
    if needed > 0.0 && lots != [] && lots[0].price.Some? {
      TakeAtMostNeeded(lots[1..], needed - Min(needed, lots[0].qty));
    }
  }

  /**
   * With positive, priced lots the walk succeeds and attributes
   * `min(needed, open shares)` shares (none when `needed <= 0`).
   */
  lemma {:induction false} TakeFromPricedLots(lots: seq<Lot>, needed: real)
    requires PositiveLots(lots)
    requires forall i :: 0 <= i < |lots| ==> lots[i].price.Some?
    ensures TakeFromLots(lots, needed).Some?
    ensures TakeFromLots(lots, needed).value.quantity == (if needed > 0.0 then Min(needed, TotalQty(lots)) else 0.0)
    decreases |lots|
  {
    if needed > 0.0 && lots != [] {
      PositiveLotsTotal(lots[1..]);
      TakeFromPricedLots(lots[1..], needed - Min(needed, lots[0].qty));
    }
  }

  /** The first phase of `calculate_cost_basis_fifo`: replay the history through the buy queue. */
  method ReplayBuyQueue(transactions: seq<Transaction>) returns (queue: seq<Lot>)
    ensures queue == FifoLots(transactions)
  {
    queue := [];
    var i := 0;
    while i < |transactions|
      invariant 0 <= i <= |transactions|
      invariant queue == FifoLots(transactions[..i])
    {
      var tx := transactions[i];
      assert Init(transactions[..i + 1]) == transactions[..i] && Last(transactions[..i + 1]) == tx;
      if tx.kind == "buy" {
        queue := queue + [Lot(tx.quantity, tx.price, tx.date)];
      } else if tx.kind == "sell" {
        ghost var before := queue;
        var sellQty := tx.quantity;
        while sellQty > 0.0 && queue != []
          invariant ConsumeSell(queue, sellQty) == ConsumeSell(before, tx.quantity)
          decreases |queue|, if sellQty > 0.0 then 1 else 0
        {
          if queue[0].qty > sellQty {
            queue := [queue[0].(qty := queue[0].qty - sellQty)] + queue[1..];
            sellQty := 0.0;
          } else {
            sellQty := sellQty - queue[0].qty;
            queue := queue[1..];
          }
        }
      } else if tx.kind == "split" {
        if tx.quantity > 0.0 {
          queue := queue + [Lot(tx.quantity, Some(0.0), tx.date)];
        }
      }
      i := i + 1;
    }
    assert transactions[..i] == transactions;
  }

  /** The second phase: price `currentQuantity` shares from the oldest open lots. */
  method PriceOpenLots(queue: seq<Lot>, currentQuantity: real) returns (basis: Option<CostBasis>)
    ensures basis == CostBasisOf(queue, currentQuantity)
  {
    TakeFromLotsSuffix(queue, 0, currentQuantity);
    var totalCost, remainingQty, needed := 0.0, 0.0, currentQuantity;
    var j := 0;
    while j < |queue| && needed > 0.0
      invariant 0 <= j <= |queue|
      invariant TakeFromLots(queue, currentQuantity) == Behind(TakeFromLots(queue[j..], needed), totalCost, remainingQty)
    {
      var take := Min(needed, queue[j].qty);
      if queue[j].price.None? {
        TakeFromLotsSuffix(queue, j, needed);
        assert TakeFromLots(queue, currentQuantity) == None;
        return None;
      }
      TakeStep(queue, currentQuantity, j, needed, totalCost, remainingQty);
      totalCost := totalCost + Charge(take, queue[j].price.value);
      needed := needed - take;
      remainingQty := remainingQty + take;
      j := j + 1;
    }
    TakeDone(queue, j, needed);
    var averageCost := if remainingQty > 0.0 then totalCost / remainingQty else 0.0;
    basis := Some(CostBasis(totalCost, averageCost));
    CostBasisOfTaken(queue, currentQuantity, totalCost, remainingQty);
  }

  lemma CostBasisOfTaken(lots: seq<Lot>, needed: real, cost: real, quantity: real)
    requires TakeFromLots(lots, needed) == Some(Taken(cost, quantity))
    ensures CostBasisOf(lots, needed) == Some(CostBasis(cost, if quantity > 0.0 then cost / quantity else 0.0))
  {
  }

  /** One lot of the pricing loop moves its charge and its shares in front of the rest of the walk. */
  lemma TakeStep(queue: seq<Lot>, currentQuantity: real, j: nat, needed: real, totalCost: real, remainingQty: real)
    requires j < |queue| && needed > 0.0 && queue[j].price.Some?
    requires TakeFromLots(queue, currentQuantity) == Behind(TakeFromLots(queue[j..], needed), totalCost, remainingQty)
    ensures var take := Min(needed, queue[j].qty);
      TakeFromLots(queue, currentQuantity)
      == Behind(TakeFromLots(queue[j + 1..], needed - take), totalCost + Charge(take, queue[j].price.value), remainingQty + take)
  {
    var take := Min(needed, queue[j].qty);
    TakeFromLotsSuffix(queue, j, needed);
    BehindTwice(TakeFromLots(queue[j + 1..], needed - take), totalCost, remainingQty, Charge(take, queue[j].price.value), take);
  }

  /** Once the queue is exhausted or nothing more is needed, the rest of the walk takes nothing. */
  lemma TakeDone(queue: seq<Lot>, j: nat, needed: real)
    requires j <= |queue| && (j == |queue| || needed <= 0.0)
    ensures TakeFromLots(queue[j..], needed) == Some(Taken(0.0, 0.0))
  {
  }

  /**
   * `calculate_cost_basis_fifo`: the cost of the `currentQuantity` shares
   * still held, attributed to the oldest open lots of the symbol's history.
   * The query orders the symbol's rows by date, so `ledger` is the table as
   * that ORDER BY returns it: the symbol's rows in date order (rows of one
   * date in whatever order the database yields).
   */
  method CalculateCostBasisFifo(ledger: seq<Transaction>, symbol: string, currentQuantity: real)
    returns (basis: Option<CostBasis>)
    requires SortedByDate(ForSymbol(ledger, symbol))
    ensures basis == CostBasisOf(FifoLots(ForSymbol(ledger, symbol)), currentQuantity)
  {
    var queue := ReplayBuyQueue(ForSymbol(ledger, symbol));
    basis := PriceOpenLots(queue, currentQuantity);
  }

  /** The worked example: buy 10 at 100, buy 10 at 200, sell 15 leaves 5 at 200 costing 1000. */
  lemma FifoWorkedExample()
    ensures var txs := [Transaction("buy", Some("X"), 10.0, Some(100.0), 1, None, None),
                        Transaction("buy", Some("X"), 10.0, Some(200.0), 2, None, None),
                        Transaction("sell", Some("X"), 15.0, Some(150.0), 3, None, None)];
      FifoLots(txs) == [Lot(5.0, Some(200.0), 2)]
      && CostBasisOf(FifoLots(txs), 5.0) == Some(CostBasis(1000.0, 200.0))
  {
    var txs := [Transaction("buy", Some("X"), 10.0, Some(100.0), 1, None, None),
                Transaction("buy", Some("X"), 10.0, Some(200.0), 2, None, None),
                Transaction("sell", Some("X"), 15.0, Some(150.0), 3, None, None)];
    assert Init(txs) == txs[..2] && Init(txs[..2]) == txs[..1] && Init(txs[..1]) == [];
    var one := [Lot(10.0, Some(100.0), 1)];
    var two := one + [Lot(10.0, Some(200.0), 2)];
    assert FifoLots(txs[..1]) == FifoStep([], txs[0]) == one;
    assert FifoLots(txs[..2]) == FifoStep(one, txs[1]) == two;
    assert two[1..] == [Lot(10.0, Some(200.0), 2)];
    var left := [Lot(5.0, Some(200.0), 2)];
    assert ConsumeSell(two, 15.0) == ConsumeSell(two[1..], 5.0) == left;
    assert FifoLots(txs) == left;
    assert left[1..] == [];
    assert TakeFromLots(left, 5.0) == Some(Taken(Charge(5.0, 200.0), 5.0));
  }

  // ---------------------------------------------------------------------------
  // Performance since the first purchase
  // ---------------------------------------------------------------------------

  /** The outcome of `get_user_performance_since_purchase`. */
  datatype Performance =
    | NotHeld          // {"error": "Stock not currently held"}
    | CostBasisFailed  // the FIFO walk multiplied by a lot without a price
    | NoPrice          // {"error": "Could not fetch current price"}
    | Report(
        symbol: string,
        quantity: real,
        costBasis: real,
        currentValue: real,
        averagePurchasePrice: real,
        currentPrice: real,
        returnAmount: real,
        returnPercentage: real,
        firstPurchaseDate: Option<int>,
        daysHeld: int,
        annualizedReturn: real)

  /** The date of the earliest buy of `sym`, if there is one. */
  function FirstBuyDate(txs: seq<Transaction>, sym: string): (r: Option<int>)
    ensures r.None? <==> forall tx :: tx in txs ==> !(tx.kind == "buy" && tx.symbol == Some(sym))
    ensures r.Some? ==> exists tx :: tx in txs && tx.kind == "buy" && tx.symbol == Some(sym) && tx.date == r.value
    ensures r.Some? ==> forall tx :: tx in txs && tx.kind == "buy" && tx.symbol == Some(sym) ==> r.value <= tx.date
  {
    if txs == [] then None
    else
      var earlier := FirstBuyDate(Init(txs), sym);
      assert forall tx :: tx in txs <==> tx in Init(txs) || tx == Last(txs);
      var tx := Last(txs);
      if tx.kind == "buy" && tx.symbol == Some(sym) && (earlier.None? || tx.date < earlier.value) then Some(tx.date)
      else earlier
  }

  /**
   * `get_user_performance_since_purchase`. `ledger` is the table in the
   * order an unordered query returns it, `byDate` the same rows as the FIFO
   * query's ORDER BY date returns them, `currentPrice` the optional argument,
   * `latestPrice` what the price fetcher would return, `today` the day ordinal
   * of `date.today()`, and `growth(x, e)` the float `x ** e` (`None` when it
   * raises).
   */
  method UserPerformanceSincePurchase(
    ledger: seq<Transaction>, byDate: seq<Transaction>, symbol: string,
    currentPrice: Option<real>, latestPrice: Option<real>,
    today: int, growth: (real, real) -> Option<real>)
    returns (r: Performance)
    requires multiset(byDate) == multiset(ledger) && SortedByDate(byDate)
    ensures r.NotHeld? <==> NetQty(ledger, Some(symbol)) <= HeldThreshold
    ensures r.CostBasisFailed? <==>
      && NetQty(ledger, Some(symbol)) > HeldThreshold
      && CostBasisOf(FifoLots(ForSymbol(byDate, symbol)), NetQty(ledger, Some(symbol))).None?
    ensures r.NoPrice? <==>
      && NetQty(ledger, Some(symbol)) > HeldThreshold
      && CostBasisOf(FifoLots(ForSymbol(byDate, symbol)), NetQty(ledger, Some(symbol))).Some?
      && (if currentPrice.Some? then currentPrice else latestPrice) in {None, Some(0.0)}
    ensures r.Report? ==>
      var basis := CostBasisOf(FifoLots(ForSymbol(byDate, symbol)), NetQty(ledger, Some(symbol))).value;
      && r.symbol == symbol
      && r.quantity == NetQty(ledger, Some(symbol))
      && r.costBasis == basis.totalCost
      && r.averagePurchasePrice == basis.averageCost
      && Some(r.currentPrice) == (if currentPrice.Some? then currentPrice else latestPrice)
      && r.currentValue == PositionValue(r.quantity, r.currentPrice)
      && r.returnAmount == r.currentValue - r.costBasis
      && (r.costBasis > 0.0 ==> r.returnPercentage == r.returnAmount / r.costBasis * 100.0)
      && (r.costBasis <= 0.0 ==> r.returnPercentage == 0.0)
      && r.firstPurchaseDate == FirstBuyDate(ledger, symbol)
      && r.daysHeld == (if r.firstPurchaseDate.Some? then today - r.firstPurchaseDate.value else 0)
      && (r.daysHeld > 0 && r.costBasis > 0.0 && r.currentValue > 0.0 ==>
            r.annualizedReturn == match growth(r.currentValue / r.costBasis, 365.0 / r.daysHeld as real)
                                  case Some(g) => (g - 1.0) * 100.0
                                  case None => 0.0)
      && (!(r.daysHeld > 0 && r.costBasis > 0.0 && r.currentValue > 0.0) ==> r.annualizedReturn == 0.0)
  {
    var holdings := GetCurrentHoldingsWithQuantities(ledger);
    var quantity := if Some(symbol) in holdings then holdings[Some(symbol)] else 0.0;
    if quantity <= 0.0 {
      return NotHeld;
    }
    ForSymbolKeepsDateOrder(byDate, symbol);
    var basis := CalculateCostBasisFifo(byDate, symbol, quantity);
    if basis.None? {
      return CostBasisFailed;
    }
    var price := if currentPrice.None? then latestPrice else currentPrice;
    if price.None? || price.value == 0.0 {
      return NoPrice;
    }
    r := ReportOf(symbol, quantity, basis.value, price.value, FirstBuyDate(ledger, symbol), today, growth);
  }

  /** The report of a held position once its cost basis and a non-zero price are known. */
  method ReportOf(symbol: string, quantity: real, basis: CostBasis, price: real, firstPurchase: Option<int>,
                  today: int, growth: (real, real) -> Option<real>)
    returns (r: Performance)
    ensures r.Report?
    ensures && r.symbol == symbol
      && r.quantity == quantity
      && r.costBasis == basis.totalCost
      && r.averagePurchasePrice == basis.averageCost
      && r.currentPrice == price
      && r.currentValue == PositionValue(r.quantity, r.currentPrice)
      && r.returnAmount == r.currentValue - r.costBasis
      && (r.costBasis > 0.0 ==> r.returnPercentage == r.returnAmount / r.costBasis * 100.0)
      && (r.costBasis <= 0.0 ==> r.returnPercentage == 0.0)
      && r.firstPurchaseDate == firstPurchase
      && r.daysHeld == (if r.firstPurchaseDate.Some? then today - r.firstPurchaseDate.value else 0)
      && (r.daysHeld > 0 && r.costBasis > 0.0 && r.currentValue > 0.0 ==>
            r.annualizedReturn == match growth(r.currentValue / r.costBasis, 365.0 / r.daysHeld as real)
                                  case Some(g) => (g - 1.0) * 100.0
                                  case None => 0.0)
      && (!(r.daysHeld > 0 && r.costBasis > 0.0 && r.currentValue > 0.0) ==> r.annualizedReturn == 0.0)
  {
    var costBasis, averagePurchasePrice := basis.totalCost, basis.averageCost;
    var currentValue := PositionValue(quantity, price);
    var gainLossAmount := currentValue - costBasis;
    var gainLossPercent := if costBasis > 0.0 then gainLossAmount / costBasis * 100.0 else 0.0;
    var daysHeld := 0;
    if firstPurchase.Some? {
      daysHeld := today - firstPurchase.value;
    }
    var annualizedReturn := 0.0;
    if daysHeld > 0 {
      if costBasis > 0.0 && currentValue > 0.0 {
        var g := growth(currentValue / costBasis, 365.0 / daysHeld as real);
        annualizedReturn := if g.Some? then (g.value - 1.0) * 100.0 else 0.0;
      }
    }
    r := Report(symbol, quantity, costBasis, currentValue, averagePurchasePrice, price,
                gainLossAmount, gainLossPercent, firstPurchase, daysHeld, annualizedReturn);
  }
}
