/**
 * The FastAPI backend's `calculate_portfolio_value`: one pass over the
 * transactions keyed by the upper-cased symbol, tracking share counts for
 * buys and sells and a cash balance, then valuing the counts at the given
 * prices.
 */
module BackendPortfolioCalculator {
  import opened Wrappers
  import opened Text
  import opened Records
  import opened Ledger

  /** `t.symbol.upper()` runs on every transaction, so each must name a symbol. */
  predicate SymbolsPresent(txs: seq<Transaction>)
  {
    forall tx :: tx in txs ==> tx.symbol.Some?
  }

  /** Only buys and sells move the backend calculator's share counts. */
  predicate IsTrade(tx: Transaction)
  {
    tx.kind == "buy" || tx.kind == "sell"
  }

  /** The dictionary key of a transaction with a symbol. */
  function KeyOf(tx: Transaction): string
    requires tx.symbol.Some?
  {
    Upper(tx.symbol.value)
  }

  /** `t.price or 0`: a NULL price counts as 0. */
  function PriceOrZero(tx: Transaction): (p: real)
    ensures tx.price.Some? ==> p == tx.price.value
    ensures tx.price.None? ==> p == 0.0
  {
    tx.price.GetOr(0.0)
  }

  /** How one transaction moves the share count of its key. */
  function TradeDelta(tx: Transaction): (d: real)
    ensures tx.kind == "buy" ==> d == tx.quantity
    ensures tx.kind == "sell" ==> d == -tx.quantity
    ensures !IsTrade(tx) ==> d == 0.0
  {
    if tx.kind == "buy" then tx.quantity else if tx.kind == "sell" then -tx.quantity else 0.0
  }

  /** How one transaction moves the cash balance; dividends and splits leave it alone. */
  function CashChange(tx: Transaction): (d: real)
    ensures tx.kind == "buy" ==> d == -PositionValue(tx.quantity, PriceOrZero(tx))
    ensures tx.kind == "sell" ==> d == PositionValue(tx.quantity, PriceOrZero(tx))
    ensures tx.kind == "deposit" ==> d == tx.quantity
    ensures tx.kind == "withdrawal" ==> d == -tx.quantity
    ensures tx.kind !in {"buy", "sell", "deposit", "withdrawal"} ==> d == 0.0
  {
    if tx.kind == "buy" then -PositionValue(tx.quantity, PriceOrZero(tx))
    else if tx.kind == "sell" then PositionValue(tx.quantity, PriceOrZero(tx))
    else if tx.kind == "deposit" then tx.quantity
    else if tx.kind == "withdrawal" then -tx.quantity
    else 0.0
  }

  /** The share count of key `k` after the pass. */
  function Quantity(txs: seq<Transaction>, k: string): real
    requires SymbolsPresent(txs)
  {
    if txs == [] then 0.0
    else Quantity(Init(txs), k) + (if KeyOf(Last(txs)) == k then TradeDelta(Last(txs)) else 0.0)
  }

  /** The cash balance after the pass. */
  function CashBalance(txs: seq<Transaction>): real
  {
    if txs == [] then 0.0 else CashBalance(Init(txs)) + CashChange(Last(txs))
  }

  /** The dictionary's keys in insertion order: each traded key, once, at its first trade. */
  function TradedKeys(txs: seq<Transaction>): seq<string>
    requires SymbolsPresent(txs)
  {
    if txs == [] then []
    else
      var seen := TradedKeys(Init(txs));
      if IsTrade(Last(txs)) && KeyOf(Last(txs)) !in seen then seen + [KeyOf(Last(txs))] else seen
  }

  predicate TradedUnder(txs: seq<Transaction>, k: string)
    requires SymbolsPresent(txs)
  {
    exists tx :: tx in txs && IsTrade(tx) && KeyOf(tx) == k
  }

  /** The keys are distinct and are exactly the upper-cased symbols of the buys and sells. */
  lemma {:induction false} TradedKeysAreTradedSymbols(txs: seq<Transaction>)
    requires SymbolsPresent(txs)
    ensures Distinct(TradedKeys(txs))
    ensures forall k :: k in TradedKeys(txs) <==> TradedUnder(txs, k)
  {
    if txs != [] {
      assert txs == Init(txs) + [Last(txs)];
      TradedKeysAreTradedSymbols(Init(txs));
      forall k ensures TradedUnder(txs, k) <==> TradedUnder(Init(txs), k) || (IsTrade(Last(txs)) && KeyOf(Last(txs)) == k) {
        if TradedUnder(txs, k) {
          var tx :| tx in txs && IsTrade(tx) && KeyOf(tx) == k;
          if tx != Last(txs) { assert tx in Init(txs); }
        }
      }
    }
  }

  /** A key no buy or sell maps to keeps the defaultdict's 0. */
  lemma {:induction false} UntradedIsZero(txs: seq<Transaction>, k: string)
    requires SymbolsPresent(txs) && !TradedUnder(txs, k)
    ensures Quantity(txs, k) == 0.0
  {
    if txs != [] {
      assert forall tx :: tx in Init(txs) ==> tx in txs;
      UntradedIsZero(Init(txs), k);
    }
  }

  /** The holdings dictionary after the pass. */
  function HoldingsOf(txs: seq<Transaction>): map<string, real>
    requires SymbolsPresent(txs)
  {
    map k | k in TradedKeys(txs) :: Quantity(txs, k)
  }

  /** Every transaction with its symbol upper-cased. */
  function UpperCased(txs: seq<Transaction>): (r: seq<Transaction>)
    requires SymbolsPresent(txs)
    ensures |r| == |txs|
  {
    if txs == [] then []
    else UpperCased(Init(txs)) + [Last(txs).(symbol := Some(KeyOf(Last(txs))))]
  }

  /**
   * Symbols that differ only in case are one holding: the count of `k` is
   * what the ledger's exact-symbol totals give once every symbol is
   * upper-cased, and splits do not enter it.
   */
  lemma {:induction false} QuantityIsUpperCasedBuysMinusSells(txs: seq<Transaction>, k: string)
    requires SymbolsPresent(txs)
    ensures Quantity(txs, k) == KindTotal(UpperCased(txs), Some(k), "buy") - KindTotal(UpperCased(txs), Some(k), "sell")
  {
    if txs != [] {
      assert forall tx :: tx in Init(txs) ==> tx in txs;
      QuantityIsUpperCasedBuysMinusSells(Init(txs), k);
      var u := UpperCased(txs);
      var tx' := Last(txs).(symbol := Some(KeyOf(Last(txs))));
      assert Init(u) == UpperCased(Init(txs)) && Last(u) == tx';
    }
  }

  /** Σ qty·price over the keys that have a price; the key's count may be zero or negative. */
  function PricedValue(keys: seq<string>, holdings: map<string, real>, prices: map<string, real>): real
  {
    if keys == [] then 0.0
    else
      var k := Last(keys);
      PricedValue(Init(keys), holdings, prices)
      + (if k in prices && k in holdings then PositionValue(holdings[k], prices[k]) else 0.0)
  }

  /** The returned dictionary without the clock's date and without rounding. */
  datatype Valuation = Valuation(keys: seq<string>, holdings: map<string, real>, cash: real, totalValue: real)

  /** The accumulation loop's invariant: the pass over `txs` has produced these keys, holdings and cash. */
  ghost predicate Passed(txs: seq<Transaction>, keys: seq<string>, holdings: map<string, real>, cash: real)
  {
    SymbolsPresent(txs) && keys == TradedKeys(txs) && holdings == HoldingsOf(txs) && cash == CashBalance(txs)
  }

  /** Adding one transaction to the pass. */
  lemma StepLemma(txs: seq<Transaction>, tx: Transaction, keys: seq<string>, holdings: map<string, real>, cash: real,
                  keys': seq<string>, holdings': map<string, real>, cash': real)
    requires tx.symbol.Some? && Passed(txs, keys, holdings, cash)
    requires keys' == (if IsTrade(tx) && KeyOf(tx) !in holdings then keys + [KeyOf(tx)] else keys)
    requires holdings' ==
      if IsTrade(tx) then holdings[KeyOf(tx) := (if KeyOf(tx) in holdings then holdings[KeyOf(tx)] else 0.0) + TradeDelta(tx)]
      else holdings
    requires cash' == cash + CashChange(tx)
    ensures Passed(txs + [tx], keys', holdings', cash')
  {
    SymbolsSnoc(txs, tx);
    TradedKeysSnoc(txs, tx);
    HoldingsOfStep(txs, tx, holdings);
    assert Init(txs + [tx]) == txs && Last(txs + [tx]) == tx;
  }

  lemma HoldingsOfStep(txs: seq<Transaction>, tx: Transaction, holdings: map<string, real>)
    requires SymbolsPresent(txs + [tx])
    requires SymbolsPresent(txs) && holdings == HoldingsOf(txs)
    ensures HoldingsOf(txs + [tx]) ==
      if IsTrade(tx) then holdings[KeyOf(tx) := (if KeyOf(tx) in holdings then holdings[KeyOf(tx)] else 0.0) + TradeDelta(tx)]
      else holdings
  {
    var txs' := txs + [tx];
    var h' := if IsTrade(tx) then holdings[KeyOf(tx) := (if KeyOf(tx) in holdings then holdings[KeyOf(tx)] else 0.0) + TradeDelta(tx)]
              else holdings;
    TradedKeysSnoc(txs, tx);
    assert h'.Keys == HoldingsOf(txs').Keys;
    forall k | k in h'
      ensures h'[k] == HoldingsOf(txs')[k]
    {
      QuantityStep(txs, tx, holdings, k);
    }
  }

  /** The count of one key after one more transaction; a new key starts from the defaultdict's 0. */
  lemma QuantityStep(txs: seq<Transaction>, tx: Transaction, holdings: map<string, real>, k: string)
    requires SymbolsPresent(txs + [tx])
    requires SymbolsPresent(txs) && holdings == HoldingsOf(txs)
    ensures Quantity(txs + [tx], k)
         == if KeyOf(tx) == k then (if k in holdings then holdings[k] else 0.0) + TradeDelta(tx) else Quantity(txs, k)
  {
    QuantitySnoc(txs, tx, k);
    if KeyOf(tx) == k && k !in holdings {
      TradedKeysAreTradedSymbols(txs);
      UntradedIsZero(txs, k);
    }
  }

  lemma TradedKeysSnoc(txs: seq<Transaction>, tx: Transaction)
    requires SymbolsPresent(txs + [tx]) && SymbolsPresent(txs)
    ensures TradedKeys(txs + [tx]) == if IsTrade(tx) && KeyOf(tx) !in TradedKeys(txs) then TradedKeys(txs) + [KeyOf(tx)] else TradedKeys(txs)
  {
    assert Init(txs + [tx]) == txs && Last(txs + [tx]) == tx;
  }

  lemma QuantitySnoc(txs: seq<Transaction>, tx: Transaction, k: string)
    requires SymbolsPresent(txs + [tx]) && SymbolsPresent(txs)
    ensures Quantity(txs + [tx], k) == Quantity(txs, k) + (if KeyOf(tx) == k then TradeDelta(tx) else 0.0)
  {
    assert Init(txs + [tx]) == txs && Last(txs + [tx]) == tx;
  }

  /** One transaction of the pass, applied to the keys, the counts and the cash. */
  method AddTransaction(keys: seq<string>, holdings: map<string, real>, cash: real, t: Transaction)
    returns (keys': seq<string>, holdings': map<string, real>, cash': real)
    requires t.symbol.Some?
    ensures keys' == if IsTrade(t) && KeyOf(t) !in holdings then keys + [KeyOf(t)] else keys
    ensures holdings' ==
      if IsTrade(t) then holdings[KeyOf(t) := (if KeyOf(t) in holdings then holdings[KeyOf(t)] else 0.0) + TradeDelta(t)]
      else holdings
    ensures cash' == cash + CashChange(t)
  {
    keys', holdings', cash' := keys, holdings, cash;
    var symbol := Upper(t.symbol.value);
    var qty := t.quantity;
    var price := if t.price.Some? then t.price.value else 0.0;
    if (t.kind == "buy" || t.kind == "sell") && symbol !in holdings {
      keys' := keys + [symbol];
      holdings' := holdings[symbol := 0.0];
    }
    if t.kind == "buy" {
      holdings' := holdings'[symbol := holdings'[symbol] + qty];
      cash' := cash - PositionValue(qty, price);
    } else if t.kind == "sell" {
      holdings' := holdings'[symbol := holdings'[symbol] - qty];
      cash' := cash + PositionValue(qty, price);
    } else if t.kind == "deposit" {
      cash' := cash + qty;
    } else if t.kind == "withdrawal" {
      cash' := cash - qty;
    }
  }

  /** The pass over the rows through `i` from the pass over the rows before it. */
  lemma PassPrefixStep(txs: seq<Transaction>, i: nat, keys: seq<string>, holdings: map<string, real>, cash: real,
                       keys': seq<string>, holdings': map<string, real>, cash': real)
    requires i < |txs| && txs[i].symbol.Some?
    requires Passed(txs[..i], keys, holdings, cash)
    requires var t := txs[i];
      && keys' == (if IsTrade(t) && KeyOf(t) !in holdings then keys + [KeyOf(t)] else keys)
      && holdings' ==
           (if IsTrade(t) then holdings[KeyOf(t) := (if KeyOf(t) in holdings then holdings[KeyOf(t)] else 0.0) + TradeDelta(t)]
            else holdings)
      && cash' == cash + CashChange(t)
    ensures Passed(txs[..i + 1], keys', holdings', cash')
  {
    assert txs[..i + 1] == txs[..i] + [txs[i]];
    StepLemma(txs[..i], txs[i], keys, holdings, cash, keys', holdings', cash');
  }

  lemma SymbolsSnoc(txs: seq<Transaction>, tx: Transaction)
    requires SymbolsPresent(txs) && tx.symbol.Some?
    ensures SymbolsPresent(txs + [tx])
  {
    assert forall t :: t in txs + [tx] ==> t in txs || t == tx;
  }

  /** The accumulation loop; `None` is the AttributeError of a transaction without a symbol. */
  method Accumulate(txs: seq<Transaction>) returns (r: Option<(seq<string>, map<string, real>, real)>)
    ensures r.None? <==> !SymbolsPresent(txs)
    ensures r.Some? ==> r.value == (TradedKeys(txs), HoldingsOf(txs), CashBalance(txs))
  {
    var keys: seq<string> := [];
    var holdings: map<string, real> := map[];
    var cash := 0.0;
    assert HoldingsOf([]) == map[];
    for i := 0 to |txs|
      invariant Passed(txs[..i], keys, holdings, cash)
    {
      var t := txs[i];
      if t.symbol.None? {
        assert t in txs;
        return None;
      }
      var keys', holdings', cash' := AddTransaction(keys, holdings, cash, t);
      PassPrefixStep(txs, i, keys, holdings, cash, keys', holdings', cash');
      keys, holdings, cash := keys', holdings', cash';
    }
    assert txs[..|txs|] == txs;
    r := Some((keys, holdings, cash));
  }

  /** The valuation loop: cash plus every priced key's count times its price. */
  method ValuePriced(keys: seq<string>, holdings: map<string, real>, prices: map<string, real>, cash: real)
    returns (total: real)
    ensures total == cash + PricedValue(keys, holdings, prices)
  {
    total := cash;
    for i := 0 to |keys|
      invariant total == cash + PricedValue(keys[..i], holdings, prices)
    {
      var symbol := keys[i];
      assert Init(keys[..i + 1]) == keys[..i] && Last(keys[..i + 1]) == symbol;
      if symbol in prices && symbol in holdings {
        total := total + PositionValue(holdings[symbol], prices[symbol]);
      }
    }
    assert keys[..|keys|] == keys;
  }

  /**
   * `calculate_portfolio_value`: the holdings of every traded key (even at
   * zero or below), the cash balance, and cash plus the priced holdings.
   */
  method CalculatePortfolioValue(txs: seq<Transaction>, prices: map<string, real>) returns (r: Option<Valuation>)
    ensures r.None? <==> !SymbolsPresent(txs)
    ensures r.Some? ==> r.value.keys == TradedKeys(txs) && r.value.holdings == HoldingsOf(txs)
    ensures r.Some? ==> r.value.cash == CashBalance(txs)
    ensures r.Some? ==> r.value.totalValue == CashBalance(txs) + PricedValue(TradedKeys(txs), HoldingsOf(txs), prices)
  {
    var acc := Accumulate(txs);
    if acc.None? {
      return None;
    }
    var (keys, holdings, cash) := acc.value;
    var total := ValuePriced(keys, holdings, prices, cash);
    r := Some(Valuation(keys, holdings, cash, total));
  }

  /** The returned holdings list every traded key, whatever its count, and nothing else. */
  lemma HoldingsKeepEveryTradedKey(txs: seq<Transaction>)
    requires SymbolsPresent(txs)
    ensures forall k :: k in HoldingsOf(txs) <==> TradedUnder(txs, k)
    ensures forall k :: k in HoldingsOf(txs) ==> HoldingsOf(txs)[k] == Quantity(txs, k)
  {
    TradedKeysAreTradedSymbols(txs);
  }
}
