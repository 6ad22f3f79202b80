/**
 * The FastAPI backend's ledger functions: holdings just before a date,
 * the day-by-day portfolio valuation, the profit/loss aggregation and the
 * amounts a dividend or split event records.
 */
module BackendMain {
  import opened Wrappers
  import opened Text
  import opened Records
  import opened Ledger
  import opened EventParser

  // ---------------------------------------------------------------------------
  // Holdings before a date
  // ---------------------------------------------------------------------------

  /**
   * `get_holdings_on_date`: replays the symbol's transactions dated strictly
   * before `eventDate`. Nothing clamps the result, so it may be negative.
   */
  method HoldingsOnDate(ledger: seq<Transaction>, symbol: string, eventDate: int) returns (quantity: real)
    ensures quantity == NetQty(DatedBefore(ledger, eventDate), Some(symbol))
  {
    var transactions := DatedBefore(ForSymbol(ledger, symbol), eventDate);
    quantity := 0.0;
    for i := 0 to |transactions|
      invariant quantity == NetQty(transactions[..i], Some(symbol))
    {
      var tx := transactions[i];
      assert tx in transactions;
      assert Init(transactions[..i + 1]) == transactions[..i] && Last(transactions[..i + 1]) == tx;
      if tx.kind == "buy" {
        quantity := quantity + tx.quantity;
      } else if tx.kind == "sell" {
        quantity := quantity - tx.quantity;
      } else if tx.kind == "split" {
        quantity := quantity + tx.quantity;
      }
    }
    assert transactions[..|transactions|] == transactions;
    ForSymbolDatedBeforeCommute(ledger, symbol, eventDate);
    ForSymbolKeepsNetQty(DatedBefore(ledger, eventDate), symbol);
  }

  /** A sell with no earlier buy leaves a negative holding. */
  lemma OversoldHoldingIsNegative()
    ensures NetQty(DatedBefore([Transaction("sell", Some("SISE"), 5.0, Some(40.0), 738521, None, None)], 738522), Some("SISE")) == -5.0
  {
    var tx := Transaction("sell", Some("SISE"), 5.0, Some(40.0), 738521, None, None);
    assert DatedBefore([tx], 738522) == [tx] by {
      assert Init([tx]) == [] && Last([tx]) == tx;
    }
    assert Init([tx]) == [] && Last([tx]) == tx;
  }

  /** A transaction dated on the event day itself is not counted. */
  lemma SameDayTransactionNotCounted(ledger: seq<Transaction>, tx: Transaction, key: Key)
    ensures NetQty(DatedBefore(ledger + [tx], tx.date), key) == NetQty(DatedBefore(ledger, tx.date), key)
  {
    assert Init(ledger + [tx]) == ledger && Last(ledger + [tx]) == tx;
    assert DatedBefore(ledger + [tx], tx.date) == DatedBefore(ledger, tx.date);
  }

  // ---------------------------------------------------------------------------
  // Events
  // ---------------------------------------------------------------------------

  /** The dividend cash for `shares` at `percentage` percent. */
  function DividendAmount(shares: real, percentage: real): real
  {
    shares * (percentage / 100.0)
  }

  /** The shares a split at `ratio` adds to `shares`. */
  function SplitShares(shares: real, ratio: real): real
  {
    shares * (ratio - 1.0)
  }

  /** After the recorded split transaction the holding is the old holding times the ratio. */
  lemma SplitMultipliesHolding(ledger: seq<Transaction>, symbol: string, date: int, ratio: real)
    ensures var held := NetQty(DatedBefore(ledger, date), Some(symbol));
      var splitTx := Transaction("split", Some(symbol), SplitShares(held, ratio), Some(0.0), date, Some("TRY"), Some("STOCK"));
      NetQty(DatedBefore(ledger, date) + [splitTx], Some(symbol)) == held * ratio
  {
    var held := NetQty(DatedBefore(ledger, date), Some(symbol));
    var splitTx := Transaction("split", Some(symbol), SplitShares(held, ratio), Some(0.0), date, Some("TRY"), Some("STOCK"));
    var before := DatedBefore(ledger, date);
    assert Init(before + [splitTx]) == before && Last(before + [splitTx]) == splitTx;
    assert held + held * (ratio - 1.0) == held * ratio;
  }

  datatype EventOutcome =
    | NotParsed
    | ParserRaised
    | NoSharesHeld
    | Logged(tx: Transaction)

  /**
   * `add_event` after parsing: nothing is recorded without shares held just
   * before the event date; a dividend records quantity 0 and the cash as
   * price, a split records the new shares at price 0. Rows get the model's
   * default currency and asset type.
   */
  method AddEvent(ledger: seq<Transaction>, parsed: EventParse) returns (r: EventOutcome)
    ensures parsed == NoEvent <==> r == NotParsed
    ensures parsed == Raised <==> r == ParserRaised
    ensures parsed.Parsed? ==>
      var e := parsed.event;
      var held := NetQty(DatedBefore(ledger, e.date), Some(e.symbol));
      && (r == NoSharesHeld <==> held <= 0.0)
      && (held > 0.0 && e.Dividend? ==>
            r == Logged(Transaction("dividend", Some(e.symbol), 0.0, Some(DividendAmount(held, e.percentage)),
                                    e.date, Some("TRY"), Some("STOCK"))))
      && (held > 0.0 && e.Split? ==>
            r == Logged(Transaction("split", Some(e.symbol), SplitShares(held, e.ratio), Some(0.0),
                                    e.date, Some("TRY"), Some("STOCK"))))
  {
    match parsed
    case NoEvent =>
      return NotParsed;
    case Raised =>
      return ParserRaised;
    case Parsed(event) =>
      var sharesHeld := HoldingsOnDate(ledger, event.symbol, event.date);
      if sharesHeld <= 0.0 {
        return NoSharesHeld;
      }
      match event
      case Dividend(date, symbol, percentage) =>
        var totalDividend := DividendAmount(sharesHeld, percentage);
        r := Logged(Transaction("dividend", Some(symbol), 0.0, Some(totalDividend), date, Some("TRY"), Some("STOCK")));
      case Split(date, symbol, ratio) =>
        var newShares := SplitShares(sharesHeld, ratio);
        r := Logged(Transaction("split", Some(symbol), newShares, Some(0.0), date, Some("TRY"), Some("STOCK")));
  }

  // ---------------------------------------------------------------------------
  // Day-by-day valuation
  // ---------------------------------------------------------------------------

  /** How a transaction moves the cash balance; a split moves shares only. */
  function CashDelta(tx: Transaction): (d: real)
    requires tx.price.Some?
    ensures tx.kind == "buy" ==> d == -PositionValue(tx.quantity, tx.price.value)
    ensures tx.kind == "sell" ==> d == PositionValue(tx.quantity, tx.price.value)
    ensures tx.kind == "deposit" ==> d == tx.quantity
    ensures tx.kind == "withdrawal" ==> d == -tx.quantity
    ensures tx.kind == "dividend" ==> d == tx.price.value
    ensures tx.kind !in {"buy", "sell", "deposit", "withdrawal", "dividend"} ==> d == 0.0
  {
    if tx.kind == "buy" then -PositionValue(tx.quantity, tx.price.value)
    else if tx.kind == "sell" then PositionValue(tx.quantity, tx.price.value)
    else if tx.kind == "deposit" then tx.quantity
    else if tx.kind == "withdrawal" then -tx.quantity
    else if tx.kind == "dividend" then tx.price.value
    else 0.0
  }

  /** The cash balance after replaying `txs`. */
  function Cash(txs: seq<Transaction>): real
    requires AllPriced(txs)
  {
    if txs == [] then 0.0 else Cash(Init(txs)) + CashDelta(Last(txs))
  }

  /** `keys`, `holdings` and `cash` are what replaying `txs` produces. */
  predicate Replayed(txs: seq<Transaction>, keys: seq<Key>, holdings: map<Key, real>, cash: real)
    requires AllPriced(txs)
  {
    keys == FirstSeen(txs) && holdings == Holdings(txs) && cash == Cash(txs)
  }

  /** One transaction of the inner `while` loop, applied to the holdings and the cash. */
  method ApplyTransaction(keys: seq<Key>, holdings: map<Key, real>, cash: real, tx: Transaction)
    returns (keys': seq<Key>, holdings': map<Key, real>, cash': real)
    requires tx.price.Some?
    ensures keys' == if MovesShares(tx) && tx.symbol !in holdings then keys + [tx.symbol] else keys
    ensures holdings' == if MovesShares(tx) then holdings[tx.symbol := Get(holdings, tx.symbol) + ShareDelta(tx)] else holdings
    ensures cash' == cash + CashDelta(tx)
  {
    keys', holdings', cash' := keys, holdings, cash;
    if MovesShares(tx) && tx.symbol !in holdings {
      keys' := keys + [tx.symbol];
    }
    if tx.kind == "buy" {
      holdings' := holdings[tx.symbol := Get(holdings, tx.symbol) + tx.quantity];
      cash' := cash - PositionValue(tx.quantity, tx.price.value);
    } else if tx.kind == "sell" {
      holdings' := holdings[tx.symbol := Get(holdings, tx.symbol) - tx.quantity];
      cash' := cash + PositionValue(tx.quantity, tx.price.value);
    } else if tx.kind == "deposit" {
      cash' := cash + tx.quantity;
    } else if tx.kind == "withdrawal" {
      cash' := cash - tx.quantity;
    } else if tx.kind == "dividend" {
      cash' := cash + tx.price.value;
    } else if tx.kind == "split" {
      holdings' := holdings[tx.symbol := Get(holdings, tx.symbol) + tx.quantity];
    }
  }

  /** Applying the next transaction extends the replay by that transaction. */
  lemma ApplyExtendsReplay(txs: seq<Transaction>, tx: Transaction, keys: seq<Key>, holdings: map<Key, real>, cash: real)
    requires AllPriced(txs + [tx])
    requires AllPriced(txs) && Replayed(txs, keys, holdings, cash)
    ensures Replayed(txs + [tx],
      if MovesShares(tx) && tx.symbol !in holdings then keys + [tx.symbol] else keys,
      if MovesShares(tx) then holdings[tx.symbol := Get(holdings, tx.symbol) + ShareDelta(tx)] else holdings,
      cash + CashDelta(tx))
  {
    HoldingsStep(txs, tx, keys, holdings);
    assert Init(txs + [tx]) == txs && Last(txs + [tx]) == tx;
  }

  /** The listed keys of a replay with named share moves are all symbols. */
  lemma ReplayedKeysAreSymbols(txs: seq<Transaction>)
    requires ShareMovesHaveSymbols(txs)
    ensures forall k :: k in FirstSeen(txs) ==> k.Some?
  {
    FirstSeenIsTouchedKeys(txs);
  }

  /** The price column of a holding: the symbol itself when it already ends in ".IS". */
  function BackendColumn(symbol: string): (c: string)
    ensures EndsWith(c, ".IS")
    ensures c == symbol <==> EndsWith(symbol, ".IS")
  {
    if EndsWith(symbol, ".IS") then symbol
    else
      assert (symbol + ".IS")[|symbol + ".IS"| - 3..] == ".IS";
      symbol + ".IS"
  }

  /** Every listed key is a symbol with an entry in `holdings`. */
  predicate ListedSymbols(keys: seq<Key>, holdings: map<Key, real>)
  {
    forall k :: k in keys ==> k.Some? && k in holdings
  }

  lemma ListedSymbolsPrefix(keys: seq<Key>, holdings: map<Key, real>, i: nat)
    requires ListedSymbols(keys, holdings) && i <= |keys|
    ensures ListedSymbols(keys[..i], holdings)
  {
    assert forall k :: k in keys[..i] ==> k in keys;
  }

  lemma ProductNonNegative(a: real, b: real)
    requires a >= 0.0 && b >= 0.0
    ensures PositionValue(a, b) >= 0.0
  {
  }

  /** `stock_value_try`: quantity times price over the positive holdings with a price that day. */
  function StockValue(keys: seq<Key>, holdings: map<Key, real>, prices: map<string, real>): real
    requires ListedSymbols(keys, holdings)
  {
    if keys == [] then 0.0
    else
      ListedSymbolsPrefix(keys, holdings, |keys| - 1);
      var k := Last(keys);
      var qty := holdings[k];
      StockValue(Init(keys), holdings, prices)
      + (if qty > 0.0 && BackendColumn(k.value) in prices then PositionValue(qty, prices[BackendColumn(k.value)]) else 0.0)
  }

  /** With non-negative prices the stock value is never negative; cash never enters it. */
  lemma {:induction false} StockValueNonNegative(keys: seq<Key>, holdings: map<Key, real>, prices: map<string, real>)
    requires ListedSymbols(keys, holdings)
    requires forall c :: c in prices ==> prices[c] >= 0.0
    ensures StockValue(keys, holdings, prices) >= 0.0
  {
    if keys != [] {
      ListedSymbolsPrefix(keys, holdings, |keys| - 1);
      StockValueNonNegative(Init(keys), holdings, prices);
      var k := Last(keys);
      var qty := holdings[k];
      if qty > 0.0 && BackendColumn(k.value) in prices {
        ProductNonNegative(qty, prices[BackendColumn(k.value)]);
      }
    }
  }

  /** Valuing one more listed key adds its position, when positive and priced. */
  lemma StockValueStep(keys: seq<Key>, holdings: map<Key, real>, prices: map<string, real>, i: nat)
    requires ListedSymbols(keys, holdings) && i < |keys|
    ensures ListedSymbols(keys[..i], holdings) && ListedSymbols(keys[..i + 1], holdings)
    ensures keys[i].Some? && keys[i] in holdings
    ensures StockValue(keys[..i + 1], holdings, prices) == StockValue(keys[..i], holdings, prices)
      + (if holdings[keys[i]] > 0.0 && BackendColumn(keys[i].value) in prices
         then PositionValue(holdings[keys[i]], prices[BackendColumn(keys[i].value)]) else 0.0)
  {
    ListedSymbolsPrefix(keys, holdings, i);
    ListedSymbolsPrefix(keys, holdings, i + 1);
    assert Init(keys[..i + 1]) == keys[..i] && Last(keys[..i + 1]) == keys[i];
  }

  /** The inner loop over `holdings.items()`. */
  method ValueHoldings(keys: seq<Key>, holdings: map<Key, real>, prices: map<string, real>) returns (value: real)
    requires ListedSymbols(keys, holdings)
    ensures value == StockValue(keys, holdings, prices)
  {
    value := 0.0;
    ListedSymbolsPrefix(keys, holdings, 0);
    for i := 0 to |keys|
      invariant ListedSymbols(keys[..i], holdings)
      invariant value == StockValue(keys[..i], holdings, prices)
    {
      StockValueStep(keys, holdings, prices, i);
      var qty := holdings[keys[i]];
      if qty > 0.0 {
        var symbolCol := BackendColumn(keys[i].value);
        if symbolCol in prices {
          value := value + PositionValue(qty, prices[symbolCol]);
        }
      }
    }
    assert keys[..|keys|] == keys;
  }

  /** `value_eur`: the TRY value over the EUR/TRY rate, 0 without a positive rate. */
  function ValueEur(valueTry: real, eurRate: Option<real>): (v: real)
    ensures eurRate.Some? && eurRate.value > 0.0 ==> v * eurRate.value == valueTry
    ensures !(eurRate.Some? && eurRate.value > 0.0) ==> v == 0.0
  {
    if eurRate.Some? && eurRate.value > 0.0 then valueTry / eurRate.value else 0.0
  }

  function EurRate(prices: map<string, real>): Option<real>
  {
    if "EURTRY=X" in prices then Some(prices["EURTRY=X"]) else None
  }

  datatype DayRow = DayRow(date: int, valueTry: real, valueEur: real)

  /** The row of day `d`: the holdings after every transaction dated up to `d`, valued at that day's prices. */
  function DayRowOf(txs: seq<Transaction>, d: int, prices: map<string, real>): DayRow
    requires ShareMovesHaveSymbols(txs)
  {
    var applied := DatedThrough(txs, d);
    ReplayedKeysAreSymbols(applied);
    var value := StockValue(FirstSeen(applied), Holdings(applied), prices);
    DayRow(d, value, ValueEur(value, EurRate(prices)))
  }

  /**
   * The rows for the days `start..d`; a day whose price lookup raises
   * KeyError (`asof` gives None) is skipped.
   */
  function RowsThrough(txs: seq<Transaction>, start: int, d: int, asof: int -> Option<map<string, real>>): (rows: seq<DayRow>)
    requires ShareMovesHaveSymbols(txs)
    ensures |rows| <= if d < start then 0 else d - start + 1
    decreases d - start
  {
    if d < start then []
    else
      RowsThrough(txs, start, d - 1, asof)
      + (match asof(d) case None => [] case Some(prices) => [DayRowOf(txs, d, prices)])
  }

  /** The rows from the first transaction's date through `today`; none without transactions or price history. */
  function DailyPortfolioValues(txs: seq<Transaction>, today: int, historyEmpty: bool, asof: int -> Option<map<string, real>>): seq<DayRow>
    requires ShareMovesHaveSymbols(txs)
  {
    if txs == [] || historyEmpty then [] else RowsThrough(txs, txs[0].date, today, asof)
  }

  lemma {:induction false} DatedThroughAll(txs: seq<Transaction>, d: int)
    requires forall i :: 0 <= i < |txs| ==> txs[i].date <= d
    ensures DatedThrough(txs, d) == txs
  {
    if txs != [] {
      var init := Init(txs);
      assert forall i :: 0 <= i < |init| ==> init[i] == txs[i];
      DatedThroughAll(init, d);
      assert Last(txs) == txs[|txs| - 1];
      calc {
        DatedThrough(txs, d);
        DatedThrough(init, d) + [Last(txs)];
        init + [Last(txs)];
        { InitLast(txs); }
        txs;
      }
    }
  }

  /** In a date-ordered ledger every row from `k` on is later than `d` when row `k` is. */
  lemma LaterSuffix(txs: seq<Transaction>, k: nat, d: int)
    requires SortedByDate(txs) && k <= |txs|
    requires k < |txs| ==> txs[k].date > d
    ensures forall i :: k <= i < |txs| ==> txs[i].date > d
  {
  }

  /** In a date-ordered ledger the first `k` rows are those dated up to `d` when row `k` is later than `d`. */
  lemma PrefixIsDatedThrough(txs: seq<Transaction>, k: nat, d: int)
    requires SortedByDate(txs) && k <= |txs|
    requires forall i :: 0 <= i < k ==> txs[i].date <= d
    requires k < |txs| ==> txs[k].date > d
    ensures DatedThrough(txs, d) == txs[..k]
    ensures |DatedThrough(txs, d)| == k
  {
    LaterSuffix(txs, k, d);
    PrefixSplit(txs, k, d);
  }

  /** Rows up to `d` followed by rows after it: the query keeps exactly the first part. */
  lemma {:induction false} PrefixSplit(txs: seq<Transaction>, k: nat, d: int)
    requires k <= |txs|
    requires forall i :: 0 <= i < k ==> txs[i].date <= d
    requires forall i :: k <= i < |txs| ==> txs[i].date > d
    ensures DatedThrough(txs, d) == txs[..k]
  {
    if k == |txs| {
      DatedThroughAll(txs, d);
      assert txs[..k] == txs;
    } else {
      var init := Init(txs);
      assert forall i :: 0 <= i < |init| ==> init[i] == txs[i];
      PrefixSplit(init, k, d);
      DatedThroughDropsLate(txs, k, d);
    }
  }

  lemma DatedThroughDropsLate(txs: seq<Transaction>, k: nat, d: int)
    requires k < |txs| && Last(txs).date > d && DatedThrough(Init(txs), d) == Init(txs)[..k]
    ensures DatedThrough(txs, d) == txs[..k]
  {
    assert DatedThrough(txs, d) == DatedThrough(Init(txs), d) + [];
    assert Init(txs)[..k] == txs[..k];
  }

  lemma AllPricedPrefix(txs: seq<Transaction>, k: nat)
    requires AllPriced(txs) && k <= |txs|
    ensures AllPriced(txs[..k])
  {
    assert forall tx :: tx in txs[..k] ==> tx in txs;
  }

  lemma SymbolsPrefix(txs: seq<Transaction>, k: nat)
    requires ShareMovesHaveSymbols(txs) && k <= |txs|
    ensures ShareMovesHaveSymbols(txs[..k])
  {
    assert forall tx :: tx in txs[..k] ==> tx in txs;
  }

  /** One day of the walk: the rows of `start..day` extend those of `start..day-1`. */
  lemma RowsThroughStep(txs: seq<Transaction>, start: int, day: int, asof: int -> Option<map<string, real>>)
    requires ShareMovesHaveSymbols(txs) && start <= day
    ensures RowsThrough(txs, start, day, asof)
      == RowsThrough(txs, start, day - 1, asof) + (match asof(day) case None => [] case Some(prices) => [DayRowOf(txs, day, prices)])
  {
  }

  /** Values the day `day` from the replayed state, when the price lookup succeeds. */
  method ValueOneDay(txs: seq<Transaction>, k: nat, day: int, keys: seq<Key>, holdings: map<Key, real>, cash: real, prices: map<string, real>)
    returns (row: DayRow)
    requires AllPriced(txs) && ShareMovesHaveSymbols(txs) && k <= |txs|
    requires AllPriced(txs[..k]) && Replayed(txs[..k], keys, holdings, cash)
    requires DatedThrough(txs, day) == txs[..k]
    ensures row == DayRowOf(txs, day, prices)
  {
    SymbolsPrefix(txs, k);
    ReplayedKeysAreSymbols(txs[..k]);
    var stockValueTry := ValueHoldings(keys, holdings, prices);
    var eurRate := EurRate(prices);
    row := DayRow(day, stockValueTry, ValueEur(stockValueTry, eurRate));
  }

  /** The inner `while`: applies every transaction dated `day`, advancing the index past them. */
  method ApplyDay(txs: seq<Transaction>, day: int, txIndex0: nat, keys0: seq<Key>, holdings0: map<Key, real>, cash0: real)
    returns (txIndex: nat, keys: seq<Key>, holdings: map<Key, real>, cash: real)
    requires SortedByDate(txs) && AllPriced(txs) && txIndex0 <= |txs|
    requires AllPriced(txs[..txIndex0]) && Replayed(txs[..txIndex0], keys0, holdings0, cash0)
    requires forall i :: 0 <= i < txIndex0 ==> txs[i].date < day
    requires txIndex0 < |txs| ==> txs[txIndex0].date >= day
    ensures txIndex0 <= txIndex <= |txs|
    ensures AllPriced(txs[..txIndex]) && Replayed(txs[..txIndex], keys, holdings, cash)
    ensures forall i :: 0 <= i < txIndex ==> txs[i].date <= day
    ensures txIndex < |txs| ==> txs[txIndex].date > day
  {
    txIndex, keys, holdings, cash := txIndex0, keys0, holdings0, cash0;
    while txIndex < |txs| && txs[txIndex].date == day
      invariant txIndex0 <= txIndex <= |txs|
      invariant AllPriced(txs[..txIndex]) && Replayed(txs[..txIndex], keys, holdings, cash)
      invariant forall i :: 0 <= i < txIndex ==> txs[i].date <= day
      invariant txIndex < |txs| ==> txs[txIndex].date >= day
    {
      SortedNext(txs, txIndex);
      keys, holdings, cash := ApplyNext(txs, txIndex, keys, holdings, cash);
      txIndex := txIndex + 1;
    }
  }

  /** Applies row `k` of the ledger to the state replayed from the rows before it. */
  method ApplyNext(txs: seq<Transaction>, k: nat, keys: seq<Key>, holdings: map<Key, real>, cash: real)
    returns (keys': seq<Key>, holdings': map<Key, real>, cash': real)
    requires AllPriced(txs) && k < |txs|
    requires AllPriced(txs[..k]) && Replayed(txs[..k], keys, holdings, cash)
    ensures AllPriced(txs[..k + 1]) && Replayed(txs[..k + 1], keys', holdings', cash')
  {
    var tx := txs[k];
    assert txs[..k + 1] == txs[..k] + [tx];
    AllPricedPrefix(txs, k + 1);
    ApplyExtendsReplay(txs[..k], tx, keys, holdings, cash);
    keys', holdings', cash' := ApplyTransaction(keys, holdings, cash, tx);
  }

  lemma SortedNext(txs: seq<Transaction>, k: nat)
    requires SortedByDate(txs) && k < |txs|
    ensures k + 1 < |txs| ==> txs[k].date <= txs[k + 1].date
  {
  }

  /** The state of the day walk before day `day`: every earlier transaction applied, every earlier row emitted. */
  predicate WalkState(txs: seq<Transaction>, start: int, day: int, asof: int -> Option<map<string, real>>,
                      txIndex: nat, keys: seq<Key>, holdings: map<Key, real>, cash: real, rows: seq<DayRow>)
    requires ShareMovesHaveSymbols(txs)
  {
    && txIndex <= |txs|
    && AllPriced(txs[..txIndex]) && Replayed(txs[..txIndex], keys, holdings, cash)
    && (forall i :: 0 <= i < txIndex ==> txs[i].date < day)
    && (txIndex < |txs| ==> txs[txIndex].date >= day)
    && rows == RowsThrough(txs, start, day - 1, asof)
  }

  /** The day loop's body: apply the day's transactions, then emit the day's row if it has prices. */
  method WalkDay(txs: seq<Transaction>, start: int, day: int, asof: int -> Option<map<string, real>>,
                 txIndex0: nat, keys0: seq<Key>, holdings0: map<Key, real>, cash0: real, rows0: seq<DayRow>)
    returns (txIndex: nat, keys: seq<Key>, holdings: map<Key, real>, cash: real, rows: seq<DayRow>)
    requires SortedByDate(txs) && AllPriced(txs) && ShareMovesHaveSymbols(txs) && start <= day
    requires WalkState(txs, start, day, asof, txIndex0, keys0, holdings0, cash0, rows0)
    ensures WalkState(txs, start, day + 1, asof, txIndex, keys, holdings, cash, rows)
  {
    txIndex, keys, holdings, cash := ApplyDay(txs, day, txIndex0, keys0, holdings0, cash0);
    PrefixIsDatedThrough(txs, txIndex, day);
    RowsThroughStep(txs, start, day, asof);
    rows := rows0;
    var dayPrices := asof(day);
    if dayPrices.Some? {
      var row := ValueOneDay(txs, txIndex, day, keys, holdings, cash, dayPrices.value);
      rows := rows + [row];
    }
  }

  /**
   * `get_daily_portfolio_value`: walks the days from the first transaction's
   * date through `today`, applying each transaction on its own day through
   * the `txIndex` cursor, and values the holdings at each day's prices.
   */
  method GetDailyPortfolioValue(txs: seq<Transaction>, today: int, historyEmpty: bool, asof: int -> Option<map<string, real>>)
    returns (rows: seq<DayRow>)
    requires SortedByDate(txs) && AllPriced(txs) && ShareMovesHaveSymbols(txs)
    ensures rows == DailyPortfolioValues(txs, today, historyEmpty, asof)
  {
    if txs == [] || historyEmpty {
      return [];
    }
    var start := txs[0].date;
    var keys: seq<Key> := [];
    var holdings: map<Key, real> := map[];
    var cash := 0.0;
    rows := [];
    var txIndex: nat := 0;
    var day := start;
    WalkStart(txs, asof);
    while day <= today
      invariant start <= day
      invariant day == start || day <= today + 1
      invariant WalkState(txs, start, day, asof, txIndex, keys, holdings, cash, rows)
      decreases today - day
    {
      txIndex, keys, holdings, cash, rows := WalkDay(txs, start, day, asof, txIndex, keys, holdings, cash, rows);
      day := day + 1;
    }
    WalkEnd(txs, start, day, today, asof, txIndex, keys, holdings, cash, rows);
  }

  /** Before the first day nothing is applied and no row is emitted. */
  lemma WalkStart(txs: seq<Transaction>, asof: int -> Option<map<string, real>>)
    requires ShareMovesHaveSymbols(txs) && txs != []
    ensures WalkState(txs, txs[0].date, txs[0].date, asof, 0, [], map[], 0.0, [])
  {
    assert txs[..0] == [] && Holdings([]) == map[];
  }

  /** Once the walk passes `today`, or never starts, the rows are those through `today`. */
  lemma WalkEnd(txs: seq<Transaction>, start: int, day: int, today: int, asof: int -> Option<map<string, real>>,
                txIndex: nat, keys: seq<Key>, holdings: map<Key, real>, cash: real, rows: seq<DayRow>)
    requires ShareMovesHaveSymbols(txs) && start <= day && today < day && (day == start || day <= today + 1)
    requires WalkState(txs, start, day, asof, txIndex, keys, holdings, cash, rows)
    ensures rows == RowsThrough(txs, start, today, asof)
  {
    if day == start {
      assert RowsThrough(txs, start, today, asof) == [];
    }
  }

  // ---------------------------------------------------------------------------
  // Profit and loss
  // ---------------------------------------------------------------------------

  /** What the `kind` trades of `key` cost or returned: the sum of quantity times price. */
  function TradeTotal(txs: seq<Transaction>, key: Key, kind: string): real
    requires AllPriced(txs)
  {
    if txs == [] then 0.0
    else
      var tx := Last(txs);
      TradeTotal(Init(txs), key, kind)
      + (if tx.symbol == key && tx.kind == kind then PositionValue(tx.quantity, tx.price.value) else 0.0)
  }

  /** `get_latest_price(symbol) or 0`: a missing quote counts as a price of 0. */
  function LatestPrice(latest: Key -> Option<real>, k: Key): (p: real)
    ensures latest(k).Some? ==> p == latest(k).value
    ensures latest(k).None? ==> p == 0.0
  {
    latest(k).GetOr(0.0)
  }

  /** One entry of the `holdings` list of the profit/loss report. */
  datatype PLRow = PLRow(symbol: Key, quantity: real, cost: real, currentValue: real, profitLoss: real, currentPrice: real)

  /** The entry for `k`: its replayed quantity, bought minus sold as cost, and its value at the latest price. */
  function HeldRow(txs: seq<Transaction>, k: Key, latest: Key -> Option<real>): PLRow
    requires AllPriced(txs)
  {
    var qty := NetQty(txs, k);
    var price := LatestPrice(latest, k);
    var value := PositionValue(qty, price);
    var cost := TradeTotal(txs, k, "buy") - TradeTotal(txs, k, "sell");
    PLRow(k, qty, cost, value, value - cost, price)
  }

  /** The entries for the keys of `ks` whose replayed quantity is positive, in the order of `ks`. */
  function HeldRows(txs: seq<Transaction>, ks: seq<Key>, latest: Key -> Option<real>): seq<PLRow>
    requires AllPriced(txs)
  {
    if ks == [] then []
    else HeldRows(txs, Init(ks), latest) + (if NetQty(txs, Last(ks)) > 0.0 then [HeldRow(txs, Last(ks), latest)] else [])
  }

  function RowSymbols(rows: seq<PLRow>): seq<Key>
  {
    if rows == [] then [] else RowSymbols(Init(rows)) + [Last(rows).symbol]
  }

  function SumValue(rows: seq<PLRow>): real
  {
    if rows == [] then 0.0 else SumValue(Init(rows)) + Last(rows).currentValue
  }

  function SumCost(rows: seq<PLRow>): real
  {
    if rows == [] then 0.0 else SumCost(Init(rows)) + Last(rows).cost
  }

  function SumProfit(rows: seq<PLRow>): real
  {
    if rows == [] then 0.0 else SumProfit(Init(rows)) + Last(rows).profitLoss
  }

  /** The listed entries are exactly the keys of `ks` with a positive quantity, each with that quantity. */
  lemma {:induction false} HeldRowsListPositiveKeys(txs: seq<Transaction>, ks: seq<Key>, latest: Key -> Option<real>)
    requires AllPriced(txs)
    ensures forall k :: k in RowSymbols(HeldRows(txs, ks, latest)) <==> k in ks && NetQty(txs, k) > 0.0
    ensures forall r :: r in HeldRows(txs, ks, latest) ==> r.quantity == NetQty(txs, r.symbol) > 0.0
  {
    if ks != [] {
      HeldRowsListPositiveKeys(txs, Init(ks), latest);
      var rows := HeldRows(txs, Init(ks), latest);
      assert ks == Init(ks) + [Last(ks)];
      if NetQty(txs, Last(ks)) > 0.0 {
        var rows' := rows + [HeldRow(txs, Last(ks), latest)];
        assert HeldRows(txs, ks, latest) == rows';
        assert Init(rows') == rows && Last(rows') == HeldRow(txs, Last(ks), latest);
        assert RowSymbols(rows') == RowSymbols(rows) + [Last(ks)];
      } else {
        assert HeldRows(txs, ks, latest) == rows;
      }
    }
  }

  /** Over the dictionary's keys, a symbol is listed exactly when the ledger leaves a positive quantity of it. */
  lemma HeldRowsAreOpenPositions(txs: seq<Transaction>, latest: Key -> Option<real>)
    requires AllPriced(txs)
    ensures forall k :: k in RowSymbols(HeldRows(txs, FirstSeen(txs), latest)) <==> NetQty(txs, k) > 0.0
  {
    HeldRowsListPositiveKeys(txs, FirstSeen(txs), latest);
    FirstSeenIsTouchedKeys(txs);
    forall k | NetQty(txs, k) > 0.0
      ensures k in FirstSeen(txs)
    {
      if !Touched(txs, k) {
        UntouchedIsZero(txs, k);
      }
    }
  }

  /** The total profit/loss is the sum of the listed entries' profit/loss. */
  lemma {:induction false} TotalProfitIsSumOfRows(rows: seq<PLRow>)
    requires forall r :: r in rows ==> r.profitLoss == r.currentValue - r.cost
    ensures SumValue(rows) - SumCost(rows) == SumProfit(rows)
  {
    if rows != [] {
      assert Last(rows) in rows;
      assert forall r :: r in Init(rows) ==> r in rows;
      TotalProfitIsSumOfRows(Init(rows));
    }
  }

  /** The first loop of `get_profit_loss`: per-key quantity, buy total and sell total. */
  method AccumulateTrades(txs: seq<Transaction>)
    returns (keys: seq<Key>, quantity: map<Key, real>, buyTotal: map<Key, real>, sellTotal: map<Key, real>)
    requires AllPriced(txs)
    ensures keys == FirstSeen(txs) && quantity == Holdings(txs)
    ensures forall k :: Get(buyTotal, k) == TradeTotal(txs, k, "buy")
    ensures forall k :: Get(sellTotal, k) == TradeTotal(txs, k, "sell")
  {
    keys, quantity, buyTotal, sellTotal := [], map[], map[], map[];
    assert Holdings([]) == map[];
    for i := 0 to |txs|
      invariant AllPriced(txs[..i]) && TradesAccumulated(txs[..i], keys, quantity, buyTotal, sellTotal)
    {
      var keys', quantity', buyTotal', sellTotal' := RecordTrade(keys, quantity, buyTotal, sellTotal, txs[i]);
      AccumulateStep(txs, i, keys, quantity, buyTotal, sellTotal, keys', quantity', buyTotal', sellTotal');
      keys, quantity, buyTotal, sellTotal := keys', quantity', buyTotal', sellTotal';
    }
    assert txs[..|txs|] == txs;
  }

  /** What the first loop has built from the rows `txs`. */
  ghost predicate TradesAccumulated(txs: seq<Transaction>, keys: seq<Key>, quantity: map<Key, real>,
                              buyTotal: map<Key, real>, sellTotal: map<Key, real>)
    requires AllPriced(txs)
  {
    && keys == FirstSeen(txs) && quantity == Holdings(txs)
    && (forall k :: Get(buyTotal, k) == TradeTotal(txs, k, "buy"))
    && (forall k :: Get(sellTotal, k) == TradeTotal(txs, k, "sell"))
  }

  /** Recording row `i` extends what was built from the rows before it to the rows through it. */
  lemma AccumulateStep(txs: seq<Transaction>, i: nat,
                       keys: seq<Key>, quantity: map<Key, real>, buyTotal: map<Key, real>, sellTotal: map<Key, real>,
                       keys': seq<Key>, quantity': map<Key, real>, buyTotal': map<Key, real>, sellTotal': map<Key, real>)
    requires AllPriced(txs) && i < |txs|
    requires AllPriced(txs[..i]) && TradesAccumulated(txs[..i], keys, quantity, buyTotal, sellTotal)
    requires var tx := txs[i];
      && keys' == (if MovesShares(tx) && tx.symbol !in quantity then keys + [tx.symbol] else keys)
      && quantity' == (if MovesShares(tx) then quantity[tx.symbol := Get(quantity, tx.symbol) + ShareDelta(tx)] else quantity)
      && buyTotal' == (if tx.kind == "buy" then buyTotal[tx.symbol := Get(buyTotal, tx.symbol) + PositionValue(tx.quantity, tx.price.value)] else buyTotal)
      && sellTotal' == (if tx.kind == "sell" then sellTotal[tx.symbol := Get(sellTotal, tx.symbol) + PositionValue(tx.quantity, tx.price.value)] else sellTotal)
    ensures AllPriced(txs[..i + 1]) && TradesAccumulated(txs[..i + 1], keys', quantity', buyTotal', sellTotal')
  {
    TradeTotalsStep(txs, i, buyTotal, sellTotal);
    HoldingsPrefixStep(txs, i, keys, quantity);
  }

  /** The replay of the rows through `i` from the replay of the rows before it. */
  lemma HoldingsPrefixStep(txs: seq<Transaction>, i: nat, keys: seq<Key>, holdings: map<Key, real>)
    requires i < |txs| && keys == FirstSeen(txs[..i]) && holdings == Holdings(txs[..i])
    ensures var tx := txs[i];
      && FirstSeen(txs[..i + 1]) == (if MovesShares(tx) && tx.symbol !in holdings then keys + [tx.symbol] else keys)
      && Holdings(txs[..i + 1]) == (if MovesShares(tx) then holdings[tx.symbol := Get(holdings, tx.symbol) + ShareDelta(tx)] else holdings)
  {
    assert txs[..i + 1] == txs[..i] + [txs[i]];
    HoldingsStep(txs[..i], txs[i], keys, holdings);
  }

  /** The body of the first loop for one transaction. */
  method RecordTrade(keys: seq<Key>, quantity: map<Key, real>, buyTotal: map<Key, real>, sellTotal: map<Key, real>, tx: Transaction)
    returns (keys': seq<Key>, quantity': map<Key, real>, buyTotal': map<Key, real>, sellTotal': map<Key, real>)
    requires tx.price.Some?
    ensures keys' == if MovesShares(tx) && tx.symbol !in quantity then keys + [tx.symbol] else keys
    ensures quantity' == if MovesShares(tx) then quantity[tx.symbol := Get(quantity, tx.symbol) + ShareDelta(tx)] else quantity
    ensures buyTotal' == if tx.kind == "buy" then buyTotal[tx.symbol := Get(buyTotal, tx.symbol) + PositionValue(tx.quantity, tx.price.value)] else buyTotal
    ensures sellTotal' == if tx.kind == "sell" then sellTotal[tx.symbol := Get(sellTotal, tx.symbol) + PositionValue(tx.quantity, tx.price.value)] else sellTotal
  {
    keys', quantity', buyTotal', sellTotal' := keys, quantity, buyTotal, sellTotal;
    if MovesShares(tx) && tx.symbol !in quantity {
      keys' := keys + [tx.symbol];
    }
    if tx.kind == "buy" {
      buyTotal' := buyTotal[tx.symbol := Get(buyTotal, tx.symbol) + PositionValue(tx.quantity, tx.price.value)];
      quantity' := quantity[tx.symbol := Get(quantity, tx.symbol) + tx.quantity];
    } else if tx.kind == "sell" {
      sellTotal' := sellTotal[tx.symbol := Get(sellTotal, tx.symbol) + PositionValue(tx.quantity, tx.price.value)];
      quantity' := quantity[tx.symbol := Get(quantity, tx.symbol) - tx.quantity];
    } else if tx.kind == "split" {
      quantity' := quantity[tx.symbol := Get(quantity, tx.symbol) + tx.quantity];
    }
  }

  /** One row of the first loop moves only its own symbol's buy or sell total. */
  lemma TradeTotalsStep(txs: seq<Transaction>, i: nat, buyTotal: map<Key, real>, sellTotal: map<Key, real>)
    requires AllPriced(txs) && i < |txs| && AllPriced(txs[..i])
    requires forall k :: Get(buyTotal, k) == TradeTotal(txs[..i], k, "buy")
    requires forall k :: Get(sellTotal, k) == TradeTotal(txs[..i], k, "sell")
    ensures AllPriced(txs[..i + 1])
    ensures var tx := txs[i];
      var buy' := if tx.kind == "buy" then buyTotal[tx.symbol := Get(buyTotal, tx.symbol) + PositionValue(tx.quantity, tx.price.value)] else buyTotal;
      var sell' := if tx.kind == "sell" then sellTotal[tx.symbol := Get(sellTotal, tx.symbol) + PositionValue(tx.quantity, tx.price.value)] else sellTotal;
      && (forall k :: Get(buy', k) == TradeTotal(txs[..i + 1], k, "buy"))
      && (forall k :: Get(sell', k) == TradeTotal(txs[..i + 1], k, "sell"))
  {
    AllPricedPrefix(txs, i + 1);
    assert Init(txs[..i + 1]) == txs[..i] && Last(txs[..i + 1]) == txs[i];
  }

  /** The second loop of `get_profit_loss`: the entries of the positive quantities and their running totals. */
  method ListHeld(txs: seq<Transaction>, keys: seq<Key>, quantity: map<Key, real>,
                  buyTotal: map<Key, real>, sellTotal: map<Key, real>, latest: Key -> Option<real>)
    returns (rows: seq<PLRow>, totalValue: real, totalCost: real)
    requires AllPriced(txs) && keys == FirstSeen(txs) && quantity == Holdings(txs)
    requires forall k :: Get(buyTotal, k) == TradeTotal(txs, k, "buy")
    requires forall k :: Get(sellTotal, k) == TradeTotal(txs, k, "sell")
    ensures rows == HeldRows(txs, keys, latest)
    ensures totalValue == SumValue(rows) && totalCost == SumCost(rows)
  {
    rows, totalValue, totalCost := [], 0.0, 0.0;
    for i := 0 to |keys|
      invariant rows == HeldRows(txs, keys[..i], latest)
      invariant totalValue == SumValue(rows) && totalCost == SumCost(rows)
    {
      var symbol := keys[i];
      HeldRowsStep(txs, keys, i, latest);
      HeldEntryIsRow(txs, symbol, quantity, buyTotal, sellTotal, latest);
      var qty := quantity[symbol];
      if qty > 0.0 {
        var currentPrice := LatestPrice(latest, symbol);
        var currentValue := PositionValue(qty, currentPrice);
        var cost := Get(buyTotal, symbol) - Get(sellTotal, symbol);
        var row := PLRow(symbol, qty, cost, currentValue, currentValue - cost, currentPrice);
        assert row == HeldRow(txs, symbol, latest);
        RowSumsSnoc(rows, row);
        rows := rows + [row];
        totalValue := totalValue + currentValue;
        totalCost := totalCost + cost;
      }
    }
    assert keys[..|keys|] == keys;
  }

  lemma HeldRowsStep(txs: seq<Transaction>, keys: seq<Key>, i: nat, latest: Key -> Option<real>)
    requires AllPriced(txs) && i < |keys|
    ensures NetQty(txs, keys[i]) > 0.0 ==>
      HeldRows(txs, keys[..i + 1], latest) == HeldRows(txs, keys[..i], latest) + [HeldRow(txs, keys[i], latest)]
    ensures NetQty(txs, keys[i]) <= 0.0 ==> HeldRows(txs, keys[..i + 1], latest) == HeldRows(txs, keys[..i], latest)
  {
    assert Init(keys[..i + 1]) == keys[..i] && Last(keys[..i + 1]) == keys[i];
    assert HeldRows(txs, keys[..i], latest) + [] == HeldRows(txs, keys[..i], latest);
  }

  /** The loop's entry for a replayed key is the report's entry for it. */
  lemma HeldEntryIsRow(txs: seq<Transaction>, k: Key, quantity: map<Key, real>,
                       buyTotal: map<Key, real>, sellTotal: map<Key, real>, latest: Key -> Option<real>)
    requires AllPriced(txs) && k in FirstSeen(txs) && quantity == Holdings(txs)
    requires forall k :: Get(buyTotal, k) == TradeTotal(txs, k, "buy")
    requires forall k :: Get(sellTotal, k) == TradeTotal(txs, k, "sell")
    ensures k in quantity && quantity[k] == NetQty(txs, k)
    ensures var value := PositionValue(quantity[k], LatestPrice(latest, k));
      var cost := Get(buyTotal, k) - Get(sellTotal, k);
      PLRow(k, quantity[k], cost, value, value - cost, LatestPrice(latest, k)) == HeldRow(txs, k, latest)
  {
  }

  lemma RowSumsSnoc(rows: seq<PLRow>, row: PLRow)
    ensures SumValue(rows + [row]) == SumValue(rows) + row.currentValue
    ensures SumCost(rows + [row]) == SumCost(rows) + row.cost
  {
    assert Init(rows + [row]) == rows && Last(rows + [row]) == row;
  }

  /** `total_value_try / latest_eur_rate if latest_eur_rate else 0`: any non-zero rate divides. */
  function TotalValueEur(valueTry: real, eurRate: Option<real>): (v: real)
    ensures eurRate.Some? && eurRate.value != 0.0 ==> v * eurRate.value == valueTry
    ensures !(eurRate.Some? && eurRate.value != 0.0) ==> v == 0.0
  {
    if eurRate.Some? && eurRate.value != 0.0 then valueTry / eurRate.value else 0.0
  }

  /** The `totals` object of the profit/loss report. */
  datatype PLReport = PLReport(holdings: seq<PLRow>, totalValueTry: real, totalCostTry: real,
                               totalProfitLossTry: real, totalValueEur: real)

  /**
   * `get_profit_loss`: lists every key with a positive replayed quantity,
   * with bought-minus-sold as its cost and its value at the latest price,
   * and totals them; the EUR total divides by the EUR/TRY rate when there
   * is a non-zero one.
   */
  method ProfitLoss(txs: seq<Transaction>, latest: Key -> Option<real>, eurRate: Option<real>) returns (report: PLReport)
    requires AllPriced(txs)
    ensures report.holdings == HeldRows(txs, FirstSeen(txs), latest)
    ensures forall k :: k in RowSymbols(report.holdings) <==> NetQty(txs, k) > 0.0
    ensures report.totalValueTry == SumValue(report.holdings)
    ensures report.totalCostTry == SumCost(report.holdings)
    ensures report.totalProfitLossTry == SumProfit(report.holdings)
    ensures report.totalValueEur == TotalValueEur(report.totalValueTry, eurRate)
  {
    var keys, quantity, buyTotal, sellTotal := AccumulateTrades(txs);
    var rows, totalValue, totalCost := ListHeld(txs, keys, quantity, buyTotal, sellTotal, latest);
    HeldRowsAreOpenPositions(txs, latest);
    HeldRowsProfit(txs, keys, latest);
    TotalProfitIsSumOfRows(rows);
    report := PLReport(rows, totalValue, totalCost, totalValue - totalCost, TotalValueEur(totalValue, eurRate));
  }

  /** Every listed entry's profit/loss is its value minus its cost. */
  lemma {:induction false} HeldRowsProfit(txs: seq<Transaction>, ks: seq<Key>, latest: Key -> Option<real>)
    requires AllPriced(txs)
    ensures forall r :: r in HeldRows(txs, ks, latest) ==> r.profitLoss == r.currentValue - r.cost
  {
    if ks != [] {
      HeldRowsProfit(txs, Init(ks), latest);
    }
  }
}
