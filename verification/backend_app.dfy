/**
 * The Flask backend's `calculate_totals`: a holdings map that remembers
 * each symbol's asset type and currency, the native and TRY value of every
 * positive holding, its profit/loss against a cost basis, and the
 * portfolio's TRY, USD and EUR totals.
 */
module BackendApp {
  import opened Wrappers
  import opened Records
  import opened Ledger

  /** `value or default`: NULL and the empty string are both falsy. */
  function OrDefault(s: Option<string>, default: string): (r: string)
    ensures s.Some? && s.value != "" ==> r == s.value
    ensures !(s.Some? && s.value != "") ==> r == default
  {
    if s.Some? && s.value != "" then s.value else default
  }

  /** `fetch() or 0`: a missing rate is 0. */
  function RateOrZero(rate: Option<real>): (r: real)
    ensures rate.Some? ==> r == rate.value
    ensures rate.None? ==> r == 0.0
  {
    rate.GetOr(0.0)
  }

  /** An entry's metadata: asset type and currency. */
  datatype Meta = Meta(assetType: string, currency: string)

  function MetaOf(tx: Transaction): Meta
  {
    Meta(OrDefault(tx.assetType, "STOCK"), OrDefault(tx.currency, "TRY"))
  }

  /** The metadata the first buy, sell or split of `k` records; later rows never change it. */
  function FirstMeta(txs: seq<Transaction>, k: Key): Option<Meta>
  {
    if txs == [] then None
    else if FirstMeta(Init(txs), k).Some? then FirstMeta(Init(txs), k)
    else if MovesShares(Last(txs)) && Last(txs).symbol == k then Some(MetaOf(Last(txs)))
    else None
  }

  lemma TouchedSnoc(txs: seq<Transaction>, k: Key)
    requires txs != []
    ensures Touched(txs, k) <==> Touched(Init(txs), k) || (MovesShares(Last(txs)) && Last(txs).symbol == k)
  {
    assert txs == Init(txs) + [Last(txs)];
    assert forall t :: t in txs ==> t in Init(txs) || t == Last(txs);
  }

  /** A first move of `k` among the earlier rows stays the first once a row is appended. */
  lemma FirstMoveExtends(txs: seq<Transaction>, k: Key, i: nat)
    requires txs != [] && i < |Init(txs)|
    requires MovesShares(Init(txs)[i]) && Init(txs)[i].symbol == k
    requires forall j :: 0 <= j < i ==> !(MovesShares(Init(txs)[j]) && Init(txs)[j].symbol == k)
    ensures txs[i] == Init(txs)[i]
    ensures forall j :: 0 <= j < i ==> !(MovesShares(txs[j]) && txs[j].symbol == k)
  {
    assert forall j :: 0 <= j < i ==> txs[j] == Init(txs)[j];
  }

  /** With no earlier move of `k`, the last row is its first. */
  lemma FirstMoveAtEnd(txs: seq<Transaction>, k: Key)
    requires txs != [] && !Touched(Init(txs), k)
    ensures forall j :: 0 <= j < |txs| - 1 ==> !(MovesShares(txs[j]) && txs[j].symbol == k)
  {
    forall j | 0 <= j < |txs| - 1
      ensures !(MovesShares(txs[j]) && txs[j].symbol == k)
    {
      assert txs[j] == Init(txs)[j];
      assert txs[j] in Init(txs);
    }
  }

  /** A key has metadata exactly when some buy, sell or split names it, and it is that of the first one. */
  lemma {:induction false} FirstMetaIsFirstMove(txs: seq<Transaction>, k: Key)
    ensures FirstMeta(txs, k).Some? <==> Touched(txs, k)
    ensures FirstMeta(txs, k).Some? ==>
      exists i :: 0 <= i < |txs| && MovesShares(txs[i]) && txs[i].symbol == k && FirstMeta(txs, k).value == MetaOf(txs[i])
        && forall j :: 0 <= j < i ==> !(MovesShares(txs[j]) && txs[j].symbol == k)
  {
    if txs != [] {
      FirstMetaIsFirstMove(Init(txs), k);
      TouchedSnoc(txs, k);
      if FirstMeta(Init(txs), k).Some? {
        var i :| 0 <= i < |Init(txs)| && MovesShares(Init(txs)[i]) && Init(txs)[i].symbol == k
          && FirstMeta(Init(txs), k).value == MetaOf(Init(txs)[i])
          && forall j :: 0 <= j < i ==> !(MovesShares(Init(txs)[j]) && Init(txs)[j].symbol == k);
        FirstMoveExtends(txs, k, i);
      } else if MovesShares(Last(txs)) && Last(txs).symbol == k {
        FirstMoveAtEnd(txs, k);
        assert txs[|txs| - 1] == Last(txs);
      }
    }
  }

  /** Metadata once recorded is kept whatever follows. */
  lemma {:induction false} FirstMetaIsStable(txs: seq<Transaction>, more: seq<Transaction>, k: Key)
    requires FirstMeta(txs, k).Some?
    ensures FirstMeta(txs + more, k) == FirstMeta(txs, k)
  {
    if more == [] {
      assert txs + more == txs;
    } else {
      assert Init(txs + more) == txs + Init(more);
      FirstMetaIsStable(txs, Init(more), k);
    }
  }

  /** Native value converted to TRY by the entry's currency; any other currency is taken as TRY. */
  function ToTry(native: real, currency: string, usdRate: real, eurRate: real): (v: real)
    ensures currency == "USD" ==> v == PositionValue(native, usdRate)
    ensures currency == "EUR" ==> v == PositionValue(native, eurRate)
    ensures currency != "USD" && currency != "EUR" ==> v == native
  {
    if currency == "USD" then PositionValue(native, usdRate)
    else if currency == "EUR" then PositionValue(native, eurRate)
    else native
  }

  /** `profit_loss / cost_basis * 100` with a positive cost basis, otherwise 0. */
  function ProfitPercent(profitLoss: real, costBasis: real): (p: real)
    ensures costBasis > 0.0 ==> p * costBasis == profitLoss * 100.0
    ensures costBasis <= 0.0 ==> p == 0.0
  {
    if costBasis > 0.0 then profitLoss / costBasis * 100.0 else 0.0
  }

  /** `total / rate` with a positive rate, otherwise 0. */
  function PerRate(total: real, rate: real): (v: real)
    ensures rate > 0.0 ==> v * rate == total
    ensures rate <= 0.0 ==> v == 0.0
  {
    if rate > 0.0 then total / rate else 0.0
  }

  /** One entry of `holdings_list`. */
  datatype HoldingEntry = HoldingEntry(symbol: Key, qty: real, price: real, valueNative: real, valueTry: real,
                                       currency: string, pl: real, plPct: real)

  /**
   * The market inputs `calculate_totals` fetches: the EUR/TRY and USD/TRY
   * rates, the latest price of a symbol of a given asset type and currency,
   * and the FIFO cost basis of a quantity of a symbol.
   */
  datatype Market = Market(
    eurRate: Option<real>,
    usdRate: Option<real>,
    latestPrice: (Key, string, string) -> Option<real>,
    costBasis: (Key, real) -> real)

  /** The entry of `k`, given its quantity and metadata. */
  function EntryOf(k: Key, qty: real, meta: Meta, market: Market): HoldingEntry
  {
    var price := market.latestPrice(k, meta.assetType, meta.currency).GetOr(0.0);
    var native := PositionValue(qty, price);
    var valueTry := ToTry(native, meta.currency, RateOrZero(market.usdRate), RateOrZero(market.eurRate));
    var cb := market.costBasis(k, qty);
    HoldingEntry(k, qty, price, native, valueTry, meta.currency, native - cb, ProfitPercent(native - cb, cb))
  }

  /** The entries of the keys of `ks` whose replayed quantity is positive, in the order of `ks`. */
  function Entries(txs: seq<Transaction>, ks: seq<Key>, market: Market): seq<HoldingEntry>
  {
    if ks == [] then []
    else
      var k := Last(ks);
      Entries(txs, Init(ks), market)
      + (if NetQty(txs, k) > 0.0 && FirstMeta(txs, k).Some? then [EntryOf(k, NetQty(txs, k), FirstMeta(txs, k).value, market)] else [])
  }

  function EntrySymbols(es: seq<HoldingEntry>): seq<Key>
  {
    if es == [] then [] else EntrySymbols(Init(es)) + [Last(es).symbol]
  }

  function TotalTry(es: seq<HoldingEntry>): real
  {
    if es == [] then 0.0 else TotalTry(Init(es)) + Last(es).valueTry
  }

  /** The entries listed are the keys of `ks` with a positive quantity and metadata, each with that quantity. */
  lemma {:induction false} EntriesListPositiveKeys(txs: seq<Transaction>, ks: seq<Key>, market: Market)
    ensures forall k :: k in EntrySymbols(Entries(txs, ks, market)) <==> k in ks && NetQty(txs, k) > 0.0 && FirstMeta(txs, k).Some?
    ensures forall e :: e in Entries(txs, ks, market) ==> e.qty == NetQty(txs, e.symbol) > 0.0
  {
    if ks != [] {
      EntriesListPositiveKeys(txs, Init(ks), market);
      var es := Entries(txs, Init(ks), market);
      var k := Last(ks);
      assert ks == Init(ks) + [k];
      if NetQty(txs, k) > 0.0 && FirstMeta(txs, k).Some? {
        var e := EntryOf(k, NetQty(txs, k), FirstMeta(txs, k).value, market);
        assert Entries(txs, ks, market) == es + [e];
        assert Init(es + [e]) == es && Last(es + [e]) == e;
      } else {
        assert Entries(txs, ks, market) == es;
      }
    }
  }

  /** Over the map's keys, a symbol is listed exactly when its replayed quantity is positive. */
  lemma EntriesAreOpenPositions(txs: seq<Transaction>, market: Market)
    ensures forall k :: k in EntrySymbols(Entries(txs, FirstSeen(txs), market)) <==> NetQty(txs, k) > 0.0
  {
    EntriesListPositiveKeys(txs, FirstSeen(txs), market);
    FirstSeenIsTouchedKeys(txs);
    forall k
      ensures FirstMeta(txs, k).Some? <==> Touched(txs, k)
      ensures NetQty(txs, k) > 0.0 ==> Touched(txs, k)
    {
      FirstMetaIsFirstMove(txs, k);
      if !Touched(txs, k) {
        UntouchedIsZero(txs, k);
      }
    }
  }

  /** The returned totals, without rounding. */
  datatype Totals = Totals(valueTry: real, valueUsd: real, valueEur: real, holdings: seq<HoldingEntry>)

  /** The metadata map after one more transaction: a key seen for the first time records that transaction's. */
  lemma MetaStep(txs: seq<Transaction>, tx: Transaction, qty: map<Key, real>, meta: map<Key, Meta>)
    requires qty == Holdings(txs)
    requires forall k :: k in meta <==> k in qty
    requires forall k :: k in meta ==> FirstMeta(txs, k) == Some(meta[k])
    ensures var meta' := if MovesShares(tx) && tx.symbol !in qty then meta[tx.symbol := MetaOf(tx)] else meta;
      && (forall k :: k in meta' <==> k in Holdings(txs + [tx]))
      && (forall k :: k in meta' ==> FirstMeta(txs + [tx], k) == Some(meta'[k]))
  {
    var txs' := txs + [tx];
    assert Init(txs') == txs && Last(txs') == tx;
    FirstSeenIsTouchedKeys(txs);
    FirstSeenIsTouchedKeys(txs');
    forall k | k in meta
      ensures FirstMeta(txs', k) == Some(meta[k])
    {
      FirstMetaIsStable(txs, [tx], k);
    }
    if MovesShares(tx) && tx.symbol !in qty {
      FirstMetaIsFirstMove(txs, tx.symbol);
    }
  }

  /** The first loop's body: a buy, sell or split creates its key's entry if needed and moves its quantity. */
  method AddToMap(keys: seq<Key>, qty: map<Key, real>, meta: map<Key, Meta>, tx: Transaction)
    returns (keys': seq<Key>, qty': map<Key, real>, meta': map<Key, Meta>)
    ensures keys' == if MovesShares(tx) && tx.symbol !in qty then keys + [tx.symbol] else keys
    ensures qty' == if MovesShares(tx) then qty[tx.symbol := Get(qty, tx.symbol) + ShareDelta(tx)] else qty
    ensures meta' == if MovesShares(tx) && tx.symbol !in qty then meta[tx.symbol := MetaOf(tx)] else meta
  {
    keys', qty', meta' := keys, qty, meta;
    if tx.kind == "buy" || tx.kind == "sell" || tx.kind == "split" {
      if tx.symbol !in qty {
        keys' := keys + [tx.symbol];
        qty' := qty[tx.symbol := 0.0];
        meta' := meta[tx.symbol := MetaOf(tx)];
      }
      if tx.kind == "buy" {
        qty' := qty'[tx.symbol := qty'[tx.symbol] + tx.quantity];
      } else if tx.kind == "sell" {
        qty' := qty'[tx.symbol := qty'[tx.symbol] - tx.quantity];
      } else {
        qty' := qty'[tx.symbol := qty'[tx.symbol] + tx.quantity];
      }
    }
  }

  /** The first loop: the holdings map with each key's quantity and first metadata. */
  method BuildHoldingsMap(txs: seq<Transaction>) returns (keys: seq<Key>, qty: map<Key, real>, meta: map<Key, Meta>)
    ensures keys == FirstSeen(txs) && qty == Holdings(txs)
    ensures forall k :: k in meta <==> k in qty
    ensures forall k :: k in meta ==> FirstMeta(txs, k) == Some(meta[k])
  {
    keys, qty, meta := [], map[], map[];
    assert Holdings([]) == map[];
    for i := 0 to |txs|
      invariant keys == FirstSeen(txs[..i]) && qty == Holdings(txs[..i])
      invariant forall k :: k in meta <==> k in qty
      invariant forall k :: k in meta ==> FirstMeta(txs[..i], k) == Some(meta[k])
    {
      var tx := txs[i];
      assert txs[..i + 1] == txs[..i] + [tx];
      HoldingsStep(txs[..i], tx, keys, qty);
      MetaStep(txs[..i], tx, qty, meta);
      keys, qty, meta := AddToMap(keys, qty, meta, tx);
    }
    assert txs[..|txs|] == txs;
  }

  /** The second loop: an entry for every positive quantity, and the running TRY total. */
  method ListEntries(txs: seq<Transaction>, keys: seq<Key>, qty: map<Key, real>, meta: map<Key, Meta>, market: Market)
    returns (entries: seq<HoldingEntry>, totalTry: real)
    requires keys == FirstSeen(txs) && qty == Holdings(txs)
    requires forall k :: k in meta <==> k in qty
    requires forall k :: k in meta ==> FirstMeta(txs, k) == Some(meta[k])
    ensures entries == Entries(txs, keys, market) && totalTry == TotalTry(entries)
  {
    entries, totalTry := [], 0.0;
    for i := 0 to |keys|
      invariant entries == Entries(txs, keys[..i], market) && totalTry == TotalTry(entries)
    {
      EntriesStep(txs, keys, qty, meta, market, i);
      var symbol := keys[i];
      var quantity := qty[symbol];
      if quantity > 0.0 {
        var entry := EntryOf(symbol, quantity, meta[symbol], market);
        TotalTrySnoc(entries, entry);
        entries := entries + [entry];
        totalTry := totalTry + entry.valueTry;
      }
    }
    assert keys[..|keys|] == keys;
  }

  /** One more key of the map: an entry exactly when its quantity is positive, with its recorded metadata. */
  lemma EntriesStep(txs: seq<Transaction>, keys: seq<Key>, qty: map<Key, real>, meta: map<Key, Meta>, market: Market, i: nat)
    requires keys == FirstSeen(txs) && qty == Holdings(txs)
    requires forall k :: k in meta <==> k in qty
    requires forall k :: k in meta ==> FirstMeta(txs, k) == Some(meta[k])
    requires i < |keys|
    ensures keys[i] in qty && keys[i] in meta
    ensures Entries(txs, keys[..i + 1], market) == Entries(txs, keys[..i], market)
      + (if qty[keys[i]] > 0.0 then [EntryOf(keys[i], qty[keys[i]], meta[keys[i]], market)] else [])
  {
    var k := keys[i];
    assert k in FirstSeen(txs);
    assert qty[k] == NetQty(txs, k);
    assert Init(keys[..i + 1]) == keys[..i] && Last(keys[..i + 1]) == k;
  }

  lemma TotalTrySnoc(es: seq<HoldingEntry>, e: HoldingEntry)
    ensures TotalTry(es + [e]) == TotalTry(es) + e.valueTry
  {
    assert Init(es + [e]) == es && Last(es + [e]) == e;
  }

  /**
   * `calculate_totals`: lists every symbol with a positive quantity, valued
   * at its latest price in its own currency and in TRY, with profit/loss
   * against its cost basis, and converts the TRY total to USD and EUR.
   */
  method CalculateTotals(txs: seq<Transaction>, market: Market) returns (t: Totals)
    ensures t.holdings == Entries(txs, FirstSeen(txs), market)
    ensures forall k :: k in EntrySymbols(t.holdings) <==> NetQty(txs, k) > 0.0
    ensures t.valueTry == TotalTry(t.holdings)
    ensures t.valueUsd == PerRate(t.valueTry, RateOrZero(market.usdRate))
    ensures t.valueEur == PerRate(t.valueTry, RateOrZero(market.eurRate))
  {
    var keys, qty, meta := BuildHoldingsMap(txs);
    var entries, totalTry := ListEntries(txs, keys, qty, meta, market);
    EntriesAreOpenPositions(txs, market);
    var eurRate := RateOrZero(market.eurRate);
    var usdRate := RateOrZero(market.usdRate);
    t := Totals(totalTry, PerRate(totalTry, usdRate), PerRate(totalTry, eurRate), entries);
  }
}
