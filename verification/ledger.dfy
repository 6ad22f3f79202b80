/**
 * Ledger replay: folding a date-ordered transaction list into per-symbol
 * share quantities, the loop every holdings function of the tracker runs
 * (buy and split add the quantity, sell subtracts it, other types are ignored).
 */
module Ledger {
  import opened Wrappers
  import opened Records

  /** Quantity of `key` after replaying `txs` in order. */
  function NetQty(txs: seq<Transaction>, key: Key): real
  {
    if txs == [] then 0.0
    else NetQty(Init(txs), key) + (if Last(txs).symbol == key then ShareDelta(Last(txs)) else 0.0)
  }

  /** Sum of the quantities of the `kind` transactions of `key`. */
  function KindTotal(txs: seq<Transaction>, key: Key, kind: string): real
  {
    if txs == [] then 0.0
    else KindTotal(Init(txs), key, kind)
         + (if Last(txs).symbol == key && Last(txs).kind == kind then Last(txs).quantity else 0.0)
  }

  /** The replayed quantity is total bought, minus total sold, plus total received in splits. */
  lemma {:induction false} NetQtyIsBuysMinusSellsPlusSplits(txs: seq<Transaction>, key: Key)
    ensures NetQty(txs, key) == KindTotal(txs, key, "buy") - KindTotal(txs, key, "sell") + KindTotal(txs, key, "split")
  {
    if txs != [] {
      NetQtyIsBuysMinusSellsPlusSplits(Init(txs), key);
    }
  }

  /** Some buy, sell or split of `txs` carries `key`: the replay creates an entry for it. */
  predicate Touched(txs: seq<Transaction>, key: Key)
  {
    exists tx :: tx in txs && MovesShares(tx) && tx.symbol == key
  }

  /** A key no buy, sell or split mentions keeps the defaultdict's 0.0. */
  lemma {:induction false} UntouchedIsZero(txs: seq<Transaction>, key: Key)
    requires !Touched(txs, key)
    ensures NetQty(txs, key) == 0.0
  {
    if txs != [] {
      assert forall tx :: tx in Init(txs) ==> tx in txs;
      UntouchedIsZero(Init(txs), key);
    }
  }

  /** Replaying a ledger extended by transactions of other symbols leaves `key` unchanged. */
  lemma {:induction false} NetQtyOtherSymbols(txs: seq<Transaction>, more: seq<Transaction>, key: Key)
    requires forall tx :: tx in more ==> tx.symbol != key
    ensures NetQty(txs + more, key) == NetQty(txs, key)
  {
    if more == [] {
      assert txs + more == txs;
    } else {
      assert Init(txs + more) == txs + Init(more);
      assert Last(txs + more) == Last(more) && Last(more) in more;
      assert forall tx :: tx in Init(more) ==> tx in more;
      NetQtyOtherSymbols(txs, Init(more), key);
    }
  }

  /** Restricting the ledger to one symbol does not change that symbol's replayed quantity. */
  lemma {:induction false} ForSymbolKeepsNetQty(txs: seq<Transaction>, sym: string)
    ensures NetQty(ForSymbol(txs, sym), Some(sym)) == NetQty(txs, Some(sym))
  {
    if txs != [] {
      ForSymbolKeepsNetQty(Init(txs), sym);
      var f := ForSymbol(Init(txs), sym);
      if Last(txs).symbol == Some(sym) {
        assert Init(f + [Last(txs)]) == f && Last(f + [Last(txs)]) == Last(txs);
      } else {
        assert ForSymbol(txs, sym) == f;
      }
    }
  }

  /** The keys of the replayed dictionary, in the order Python inserts them. */
  function FirstSeen(txs: seq<Transaction>): seq<Key>
  {
    if txs == [] then []
    else
      var seen := FirstSeen(Init(txs));
      if MovesShares(Last(txs)) && Last(txs).symbol !in seen then seen + [Last(txs).symbol] else seen
  }

  predicate Distinct<T(==)>(s: seq<T>)
  {
    forall i, j :: 0 <= i < j < |s| ==> s[i] != s[j]
  }

  /** The insertion order lists each touched key exactly once, and nothing else. */
  lemma {:induction false} FirstSeenIsTouchedKeys(txs: seq<Transaction>)
    ensures Distinct(FirstSeen(txs))
    ensures forall k :: k in FirstSeen(txs) <==> Touched(txs, k)
  {
    if txs != [] {
      FirstSeenIsTouchedKeys(Init(txs));
      assert txs == Init(txs) + [Last(txs)];
      forall k ensures Touched(txs, k) <==> Touched(Init(txs), k) || (MovesShares(Last(txs)) && Last(txs).symbol == k) {
        if Touched(txs, k) {
          var tx :| tx in txs && MovesShares(tx) && tx.symbol == k;
          if tx != Last(txs) { assert tx in Init(txs); }
        }
      }
    }
  }

  /** The holdings dictionary after replaying `txs`. */
  function Holdings(txs: seq<Transaction>): map<Key, real>
  {
    map k | k in FirstSeen(txs) :: NetQty(txs, k)
  }

  /** A defaultdict read: a missing key reads 0. */
  function Get(m: map<Key, real>, k: Key): real
  {
    if k in m then m[k] else 0.0
  }

  /** Applying the next transaction to the replayed keys and dictionary replays one more transaction. */
  lemma HoldingsStep(txs: seq<Transaction>, tx: Transaction, keys: seq<Key>, holdings: map<Key, real>)
    requires keys == FirstSeen(txs) && holdings == Holdings(txs)
    ensures FirstSeen(txs + [tx]) == if MovesShares(tx) && tx.symbol !in holdings then keys + [tx.symbol] else keys
    ensures Holdings(txs + [tx]) == if MovesShares(tx) then holdings[tx.symbol := Get(holdings, tx.symbol) + ShareDelta(tx)] else holdings
  {
    var txs' := txs + [tx];
    ReplaySnoc(txs, tx);
    var h' := if MovesShares(tx) then holdings[tx.symbol := Get(holdings, tx.symbol) + ShareDelta(tx)] else holdings;
    assert h'.Keys == Holdings(txs').Keys;
    forall k | k in h'
      ensures h'[k] == Holdings(txs')[k]
    {
      HoldingsValueStep(txs, tx, holdings, k);
    }
  }

  /** The replayed count of one key after one more transaction. */
  lemma HoldingsValueStep(txs: seq<Transaction>, tx: Transaction, holdings: map<Key, real>, k: Key)
    requires holdings == Holdings(txs)
    ensures NetQty(txs + [tx], k) == (if tx.symbol == k then Get(holdings, k) + ShareDelta(tx) else NetQty(txs, k))
  {
    ReplaySnoc(txs, tx);
    if tx.symbol == k && k !in holdings {
      FirstSeenIsTouchedKeys(txs);
      UntouchedIsZero(txs, k);
    }
  }

  lemma ReplaySnoc(txs: seq<Transaction>, tx: Transaction)
    ensures FirstSeen(txs + [tx]) == if MovesShares(tx) && tx.symbol !in FirstSeen(txs) then FirstSeen(txs) + [tx.symbol] else FirstSeen(txs)
    ensures forall k :: NetQty(txs + [tx], k) == NetQty(txs, k) + (if tx.symbol == k then ShareDelta(tx) else 0.0)
  {
    assert Init(txs + [tx]) == txs && Last(txs + [tx]) == tx;
  }

  /**
   * The accumulation loop `for tx in transactions: holdings[tx.symbol] +=/-= tx.quantity`
   * over a defaultdict(float): returns the keys in insertion order and the dictionary.
   */
  method Replay(txs: seq<Transaction>) returns (keys: seq<Key>, holdings: map<Key, real>)
    ensures keys == FirstSeen(txs)
    ensures holdings.Keys == set k | k in keys
    ensures forall k :: k in holdings ==> holdings[k] == NetQty(txs, k)
  {
    keys, holdings := [], map[];
    assert Holdings([]) == map[];
    var i := 0;
    while i < |txs|
      invariant 0 <= i <= |txs|
      invariant keys == FirstSeen(txs[..i]) && holdings == Holdings(txs[..i])
    {
      var tx := txs[i];
      assert txs[..i + 1] == txs[..i] + [tx];
      HoldingsStep(txs[..i], tx, keys, holdings);
      if tx.kind == "buy" || tx.kind == "sell" || tx.kind == "split" {
        if tx.symbol !in holdings {
          keys := keys + [tx.symbol];
        }
        // a defaultdict reads a missing key as 0.0
        if tx.kind == "buy" {
          holdings := holdings[tx.symbol := Get(holdings, tx.symbol) + tx.quantity];
        } else if tx.kind == "sell" {
          holdings := holdings[tx.symbol := Get(holdings, tx.symbol) - tx.quantity];
        } else {
          holdings := holdings[tx.symbol := Get(holdings, tx.symbol) + tx.quantity];
        }
      }
      i := i + 1;
    }
    assert txs[..i] == txs;
    assert holdings.Keys == set k | k in keys;
  }
}
