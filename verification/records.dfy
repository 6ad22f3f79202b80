/**
 * The transaction record shared by the Flask and FastAPI halves of the
 * tracker, and the ledger queries the accounting functions run.
 */
module Records {
  import opened Wrappers

  /** A holdings key: the transaction's symbol column, which may be NULL. */
  type Key = Option<string>

  /**
   * One row of the `transactions` table. `kind` is the free-text `type`
   * column ("buy", "sell", "deposit", "withdrawal", "dividend", "split", ...),
   * `date` a day ordinal, `price` NULL when the row was stored without one.
   */
  datatype Transaction = Transaction(
    kind: string,
    symbol: Option<string>,
    quantity: real,
    price: Option<real>,
    date: int,
    currency: Option<string>,
    assetType: Option<string>)

  function Last<T>(s: seq<T>): T
    requires s != []
  {
    s[|s| - 1]
  }

  function Init<T>(s: seq<T>): seq<T>
    requires s != []
  {
    s[..|s| - 1]
  }

  lemma InitLast<T>(s: seq<T>)
    requires s != []
    ensures Init(s) + [Last(s)] == s
  {
  }

  /** The value of `quantity` shares at `price`. */
  function PositionValue(quantity: real, price: real): real
  {
    quantity * price
  }

  /** Buy, sell and split are the types that move a share count. */
  predicate MovesShares(tx: Transaction)
  {
    tx.kind == "buy" || tx.kind == "sell" || tx.kind == "split"
  }

  /** How a transaction changes its symbol's share count: buy and split add, sell subtracts. */
  function ShareDelta(tx: Transaction): (d: real)
    ensures !MovesShares(tx) ==> d == 0.0
    ensures tx.kind == "sell" ==> d == -tx.quantity
    ensures tx.kind == "buy" || tx.kind == "split" ==> d == tx.quantity
  {
    if tx.kind == "buy" then tx.quantity
    else if tx.kind == "sell" then -tx.quantity
    else if tx.kind == "split" then tx.quantity
    else 0.0
  }

  /** The ORDER BY date guarantee of a ledger query. */
  ghost predicate SortedByDate(txs: seq<Transaction>)
  {
    forall i, j :: 0 <= i < j < |txs| ==> txs[i].date <= txs[j].date
  }

  /** Every row carries a price, as the FastAPI schema requires of every write. */
  predicate AllPriced(txs: seq<Transaction>)
  {
    forall tx :: tx in txs ==> tx.price.Some?
  }

  /** Every buy, sell and split names its symbol. */
  predicate ShareMovesHaveSymbols(txs: seq<Transaction>)
  {
    forall tx :: tx in txs && MovesShares(tx) ==> tx.symbol.Some?
  }

  /** `WHERE symbol == sym`, keeping the query's order. */
  function ForSymbol(txs: seq<Transaction>, sym: string): (r: seq<Transaction>)
    ensures |r| <= |txs|
    ensures forall tx :: tx in r <==> tx in txs && tx.symbol == Some(sym)
  {
    if txs == [] then []
    else ForSymbol(Init(txs), sym) + (if Last(txs).symbol == Some(sym) then [Last(txs)] else [])
  }

  /** `WHERE date < day`, keeping the query's order. */
  function DatedBefore(txs: seq<Transaction>, day: int): (r: seq<Transaction>)
    ensures |r| <= |txs|
    ensures forall tx :: tx in r <==> tx in txs && tx.date < day
  {
    if txs == [] then []
    else DatedBefore(Init(txs), day) + (if Last(txs).date < day then [Last(txs)] else [])
  }

  /** `WHERE date <= day`, keeping the query's order. */
  function DatedThrough(txs: seq<Transaction>, day: int): (r: seq<Transaction>)
    ensures |r| <= |txs|
    ensures forall tx :: tx in r <==> tx in txs && tx.date <= day
  {
    if txs == [] then []
    else DatedThrough(Init(txs), day) + (if Last(txs).date <= day then [Last(txs)] else [])
  }

  lemma ForSymbolSnoc(txs: seq<Transaction>, tx: Transaction, sym: string)
    ensures ForSymbol(txs + [tx], sym) == ForSymbol(txs, sym) + (if tx.symbol == Some(sym) then [tx] else [])
  {
    assert Init(txs + [tx]) == txs && Last(txs + [tx]) == tx;
  }

  lemma DatedBeforeSnoc(txs: seq<Transaction>, tx: Transaction, day: int)
    ensures DatedBefore(txs + [tx], day) == DatedBefore(txs, day) + (if tx.date < day then [tx] else [])
  {
    assert Init(txs + [tx]) == txs && Last(txs + [tx]) == tx;
  }

  lemma DatedThroughSnoc(txs: seq<Transaction>, tx: Transaction, day: int)
    ensures DatedThrough(txs + [tx], day) == DatedThrough(txs, day) + (if tx.date <= day then [tx] else [])
  {
    assert Init(txs + [tx]) == txs && Last(txs + [tx]) == tx;
  }

  lemma AppendSnoc<T>(a: seq<T>, b: seq<T>, front: seq<T>, last: T)
    requires b != [] && front == Init(b) && last == Last(b)
    ensures b == front + [last] && a + b == (a + front) + [last]
  {
    assert b == front + [last];
  }

  lemma Regroup<T>(whole: seq<T>, x: seq<T>, y: seq<T>, k: seq<T>, yk: seq<T>)
    requires whole == (x + y) + k && yk == y + k
    ensures whole == x + yk
  {
  }

  /** `WHERE symbol = sym` keeps the query's order: filtering a concatenation filters each part in turn. */
  lemma {:induction false} ForSymbolAppend(a: seq<Transaction>, b: seq<Transaction>, sym: string)
    ensures ForSymbol(a + b, sym) == ForSymbol(a, sym) + ForSymbol(b, sym)
  {
    if b == [] {
      assert a + b == a;
    } else {
      var front, last := Init(b), Last(b);
      var kept := if last.symbol == Some(sym) then [last] else [];
      ForSymbolAppend(a, front, sym);
      AppendSnoc(a, b, front, last);
      ForSymbolSnoc(a + front, last, sym);
      ForSymbolSnoc(front, last, sym);
      Regroup(ForSymbol(a + b, sym), ForSymbol(a, sym), ForSymbol(front, sym), kept, ForSymbol(b, sym));
    }
  }

  /** `WHERE date < day` keeps the query's order. */
  lemma {:induction false} DatedBeforeAppend(a: seq<Transaction>, b: seq<Transaction>, day: int)
    ensures DatedBefore(a + b, day) == DatedBefore(a, day) + DatedBefore(b, day)
  {
    if b == [] {
      assert a + b == a;
    } else {
      var front, last := Init(b), Last(b);
      var kept := if last.date < day then [last] else [];
      DatedBeforeAppend(a, front, day);
      AppendSnoc(a, b, front, last);
      DatedBeforeSnoc(a + front, last, day);
      DatedBeforeSnoc(front, last, day);
      Regroup(DatedBefore(a + b, day), DatedBefore(a, day), DatedBefore(front, day), kept, DatedBefore(b, day));
    }
  }

  /** `WHERE date <= day` keeps the query's order. */
  lemma {:induction false} DatedThroughAppend(a: seq<Transaction>, b: seq<Transaction>, day: int)
    ensures DatedThrough(a + b, day) == DatedThrough(a, day) + DatedThrough(b, day)
  {
    if b == [] {
      assert a + b == a;
    } else {
      var front, last := Init(b), Last(b);
      var kept := if last.date <= day then [last] else [];
      DatedThroughAppend(a, front, day);
      AppendSnoc(a, b, front, last);
      DatedThroughSnoc(a + front, last, day);
      DatedThroughSnoc(front, last, day);
      Regroup(DatedThrough(a + b, day), DatedThrough(a, day), DatedThrough(front, day), kept, DatedThrough(b, day));
    }
  }

  /** In a date-ordered history every earlier row is dated no later than the last one. */
  lemma SortedInitBeforeLast(txs: seq<Transaction>)
    requires txs != [] && SortedByDate(txs)
    ensures SortedByDate(Init(txs))
    ensures forall t :: t in Init(txs) ==> t.date <= Last(txs).date
  {
    forall t | t in Init(txs)
      ensures t.date <= Last(txs).date
    {
      var i :| 0 <= i < |Init(txs)| && Init(txs)[i] == t;
      assert txs[i] == t;
    }
  }

  lemma SortedSnoc(txs: seq<Transaction>, tx: Transaction)
    requires SortedByDate(txs)
    requires forall t :: t in txs ==> t.date <= tx.date
    ensures SortedByDate(txs + [tx])
  {
    forall i, j | 0 <= i < j < |txs + [tx]|
      ensures (txs + [tx])[i].date <= (txs + [tx])[j].date
    {
      assert (txs + [tx])[i] == txs[i];
      if j == |txs| {
        assert txs[i] in txs;
      }
    }
  }

  /** Filtering a date-ordered history by symbol leaves it date-ordered. */
  lemma {:induction false} ForSymbolKeepsDateOrder(txs: seq<Transaction>, sym: string)
    requires SortedByDate(txs)
    ensures SortedByDate(ForSymbol(txs, sym))
  {
    if txs != [] {
      SortedInitBeforeLast(txs);
      ForSymbolKeepsDateOrder(Init(txs), sym);
      if Last(txs).symbol == Some(sym) {
        SortedSnoc(ForSymbol(Init(txs), sym), Last(txs));
      }
    }
  }

  /** The two WHERE clauses commute. */
  lemma {:induction false} ForSymbolDatedBeforeCommute(txs: seq<Transaction>, sym: string, day: int)
    ensures DatedBefore(ForSymbol(txs, sym), day) == ForSymbol(DatedBefore(txs, day), sym)
  {
    if txs != [] {
      var front, tx := Init(txs), Last(txs);
      ForSymbolDatedBeforeCommute(front, sym, day);
      var f := ForSymbol(front, sym);
      var b := DatedBefore(front, day);
      DatedBeforeSnoc(f, tx, day);
      ForSymbolSnoc(b, tx, sym);
      if tx.symbol == Some(sym) {
        assert ForSymbol(txs, sym) == f + [tx];
      } else {
        assert ForSymbol(txs, sym) == f;
        assert f + [] == f;
      }
      if tx.date < day {
        assert DatedBefore(txs, day) == b + [tx];
      } else {
        assert DatedBefore(txs, day) == b;
        assert b + [] == b;
      }
    }
  }
}
