/**
 * CSV import and spreadsheet summaries of the FastAPI backend: validating
 * one CSV row into a transaction, the EUR value stored with it, the row
 * accounting of an import, and the per-type summary and current-holdings
 * sheets of an export.
 */
module DataImportExport {
  import opened Wrappers
  import opened Text
  import opened Records
  import opened Ledger

  // ---------------------------------------------------------------------------
  // Parsing one row
  // ---------------------------------------------------------------------------

  /** A numeric CSV cell: empty (NaN), a number `float()` accepts, or text it refuses. */
  datatype Cell = Blank | Number(value: real) | Unparsable

  /**
   * One CSV row as pandas hands it over. `date` is None when the cell is
   * empty or `pd.to_datetime` refuses it. `symbolColumn` says whether the
   * file has a `symbol` column at all; `symbol` is the cell, None when it is
   * empty. `note` is None for an empty cell and `Some("")` when the column is
   * absent, which is what `row.get('note', '')` reads.
   */
  datatype Row = Row(
    date: Option<int>, kind: string, symbolColumn: bool, symbol: Option<string>,
    quantity: Cell, price: Cell, note: Option<string>)

  /** A validated row, ready to be stored. */
  datatype ParsedTx = ParsedTx(date: int, kind: string, symbol: Option<string>, quantity: real, price: real, note: Option<string>)

  /** The ValueError a row can raise, in the order the checks run. */
  datatype Fault =
    | InvalidDate
    | InvalidType(kind: string)
    | MissingSymbolColumn  // `row['symbol']` raises KeyError once `row.get` has read ''
    | InvalidQuantity
    | InvalidPrice
    | SymbolRequired
    | TradeNotPositive
    | AmountNotPositive

  datatype ParseResult = Accepted(tx: ParsedTx) | Rejected(fault: Fault)

  const ValidTypes: seq<string> := ["buy", "sell", "deposit", "withdrawal", "dividend", "capital_increase", "split"]

  /** `str(row['type']).lower().strip()`. */
  function NormalType(kind: string): string
  {
    Strip(Lower(kind))
  }

  /** `str(row['symbol']).upper().strip()`, with an empty result as None. */
  function NormalSymbol(symbol: Option<string>): (r: Option<string>)
    ensures r.Some? ==> symbol.Some? && r.value == Strip(Upper(symbol.value)) && r.value != ""
    ensures r.None? ==> symbol.None? || Strip(Upper(symbol.value)) == ""
  {
    if symbol.None? then None
    else
      var s := Strip(Upper(symbol.value));
      if |s| == 0 then None else Some(s)
  }

  /** A blank numeric cell reads 0. */
  function CellOrZero(c: Cell): real
    requires !c.Unparsable?
  {
    if c.Number? then c.value else 0.0
  }

  /** The business rules the parsed fields must meet. */
  predicate RulesHold(kind: string, symbol: Option<string>, quantity: real, price: real)
  {
    && (kind in {"buy", "sell"} ==> symbol.Some? && quantity > 0.0 && price > 0.0)
    && (kind in {"deposit", "withdrawal"} ==> quantity > 0.0)
  }

  /** The date parses and the type is one of the seven. */
  predicate HeaderParses(row: Row)
  {
    row.date.Some? && NormalType(row.kind) in ValidTypes
  }

  /** Every cell converts: the header, the symbol lookup and both numbers. */
  predicate CellsParse(row: Row)
  {
    HeaderParses(row) && row.symbolColumn && !row.quantity.Unparsable? && !row.price.Unparsable?
  }

  /** The business rules, over the converted cells. */
  predicate RowRulesHold(row: Row)
    requires CellsParse(row)
  {
    RulesHold(NormalType(row.kind), NormalSymbol(row.symbol), CellOrZero(row.quantity), CellOrZero(row.price))
  }

  /**
   * `_parse_transaction_row`: normalises the cells and raises on the first
   * check a row fails, in the order date, type, symbol lookup, quantity,
   * price, symbol required, positive trade, positive amount.
   */
  function ParseRow(row: Row): (r: ParseResult)
    ensures r.Accepted? <==> CellsParse(row) && RowRulesHold(row)
    ensures r.Accepted? ==>
      && r.tx.date == row.date.value && r.tx.kind == NormalType(row.kind) && r.tx.symbol == NormalSymbol(row.symbol)
      && r.tx.quantity == CellOrZero(row.quantity) && r.tx.price == CellOrZero(row.price)
      && r.tx.note == (if row.note == Some("") then None else row.note)
    ensures r == Rejected(InvalidDate) <==> row.date.None?
    ensures r == Rejected(InvalidType(NormalType(row.kind))) <==> row.date.Some? && NormalType(row.kind) !in ValidTypes
    ensures r == Rejected(MissingSymbolColumn) <==> HeaderParses(row) && !row.symbolColumn
    ensures r == Rejected(InvalidQuantity) <==> HeaderParses(row) && row.symbolColumn && row.quantity.Unparsable?
    ensures r == Rejected(InvalidPrice) <==>
      HeaderParses(row) && row.symbolColumn && !row.quantity.Unparsable? && row.price.Unparsable?
    ensures r == Rejected(SymbolRequired) <==>
      CellsParse(row) && NormalType(row.kind) in {"buy", "sell"} && NormalSymbol(row.symbol).None?
    ensures r == Rejected(TradeNotPositive) <==>
      && CellsParse(row) && NormalType(row.kind) in {"buy", "sell"} && NormalSymbol(row.symbol).Some?
      && (CellOrZero(row.quantity) <= 0.0 || CellOrZero(row.price) <= 0.0)
    ensures r == Rejected(AmountNotPositive) <==>
      CellsParse(row) && NormalType(row.kind) in {"deposit", "withdrawal"} && CellOrZero(row.quantity) <= 0.0
  {
    if row.date.None? then Rejected(InvalidDate)
    else
      var kind := NormalType(row.kind);
      if kind !in ValidTypes then Rejected(InvalidType(kind))
      else if !row.symbolColumn then Rejected(MissingSymbolColumn)
      else
        var symbol := NormalSymbol(row.symbol);
        if row.quantity.Unparsable? then Rejected(InvalidQuantity)
        else if row.price.Unparsable? then Rejected(InvalidPrice)
        else
          var quantity := CellOrZero(row.quantity);
          var price := CellOrZero(row.price);
          var note := if row.note == Some("") then None else row.note;
          if kind in {"buy", "sell"} && symbol.None? then Rejected(SymbolRequired)
          else if kind in {"buy", "sell"} && (quantity <= 0.0 || price <= 0.0) then Rejected(TradeNotPositive)
          else if kind in {"deposit", "withdrawal"} && quantity <= 0.0 then Rejected(AmountNotPositive)
          else Accepted(ParsedTx(row.date.value, kind, symbol, quantity, price, note))
  }

  /** Without a `symbol` column no row imports: each one raises KeyError 'symbol' or an earlier fault. */
  lemma NoSymbolColumnRejectsEveryRow(row: Row)
    requires !row.symbolColumn
    ensures ParseRow(row).Rejected?
    ensures ParseRow(row).fault in {InvalidDate, InvalidType(NormalType(row.kind)), MissingSymbolColumn}
  {
  }

  // ---------------------------------------------------------------------------
  // The EUR value stored with an imported row
  // ---------------------------------------------------------------------------

  /** A parsed row as stored: with the day's EUR/TRY rate and its EUR value. */
  datatype StoredTx = StoredTx(tx: ParsedTx, exchangeRate: Option<real>, valueEur: Option<real>)

  /** `exchange_rate and price and quantity`: each must be present and non-zero. */
  predicate AllTruthy(rate: Option<real>, tx: ParsedTx)
  {
    rate.Some? && rate.value != 0.0 && tx.price != 0.0 && tx.quantity != 0.0
  }

  /** The EUR value: notional over the rate for a trade, the price over the rate for a dividend, else none. */
  function ValueEur(tx: ParsedTx, rate: Option<real>): (v: Option<real>)
    ensures v.Some? <==> AllTruthy(rate, tx) && tx.kind in {"buy", "sell", "dividend"}
    ensures v.Some? && tx.kind in {"buy", "sell"} ==> v.value * rate.value == PositionValue(tx.price, tx.quantity)
    ensures v.Some? && tx.kind == "dividend" ==> v.value * rate.value == tx.price
  {
    if AllTruthy(rate, tx) then
      if tx.kind in {"buy", "sell"} then Some(PositionValue(tx.price, tx.quantity) / rate.value)
      else if tx.kind == "dividend" then Some(tx.price / rate.value)
      else None
    else None
  }

  /** `_create_transaction_with_exchange_rate`, with the day's rate looked up by `rateOn`. */
  function Store(tx: ParsedTx, rateOn: int -> Option<real>): StoredTx
  {
    StoredTx(tx, rateOn(tx.date), ValueEur(tx, rateOn(tx.date)))
  }

  lemma PositiveProduct(a: real, b: real)
    requires a > 0.0 && b > 0.0
    ensures PositionValue(a, b) > 0.0
  {
  }

  lemma PositiveFactor(v: real, rate: real)
    requires rate > 0.0 && v * rate > 0.0
    ensures v > 0.0
  {
    if v <= 0.0 {
      NonPositiveProduct(v, rate);
    }
  }

  lemma NonPositiveProduct(v: real, rate: real)
    requires v <= 0.0 && rate > 0.0
    ensures v * rate <= 0.0
  {
  }

  /** A buy or sell that passes validation has a positive EUR value whenever the day's rate is positive. */
  lemma ValidTradeHasPositiveEurValue(tx: ParsedTx, rate: real)
    requires tx.kind in {"buy", "sell"} && RulesHold(tx.kind, tx.symbol, tx.quantity, tx.price) && rate > 0.0
    ensures ValueEur(tx, Some(rate)).Some?
    ensures ValueEur(tx, Some(rate)).value > 0.0
  {
    PositiveProduct(tx.price, tx.quantity);
    PositiveFactor(ValueEur(tx, Some(rate)).value, rate);
  }

  /** A dividend recorded with quantity 0, as the event endpoint records them, gets no EUR value. */
  lemma ZeroQuantityDividendHasNoEurValue(tx: ParsedTx, rate: Option<real>)
    requires tx.kind == "dividend" && tx.quantity == 0.0
    ensures ValueEur(tx, rate).None?
  {
  }

  // ---------------------------------------------------------------------------
  // Import row accounting
  // ---------------------------------------------------------------------------

  /** The `errors` entry "Row {index + 2}: ...": the spreadsheet row number and the fault. */
  datatype RowError = RowError(rowNumber: int, fault: Fault)

  datatype ImportResult =
    | MissingColumns(missing: seq<string>)
    | Imported(importedCount: nat, errors: seq<RowError>, stored: seq<StoredTx>)

  const RequiredColumns: seq<string> := ["date", "type", "quantity", "price"]

  /** The required columns the header lacks, in the required order. */
  function Missing(columns: seq<string>, required: seq<string>): (m: seq<string>)
    ensures forall c :: c in m <==> c in required && c !in columns
  {
    if required == [] then []
    else Missing(columns, Init(required)) + (if Last(required) in columns then [] else [Last(required)])
  }

  /** The stored transactions of the accepted rows, in row order. */
  function StoredOf(rows: seq<Row>, rateOn: int -> Option<real>): seq<StoredTx>
  {
    if rows == [] then []
    else
      StoredOf(Init(rows), rateOn)
      + (match ParseRow(Last(rows)) case Accepted(tx) => [Store(tx, rateOn)] case Rejected(_) => [])
  }

  /** The errors of the rejected rows, in row order; row `i` of the frame is spreadsheet row `i + 2`. */
  function ErrorsOf(rows: seq<Row>): seq<RowError>
  {
    if rows == [] then []
    else
      ErrorsOf(Init(rows))
      + RowErrors(Last(rows), |rows| + 1)
  }

  /** The report of one row under spreadsheet row `number`: its fault if it raises, nothing if it parses. */
  function RowErrors(row: Row, number: int): (es: seq<RowError>)
    ensures |es| <= 1 && forall e :: e in es ==> e.rowNumber == number
  {
    var parsed := ParseRow(row);
    if parsed.Accepted? then [] else OneError(number, parsed.fault)
  }

  function OneError(number: int, f: Fault): (es: seq<RowError>)
    ensures |es| == 1 && forall e :: e in es ==> e.rowNumber == number
  {
    [RowError(number, f)]
  }

  /** Every row is either imported or reported, never both and never neither. */
  lemma {:induction false} RowsAccountedFor(rows: seq<Row>, rateOn: int -> Option<real>)
    ensures |StoredOf(rows, rateOn)| + |ErrorsOf(rows)| == |rows|
  {
    if rows != [] {
      RowsAccountedFor(Init(rows), rateOn);
    }
  }

  /** The reported row numbers rise strictly and name rows of the file: 2 is its first data row. */
  lemma {:induction false} ErrorRowNumbers(rows: seq<Row>)
    ensures forall i :: 0 <= i < |ErrorsOf(rows)| ==> 2 <= ErrorsOf(rows)[i].rowNumber <= |rows| + 1
    ensures forall i, j :: 0 <= i < j < |ErrorsOf(rows)| ==> ErrorsOf(rows)[i].rowNumber < ErrorsOf(rows)[j].rowNumber
  {
    if rows != [] {
      ErrorRowNumbers(Init(rows));
    }
  }

  /** A row that raises is reported under its own number; a row that parses is not reported. */
  lemma {:induction false} ErrorNamesRejectedRow(rows: seq<Row>, i: nat)
    requires i < |rows|
    ensures ParseRow(rows[i]).Rejected? ==> RowError(i + 2, ParseRow(rows[i]).fault) in ErrorsOf(rows)
    ensures ParseRow(rows[i]).Accepted? ==> forall e :: e in ErrorsOf(rows) ==> e.rowNumber != i + 2
  {
    var init := Init(rows);
    ErrorRowNumbers(init);
    var last := RowErrors(Last(rows), |rows| + 1);
    assert ErrorsOf(rows) == ErrorsOf(init) + last;
    if i < |rows| - 1 {
      ErrorNamesRejectedRow(init, i);
      assert rows[i] == init[i];
    } else {
      assert forall e :: e in ErrorsOf(init) ==> e.rowNumber <= |rows|;
    }
  }

  /**
   * `import_transactions_from_csv` after `pd.read_csv`: fails without a
   * required column, otherwise stores every row that parses and reports
   * every row that raises, under its spreadsheet row number.
   */
  method ImportTransactions(columns: seq<string>, rows: seq<Row>, rateOn: int -> Option<real>) returns (result: ImportResult)
    ensures Missing(columns, RequiredColumns) != [] ==> result == MissingColumns(Missing(columns, RequiredColumns))
    ensures Missing(columns, RequiredColumns) == [] ==>
      && result.Imported?
      && result.stored == StoredOf(rows, rateOn) && result.errors == ErrorsOf(rows)
      && result.importedCount == |result.stored|
      && result.importedCount + |result.errors| == |rows|
  {
    var missing: seq<string> := [];
    for c := 0 to |RequiredColumns|
      invariant missing == Missing(columns, RequiredColumns[..c])
    {
      assert Init(RequiredColumns[..c + 1]) == RequiredColumns[..c] && Last(RequiredColumns[..c + 1]) == RequiredColumns[c];
      if RequiredColumns[c] !in columns {
        missing := missing + [RequiredColumns[c]];
      }
    }
    assert RequiredColumns[..|RequiredColumns|] == RequiredColumns;
    if missing != [] {
      return MissingColumns(missing);
    }
    var importedCount: nat := 0;
    var errors: seq<RowError> := [];
    var stored: seq<StoredTx> := [];
    for index := 0 to |rows|
      invariant stored == StoredOf(rows[..index], rateOn) && errors == ErrorsOf(rows[..index])
      invariant importedCount == |stored|
    {
      var parsed := ParseRow(rows[index]);
      ImportStep(rows, index, rateOn);
      if parsed.Accepted? {
        stored := stored + [Store(parsed.tx, rateOn)];
        importedCount := importedCount + 1;
      } else {
        errors := errors + [RowError(index + 2, parsed.fault)];
      }
    }
    assert rows[..|rows|] == rows;
    RowsAccountedFor(rows, rateOn);
    result := Imported(importedCount, errors, stored);
  }

  /** Row `index` either adds its stored transaction or its error under spreadsheet row `index + 2`. */
  lemma ImportStep(rows: seq<Row>, index: nat, rateOn: int -> Option<real>)
    requires index < |rows|
    ensures ParseRow(rows[index]).Accepted? ==>
      && StoredOf(rows[..index + 1], rateOn) == StoredOf(rows[..index], rateOn) + [Store(ParseRow(rows[index]).tx, rateOn)]
      && ErrorsOf(rows[..index + 1]) == ErrorsOf(rows[..index])
    ensures ParseRow(rows[index]).Rejected? ==>
      && StoredOf(rows[..index + 1], rateOn) == StoredOf(rows[..index], rateOn)
      && ErrorsOf(rows[..index + 1]) == ErrorsOf(rows[..index]) + [RowError(index + 2, ParseRow(rows[index]).fault)]
  {
    assert Init(rows[..index + 1]) == rows[..index] && Last(rows[..index + 1]) == rows[index];
    assert StoredOf(rows[..index], rateOn) + [] == StoredOf(rows[..index], rateOn);
    assert ErrorsOf(rows[..index]) + [] == ErrorsOf(rows[..index]);
  }

  // ---------------------------------------------------------------------------
  // Summary sheet
  // ---------------------------------------------------------------------------

  /** `str.title()` on ASCII, scanning after a letter or not. */
  function TitleFrom(s: string, afterLetter: bool): string
  {
    if s == [] then []
    else [if IsAsciiLetter(s[0]) && !afterLetter then UpperChar(s[0]) else LowerChar(s[0])] + TitleFrom(s[1..], IsAsciiLetter(s[0]))
  }

  /** A letter after a non-letter is upper-cased and any other letter lower-cased. */
  lemma {:induction false} TitleCasing(s: string, afterLetter: bool)
    ensures |TitleFrom(s, afterLetter)| == |s|
    ensures forall i :: 0 <= i < |s| ==>
      TitleFrom(s, afterLetter)[i] == (if IsAsciiLetter(s[i]) && (if i == 0 then !afterLetter else !IsAsciiLetter(s[i - 1]))
                                       then UpperChar(s[i]) else LowerChar(s[i]))
  {
    if s != [] {
      var rest := s[1..];
      TitleCasing(rest, IsAsciiLetter(s[0]));
      var r := TitleFrom(s, afterLetter);
      var head := if IsAsciiLetter(s[0]) && !afterLetter then UpperChar(s[0]) else LowerChar(s[0]);
      assert r == [head] + TitleFrom(rest, IsAsciiLetter(s[0]));
      forall i | 0 <= i < |s|
        ensures r[i] == (if IsAsciiLetter(s[i]) && (if i == 0 then !afterLetter else !IsAsciiLetter(s[i - 1]))
                         then UpperChar(s[i]) else LowerChar(s[i]))
      {
        if i > 0 {
          assert r[i] == TitleFrom(rest, IsAsciiLetter(s[0]))[i - 1];
          assert rest[i - 1] == s[i];
          if i > 1 {
            assert rest[i - 2] == s[i - 1];
          }
        }
      }
    }
  }

  function Title(s: string): string
  {
    TitleFrom(s, false)
  }

  /** `tx.price` read as a truthy value: present and non-zero. */
  predicate PriceTruthy(tx: Transaction)
  {
    tx.price.Some? && tx.price.value != 0.0
  }

  /** What one transaction adds to its type's total. */
  function SummaryValue(tx: Transaction): (v: real)
    ensures tx.kind in {"buy", "sell"} && PriceTruthy(tx) && tx.quantity != 0.0 ==> v == PositionValue(tx.price.value, tx.quantity)
    ensures tx.kind in {"dividend", "deposit", "withdrawal"} && PriceTruthy(tx) ==> v == tx.price.value
    ensures !PriceTruthy(tx) || tx.kind !in {"buy", "sell", "dividend", "deposit", "withdrawal"} ==> v == 0.0
    ensures tx.kind in {"buy", "sell"} && tx.quantity == 0.0 ==> v == 0.0
  {
    if tx.kind in {"buy", "sell"} && PriceTruthy(tx) && tx.quantity != 0.0 then PositionValue(tx.price.value, tx.quantity)
    else if tx.kind in {"dividend", "deposit", "withdrawal"} && PriceTruthy(tx) then tx.price.value
    else 0.0
  }

  /** The types in the order they first occur. */
  function TypesSeen(txs: seq<Transaction>): seq<string>
  {
    if txs == [] then []
    else
      var seen := TypesSeen(Init(txs));
      if Last(txs).kind in seen then seen else seen + [Last(txs).kind]
  }

  function TypeCount(txs: seq<Transaction>, kind: string): nat
  {
    if txs == [] then 0 else TypeCount(Init(txs), kind) + (if Last(txs).kind == kind then 1 else 0)
  }

  function TypeValue(txs: seq<Transaction>, kind: string): real
  {
    if txs == [] then 0.0 else TypeValue(Init(txs), kind) + (if Last(txs).kind == kind then SummaryValue(Last(txs)) else 0.0)
  }

  /** A row of the summary sheet, without rounding. */
  datatype SummaryRow = SummaryRow(typeTitle: string, count: nat, totalValue: real)

  function SummaryRows(txs: seq<Transaction>, kinds: seq<string>): seq<SummaryRow>
  {
    if kinds == [] then []
    else SummaryRows(txs, Init(kinds)) + [SummaryRow(Title(Last(kinds)), TypeCount(txs, Last(kinds)), TypeValue(txs, Last(kinds)))]
  }

  function SumCounts(rows: seq<SummaryRow>): nat
  {
    if rows == [] then 0 else SumCounts(Init(rows)) + Last(rows).count
  }

  lemma {:induction false} TypesSeenDistinct(txs: seq<Transaction>)
    ensures Distinct(TypesSeen(txs))
    ensures forall k :: k in TypesSeen(txs) <==> exists tx :: tx in txs && tx.kind == k
  {
    if txs != [] {
      TypesSeenDistinct(Init(txs));
      assert txs == Init(txs) + [Last(txs)];
      forall k | exists tx :: tx in txs && tx.kind == k
        ensures k in TypesSeen(txs)
      {
        var tx :| tx in txs && tx.kind == k;
        if tx != Last(txs) { assert tx in Init(txs); }
      }
    }
  }

  /** A type that never occurs counts 0. */
  lemma {:induction false} UnseenTypeCountsZero(txs: seq<Transaction>, kind: string)
    requires kind !in TypesSeen(txs)
    ensures TypeCount(txs, kind) == 0
  {
    if txs != [] {
      TypesSeenDistinct(txs);
      TypesSeenDistinct(Init(txs));
      assert Last(txs) in txs;
      assert forall tx :: tx in Init(txs) ==> tx in txs;
      UnseenTypeCountsZero(Init(txs), kind);
    }
  }

  /** Over distinct types, one more transaction adds one to the count sum exactly when its type is listed. */
  lemma {:induction false} SumCountsStep(txs: seq<Transaction>, tx: Transaction, kinds: seq<string>)
    requires Distinct(kinds)
    ensures SumCounts(SummaryRows(txs + [tx], kinds)) == SumCounts(SummaryRows(txs, kinds)) + (if tx.kind in kinds then 1 else 0)
  {
    if kinds != [] {
      assert Init(txs + [tx]) == txs && Last(txs + [tx]) == tx;
      assert Distinct(Init(kinds));
      SumCountsStep(txs, tx, Init(kinds));
      assert tx.kind in kinds <==> tx.kind in Init(kinds) || tx.kind == Last(kinds);
    }
  }

  /** The counts of the summary sheet add up to the number of transactions. */
  lemma {:induction false} SummaryCountsAddUp(txs: seq<Transaction>)
    ensures SumCounts(SummaryRows(txs, TypesSeen(txs))) == |txs|
  {
    if txs != [] {
      var init := Init(txs);
      var tx := Last(txs);
      assert txs == init + [tx];
      SummaryCountsAddUp(init);
      var seen := TypesSeen(init);
      TypesSeenDistinct(init);
      SumCountsStep(init, tx, seen);
      if tx.kind !in seen {
        UnseenTypeCountsZero(init, tx.kind);
        assert Init(seen + [tx.kind]) == seen && Last(seen + [tx.kind]) == tx.kind;
      }
    }
  }

  /** The summary loop's invariant: the per-type tallies of `txs`, keyed by the types seen so far. */
  ghost predicate Tallied(txs: seq<Transaction>, kinds: seq<string>, counts: map<string, nat>, values: map<string, real>)
  {
    && kinds == TypesSeen(txs)
    && (forall k :: k in counts <==> k in kinds)
    && (forall k :: k in counts ==> counts[k] == TypeCount(txs, k))
    && (forall k :: k in values ==> k in counts)
    && (forall k :: k in counts ==> (if k in values then values[k] else 0.0) == TypeValue(txs, k))
  }

  /** Whether a transaction adds to its type's total. */
  predicate AddsValue(tx: Transaction)
  {
    || (tx.kind in {"buy", "sell"} && PriceTruthy(tx) && tx.quantity != 0.0)
    || (tx.kind in {"dividend", "deposit", "withdrawal"} && PriceTruthy(tx))
  }

  /** One transaction of the summary loop: count it under its type and add its value. */
  method TallyOne(kinds: seq<string>, counts: map<string, nat>, values: map<string, real>, tx: Transaction)
    returns (kinds': seq<string>, counts': map<string, nat>, values': map<string, real>)
    ensures kinds' == if tx.kind in counts then kinds else kinds + [tx.kind]
    ensures counts' == counts[tx.kind := (if tx.kind in counts then counts[tx.kind] else 0) + 1]
    ensures values' ==
      if AddsValue(tx) then values[tx.kind := (if tx.kind in values then values[tx.kind] else 0.0) + SummaryValue(tx)]
      else values
  {
    kinds', counts', values' := kinds, counts, values;
    if tx.kind !in counts' {
      kinds' := kinds' + [tx.kind];
      counts' := counts'[tx.kind := 0];
    }
    counts' := counts'[tx.kind := counts'[tx.kind] + 1];
    if tx.kind in {"buy", "sell"} && tx.price.Some? && tx.price.value != 0.0 && tx.quantity != 0.0 {
      values' := values'[tx.kind := (if tx.kind in values' then values'[tx.kind] else 0.0) + PositionValue(tx.price.value, tx.quantity)];
    } else if tx.kind in {"dividend", "deposit", "withdrawal"} && tx.price.Some? && tx.price.value != 0.0 {
      values' := values'[tx.kind := (if tx.kind in values' then values'[tx.kind] else 0.0) + tx.price.value];
    }
  }

  /** Tallying one more transaction keeps the tallies those of the longer prefix. */
  lemma TallySnoc(txs: seq<Transaction>, tx: Transaction, kinds: seq<string>, counts: map<string, nat>, values: map<string, real>,
                  kinds': seq<string>, counts': map<string, nat>, values': map<string, real>)
    requires Tallied(txs, kinds, counts, values)
    requires kinds' == if tx.kind in counts then kinds else kinds + [tx.kind]
    requires counts' == counts[tx.kind := (if tx.kind in counts then counts[tx.kind] else 0) + 1]
    requires values' ==
      if AddsValue(tx) then values[tx.kind := (if tx.kind in values then values[tx.kind] else 0.0) + SummaryValue(tx)]
      else values
    ensures Tallied(txs + [tx], kinds', counts', values')
  {
    var txs' := txs + [tx];
    TallySnocDefs(txs, tx);
    if tx.kind !in counts {
      UnseenTypeCountsZero(txs, tx.kind);
      TypeValueUnseen(txs, tx.kind);
    }
    forall k | k in counts'
      ensures counts'[k] == TypeCount(txs', k)
      ensures (if k in values' then values'[k] else 0.0) == TypeValue(txs', k)
    {
      TallySnocDefs(txs, tx);
    }
  }

  lemma TallySnocDefs(txs: seq<Transaction>, tx: Transaction)
    ensures TypesSeen(txs + [tx]) == if tx.kind in TypesSeen(txs) then TypesSeen(txs) else TypesSeen(txs) + [tx.kind]
    ensures forall k :: TypeCount(txs + [tx], k) == TypeCount(txs, k) + (if tx.kind == k then 1 else 0)
    ensures forall k :: TypeValue(txs + [tx], k) == TypeValue(txs, k) + (if tx.kind == k then SummaryValue(tx) else 0.0)
  {
    assert Init(txs + [tx]) == txs && Last(txs + [tx]) == tx;
  }

  lemma TallyStep(txs: seq<Transaction>, i: nat, kinds: seq<string>, counts: map<string, nat>, values: map<string, real>,
                  kinds': seq<string>, counts': map<string, nat>, values': map<string, real>)
    requires i < |txs| && Tallied(txs[..i], kinds, counts, values)
    requires var tx := txs[i];
      && kinds' == (if tx.kind in counts then kinds else kinds + [tx.kind])
      && counts' == counts[tx.kind := (if tx.kind in counts then counts[tx.kind] else 0) + 1]
      && values' ==
           (if AddsValue(tx) then values[tx.kind := (if tx.kind in values then values[tx.kind] else 0.0) + SummaryValue(tx)]
            else values)
    ensures Tallied(txs[..i + 1], kinds', counts', values')
  {
    assert txs[..i + 1] == txs[..i] + [txs[i]];
    TallySnoc(txs[..i], txs[i], kinds, counts, values, kinds', counts', values');
  }

  /** The summary's first loop: count and total every type. */
  method Tally(txs: seq<Transaction>) returns (kinds: seq<string>, counts: map<string, nat>, values: map<string, real>)
    ensures Tallied(txs, kinds, counts, values)
  {
    kinds, counts, values := [], map[], map[];
    for i := 0 to |txs|
      invariant Tallied(txs[..i], kinds, counts, values)
    {
      var kinds', counts', values' := TallyOne(kinds, counts, values, txs[i]);
      TallyStep(txs, i, kinds, counts, values, kinds', counts', values');
      kinds, counts, values := kinds', counts', values';
    }
    assert txs[..|txs|] == txs;
  }

  /** The summary's second loop: one row per tallied type, in the order the types were seen. */
  method SummaryOf(ghost txs: seq<Transaction>, kinds: seq<string>, counts: map<string, nat>, values: map<string, real>)
    returns (summary: seq<SummaryRow>)
    requires Tallied(txs, kinds, counts, values)
    ensures summary == SummaryRows(txs, kinds)
  {
    summary := [];
    for j := 0 to |kinds|
      invariant summary == SummaryRows(txs, kinds[..j])
    {
      var k := kinds[j];
      assert Init(kinds[..j + 1]) == kinds[..j] && Last(kinds[..j + 1]) == k;
      summary := summary + [SummaryRow(Title(k), counts[k], if k in values then values[k] else 0.0)];
    }
    assert kinds[..|kinds|] == kinds;
  }

  /** `_create_summary_data`: one row per type in order of first occurrence, with its count and total. */
  method CreateSummaryData(txs: seq<Transaction>) returns (summary: seq<SummaryRow>)
    ensures summary == SummaryRows(txs, TypesSeen(txs))
    ensures SumCounts(summary) == |txs|
  {
    var kinds, counts, values := Tally(txs);
    summary := SummaryOf(txs, kinds, counts, values);
    SummaryCountsAddUp(txs);
  }

  /** A type that never occurs totals 0. */
  lemma {:induction false} TypeValueUnseen(txs: seq<Transaction>, kind: string)
    requires kind !in TypesSeen(txs)
    ensures TypeValue(txs, kind) == 0.0
  {
    if txs != [] {
      assert Last(txs).kind in TypesSeen(txs);
      TypeValueUnseen(Init(txs), kind);
    }
  }

  // ---------------------------------------------------------------------------
  // Current-holdings sheet
  // ---------------------------------------------------------------------------

  /** `tx.symbol and tx.quantity`: a non-empty symbol and a non-zero quantity. */
  predicate Counted(tx: Transaction)
  {
    tx.symbol.Some? && tx.symbol.value != "" && tx.quantity != 0.0
  }

  /** The quantity the sheet accumulates for `s`. */
  function SheetQty(txs: seq<Transaction>, s: string): real
  {
    if txs == [] then 0.0
    else SheetQty(Init(txs), s) + (if Counted(Last(txs)) && Last(txs).symbol.value == s then ShareDelta(Last(txs)) else 0.0)
  }

  /** The sheet's dictionary keys in insertion order. */
  function SheetKeys(txs: seq<Transaction>): seq<string>
  {
    if txs == [] then []
    else
      var seen := SheetKeys(Init(txs));
      var tx := Last(txs);
      if Counted(tx) && MovesShares(tx) && tx.symbol.value !in seen then seen + [tx.symbol.value] else seen
  }

  /** For a non-empty symbol the sheet's quantity is the ledger's: zero-quantity rows add nothing anyway. */
  lemma {:induction false} SheetQtyIsLedgerQty(txs: seq<Transaction>, s: string)
    requires s != ""
    ensures SheetQty(txs, s) == NetQty(txs, Some(s))
  {
    if txs != [] {
      SheetQtyIsLedgerQty(Init(txs), s);
    }
  }

  predicate SheetTouched(txs: seq<Transaction>, s: string)
  {
    exists tx :: tx in txs && Counted(tx) && MovesShares(tx) && tx.symbol == Some(s)
  }

  lemma {:induction false} SheetKeysAreTouched(txs: seq<Transaction>)
    ensures forall s :: s in SheetKeys(txs) <==> SheetTouched(txs, s)
  {
    if txs != [] {
      SheetKeysAreTouched(Init(txs));
      assert txs == Init(txs) + [Last(txs)];
      forall s | SheetTouched(txs, s)
        ensures s in SheetKeys(txs)
      {
        var tx :| tx in txs && Counted(tx) && MovesShares(tx) && tx.symbol == Some(s);
        if tx != Last(txs) { assert tx in Init(txs); }
      }
    }
  }

  lemma {:induction false} UntouchedSheetIsZero(txs: seq<Transaction>, s: string)
    requires !SheetTouched(txs, s)
    ensures SheetQty(txs, s) == 0.0
  {
    if txs != [] {
      assert forall tx :: tx in Init(txs) ==> tx in txs;
      assert Last(txs) in txs;
      UntouchedSheetIsZero(Init(txs), s);
    }
  }

  /** The rows: the keys of `ks` with a positive quantity, in the order of `ks`. */
  function SheetRows(txs: seq<Transaction>, ks: seq<string>): seq<(string, real)>
  {
    if ks == [] then []
    else SheetRows(txs, Init(ks)) + (if SheetQty(txs, Last(ks)) > 0.0 then [(Last(ks), SheetQty(txs, Last(ks)))] else [])
  }

  lemma {:induction false} SheetRowsListPositiveKeys(txs: seq<Transaction>, ks: seq<string>)
    ensures forall s, q :: (s, q) in SheetRows(txs, ks) <==> s in ks && q == SheetQty(txs, s) > 0.0
  {
    if ks != [] {
      SheetRowsListPositiveKeys(txs, Init(ks));
      assert ks == Init(ks) + [Last(ks)];
    }
  }

  /** A symbol is on the sheet exactly when it is non-empty and the ledger leaves a positive quantity of it. */
  lemma SheetListsOpenPositions(txs: seq<Transaction>)
    ensures forall s, q :: (s, q) in SheetRows(txs, SheetKeys(txs)) <==> s != "" && q == NetQty(txs, Some(s)) > 0.0
  {
    SheetRowsListPositiveKeys(txs, SheetKeys(txs));
    SheetKeysAreTouched(txs);
    forall s | s != ""
      ensures SheetQty(txs, s) == NetQty(txs, Some(s))
    {
      SheetQtyIsLedgerQty(txs, s);
    }
    forall s | SheetQty(txs, s) > 0.0
      ensures s in SheetKeys(txs)
    {
      if !SheetTouched(txs, s) {
        UntouchedSheetIsZero(txs, s);
      }
    }
    forall s | s in SheetKeys(txs)
      ensures s != ""
    {
      var tx :| tx in txs && Counted(tx) && MovesShares(tx) && tx.symbol == Some(s);
    }
  }

  /** `_create_holdings_data`: symbols with a positive quantity and their quantities. */
  method CreateHoldingsData(txs: seq<Transaction>) returns (rows: seq<(string, real)>)
    ensures rows == SheetRows(txs, SheetKeys(txs))
    ensures forall s, q :: (s, q) in rows <==> s != "" && q == NetQty(txs, Some(s)) > 0.0
  {
    var keys: seq<string> := [];
    var holdings: map<string, real> := map[];
    for i := 0 to |txs|
      invariant keys == SheetKeys(txs[..i])
      invariant forall s :: s in holdings <==> s in keys
      invariant forall s :: s in holdings ==> holdings[s] == SheetQty(txs[..i], s)
    {
      var tx := txs[i];
      assert Init(txs[..i + 1]) == txs[..i] && Last(txs[..i + 1]) == tx;
      if tx.symbol.Some? && tx.symbol.value != "" && tx.quantity != 0.0 {
        var s := tx.symbol.value;
        if (tx.kind == "buy" || tx.kind == "sell" || tx.kind == "split") && s !in holdings {
          SheetKeysAreTouched(txs[..i]);
          UntouchedSheetIsZero(txs[..i], s);
          keys := keys + [s];
          holdings := holdings[s := 0.0];
        }
        if tx.kind == "buy" {
          holdings := holdings[s := holdings[s] + tx.quantity];
        } else if tx.kind == "sell" {
          holdings := holdings[s := holdings[s] - tx.quantity];
        } else if tx.kind == "split" {
          holdings := holdings[s := holdings[s] + tx.quantity];
        }
      }
    }
    assert txs[..|txs|] == txs;
    rows := [];
    for j := 0 to |keys|
      invariant rows == SheetRows(txs, keys[..j])
    {
      var s := keys[j];
      assert Init(keys[..j + 1]) == keys[..j] && Last(keys[..j + 1]) == s;
      if holdings[s] > 0.0 {
        rows := rows + [(s, holdings[s])];
      }
    }
    assert keys[..|keys|] == keys;
    SheetListsOpenPositions(txs);
  }
}
