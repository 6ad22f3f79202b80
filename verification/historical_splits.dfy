/**
 * Ticker formatting and stock-split adjustment of price history in the
 * Flask app's historical fetcher.
 */
module HistoricalSplits {
  import opened Wrappers
  import opened Text
  import opened Dates

  // ---------------------------------------------------------------------------
  // Ticker formatting
  // ---------------------------------------------------------------------------

  /** The Yahoo ticker requested for a symbol: Istanbul listings get ".IS"; the EUR/TRY pair is left alone. */
  function FormatTicker(s: string): (t: string)
    ensures EndsWith(Upper(t), ".IS") || Upper(t) == "EURTRY=X"
    ensures t == s || t == s + ".IS"
    ensures t == s <==> Upper(s) == "EURTRY=X" || EndsWith(Upper(s), ".IS")
  {
    if Upper(s) != "EURTRY=X" && !EndsWith(Upper(s), ".IS") then
      UpperConcat(s, ".IS");
      assert Upper(s + ".IS")[|s + ".IS"| - 3..] == ".IS";
      s + ".IS"
    else s
  }

  /** Formatting a formatted ticker changes nothing. */
  lemma FormatTickerIdempotent(s: string)
    ensures FormatTicker(FormatTicker(s)) == FormatTicker(s)
  {
  }

  /** The `formatted_symbols` loop: one ticker per symbol, in order. */
  method FormatSymbols(symbols: seq<string>) returns (formatted: seq<string>)
    ensures |formatted| == |symbols|
    ensures forall i :: 0 <= i < |symbols| ==> formatted[i] == FormatTicker(symbols[i])
  {
    formatted := [];
    for i := 0 to |symbols|
      invariant |formatted| == i
      invariant forall j :: 0 <= j < i ==> formatted[j] == FormatTicker(symbols[j])
    {
      var s := symbols[i];
      if Upper(s) != "EURTRY=X" && !EndsWith(Upper(s), ".IS") {
        formatted := formatted + [s + ".IS"];
      } else {
        formatted := formatted + [s];
      }
    }
  }

  // ---------------------------------------------------------------------------
  // Known splits
  // ---------------------------------------------------------------------------

  /** A split: from `date` on, one old share is `ratio` new shares. */
  datatype SplitInfo = SplitInfo(date: int, ratio: real)

  /** `KNOWN_STOCK_SPLITS`: CCOLA split 1:11 on 2024-08-01. */
  function KnownSplit(symbol: string): (r: Option<SplitInfo>)
    ensures r.Some? <==> symbol == "CCOLA"
    ensures r.Some? ==> r.value.ratio == 11.0 && r.value.date == Ordinal(2024, 8, 1)
  {
    if symbol == "CCOLA" then Some(SplitInfo(Ordinal(2024, 8, 1), 11.0)) else None
  }

  /** One daily OHLCV row of a single stock's history. */
  datatype PriceRow = PriceRow(date: int, open: real, high: real, low: real, close: real, volume: real)

  /** A pre-split row in post-split shares: prices divided by the ratio, volume multiplied. */
  function Scale(row: PriceRow, ratio: real): (r: PriceRow)
    requires ratio != 0.0
    ensures r.date == row.date && r.volume == row.volume * ratio
    ensures r.open * ratio == row.open && r.high * ratio == row.high
    ensures r.low * ratio == row.low && r.close * ratio == row.close
  {
    row.(open := row.open / ratio, high := row.high / ratio, low := row.low / ratio,
         close := row.close / ratio, volume := row.volume * ratio)
  }

  function DatesOf(rows: seq<PriceRow>): (ds: seq<int>)
    ensures |ds| == |rows|
    ensures forall i :: 0 <= i < |rows| ==> ds[i] == rows[i].date
  {
    if rows == [] then [] else [rows[0].date] + DatesOf(rows[1..])
  }

  /** `list(index).index(d)`: the first position holding `d`. */
  function FirstIndex(ds: seq<int>, d: int): (k: nat)
    requires d in ds
    ensures k < |ds| && ds[k] == d
    ensures forall j :: 0 <= j < k ==> ds[j] != d
  {
    if ds[0] == d then 0 else 1 + FirstIndex(ds[1..], d)
  }

  predicate DistinctDates(ds: seq<int>)
  {
    forall i, j :: 0 <= i < j < |ds| ==> ds[i] != ds[j]
  }

  /**
   * The rows after the first `n` steps of the adjustment loop: step `i`
   * scales the row found at the first position carrying date `ds[i]`.
   */
  function SplitPass(rows: seq<PriceRow>, ds: seq<int>, split: SplitInfo, n: nat): (r: seq<PriceRow>)
    requires |ds| == |rows| && n <= |ds| && split.ratio != 0.0
    ensures |r| == |rows|
  {
    if n == 0 then rows
    else
      var prev := SplitPass(rows, ds, split, n - 1);
      if ds[n - 1] < split.date then
        var k := FirstIndex(ds, ds[n - 1]);
        prev[k := Scale(prev[k], split.ratio)]
      else prev
  }

  /** On distinct dates a date's first position is its own. */
  lemma FirstIndexDistinct(ds: seq<int>, i: nat)
    requires i < |ds| && DistinctDates(ds)
    ensures FirstIndex(ds, ds[i]) == i
  {
    var first := FirstIndex(ds, ds[i]);
    assert ds[first] == ds[i];
  }

  /** One step of the pass on distinct dates rescales row `n - 1` itself, if it precedes the split. */
  lemma SplitPassStep(rows: seq<PriceRow>, split: SplitInfo, n: nat)
    requires 0 < n <= |rows| && split.ratio != 0.0
    requires DistinctDates(DatesOf(rows))
    ensures var prev := SplitPass(rows, DatesOf(rows), split, n - 1);
      SplitPass(rows, DatesOf(rows), split, n)
      == if rows[n - 1].date < split.date then prev[n - 1 := Scale(prev[n - 1], split.ratio)] else prev
  {
    var ds := DatesOf(rows);
    assert ds[n - 1] == rows[n - 1].date;
    FirstIndexDistinct(ds, n - 1);
  }

  /** With one row per date, the pass scales exactly the rows dated before the split, each once. */
  lemma {:induction false} SplitPassScalesEarlyRows(rows: seq<PriceRow>, split: SplitInfo, n: nat)
    requires n <= |rows| && split.ratio != 0.0
    requires DistinctDates(DatesOf(rows))
    ensures forall k :: 0 <= k < |rows| ==>
      SplitPass(rows, DatesOf(rows), split, n)[k]
      == (if k < n && rows[k].date < split.date then Scale(rows[k], split.ratio) else rows[k])
  {
    if n > 0 {
      SplitPassScalesEarlyRows(rows, split, n - 1);
      SplitPassStep(rows, split, n);
    }
  }

  /** The intended adjustment: every row dated before the split scaled exactly once. */
  function SplitAdjusted(rows: seq<PriceRow>, split: SplitInfo): (r: seq<PriceRow>)
    requires split.ratio != 0.0
    ensures |r| == |rows|
    ensures forall k :: 0 <= k < |rows| ==>
      r[k] == (if rows[k].date < split.date then Scale(rows[k], split.ratio) else rows[k])
  {
    seq(|rows|, k requires 0 <= k < |rows| => if rows[k].date < split.date then Scale(rows[k], split.ratio) else rows[k])
  }

  /** On a history with one row per date, the loop as written performs the intended adjustment. */
  lemma SplitPassIsIntendedOnDistinctDates(rows: seq<PriceRow>, split: SplitInfo)
    requires split.ratio != 0.0
    requires DistinctDates(DatesOf(rows))
    ensures SplitPass(rows, DatesOf(rows), split, |rows|) == SplitAdjusted(rows, split)
  {
    SplitPassScalesEarlyRows(rows, split, |rows|);
  }

  /** With a repeated date the first row carrying it is scaled twice and the later one never. */
  lemma RepeatedDateScalesFirstRowTwice()
    ensures var row := PriceRow(Ordinal(2024, 7, 1), 22.0, 22.0, 22.0, 22.0, 1.0);
      var split := KnownSplit("CCOLA").value;
      SplitPass([row, row], [row.date, row.date], split, 2)
      == [Scale(Scale(row, 11.0), 11.0), row]
  {
    var row := PriceRow(Ordinal(2024, 7, 1), 22.0, 22.0, 22.0, 22.0, 1.0);
    var ds := [row.date, row.date];
    var split := KnownSplit("CCOLA").value;
    assert row.date < split.date;
    assert FirstIndex(ds, ds[0]) == 0 && FirstIndex(ds, ds[1]) == 0;
    assert SplitPass([row, row], ds, split, 0) == [row, row];
    var once := SplitPass([row, row], ds, split, 1);
    assert once == [row, row][0 := Scale(row, 11.0)];
    assert once == [Scale(row, 11.0), row];
    assert SplitPass([row, row], ds, split, 2) == once[0 := Scale(once[0], 11.0)];
  }

  /**
   * `adjust_for_stock_splits`: for a symbol with a known split, every row
   * whose date precedes the split date is rescaled in place; other symbols'
   * history is returned unchanged.
   */
  method AdjustForStockSplits(rows: array<PriceRow>, symbol: string)
    modifies rows
    ensures KnownSplit(symbol).None? ==> rows[..] == old(rows[..])
    ensures KnownSplit(symbol).Some? ==>
      rows[..] == SplitPass(old(rows[..]), DatesOf(old(rows[..])), KnownSplit(symbol).value, rows.Length)
    ensures KnownSplit(symbol).Some? && DistinctDates(DatesOf(old(rows[..]))) ==>
      rows[..] == SplitAdjusted(old(rows[..]), KnownSplit(symbol).value)
  {
    if symbol != "CCOLA" {
      return;
    }
    var split := KnownSplit(symbol).value;
    var ds := DatesOf(rows[..]);
    ghost var original := rows[..];
    for n := 0 to rows.Length
      invariant rows[..] == SplitPass(original, ds, split, n)
    {
      if ds[n] < split.date {
        var k := FirstIndex(ds, ds[n]);
        rows[k] := Scale(rows[k], split.ratio);
      }
    }
    if DistinctDates(ds) {
      SplitPassIsIntendedOnDistinctDates(original, split);
    }
  }

  // ---------------------------------------------------------------------------
  // Split adjustment of the timeline price table
  // ---------------------------------------------------------------------------

  /**
   * One trading date of the multi-symbol close-price table. A column is
   * keyed by ticker ("THYAO.IS"); a missing key is a missing column or a NaN.
   */
  datatype Day = Day(date: int, prices: map<string, real>)

  /** The table's column for a portfolio symbol. */
  function Column(symbol: string): string
  {
    symbol + ".IS"
  }

  /** The adjustment one symbol's known split makes to one table row. */
  function AdjustCell(day: Day, symbol: string): (r: Day)
    ensures r.date == day.date && r.prices.Keys == day.prices.Keys
    ensures forall c :: c in day.prices && c != Column(symbol) ==> r.prices[c] == day.prices[c]
    ensures Column(symbol) in day.prices ==>
      r.prices[Column(symbol)] ==
        (if KnownSplit(symbol).Some? && day.date < KnownSplit(symbol).value.date
         then day.prices[Column(symbol)] / 11.0 else day.prices[Column(symbol)])
  {
    match KnownSplit(symbol)
    case Some(split) =>
      if day.date < split.date && Column(symbol) in day.prices
      then day.(prices := day.prices[Column(symbol) := day.prices[Column(symbol)] / split.ratio])
      else day
    case None => day
  }

  /** A row after the adjustments of every listed symbol, in order. */
  function AdjustDay(day: Day, symbols: seq<string>): (r: Day)
    ensures r.date == day.date && r.prices.Keys == day.prices.Keys
  {
    if symbols == [] then day else AdjustCell(AdjustDay(day, symbols[..|symbols| - 1]), symbols[|symbols| - 1])
  }

  /** Only the CCOLA column can change, and only when CCOLA is among the symbols. */
  lemma {:induction false} AdjustDayTouchesOnlyCcola(day: Day, symbols: seq<string>)
    ensures forall c :: c in day.prices && c != Column("CCOLA") ==> AdjustDay(day, symbols).prices[c] == day.prices[c]
    ensures "CCOLA" !in symbols ==> AdjustDay(day, symbols) == day
  {
    if symbols != [] {
      var init := symbols[..|symbols| - 1];
      assert forall s :: s in init ==> s in symbols;
      AdjustDayTouchesOnlyCcola(day, init);
      var last := symbols[|symbols| - 1];
      forall c | c in day.prices && c != Column("CCOLA")
        ensures AdjustDay(day, symbols).prices[c] == day.prices[c]
      {
        if c == Column(last) {
          assert last != "CCOLA";
        }
      }
    }
  }

  /**
   * The split-adjustment loop of `get_portfolio_timeline_data`: for each
   * symbol with a known split, divide its column on every earlier date.
   */
  method AdjustTimelineTable(table: array<Day>, symbols: seq<string>)
    modifies table
    ensures forall i :: 0 <= i < table.Length ==> table[i] == AdjustDay(old(table[i]), symbols)
  {
    for j := 0 to |symbols|
      invariant forall i :: 0 <= i < table.Length ==> table[i] == AdjustDay(old(table[i]), symbols[..j])
    {
      var symbol := symbols[j];
      assert symbols[..j + 1][..j] == symbols[..j];
      var split := KnownSplit(symbol);
      if split.Some? {
        for i := 0 to table.Length
          invariant forall k :: 0 <= k < i ==> table[k] == AdjustDay(old(table[k]), symbols[..j + 1])
          invariant forall k :: i <= k < table.Length ==> table[k] == AdjustDay(old(table[k]), symbols[..j])
        {
          var day := table[i];
          if day.date < split.value.date && Column(symbol) in day.prices {
            table[i] := day.(prices := day.prices[Column(symbol) := day.prices[Column(symbol)] / split.value.ratio]);
          }
        }
      }
    }
    assert symbols[..|symbols|] == symbols;
  }
}
