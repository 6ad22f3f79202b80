/**
 * The asset search of the FastAPI backend: a three-letter query is offered
 * as a TEFAS fund code, then each quote of the Yahoo Finance search
 * response becomes a stock result with an inferred currency.
 */
module SearchService {
  import opened Wrappers
  import opened Text

  /**
   * One element of the response's `quotes` list. A key that is absent
   * reads as the empty string where the code gives `get` a default; a
   * JSON null is `None`.
   */
  datatype Quote = Quote(
    quoteType: Option<string>,
    symbol: Option<string>,
    shortname: Option<string>,
    longname: Option<string>,
    exchange: Option<string>)

  /** One element of the returned list; a fund result has no Yahoo symbol. */
  datatype SearchResult = SearchResult(
    symbol: string,
    name: string,
    kind: string,
    currency: string,
    exchange: Option<string>,
    yahooSymbol: Option<string>)

  /** The TEFAS guess: a query of exactly three letters is taken as a fund code. */
  function FundGuess(query: string): (r: seq<SearchResult>)
    ensures |r| <= 1
    ensures r != [] <==> |query| == 3 && IsAlpha(query)
    ensures r != [] ==> r[0].symbol == Upper(query) && r[0].kind == "FUND" && r[0].currency == "TRY"
                        && r[0].exchange == Some("TEFAS")
  {
    if |query| == 3 && IsAlpha(query) then
      [SearchResult(Upper(query), "TEFAS Fund " + Upper(query), "FUND", "TRY", Some("TEFAS"), None)]
    else []
  }

  /** `item.get('quoteType', '') in ['EQUITY', 'ETF', 'MUTUALFUND']`. */
  predicate Kept(q: Quote)
  {
    q.quoteType.Some? && q.quoteType.value in {"EQUITY", "ETF", "MUTUALFUND"}
  }

  /** The currency a quote is listed in, by the first test that matches. */
  function CurrencyOf(symbol: string, exchange: Option<string>): (c: string)
    ensures c == "TRY" <==> EndsWith(symbol, ".IS") || exchange == Some("IST")
    ensures c == "EUR" <==> !(EndsWith(symbol, ".IS") || exchange == Some("IST")) && Contains(symbol, ".DE")
    ensures c == "GBP" <==> !(EndsWith(symbol, ".IS") || exchange == Some("IST")) && !Contains(symbol, ".DE") && Contains(symbol, ".L")
    ensures c == "USD" <==> !(EndsWith(symbol, ".IS") || exchange == Some("IST")) && !Contains(symbol, ".DE") && !Contains(symbol, ".L")
  {
    if EndsWith(symbol, ".IS") || exchange == Some("IST") then "TRY"
    else if Contains(symbol, ".DE") then "EUR"
    else if Contains(symbol, ".L") then "GBP"
    else "USD"
  }

  /** `s.replace(pattern, "")`: every non-overlapping occurrence, scanned left to right, is removed. */
  function RemoveAll(s: string, pattern: string): (r: string)
    requires pattern != []
    ensures |r| <= |s|
  {
    if |s| < |pattern| then s
    else if StartsWith(s, pattern) then RemoveAll(s[|pattern|..], pattern)
    else [s[0]] + RemoveAll(s[1..], pattern)
  }

  /** The display symbol: a symbol ending in ".IS" loses every ".IS" it contains. */
  function DisplaySymbol(symbol: string): string
  {
    if EndsWith(symbol, ".IS") then RemoveAll(symbol, ".IS") else symbol
  }

  /** `shortname or longname or symbol`: the first that is present and non-empty. */
  function NameOf(q: Quote, symbol: string): (n: string)
    ensures q.shortname.Some? && q.shortname.value != "" ==> n == q.shortname.value
    ensures !(q.shortname.Some? && q.shortname.value != "") && q.longname.Some? && q.longname.value != "" ==> n == q.longname.value
    ensures !(q.shortname.Some? && q.shortname.value != "") && !(q.longname.Some? && q.longname.value != "") ==> n == symbol
  {
    if q.shortname.Some? && q.shortname.value != "" then q.shortname.value
    else if q.longname.Some? && q.longname.value != "" then q.longname.value
    else symbol
  }

  /** The result a kept quote with a symbol becomes. */
  function ResultOf(q: Quote): SearchResult
    requires q.symbol.Some?
  {
    var symbol := q.symbol.value;
    SearchResult(DisplaySymbol(symbol), NameOf(q, symbol), "STOCK", CurrencyOf(symbol, q.exchange), q.exchange, Some(symbol))
  }

  /**
   * The loop over the quotes: the results so far and whether it stopped.
   * A kept quote whose symbol is null raises in `endswith`, which ends the
   * loop; the results gathered before it are still returned.
   */
  function Scan(quotes: seq<Quote>): (seq<SearchResult>, bool)
  {
    if quotes == [] then ([], false)
    else
      var (results, stopped) := Scan(quotes[..|quotes| - 1]);
      var q := quotes[|quotes| - 1];
      if stopped || !Kept(q) then (results, stopped)
      else if q.symbol.None? then (results, true)
      else (results + [ResultOf(q)], false)
  }

  /** The loop stops exactly when some kept quote has a null symbol. */
  lemma {:induction false} ScanStopsOnNullSymbol(quotes: seq<Quote>)
    ensures Scan(quotes).1 <==> exists q :: q in quotes && Kept(q) && q.symbol.None?
  {
    if quotes != [] {
      var init := quotes[..|quotes| - 1];
      ScanStopsOnNullSymbol(init);
      assert quotes == init + [quotes[|quotes| - 1]];
      if exists q :: q in quotes && Kept(q) && q.symbol.None? {
        var q :| q in quotes && Kept(q) && q.symbol.None?;
        if q != quotes[|quotes| - 1] { assert q in init; }
      }
    }
  }

  /** Every Yahoo result comes from a kept quote with a symbol, and keeps that symbol for fetching. */
  lemma {:induction false} ScanResultsComeFromKeptQuotes(quotes: seq<Quote>)
    ensures forall r :: r in Scan(quotes).0 ==>
      exists q :: q in quotes && Kept(q) && q.symbol.Some? && r == ResultOf(q)
  {
    if quotes != [] {
      var init := quotes[..|quotes| - 1];
      ScanResultsComeFromKeptQuotes(init);
      assert forall q :: q in init ==> q in quotes;
      assert quotes[|quotes| - 1] in quotes;
    }
  }

  /** Without a null symbol every kept quote yields one result, in order. */
  function KeptResults(quotes: seq<Quote>): seq<SearchResult>
    requires forall q :: q in quotes && Kept(q) ==> q.symbol.Some?
  {
    if quotes == [] then []
    else
      var q := quotes[|quotes| - 1];
      assert forall p :: p in quotes[..|quotes| - 1] ==> p in quotes;
      KeptResults(quotes[..|quotes| - 1]) + (if Kept(q) then [ResultOf(q)] else [])
  }

  lemma {:induction false} ScanWithoutNullsKeepsAll(quotes: seq<Quote>)
    requires forall q :: q in quotes && Kept(q) ==> q.symbol.Some?
    ensures Scan(quotes) == (KeptResults(quotes), false)
  {
    if quotes != [] {
      var init := quotes[..|quotes| - 1];
      assert forall q :: q in init ==> q in quotes;
      var q := quotes[|quotes| - 1];
      assert q in quotes;
      ScanWithoutNullsKeepsAll(init);
      assert Scan(init) == (KeptResults(init), false);
      if Kept(q) {
        assert KeptResults(quotes) == KeptResults(init) + [ResultOf(q)];
      } else {
        assert KeptResults(quotes) == KeptResults(init) + [];
        assert KeptResults(init) + [] == KeptResults(init);
      }
    }
  }

  /** A symbol with a single ".IS", at its end, is shown without it. */
  lemma {:induction false} SuffixOnlyIsStripped(base: string)
    requires !Contains(base, ".IS")
    ensures RemoveAll(base + ".IS", ".IS") == base
  {
    var s := base + ".IS";
    if base == [] {
      assert s == ".IS" && StartsWith(s, ".IS");
      assert s[3..] == [];
    } else {
      assert !StartsWith(base, ".IS");
      assert !StartsWith(s, ".IS") by {
        if |base| >= 3 {
          assert s[..3] == base[..3];
        } else if |base| == 2 {
          assert s[2] == '.';
        } else {
          assert s[2] == 'I';
        }
      }
      assert !Contains(base[1..], ".IS");
      SuffixOnlyIsStripped(base[1..]);
      assert s[1..] == base[1..] + ".IS";
    }
  }

  /** `replace` is not a suffix strip: every ".IS" of the symbol goes. */
  lemma InnerOccurrencesAreRemovedToo()
    ensures DisplaySymbol("A.ISB.IS") == "AB"
  {
    var s := "A.ISB.IS";
    assert EndsWith(s, ".IS") by { assert s[5..] == ".IS"; }
    assert !StartsWith(s, ".IS") by { assert s[0] == 'A'; }
    assert s[1..] == ".ISB.IS" && StartsWith(s[1..], ".IS");
    assert s[1..][3..] == "B.IS" && !StartsWith("B.IS", ".IS");
    assert "B.IS"[1..] == ".IS" && StartsWith(".IS", ".IS") && ".IS"[3..] == [];
  }

  lemma NoDotStart(s: string)
    requires s != [] && s[0] != '.'
    ensures !StartsWith(s, ".IS")
  {
    if |s| >= 3 {
      assert s[..3][0] == s[0];
    }
  }

  /** A fund code such as "MAC" is offered as a TEFAS fund under its own code. */
  lemma ThreeLetterCodeIsOfferedAsFund()
    ensures FundGuess("MAC") == [SearchResult("MAC", "TEFAS Fund MAC", "FUND", "TRY", Some("TEFAS"), None)]
  {
    var q := "MAC";
    assert IsAlpha(q) by {
      assert forall i :: 0 <= i < |q| ==> IsAsciiLetter(q[i]);
    }
    assert Upper(q) == q by {
      assert forall i :: 0 <= i < |q| ==> !IsAsciiLower(q[i]);
    }
    assert "TEFAS Fund " + q == "TEFAS Fund MAC";
  }

  /** A Borsa Istanbul listing such as "THYAO.IS" is shown as "THYAO", in TRY, and fetched under its full symbol. */
  lemma IstanbulListingIsShownBare(exchange: Option<string>)
    ensures ResultOf(Quote(Some("EQUITY"), Some("THYAO.IS"), Some("TURK HAVA YOLLARI"), None, exchange))
      == SearchResult("THYAO", "TURK HAVA YOLLARI", "STOCK", "TRY", exchange, Some("THYAO.IS"))
  {
    var s := "THYAO.IS";
    assert EndsWith(s, ".IS") by { assert s[5..] == ".IS"; }
    assert !Contains("THYAO", ".IS") by {
      assert "THYAO"[1..] == "HYAO" && "HYAO"[1..] == "YAO" && "YAO"[1..] == "AO" && "AO"[1..] == "O" && "O"[1..] == [];
      NoDotStart("THYAO");
      NoDotStart("HYAO");
      NoDotStart("YAO");
    }
    SuffixOnlyIsStripped("THYAO");
    assert "THYAO" + ".IS" == s;
  }

  /**
   * `search_assets`: the fund guess first, then one result per kept quote
   * of the response, up to the first kept quote without a symbol. `response`
   * is None when the request fails, answers with a status other than 200,
   * or carries no `quotes` key.
   */
  method SearchAssets(query: string, response: Option<seq<Quote>>) returns (results: seq<SearchResult>)
    ensures results == FundGuess(query) + (if response.None? then [] else Scan(response.value).0)
  {
    results := [];
    if |query| == 3 && IsAlpha(query) {
      results := results + [SearchResult(Upper(query), "TEFAS Fund " + Upper(query), "FUND", "TRY", Some("TEFAS"), None)];
    }
    if response.None? {
      return;
    }
    var quotes := response.value;
    ghost var fund := results;
    for i := 0 to |quotes|
      invariant results == fund + Scan(quotes[..i]).0
      invariant !Scan(quotes[..i]).1
    {
      var item := quotes[i];
      ScanStep(quotes, i);
      if !(item.quoteType.Some? && item.quoteType.value in {"EQUITY", "ETF", "MUTUALFUND"}) {
        continue;
      }
      if item.symbol.None? {
        StoppedScanStaysStopped(quotes, i + 1);
        return;
      }
      var result := QuoteToResult(item);
      results := results + [result];
    }
    assert quotes[..|quotes|] == quotes;
  }

  /** The body of the loop for a kept quote with a symbol. */
  method QuoteToResult(item: Quote) returns (result: SearchResult)
    requires item.symbol.Some?
    ensures result == ResultOf(item)
  {
    var symbol := item.symbol.value;
    var name := NameOf(item, symbol);
    var exch := item.exchange;
    var currency := "USD";
    if EndsWith(symbol, ".IS") || exch == Some("IST") {
      currency := "TRY";
    } else if Contains(symbol, ".DE") {
      currency := "EUR";
    } else if Contains(symbol, ".L") {
      currency := "GBP";
    }
    var displaySymbol := symbol;
    if EndsWith(symbol, ".IS") {
      displaySymbol := RemoveAll(symbol, ".IS");
    }
    result := SearchResult(displaySymbol, name, "STOCK", currency, exch, Some(symbol));
  }

  /** What one more quote does to a scan that has not stopped. */
  lemma ScanStep(quotes: seq<Quote>, i: nat)
    requires i < |quotes| && !Scan(quotes[..i]).1
    ensures !Kept(quotes[i]) ==> Scan(quotes[..i + 1]) == Scan(quotes[..i])
    ensures Kept(quotes[i]) && quotes[i].symbol.None? ==> Scan(quotes[..i + 1]) == (Scan(quotes[..i]).0, true)
    ensures Kept(quotes[i]) && quotes[i].symbol.Some? ==>
      Scan(quotes[..i + 1]) == (Scan(quotes[..i]).0 + [ResultOf(quotes[i])], false)
  {
    assert quotes[..i + 1][..i] == quotes[..i] && quotes[..i + 1][i] == quotes[i];
  }

  /** Once the loop has stopped, later quotes add nothing. */
  lemma {:induction false} StoppedScanStaysStopped(quotes: seq<Quote>, k: nat)
    requires k <= |quotes| && Scan(quotes[..k]).1
    ensures Scan(quotes) == Scan(quotes[..k])
    decreases |quotes| - k
  {
    if k < |quotes| {
      var next := quotes[..k + 1];
      assert next[..k] == quotes[..k];
      StoppedScanStaysStopped(quotes, k + 1);
    } else {
      assert quotes[..k] == quotes;
    }
  }
}
