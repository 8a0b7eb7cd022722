/**
 * The investments page: search and category filtering of the recommended
 * stocks, the watchlist test, the merge of live prices, the category
 * default and the CSV export. The risk normaliser, category label and
 * colour are verbatim copies of the visualization page's, so the model uses
 * those definitions.
 */
module Investments {
  import opened Common
  import opened Text

  /** The fields of a recommendation that the page's logic reads or writes. */
  datatype Stock = Stock(
    ticker: string, name: string, sector: string, category: string,
    currentPrice: real, previousPrice: Option<real>, priceChange: Option<real>,
    priceChangePercent: Option<real>)

  // ---------- filterStocks ----------

  /** The search test: the lower-cased term occurs in the ticker, the name or the sector. */
  predicate MatchesSearch(s: Stock, term: string) {
    Contains(Lower(s.ticker), Lower(term))
    || Contains(Lower(s.name), Lower(term))
    || Contains(Lower(s.sector), Lower(term))
  }

  /** Whether a stock survives both filters. */
  predicate Keep(s: Stock, term: string, category: string) {
    (term == "" || MatchesSearch(s, term)) && (category == "all" || s.category == category)
  }

  /** The first filter call. */
  function BySearch(xs: seq<Stock>, term: string): (r: seq<Stock>)
    ensures |r| <= |xs|
  {
    if xs == [] then []
    else (if MatchesSearch(xs[0], term) then [xs[0]] else []) + BySearch(xs[1..], term)
  }

  /** The second filter call. */
  function ByCategory(xs: seq<Stock>, category: string): (r: seq<Stock>)
    ensures |r| <= |xs|
  {
    if xs == [] then []
    else (if xs[0].category == category then [xs[0]] else []) + ByCategory(xs[1..], category)
  }

  /** Reference definition: the stocks that pass both tests, in their original order. */
  function Selected(xs: seq<Stock>, term: string, category: string): seq<Stock> {
    if xs == [] then []
    else (if Keep(xs[0], term, category) then [xs[0]] else []) + Selected(xs[1..], term, category)
  }

  lemma {:induction false} BySearchThenCategory(xs: seq<Stock>, term: string, category: string)
    requires term != "" && category != "all"
    ensures ByCategory(BySearch(xs, term), category) == Selected(xs, term, category)
    decreases |xs|
  {
    if xs != [] {
      BySearchThenCategory(xs[1..], term, category);
      ByCategoryAppend(if MatchesSearch(xs[0], term) then [xs[0]] else [], BySearch(xs[1..], term), category);
    }
  }

  lemma {:induction false} BySearchOnly(xs: seq<Stock>, term: string)
    requires term != ""
    ensures BySearch(xs, term) == Selected(xs, term, "all")
    decreases |xs|
  {
    if xs != [] {
      BySearchOnly(xs[1..], term);
    }
  }

  lemma {:induction false} ByCategoryOnly(xs: seq<Stock>, category: string)
    requires category != "all"
    ensures ByCategory(xs, category) == Selected(xs, "", category)
    decreases |xs|
  {
    if xs != [] {
      ByCategoryOnly(xs[1..], category);
    }
  }

  lemma {:induction false} SelectAllIsIdentity(xs: seq<Stock>)
    ensures Selected(xs, "", "all") == xs
    decreases |xs|
  {
    if xs != [] {
      SelectAllIsIdentity(xs[1..]);
      assert [xs[0]] + xs[1..] == xs;
    }
  }

  lemma {:induction false} ByCategoryAppend(a: seq<Stock>, b: seq<Stock>, category: string)
    ensures ByCategory(a + b, category) == ByCategory(a, category) + ByCategory(b, category)
    decreases |a|
  {
    if a == [] {
      assert a + b == b;
    } else {
      var head := if a[0].category == category then [a[0]] else [];
      assert (a + b)[0] == a[0] && (a + b)[1..] == a[1..] + b;
      ByCategoryAppend(a[1..], b, category);
      assert ByCategory(a + b, category) == head + (ByCategory(a[1..], category) + ByCategory(b, category));
    }
  }

  /** filterStocks: copy the list, then narrow it by the search term and by the category. */
  method FilterStocks(stocks: seq<Stock>, searchTerm: string, selectedCategory: string) returns (filtered: seq<Stock>)
    ensures filtered == Selected(stocks, searchTerm, selectedCategory)
  {
    filtered := stocks;
    if searchTerm != "" {
      filtered := BySearch(filtered, searchTerm);
    }
    if selectedCategory != "all" {
      filtered := ByCategory(filtered, selectedCategory);
    }
    if searchTerm != "" && selectedCategory != "all" {
      BySearchThenCategory(stocks, searchTerm, selectedCategory);
    } else if searchTerm != "" {
      BySearchOnly(stocks, searchTerm);
    } else if selectedCategory != "all" {
      ByCategoryOnly(stocks, selectedCategory);
    } else {
      SelectAllIsIdentity(stocks);
    }
  }

  /** a is b with some elements dropped, the rest in their order. */
  predicate IsSubsequence(a: seq<Stock>, b: seq<Stock>)
    decreases |b|
  {
    if a == [] then true
    else if b == [] then false
    else if a[0] == b[0] then IsSubsequence(a[1..], b[1..])
    else IsSubsequence(a, b[1..])
  }

  /** Dropping the first kept element keeps the embedding. */
  lemma {:induction false} SubsequenceDropHead(a: seq<Stock>, b: seq<Stock>)
    requires a != [] && IsSubsequence(a, b)
    ensures IsSubsequence(a[1..], b)
    decreases |b|, 0
  {
    if a[0] == b[0] {
      SubsequenceWeaken(a[1..], b[1..], b[0]);
    } else {
      SubsequenceDropHead(a, b[1..]);
      SubsequenceWeaken(a[1..], b[1..], b[0]);
    }
    assert [b[0]] + b[1..] == b;
  }

  /** Putting an element in front of b keeps the embedding. */
  lemma {:induction false} SubsequenceWeaken(a: seq<Stock>, b: seq<Stock>, x: Stock)
    requires IsSubsequence(a, b)
    ensures IsSubsequence(a, [x] + b)
    decreases |b|, 1
  {
    assert ([x] + b)[1..] == b;
    if a != [] && a[0] == x {
      SubsequenceDropHead(a, b);
    }
  }

  /** What the filter keeps is the input with some stocks dropped, in the original order. */
  lemma {:induction false} SelectedIsSubsequence(xs: seq<Stock>, term: string, category: string)
    ensures IsSubsequence(Selected(xs, term, category), xs)
    decreases |xs|
  {
    if xs != [] {
      SelectedIsSubsequence(xs[1..], term, category);
      var rest := Selected(xs[1..], term, category);
      if Keep(xs[0], term, category) {
        assert ([xs[0]] + rest)[1..] == rest;
      } else {
        assert Selected(xs, term, category) == rest;
        SubsequenceWeaken(rest, xs[1..], xs[0]);
        assert [xs[0]] + xs[1..] == xs;
      }
    }
  }

  /** A stock is kept iff it passes the search and the category tests. */
  lemma {:induction false} SelectedMembership(xs: seq<Stock>, term: string, category: string, s: Stock)
    ensures s in Selected(xs, term, category) <==> s in xs && Keep(s, term, category)
    decreases |xs|
  {
    if xs != [] {
      SelectedMembership(xs[1..], term, category, s);
      assert xs == [xs[0]] + xs[1..];
    }
  }

  /** Filtering a filtered list again changes nothing. */
  lemma {:induction false} SelectedIdempotent(xs: seq<Stock>, term: string, category: string)
    ensures Selected(Selected(xs, term, category), term, category) == Selected(xs, term, category)
    decreases |xs|
  {
    if xs != [] {
      SelectedIdempotent(xs[1..], term, category);
      var rest := Selected(xs[1..], term, category);
      if Keep(xs[0], term, category) {
        var kept := [xs[0]] + rest;
        assert Selected(xs, term, category) == kept;
        assert kept[0] == xs[0] && kept[1..] == rest;
        assert Selected(kept, term, category) == [xs[0]] + Selected(rest, term, category);
      } else {
        assert Selected(xs, term, category) == rest;
      }
    }
  }

  // ---------- watchlist ----------

  datatype WatchlistItem = WatchlistItem(stockTicker: string, stockName: string)

  /** isInWatchlist. */
  function IsInWatchlist(watchlist: seq<WatchlistItem>, ticker: string): (r: bool)
    ensures r <==> exists i :: 0 <= i < |watchlist| && watchlist[i].stockTicker == ticker
  {
    if watchlist == [] then false
    else watchlist[0].stockTicker == ticker || IsInWatchlist(watchlist[1..], ticker)
  }

  // ---------- price merge ----------

  datatype PriceUpdate = PriceUpdate(ticker: string, currentPrice: real)

  /** `prices.find(p => p.ticker === ticker)`: the first update for the ticker. */
  function FindPrice(prices: seq<PriceUpdate>, ticker: string): (r: Option<nat>)
    ensures r.None? <==> forall i :: 0 <= i < |prices| ==> prices[i].ticker != ticker
    ensures r.Some? ==> r.value < |prices| && prices[r.value].ticker == ticker
                        && forall j :: 0 <= j < r.value ==> prices[j].ticker != ticker
  {
    if prices == [] then None
    else if prices[0].ticker == ticker then Some(0)
    else match FindPrice(prices[1..], ticker)
         case Some(i) => Some(i + 1)
         case None => None
  }

  /** The price change in percent; None where the old price is 0 and the division has no finite value. */
  function PercentChange(oldPrice: real, newPrice: real): (r: Option<real>)
    ensures r.Some? <==> oldPrice != 0.0
    ensures r.Some? ==> newPrice == oldPrice * (1.0 + r.value / 100.0)
  {
    if oldPrice == 0.0 then None else Some((newPrice - oldPrice) / oldPrice * 100.0)
  }

  /** One stock after an update: the old price moves to previous_price. */
  function Merge(stock: Stock, prices: seq<PriceUpdate>): (r: Stock)
    ensures r.ticker == stock.ticker && r.name == stock.name && r.sector == stock.sector && r.category == stock.category
    ensures FindPrice(prices, stock.ticker).None? ==> r == stock
    ensures FindPrice(prices, stock.ticker).Some? ==> ChangeConsistent(r) && r.previousPrice == Some(stock.currentPrice)
  {
    match FindPrice(prices, stock.ticker)
    case None => stock
    case Some(i) =>
      var p := prices[i].currentPrice;
      stock.(currentPrice := p, previousPrice := Some(stock.currentPrice),
             priceChange := Some(p - stock.currentPrice),
             priceChangePercent := PercentChange(stock.currentPrice, p))
  }

  /** The state update in updatePrices. */
  function UpdatePrices(stocks: seq<Stock>, prices: seq<PriceUpdate>): (r: seq<Stock>)
    ensures |r| == |stocks|
    ensures forall i :: 0 <= i < |r| ==>
      r[i].ticker == stocks[i].ticker && r[i].name == stocks[i].name
      && r[i].sector == stocks[i].sector && r[i].category == stocks[i].category
    ensures forall i :: 0 <= i < |r| && FindPrice(prices, stocks[i].ticker).None? ==> r[i] == stocks[i]
    ensures forall i :: 0 <= i < |r| && FindPrice(prices, stocks[i].ticker).Some? ==>
      var u := prices[FindPrice(prices, stocks[i].ticker).value];
      u.ticker == stocks[i].ticker && r[i].currentPrice == u.currentPrice
      && r[i].previousPrice == Some(stocks[i].currentPrice)
      && r[i].priceChange == Some(u.currentPrice - stocks[i].currentPrice)
      && r[i].priceChangePercent == PercentChange(stocks[i].currentPrice, u.currentPrice)
  {
    seq(|stocks|, i requires 0 <= i < |stocks| => Merge(stocks[i], prices))
  }

  /** The change shown matches the two prices shown. */
  predicate ChangeConsistent(s: Stock) {
    s.previousPrice.Some? ==> s.priceChange == Some(s.currentPrice - s.previousPrice.value)
  }

  /** A merge keeps every stock's change consistent with its prices. */
  lemma UpdatePricesConsistent(stocks: seq<Stock>, prices: seq<PriceUpdate>)
    requires forall i :: 0 <= i < |stocks| ==> ChangeConsistent(stocks[i])
    ensures forall i :: 0 <= i < |stocks| ==> ChangeConsistent(UpdatePrices(stocks, prices)[i])
  {
  }

  /** Stocks matched by an update never get a percent for an old price of 0. */
  lemma PercentOnlyForNonzeroOldPrice(s: Stock, prices: seq<PriceUpdate>)
    requires FindPrice(prices, s.ticker).Some?
    ensures Merge(s, prices).priceChangePercent.Some? <==> s.currentPrice != 0.0
  {
  }

  // ---------- category default ----------

  /** `stock.category || (ticker has BTC or ETH ? 'crypto' : 'stocks')`. */
  function DefaultCategory(category: string, ticker: string): (r: string)
    ensures r != ""
    ensures category != "" ==> r == category
    ensures category == "" ==> (r == "crypto" <==> Contains(ticker, "BTC") || Contains(ticker, "ETH"))
    ensures category == "" ==> (r == "stocks" <==> !(Contains(ticker, "BTC") || Contains(ticker, "ETH")))
  {
    if category != "" then category
    else if Contains(ticker, "BTC") || Contains(ticker, "ETH") then "crypto"
    else "stocks"
  }

  // ---------- CSV export ----------

  function Quote(cell: string): string {
    "\"" + cell + "\""
  }

  function QuoteAll(row: seq<string>): (r: seq<string>)
    ensures |r| == |row| && forall i :: 0 <= i < |row| ==> r[i] == Quote(row[i])
  {
    seq(|row|, i requires 0 <= i < |row| => Quote(row[i]))
  }

  function CsvLine(row: seq<string>): string {
    Join(",", QuoteAll(row))
  }

  function CsvLines(rows: seq<seq<string>>): (r: seq<string>)
    ensures |r| == |rows| && forall i :: 0 <= i < |rows| ==> r[i] == CsvLine(rows[i])
  {
    seq(|rows|, i requires 0 <= i < |rows| => CsvLine(rows[i]))
  }

  /** generateCSV's content: quoted cells joined by commas, rows joined by newlines. */
  function Csv(rows: seq<seq<string>>): string {
    Join("\n", CsvLines(rows))
  }

  /** Without newlines inside cells, the export has one line per row. */
  lemma CsvLineCount(rows: seq<seq<string>>)
    requires |rows| > 0
    requires forall i, j :: 0 <= i < |rows| && 0 <= j < |rows[i]| ==> CountChar(rows[i][j], '\n') == 0
    ensures CountChar(Csv(rows), '\n') == |rows| - 1
  {
    var lines := CsvLines(rows);
    forall i | 0 <= i < |lines|
      ensures CountChar(lines[i], '\n') == 0
    {
      var quoted := QuoteAll(rows[i]);
      forall j | 0 <= j < |quoted|
        ensures CountChar(quoted[j], '\n') == 0
      {
        CountCharAppend("\"" + rows[i][j], "\"", '\n');
        CountCharAppend("\"", rows[i][j], '\n');
      }
      JoinWithoutChar('\n', ",", quoted);
    }
    JoinCountsSeparators('\n', lines);
  }

  /** Cells are not escaped: quoting adds exactly two quote characters, whatever the cell holds. */
  lemma QuoteAddsTwoQuotes(cell: string)
    ensures CountChar(Quote(cell), '"') == CountChar(cell, '"') + 2
  {
    CountCharAppend("\"" + cell, "\"", '"');
    CountCharAppend("\"", cell, '"');
    assert CountChar("\"", '"') == 1 by {
      assert "\""[..0] == [];
    }
  }
}
