/**
 * The server's stock predictor: a fixed catalogue of stocks in three risk
 * categories, a risk score and a one-year return prediction computed from
 * beta, volatility and dividend yield, recommendations sorted by predicted
 * return, and a case-insensitive lookup by ticker.
 */
module StockPredictor {
  import opened Common
  import opened Text
  import FinancialVisualization

  /**
   * One catalogue entry. Missing metrics are None and take the defaults the
   * predictors use; `category` is None until a predictor writes it.
   */
  datatype StockRecord = StockRecord(ticker: string, name: string, currentPrice: real,
                                     beta: Option<real>, volatility: Option<real>, dividendYield: Option<real>,
                                     sector: string, predictedReturn: real, riskScore: real,
                                     category: Option<string>)

  /** (min(beta, 3) / 3 * 0.6 + min(volatility, 1) * 0.4) * 10, before rounding. */
  function RawRiskScore(s: StockRecord): real {
    var betaNorm := Min(s.beta.GetOr(1.0), 3.0) / 3.0;
    var volNorm := Min(s.volatility.GetOr(0.3), 1.0);
    (betaNorm * 0.6 + volNorm * 0.4) * 10.0
  }

  /** calculate_risk_score: within 0.05 of the raw score; in [0, 10] when beta and volatility are not negative. */
  function RiskScore(s: StockRecord): (r: real)
    ensures RawRiskScore(s) - 0.05 < r <= RawRiskScore(s) + 0.05
    ensures 0.0 <= s.beta.GetOr(1.0) && 0.0 <= s.volatility.GetOr(0.3) ==> 0.0 <= r <= 10.0
  {
    var raw := RawRiskScore(s);
    if 0.0 <= s.beta.GetOr(1.0) && 0.0 <= s.volatility.GetOr(0.3) then
      assert 0.0 <= raw <= 10.0;
      Round1Below(raw, 100);
      Round1Above(raw, 0);
      Round1(raw)
    else Round1(raw)
  }

  /** The cap on the prediction: 12 for beta < 0.8, 40 for beta > 1.5, else 20. */
  function ReturnCap(beta: real): (cap: real)
    ensures beta < 0.8 ==> cap == 12.0
    ensures 0.8 <= beta <= 1.5 ==> cap == 20.0
    ensures beta > 1.5 ==> cap == 40.0
  {
    if beta < 0.8 then 12.0 else if beta > 1.5 then 40.0 else 20.0
  }

  /** volatility * 30 + (beta - 1) * 5 + dividend yield * 2, before capping. */
  function RawReturn(s: StockRecord): real {
    s.volatility.GetOr(0.3) * 30.0 + (s.beta.GetOr(1.0) - 1.0) * 5.0 + s.dividendYield.GetOr(0.0) * 2.0
  }

  /** predict_returns: the raw estimate capped by beta, rounded to one decimal. */
  function PredictReturns(s: StockRecord): (r: real)
    ensures r <= ReturnCap(s.beta.GetOr(1.0))
    ensures var v := Min(RawReturn(s), ReturnCap(s.beta.GetOr(1.0))); v - 0.05 < r <= v + 0.05
  {
    var cap := ReturnCap(s.beta.GetOr(1.0));
    var v := Min(RawReturn(s), cap);
    Round1Below(v, if cap == 12.0 then 120 else if cap == 40.0 then 400 else 200);
    Round1(v)
  }

  /** The catalogue list get_recommendations reads for a risk tolerance. */
  function CategoryFor(riskTolerance: int): (c: string)
    ensures riskTolerance <= 3 ==> c == "conservative"
    ensures 3 < riskTolerance <= 7 ==> c == "moderate"
    ensures 7 < riskTolerance ==> c == "aggressive"
  {
    if riskTolerance <= 3 then "conservative"
    else if riskTolerance <= 7 then "moderate"
    else "aggressive"
  }

  /** The server's category choice uses the client's thresholds. */
  lemma CategoryForMatchesClient(riskTolerance: int)
    ensures CategoryFor(riskTolerance) == FinancialVisualization.MapRiskValue(riskTolerance as real)
  {
  }

  predicate IsCrypto(ticker: string, name: string) {
    ticker == "BTC" || ticker == "ETH" || Contains(name, "Bitcoin") || Contains(name, "Ethereum")
  }

  predicate IsEtf(ticker: string, name: string) {
    Contains(name, "ETF") || ticker == "SPY" || ticker == "VTI" || ticker == "VXUS" || ticker == "BND"
  }

  predicate IsBond(name: string, sector: string) {
    sector == "Bonds" || Contains(name, "Bond")
  }

  /** The asset category, with crypto before etf before bonds before stocks. */
  function AssetCategory(ticker: string, name: string, sector: string): (r: string)
    ensures r == "crypto" <==> IsCrypto(ticker, name)
    ensures r == "etf" <==> !IsCrypto(ticker, name) && IsEtf(ticker, name)
    ensures r == "bonds" <==> !IsCrypto(ticker, name) && !IsEtf(ticker, name) && IsBond(name, sector)
    ensures r == "stocks" <==> !IsCrypto(ticker, name) && !IsEtf(ticker, name) && !IsBond(name, sector)
  {
    if IsCrypto(ticker, name) then "crypto"
    else if IsEtf(ticker, name) then "etf"
    else if IsBond(name, sector) then "bonds"
    else "stocks"
  }

  /** The fields the recommendation loop writes into one entry. */
  function Enrich(s: StockRecord): (r: StockRecord)
    ensures r.predictedReturn == PredictReturns(s) && r.riskScore == RiskScore(s)
    ensures r.category == Some(AssetCategory(s.ticker, s.name, s.sector))
    ensures r.(predictedReturn := s.predictedReturn, riskScore := s.riskScore, category := s.category) == s
  {
    s.(predictedReturn := PredictReturns(s), riskScore := RiskScore(s),
       category := Some(AssetCategory(s.ticker, s.name, s.sector)))
  }

  /** The overwritten fields are not read by the predictors, so enriching twice is enriching once. */
  lemma EnrichIdempotent(s: StockRecord)
    ensures Enrich(Enrich(s)) == Enrich(s)
  {
  }

  function EnrichAll(xs: seq<StockRecord>): (r: seq<StockRecord>)
    ensures |r| == |xs|
    ensures forall i :: 0 <= i < |xs| ==> r[i] == Enrich(xs[i])
  {
    seq(|xs|, i requires 0 <= i < |xs| => Enrich(xs[i]))
  }

  /** The enrichment loop of get_recommendations: each entry replaced by its enriched form, in place. */
  method EnrichEach(xs: seq<StockRecord>) returns (stocks: seq<StockRecord>)
    ensures stocks == EnrichAll(xs)
  {
    stocks := xs;
    var k := 0;
    while k < |stocks|
      invariant 0 <= k <= |stocks| && |stocks| == |xs|
      invariant forall i :: 0 <= i < k ==> stocks[i] == Enrich(xs[i])
      invariant forall i :: k <= i < |stocks| ==> stocks[i] == xs[i]
    {
      stocks := stocks[k := Enrich(stocks[k])];
      k := k + 1;
    }
  }

  /** Highest predicted return first. */
  predicate SortedByReturn(xs: seq<StockRecord>) {
    forall i, j :: 0 <= i < j < |xs| ==> xs[i].predictedReturn >= xs[j].predictedReturn
  }

  /** Put x after every entry with a higher predicted return, before the first equal or lower one. */
  function Insert(x: StockRecord, ys: seq<StockRecord>): (r: seq<StockRecord>)
    ensures multiset(r) == multiset(ys) + multiset{x}
  {
    if ys == [] || x.predictedReturn >= ys[0].predictedReturn then [x] + ys
    else
      assert ys == [ys[0]] + ys[1..];
      [ys[0]] + Insert(x, ys[1..])
  }

  /** list.sort(key=predicted_return_1yr, reverse=True), a stable sort. */
  function SortByReturn(xs: seq<StockRecord>): (r: seq<StockRecord>)
    ensures multiset(r) == multiset(xs)
  {
    if xs == [] then []
    else
      assert xs == [xs[0]] + xs[1..];
      Insert(xs[0], SortByReturn(xs[1..]))
  }

  /** Inserting an entry no higher than a bound into entries no higher than it keeps them all below it. */
  lemma {:induction false} InsertBounded(x: StockRecord, ys: seq<StockRecord>, bound: real)
    requires x.predictedReturn <= bound
    requires forall i :: 0 <= i < |ys| ==> ys[i].predictedReturn <= bound
    ensures forall i :: 0 <= i < |Insert(x, ys)| ==> Insert(x, ys)[i].predictedReturn <= bound
    decreases |ys|
  {
    if ys != [] && x.predictedReturn < ys[0].predictedReturn {
      var tail := ys[1..];
      assert forall i :: 0 <= i < |tail| ==> tail[i] == ys[i + 1];
      InsertBounded(x, tail, bound);
    }
  }

  lemma {:induction false} InsertSorted(x: StockRecord, ys: seq<StockRecord>)
    requires SortedByReturn(ys)
    ensures SortedByReturn(Insert(x, ys))
    decreases |ys|
  {
    if ys != [] && x.predictedReturn < ys[0].predictedReturn {
      var tail := ys[1..];
      assert forall i :: 0 <= i < |tail| ==> tail[i] == ys[i + 1];
      InsertSorted(x, tail);
      InsertBounded(x, tail, ys[0].predictedReturn);
    }
  }

  lemma {:induction false} SortByReturnSorted(xs: seq<StockRecord>)
    ensures SortedByReturn(SortByReturn(xs))
  {
    if xs != [] {
      SortByReturnSorted(xs[1..]);
      InsertSorted(xs[0], SortByReturn(xs[1..]));
    }
  }

  /** The entries whose predicted return is v, in the order they come in. */
  function WithReturn(xs: seq<StockRecord>, v: real): (r: seq<StockRecord>)
    ensures forall i :: 0 <= i < |r| ==> r[i].predictedReturn == v
  {
    if xs == [] then []
    else (if xs[0].predictedReturn == v then [xs[0]] else []) + WithReturn(xs[1..], v)
  }

  lemma WithReturnCons(a: StockRecord, t: seq<StockRecord>, v: real)
    ensures WithReturn([a] + t, v) == (if a.predictedReturn == v then [a] else []) + WithReturn(t, v)
  {
    assert ([a] + t)[1..] == t;
  }

  /** Insertion passes only entries with a higher return, so x keeps its place among its equals. */
  lemma {:induction false} InsertStable(x: StockRecord, ys: seq<StockRecord>, v: real)
    ensures WithReturn(Insert(x, ys), v) == WithReturn([x] + ys, v)
    decreases |ys|
  {
    if ys != [] && x.predictedReturn < ys[0].predictedReturn {
      var t := ys[1..];
      assert ys == [ys[0]] + t;
      assert Insert(x, ys) == [ys[0]] + Insert(x, t);
      InsertStable(x, t, v);
      WithReturnCons(ys[0], Insert(x, t), v);
      WithReturnCons(x, t, v);
      WithReturnCons(ys[0], t, v);
      WithReturnCons(x, ys, v);
      var rest := WithReturn(t, v);
      if x.predictedReturn == v {
        assert WithReturn(ys, v) == rest;
        assert WithReturn(Insert(x, ys), v) == WithReturn(Insert(x, t), v);
      } else {
        assert WithReturn([x] + t, v) == rest;
        assert WithReturn([x] + ys, v) == WithReturn(ys, v);
      }
    }
  }

  /** The sort is stable: entries with equal predicted returns keep their relative order. */
  lemma {:induction false} SortStable(xs: seq<StockRecord>, v: real)
    ensures WithReturn(SortByReturn(xs), v) == WithReturn(xs, v)
  {
    if xs != [] {
      SortStable(xs[1..], v);
      InsertStable(xs[0], SortByReturn(xs[1..]), v);
      assert ([xs[0]] + SortByReturn(xs[1..]))[1..] == SortByReturn(xs[1..]);
    }
  }

  /** Sorting an already sorted list leaves it as it is. */
  lemma {:induction false} SortSortedIsIdentity(xs: seq<StockRecord>)
    requires SortedByReturn(xs)
    ensures SortByReturn(xs) == xs
  {
    if xs != [] {
      assert SortedByReturn(xs[1..]) by {
        forall i, j | 0 <= i < j < |xs[1..]|
          ensures xs[1..][i].predictedReturn >= xs[1..][j].predictedReturn
        {
          assert xs[1..][i] == xs[i + 1] && xs[1..][j] == xs[j + 1];
        }
      }
      SortSortedIsIdentity(xs[1..]);
      assert xs == [xs[0]] + xs[1..];
    }
  }

  /** What get_recommendations returns for a catalogue list. */
  function Recommend(stocks: seq<StockRecord>): seq<StockRecord> {
    SortByReturn(EnrichAll(stocks))
  }

  /** A recommendation is a permutation of the enriched list, highest predicted return first. */
  lemma RecommendSortedPermutation(stocks: seq<StockRecord>)
    ensures multiset(Recommend(stocks)) == multiset(EnrichAll(stocks))
    ensures SortedByReturn(Recommend(stocks))
    ensures |Recommend(stocks)| == |stocks|
  {
    SortByReturnSorted(EnrichAll(stocks));
    assert |Recommend(stocks)| == |multiset(Recommend(stocks))| == |multiset(EnrichAll(stocks))|;
  }

  /** Sorting keeps every entry, so an entry-wise fact about the enriched list holds for the recommendation. */
  lemma RecommendMembers(stocks: seq<StockRecord>, s: StockRecord)
    ensures s in Recommend(stocks) <==> s in EnrichAll(stocks)
  {
    assert s in multiset(Recommend(stocks)) <==> s in multiset(EnrichAll(stocks));
  }

  /** Every entry of an enriched list is enriched already. */
  lemma EnrichAllOfEnriched(stocks: seq<StockRecord>)
    requires forall i :: 0 <= i < |stocks| ==> Enrich(stocks[i]) == stocks[i]
    ensures EnrichAll(stocks) == stocks
  {
  }

  /** A second call over the list the first one left behind returns the same list. */
  lemma {:induction false} RecommendTwice(stocks: seq<StockRecord>)
    ensures Recommend(Recommend(stocks)) == Recommend(stocks)
  {
    var r := Recommend(stocks);
    forall i | 0 <= i < |r|
      ensures Enrich(r[i]) == r[i]
    {
      RecommendMembers(stocks, r[i]);
      var k :| 0 <= k < |stocks| && EnrichAll(stocks)[k] == r[i];
      EnrichIdempotent(stocks[k]);
    }
    EnrichAllOfEnriched(r);
    SortByReturnSorted(EnrichAll(stocks));
    SortSortedIsIdentity(r);
  }

  /** Beta below 0.8 and volatility below 0.25 is Conservative; beta above 1.2 and volatility above 0.5 is Aggressive. */
  function CategorizeStock(beta: real, volatility: real): (r: string)
    ensures r == "Conservative" <==> beta < 0.8 && volatility < 0.25
    ensures r == "Aggressive" <==> beta > 1.2 && volatility > 0.5
    ensures r == "Moderate" <==> !(beta < 0.8 && volatility < 0.25) && !(beta > 1.2 && volatility > 0.5)
  {
    if beta < 0.8 && volatility < 0.25 then "Conservative"
    else if beta > 1.2 && volatility > 0.5 then "Aggressive"
    else "Moderate"
  }

  /** No stock meets both the Conservative and the Aggressive condition. */
  lemma CategoriesDisjoint(beta: real, volatility: real)
    ensures !((beta < 0.8 && volatility < 0.25) && (beta > 1.2 && volatility > 0.5))
  {
  }

  /** Index of the first entry whose upper-cased ticker equals the upper-cased query. */
  function FirstTickerMatch(stocks: seq<StockRecord>, ticker: string): (r: Option<nat>)
    ensures r.None? <==> forall i :: 0 <= i < |stocks| ==> Upper(stocks[i].ticker) != Upper(ticker)
    ensures r.Some? ==> r.value < |stocks| && Upper(stocks[r.value].ticker) == Upper(ticker)
    ensures r.Some? ==> forall i :: 0 <= i < r.value ==> Upper(stocks[i].ticker) != Upper(ticker)
  {
    if stocks == [] then None
    else if Upper(stocks[0].ticker) == Upper(ticker) then Some(0)
    else match FirstTickerMatch(stocks[1..], ticker)
      case Some(k) => Some(k + 1)
      case None => None
  }

  /** The entry get_stock_details returns: the match with its category, judged by the upper-cased query. */
  function WithDetails(s: StockRecord, ticker: string): StockRecord {
    s.(category := Some(AssetCategory(Upper(ticker), s.name, s.sector)))
  }

  /** The category lists as shipped; every entry has all metrics. */
  function ShippedConservative(): seq<StockRecord> {
    [StockRecord("AAPL", "Apple Inc.", 178.50, Some(1.15), Some(0.22), Some(0.52), "Technology", 8.5, 2.5, None),
     StockRecord("MSFT", "Microsoft Corporation", 378.85, Some(0.90), Some(0.25), Some(0.75), "Technology", 9.2, 2.8, None),
     StockRecord("JNJ", "Johnson & Johnson", 155.30, Some(0.60), Some(0.18), Some(3.12), "Healthcare", 6.5, 1.5, None),
     StockRecord("VZ", "Verizon Communications", 41.20, Some(0.45), Some(0.15), Some(6.80), "Telecommunications", 5.8, 1.2, None),
     StockRecord("KO", "The Coca-Cola Company", 59.85, Some(0.55), Some(0.16), Some(3.15), "Consumer Staples", 5.2, 1.0, None)]
  }

  function ShippedModerate(): seq<StockRecord> {
    [StockRecord("GOOGL", "Alphabet Inc.", 142.30, Some(1.05), Some(0.30), Some(0.00), "Technology", 12.5, 5.0, None),
     StockRecord("AMZN", "Amazon.com Inc.", 146.80, Some(1.18), Some(0.35), Some(0.00), "Consumer Discretionary", 11.8, 5.5, None),
     StockRecord("META", "Meta Platforms Inc.", 383.50, Some(1.25), Some(0.40), Some(0.50), "Technology", 13.2, 6.0, None),
     StockRecord("DIS", "The Walt Disney Company", 96.20, Some(1.30), Some(0.32), Some(0.45), "Entertainment", 10.5, 5.8, None),
     StockRecord("NFLX", "Netflix Inc.", 485.40, Some(1.45), Some(0.45), Some(0.00), "Entertainment", 15.2, 7.0, None)]
  }

  function ShippedAggressive(): seq<StockRecord> {
    [StockRecord("TSLA", "Tesla Inc.", 248.60, Some(1.85), Some(0.65), Some(0.00), "Automotive", 22.5, 9.0, None),
     StockRecord("NVDA", "NVIDIA Corporation", 878.40, Some(1.65), Some(0.55), Some(0.03), "Technology", 28.5, 8.5, None),
     StockRecord("AMD", "Advanced Micro Devices", 151.20, Some(1.70), Some(0.60), Some(0.00), "Technology", 25.3, 8.8, None),
     StockRecord("RIVN", "Rivian Automotive", 14.85, Some(2.10), Some(0.75), Some(0.00), "Automotive", 35.0, 9.5, None),
     StockRecord("SNOW", "Snowflake Inc.", 178.90, Some(1.55), Some(0.58), Some(0.00), "Technology", 20.8, 8.2, None)]
  }

  predicate NoMarkerLetters(name: string) {
    forall k :: 0 <= k < |name| ==> name[k] != 'B' && name[k] != 'E'
  }

  /** An entry whose name lacks 'B' and 'E' and whose ticker and sector are not special. */
  predicate PlainEntry(s: StockRecord) {
    NoMarkerLetters(s.name) && s.sector != "Bonds" && s.ticker !in ["BTC", "ETH", "SPY", "VTI", "VXUS", "BND"]
  }

  /** Such an entry contains none of the crypto, ETF or bond markers. */
  lemma PlainEntryIsStock(s: StockRecord)
    requires PlainEntry(s)
    ensures AssetCategory(s.ticker, s.name, s.sector) == "stocks"
  {
    assert 'B' !in s.name && 'E' !in s.name;
    AbsentFirstChar(s.name, "Bitcoin");
    AbsentFirstChar(s.name, "Ethereum");
    AbsentFirstChar(s.name, "ETF");
    AbsentFirstChar(s.name, "Bond");
  }

  lemma ConservativeNames()
    ensures NoMarkerLetters("Apple Inc.") && NoMarkerLetters("Microsoft Corporation") && NoMarkerLetters("Johnson & Johnson") && NoMarkerLetters("Verizon Communications") && NoMarkerLetters("The Coca-Cola Company")
  {
    assert NoMarkerLetters("Apple Inc.");
    assert NoMarkerLetters("Microsoft Corporation");
    assert NoMarkerLetters("Johnson & Johnson");
    assert NoMarkerLetters("Verizon Communications");
    assert NoMarkerLetters("The Coca-Cola Company");
  }

  lemma ConservativeArePlain()
    ensures forall s :: s in ShippedConservative() ==> PlainEntry(s)
  {
    ConservativeNames();
  }

  lemma ModerateNames()
    ensures NoMarkerLetters("Alphabet Inc.") && NoMarkerLetters("Amazon.com Inc.") && NoMarkerLetters("Meta Platforms Inc.") && NoMarkerLetters("The Walt Disney Company") && NoMarkerLetters("Netflix Inc.")
  {
    assert NoMarkerLetters("Alphabet Inc.");
    assert NoMarkerLetters("Amazon.com Inc.");
    assert NoMarkerLetters("Meta Platforms Inc.");
    assert NoMarkerLetters("The Walt Disney Company");
    assert NoMarkerLetters("Netflix Inc.");
  }

  lemma ModerateArePlain()
    ensures forall s :: s in ShippedModerate() ==> PlainEntry(s)
  {
    ModerateNames();
  }

  lemma AggressiveNames()
    ensures NoMarkerLetters("Tesla Inc.") && NoMarkerLetters("NVIDIA Corporation") && NoMarkerLetters("Advanced Micro Devices") && NoMarkerLetters("Rivian Automotive") && NoMarkerLetters("Snowflake Inc.")
  {
    assert NoMarkerLetters("Tesla Inc.");
    assert NoMarkerLetters("NVIDIA Corporation");
    assert NoMarkerLetters("Advanced Micro Devices");
    assert NoMarkerLetters("Rivian Automotive");
    assert NoMarkerLetters("Snowflake Inc.");
  }

  lemma AggressiveArePlain()
    ensures forall s :: s in ShippedAggressive() ==> PlainEntry(s)
  {
    AggressiveNames();
  }

  /** Every shipped entry is categorised as 'stocks'. */
  lemma ShippedEntriesAreStocks()
    ensures forall s :: s in ShippedConservative() + ShippedModerate() + ShippedAggressive() ==>
      AssetCategory(s.ticker, s.name, s.sector) == "stocks"
  {
    ConservativeArePlain();
    ModerateArePlain();
    AggressiveArePlain();
    forall s | s in ShippedConservative() + ShippedModerate() + ShippedAggressive()
      ensures AssetCategory(s.ticker, s.name, s.sector) == "stocks"
    {
      PlainEntryIsStock(s);
    }
  }

  /** STOCK_DATA, which both predictors update in place. */
  class StockCatalog {
    var conservative: seq<StockRecord>
    var moderate: seq<StockRecord>
    var aggressive: seq<StockRecord>

    constructor()
      ensures conservative == ShippedConservative()
      ensures moderate == ShippedModerate()
      ensures aggressive == ShippedAggressive()
    {
      conservative := ShippedConservative();
      moderate := ShippedModerate();
      aggressive := ShippedAggressive();
    }

    /** The list stored under a category name. */
    function List(category: string): seq<StockRecord>
      reads this
    {
      if category == "conservative" then conservative
      else if category == "moderate" then moderate
      else aggressive
    }

    /** The three lists in the lookup order. */
    function AllStocks(): seq<StockRecord>
      reads this
    {
      conservative + moderate + aggressive
    }

    /**
     * get_recommendations: enrich every entry of the chosen list, sort it
     * in place by predicted return, highest first, and return it.
     */
    method GetRecommendations(riskTolerance: int) returns (stocks: seq<StockRecord>)
      modifies this`conservative, this`moderate, this`aggressive
      ensures stocks == Recommend(old(List(CategoryFor(riskTolerance))))
      ensures List(CategoryFor(riskTolerance)) == stocks
      ensures CategoryFor(riskTolerance) != "conservative" ==> conservative == old(conservative)
      ensures CategoryFor(riskTolerance) != "moderate" ==> moderate == old(moderate)
      ensures CategoryFor(riskTolerance) != "aggressive" ==> aggressive == old(aggressive)
    {
      var category := CategoryFor(riskTolerance);
      stocks := EnrichEach(List(category));
      stocks := SortByReturn(stocks);
      if category == "conservative" {
        conservative := stocks;
      } else if category == "moderate" {
        moderate := stocks;
      } else {
        aggressive := stocks;
      }
    }

    /** Writes an entry back into whichever list holds position i of the lookup order. */
    method StoreAt(i: nat, found: StockRecord)
      requires i < |AllStocks()|
      modifies this`conservative, this`moderate, this`aggressive
      ensures AllStocks() == old(AllStocks())[i := found]
      ensures |conservative| == old(|conservative|) && |moderate| == old(|moderate|) && |aggressive| == old(|aggressive|)
    {
      if i < |conservative| {
        conservative := conservative[i := found];
      } else if i < |conservative| + |moderate| {
        moderate := moderate[i - |conservative| := found];
      } else {
        aggressive := aggressive[i - |conservative| - |moderate| := found];
      }
    }

    /**
     * get_stock_details: the first entry, across the three lists in order,
     * whose ticker matches case-insensitively; its category is written into
     * the catalogue and it is returned. None when nothing matches.
     */
    method GetStockDetails(ticker: string) returns (r: Option<StockRecord>)
      modifies this`conservative, this`moderate, this`aggressive
      ensures FirstTickerMatch(old(AllStocks()), ticker).None? ==> r.None? && AllStocks() == old(AllStocks())
      ensures FirstTickerMatch(old(AllStocks()), ticker).Some? ==>
        var k := FirstTickerMatch(old(AllStocks()), ticker).value;
        r == Some(WithDetails(old(AllStocks())[k], ticker))
        && AllStocks() == old(AllStocks())[k := WithDetails(old(AllStocks())[k], ticker)]
      ensures |conservative| == old(|conservative|) && |moderate| == old(|moderate|) && |aggressive| == old(|aggressive|)
    {
      var allStocks := AllStocks();
      var i := 0;
      while i < |allStocks|
        invariant 0 <= i <= |allStocks|
        invariant conservative == old(conservative) && moderate == old(moderate) && aggressive == old(aggressive)
        invariant forall j :: 0 <= j < i ==> Upper(allStocks[j].ticker) != Upper(ticker)
      {
        if Upper(allStocks[i].ticker) == Upper(ticker) {
          var found := WithDetails(allStocks[i], ticker);
          StoreAt(i, found);
          return Some(found);
        }
        i := i + 1;
      }
      return None;
    }
  }
}
