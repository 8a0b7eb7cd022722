/**
 * The portfolio preview: a pie chart of the assets, the allocation total
 * per category, the mean risk score and a validation that reports an error
 * when the allocations do not add up to 100% and warnings for a high crypto
 * share, a low stock share and a high mean risk.
 */
module PortfolioPreview {
  import opened Common

  /** `category` is one of 'stocks', 'bonds', 'etf', 'crypto' in the source's type. */
  datatype Asset = Asset(ticker: string, name: string, allocation: real, category: string, riskScore: real)

  datatype ChartEntry = ChartEntry(name: string, value: real, category: string)

  /** A validation finding; the allocation error carries the total it reports. */
  datatype Issue = AllocationOff(total: real) | CryptoHigh | StocksLow | RiskHigh

  function Message(issue: Issue): string {
    match issue
    case AllocationOff(_) => "Total allocation should be 100%"
    case CryptoHigh => "Cryptocurrency allocation exceeds recommended 10%"
    case StocksLow => "Stock allocation is very low for long-term growth"
    case RiskHigh => "Portfolio has very high risk - consider diversification"
  }

  /** One pie slice per asset, in order. */
  function ChartData(assets: seq<Asset>): (r: seq<ChartEntry>)
    ensures |r| == |assets|
    ensures forall i :: 0 <= i < |assets| ==>
      r[i] == ChartEntry(assets[i].ticker, assets[i].allocation, assets[i].category)
  {
    seq(|assets|, i requires 0 <= i < |assets| =>
      ChartEntry(assets[i].ticker, assets[i].allocation, assets[i].category))
  }

  function Allocations(assets: seq<Asset>): (r: seq<real>)
    ensures |r| == |assets| && forall i :: 0 <= i < |assets| ==> r[i] == assets[i].allocation
  {
    seq(|assets|, i requires 0 <= i < |assets| => assets[i].allocation)
  }

  function ChartValues(chart: seq<ChartEntry>): (r: seq<real>)
    ensures |r| == |chart| && forall i :: 0 <= i < |chart| ==> r[i] == chart[i].value
  {
    seq(|chart|, i requires 0 <= i < |chart| => chart[i].value)
  }

  /** The slices add up to the total the validator checks. */
  lemma ChartSumsToTotal(assets: seq<Asset>)
    ensures Sum(ChartValues(ChartData(assets))) == Sum(Allocations(assets))
  {
    assert ChartValues(ChartData(assets)) == Allocations(assets);
  }

  /** The categories that occur among the assets. */
  function Categories(assets: seq<Asset>): set<string> {
    set i | 0 <= i < |assets| :: assets[i].category
  }

  /** The summed allocation of the assets in category c. */
  function CategorySum(assets: seq<Asset>, c: string): real {
    if assets == [] then 0.0
    else
      var last := assets[|assets| - 1];
      CategorySum(assets[..|assets| - 1], c) + (if last.category == c then last.allocation else 0.0)
  }

  /** The total allocation, summed from the end as CategorySum is. */
  function TotalAllocation(assets: seq<Asset>): real {
    if assets == [] then 0.0
    else TotalAllocation(assets[..|assets| - 1]) + assets[|assets| - 1].allocation
  }

  lemma {:induction false} TotalIsSum(assets: seq<Asset>)
    ensures TotalAllocation(assets) == Sum(Allocations(assets))
  {
    if assets != [] {
      var init := assets[..|assets| - 1];
      TotalIsSum(init);
      assert Allocations(assets) == Allocations(init) + [assets[|assets| - 1].allocation];
      SumAppend(Allocations(init), [assets[|assets| - 1].allocation]);
    }
  }

  predicate KnownCategories(assets: seq<Asset>) {
    forall i :: 0 <= i < |assets| ==> assets[i].category in {"stocks", "bonds", "etf", "crypto"}
  }

  /** With every asset in one of the four categories, the category totals add up to the total allocation. */
  lemma {:induction false} CategoryTotalsSumToTotal(assets: seq<Asset>)
    requires KnownCategories(assets)
    ensures CategorySum(assets, "stocks") + CategorySum(assets, "bonds")
          + CategorySum(assets, "etf") + CategorySum(assets, "crypto") == TotalAllocation(assets)
  {
    if assets != [] {
      CategoryTotalsSumToTotal(assets[..|assets| - 1]);
    }
  }

  /** A category absent from the assets sums to 0. */
  lemma {:induction false} AbsentCategorySum(assets: seq<Asset>, c: string)
    requires c !in Categories(assets)
    ensures CategorySum(assets, c) == 0.0
  {
    if assets != [] {
      var init := assets[..|assets| - 1];
      assert Categories(init) <= Categories(assets) by {
        forall x | x in Categories(init)
          ensures x in Categories(assets)
        {
          var i :| 0 <= i < |init| && init[i].category == x;
          assert assets[i].category == x;
        }
      }
      AbsentCategorySum(init, c);
      assert assets[|assets| - 1].category in Categories(assets);
    }
  }

  /** The categoryTotals reduce: one key per category present, mapped to its total. */
  method CategoryTotals(assets: seq<Asset>) returns (acc: map<string, real>)
    ensures acc.Keys == Categories(assets)
    ensures forall c :: c in acc ==> acc[c] == CategorySum(assets, c)
  {
    acc := map[];
    var i := 0;
    while i < |assets|
      invariant 0 <= i <= |assets|
      invariant acc.Keys == Categories(assets[..i])
      invariant forall c :: c in acc ==> acc[c] == CategorySum(assets[..i], c)
    {
      var asset := assets[i];
      acc := acc[asset.category := (if asset.category in acc then acc[asset.category] else 0.0) + asset.allocation];
      assert assets[..i + 1][..i] == assets[..i];
      assert Categories(assets[..i + 1]) == Categories(assets[..i]) + {asset.category} by {
        forall x | x in Categories(assets[..i + 1])
          ensures x in Categories(assets[..i]) + {asset.category}
        {
          var k :| 0 <= k < i + 1 && assets[..i + 1][k].category == x;
          if k < i {
            assert assets[..i][k].category == x;
          }
        }
        forall x | x in Categories(assets[..i])
          ensures x in Categories(assets[..i + 1])
        {
          var k :| 0 <= k < i && assets[..i][k].category == x;
          assert assets[..i + 1][k].category == x;
        }
        assert assets[..i + 1][i].category == asset.category;
      }
      forall c | c in acc
        ensures acc[c] == CategorySum(assets[..i + 1], c)
      {
        if c == asset.category && c !in Categories(assets[..i]) {
          AbsentCategorySum(assets[..i], c);
        }
      }
      i := i + 1;
    }
    assert assets[..|assets|] == assets;
  }

  function RiskScores(assets: seq<Asset>): (r: seq<real>)
    ensures |r| == |assets| && forall i :: 0 <= i < |assets| ==> r[i] == assets[i].riskScore
  {
    seq(|assets|, i requires 0 <= i < |assets| => assets[i].riskScore)
  }

  /** The mean risk score; 0 with no assets. */
  function AverageRisk(assets: seq<Asset>): (r: real)
    ensures assets == [] ==> r == 0.0
    ensures assets != [] ==> r * |assets| as real == Sum(RiskScores(assets))
  {
    if |assets| > 0 then Sum(RiskScores(assets)) / |assets| as real else 0.0
  }

  lemma {:induction false} SumBounds(xs: seq<real>, lo: real, hi: real)
    requires forall i :: 0 <= i < |xs| ==> lo <= xs[i] <= hi
    ensures lo * |xs| as real <= Sum(xs) <= hi * |xs| as real
  {
    if xs != [] {
      SumBounds(xs[1..], lo, hi);
    }
  }

  /** The mean lies between the lowest and the highest risk score. */
  lemma AverageRiskBounds(assets: seq<Asset>, lo: real, hi: real)
    requires assets != []
    requires forall i :: 0 <= i < |assets| ==> lo <= assets[i].riskScore <= hi
    ensures lo <= AverageRisk(assets) <= hi
  {
    SumBounds(RiskScores(assets), lo, hi);
  }

  /** JavaScript `totals.c && totals.c > bound`-style lookups: the total of c when c is a key. */
  function Lookup(totals: map<string, real>, c: string): Option<real> {
    if c in totals then Some(totals[c]) else None
  }

  predicate CryptoHighHolds(assets: seq<Asset>) {
    "crypto" in Categories(assets) && CategorySum(assets, "crypto") > 10.0
  }

  predicate StocksLowHolds(assets: seq<Asset>) {
    "stocks" in Categories(assets) && CategorySum(assets, "stocks") != 0.0 && CategorySum(assets, "stocks") < 20.0
  }

  /** validatePortfolio. */
  method ValidatePortfolio(assets: seq<Asset>) returns (errors: seq<Issue>, warnings: seq<Issue>, isValid: bool)
    ensures errors == if Abs(Sum(Allocations(assets)) - 100.0) > 0.01 then [AllocationOff(Sum(Allocations(assets)))] else []
    ensures isValid <==> errors == []
    ensures warnings == (if CryptoHighHolds(assets) then [CryptoHigh] else [])
                      + (if StocksLowHolds(assets) then [StocksLow] else [])
                      + (if AverageRisk(assets) > 8.0 then [RiskHigh] else [])
    ensures |warnings| <= 3
  {
    var categoryTotals := CategoryTotals(assets);
    var averageRisk := AverageRisk(assets);
    var totalAllocation := Sum(Allocations(assets));
    errors := [];
    warnings := [];

    if Abs(totalAllocation - 100.0) > 0.01 {
      errors := errors + [AllocationOff(totalAllocation)];
    }

    var crypto := Lookup(categoryTotals, "crypto");
    if Truthy(crypto) && crypto.value > 10.0 {
      warnings := warnings + [CryptoHigh];
    }

    var stocks := Lookup(categoryTotals, "stocks");
    if Truthy(stocks) && stocks.value < 20.0 {
      warnings := warnings + [StocksLow];
    }

    if averageRisk > 8.0 {
      warnings := warnings + [RiskHigh];
    }

    isValid := |errors| == 0;
  }
}
