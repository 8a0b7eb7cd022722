/**
 * The financial-visualization page: the risk-tolerance scale shared by the
 * pages (normalisation, labels, colours, the value saved to the profile),
 * the second risk-loading branch, the 30-year money-growth projection, the
 * budget breakdown and the emergency-fund target.
 */
module FinancialVisualization {
  import opened Common
  import opened Text
  import opened Parse

  /** A profile's risk_tolerance: absent (null or undefined), a number or a string. */
  datatype RiskValue = Missing | Num(x: real) | Str(s: string)

  /** normalizeRiskTolerance: any stored risk value onto the 1-10 scale. */
  function Normalize(risk: RiskValue): (r: real)
    ensures 1.0 <= r <= 10.0
    ensures risk.Missing? ==> r == 5.0
    ensures risk.Num? ==> r == Clamp(1.0, 10.0, risk.x)
  {
    match risk
    case Missing => 5.0
    case Num(x) => Clamp(1.0, 10.0, x)
    case Str(s) =>
      match ToNumber(s)
      case Some(x) => Clamp(1.0, 10.0, x)
      case None =>
        var lower := Lower(s);
        if lower == "conservative" then 3.0
        else if lower == "moderate" then 6.0
        else if lower == "aggressive" then 9.0
        else 5.0
  }

  /** A numeric string is clamped like the number it spells. */
  lemma NormalizeNumericString(s: string, x: real)
    requires ToNumber(s) == Some(x)
    ensures Normalize(Str(s)) == Normalize(Num(x))
  {
  }

  /** An empty or blank string reads as the number 0 and so lands on 1, not on the default 5. */
  lemma NormalizeBlank(s: string)
    requires Trim(s) == []
    ensures Normalize(Str(s)) == 1.0
  {
  }

  /** A string whose lower-case form is a category name is that category's score. */
  lemma NormalizeCategoryName(s: string)
    requires Lower(s) == "conservative" || Lower(s) == "moderate" || Lower(s) == "aggressive"
    ensures Lower(s) == "conservative" ==> Normalize(Str(s)) == 3.0
    ensures Lower(s) == "moderate" ==> Normalize(Str(s)) == 6.0
    ensures Lower(s) == "aggressive" ==> Normalize(Str(s)) == 9.0
  {
    assert s != [] && Lower(s)[0] == LowerChar(s[0]);
    LetterIsNotNumber(s);
  }

  /** Any other non-numeric string falls back to 5. */
  lemma NormalizeOtherString(s: string)
    requires ToNumber(s) == None
    requires Lower(s) !in ["conservative", "moderate", "aggressive"]
    ensures Normalize(Str(s)) == 5.0
  {
  }

  /** Normalising a value already on the scale changes nothing. */
  lemma NormalizeIdempotent(risk: RiskValue)
    ensures Normalize(Num(Normalize(risk))) == Normalize(risk)
  {
  }

  /** getRiskLabel. */
  function RiskLabel(risk: real): (r: string)
    ensures r == "Conservative" <==> risk <= 3.0
    ensures r == "Moderate" <==> 3.0 < risk <= 7.0
    ensures r == "Aggressive" <==> 7.0 < risk
  {
    if risk <= 3.0 then "Conservative"
    else if risk <= 7.0 then "Moderate"
    else "Aggressive"
  }

  /** getRiskColor. */
  function RiskColor(risk: real): (r: string)
    ensures r == "#10b981" <==> risk <= 3.0
    ensures r == "#f59e0b" <==> 3.0 < risk <= 7.0
    ensures r == "#ef4444" <==> 7.0 < risk
  {
    if risk <= 3.0 then "#10b981"
    else if risk <= 7.0 then "#f59e0b"
    else "#ef4444"
  }

  /** mapRiskValue: the category name saved to the profile. */
  function MapRiskValue(value: real): (r: string)
    ensures r == "conservative" <==> value <= 3.0
    ensures r == "moderate" <==> 3.0 < value <= 7.0
    ensures r == "aggressive" <==> 7.0 < value
  {
    if value <= 3.0 then "conservative"
    else if value <= 7.0 then "moderate"
    else "aggressive"
  }

  /** The label, the colour and the saved value draw the same three bands. */
  lemma SharedThresholds(risk: real)
    ensures RiskLabel(risk) == "Conservative" <==> RiskColor(risk) == "#10b981"
    ensures RiskLabel(risk) == "Moderate" <==> RiskColor(risk) == "#f59e0b"
    ensures RiskLabel(risk) == "Aggressive" <==> RiskColor(risk) == "#ef4444"
    ensures RiskLabel(risk) == "Conservative" <==> MapRiskValue(risk) == "conservative"
    ensures RiskLabel(risk) == "Moderate" <==> MapRiskValue(risk) == "moderate"
    ensures RiskLabel(risk) == "Aggressive" <==> MapRiskValue(risk) == "aggressive"
  {
  }

  /** The label is the saved value capitalised: lowering it gives the saved value back. */
  lemma LabelLowersToSaved(risk: real)
    ensures Lower(RiskLabel(risk)) == MapRiskValue(risk)
  {
    if risk <= 3.0 {
      LowerOfCapitalised('C', "onservative");
    } else if risk <= 7.0 {
      LowerOfCapitalised('M', "oderate");
    } else {
      LowerOfCapitalised('A', "ggressive");
    }
  }

  /** Saving a risk value and reading it back gives the same category. */
  lemma MapRiskRoundTrip(n: real)
    ensures MapRiskValue(Normalize(Str(MapRiskValue(n)))) == MapRiskValue(n)
  {
    CategoryNamesAreLowerCase();
    NormalizeCategoryName(MapRiskValue(n));
  }

  lemma CategoryNamesAreLowerCase()
    ensures Lower("conservative") == "conservative"
    ensures Lower("moderate") == "moderate"
    ensures Lower("aggressive") == "aggressive"
  {
    LowerOfLowerCase("conservative");
    LowerOfLowerCase("moderate");
    LowerOfLowerCase("aggressive");
  }

  /** The strings the second loading branch does not hand to parseInt: the empty one and the three names. */
  predicate IsSavedName(s: string) {
    s == "" || s == "conservative" || s == "moderate" || s == "aggressive"
  }

  /**
   * The second loading branch, run after the preferences fetch when the
   * saved risk_tolerance is truthy: a number is taken as it is, the three
   * exact lower-case names map to 2, 5 and 9, and any other string is kept
   * only when parseInt gives an integer in 1..10.
   */
  function LoadSavedRisk(current: real, saved: RiskValue): (r: real)
    ensures saved.Missing? ==> r == current
    ensures saved.Num? ==> r == (if saved.x == 0.0 then current else saved.x)
    ensures saved.Str? ==> r == current || 1.0 <= r <= 10.0
    ensures saved == Str("") ==> r == current
    ensures saved == Str("conservative") ==> r == 2.0
    ensures saved == Str("moderate") ==> r == 5.0
    ensures saved == Str("aggressive") ==> r == 9.0
    ensures saved.Str? && !IsSavedName(saved.s) && ParseInt(saved.s).Some? && 1 <= ParseInt(saved.s).value <= 10 ==>
      r == ParseInt(saved.s).value as real
    ensures saved.Str? && !IsSavedName(saved.s) && !(ParseInt(saved.s).Some? && 1 <= ParseInt(saved.s).value <= 10) ==>
      r == current
  {
    match saved
    case Missing => current
    case Num(x) => if x == 0.0 then current else x
    case Str(s) =>
      if s == "" then current
      else if s == "conservative" then 2.0
      else if s == "moderate" then 5.0
      else if s == "aggressive" then 9.0
      else
        match ParseInt(s)
        case Some(p) => if 1 <= p <= 10 then p as real else current
        case None => current
  }

  /**
   * The risk shown after a profile has loaded: the first effect sets the
   * normalised value, then the fetch applies the second branch.
   */
  function RiskAfterLoad(saved: RiskValue): (r: real)
    ensures saved.Str? ==> 1.0 <= r <= 10.0
  {
    LoadSavedRisk(if saved.Missing? then 5.0 else Normalize(saved), saved)
  }

  /** The two mappings disagree on the exact name 'conservative'. */
  lemma ConservativeMappingsDiverge()
    ensures Normalize(Str("conservative")) == 3.0
    ensures RiskAfterLoad(Str("conservative")) == 2.0
  {
    CategoryNamesAreLowerCase();
    NormalizeCategoryName("conservative");
  }

  /** The second branch is case-sensitive: a capitalised name keeps the normalised score. */
  lemma CapitalisedNameKeepsNormalized()
    ensures RiskAfterLoad(Str("Conservative")) == 3.0
  {
    var s := "Conservative";
    LowerCapitalisedName();
    NormalizeCategoryName(s);
    assert ParseInt(s) == None by {
      NotAnIntegerPrefix(s);
    }
    assert LoadSavedRisk(3.0, Str(s)) == 3.0;
  }

  lemma LowerCapitalisedName()
    ensures Lower("Conservative") == "conservative"
  {
    var s := "Conservative";
    assert forall i :: 0 <= i < |s| ==> Lower(s)[i] == "conservative"[i];
  }

  lemma NotAnIntegerPrefix(s: string)
    requires s != [] && 'A' <= s[0] <= 'Z'
    ensures ParseInt(s) == None
  {
    assert TrimStart(s) == s;
    assert Unsigned(s) == s;
  }

  /** A saved number outside 1..10 is not clamped by the second branch. */
  lemma SavedNumberNotClamped()
    ensures RiskAfterLoad(Num(15.0)) == 15.0
  {
  }

  // ---------- money-growth projection ----------

  /** getExpectedReturn: the annual return for a risk score. */
  function ExpectedReturn(risk: real): (r: real)
    ensures r == 0.05 <==> risk <= 3.0
    ensures r == 0.08 <==> 3.0 < risk <= 7.0
    ensures r == 0.12 <==> 7.0 < risk
  {
    if risk <= 3.0 then 0.05 else if risk <= 7.0 then 0.08 else 0.12
  }

  /** The balance after `months` steps of v := v * (1 + rate) + deposit, from v. */
  function Compound(v: real, rate: real, deposit: real, months: nat): real {
    if months == 0 then v else Compound(v, rate, deposit, months - 1) * (1.0 + rate) + deposit
  }

  /** With no negative quantity, each month's balance is at least the last one's. */
  lemma {:induction false} CompoundGrows(v: real, rate: real, deposit: real, m: nat, n: nat)
    requires 0.0 <= v && 0.0 <= rate && 0.0 <= deposit && m <= n
    ensures v <= Compound(v, rate, deposit, m) <= Compound(v, rate, deposit, n)
    decreases n
  {
    if m < n {
      CompoundGrows(v, rate, deposit, m, n - 1);
      var prev := Compound(v, rate, deposit, n - 1);
      assert prev * (1.0 + rate) >= prev;
    } else if m > 0 {
      CompoundGrows(v, rate, deposit, m - 1, m - 1);
      var prev := Compound(v, rate, deposit, m - 1);
      assert prev * (1.0 + rate) >= prev;
    }
  }

  datatype ChartPoint = ChartPoint(year: string, value: int)

  function YearLabel(year: nat): string {
    if year == 0 then "Start" else "Year " + NatToString(year)
  }

  /** The projected value at point i: 60 months of growth per point. */
  function ChartValue(risk: real, surplus: real, i: nat): int {
    Round(Compound(0.0, ExpectedReturn(risk) / 12.0, surplus, 60 * i))
  }

  /** The inner loop of the projection: `months` more months of growth and deposits. */
  method GrowMonths(value: real, rate: real, deposit: real, ghost done: nat, months: nat) returns (v: real)
    requires value == Compound(0.0, rate, deposit, done)
    ensures v == Compound(0.0, rate, deposit, done + months)
  {
    v := value;
    var month := 0;
    while month < months
      invariant 0 <= month <= months
      invariant v == Compound(0.0, rate, deposit, done + month)
    {
      v := v * (1.0 + rate) + deposit;
      month := month + 1;
    }
  }

  /** MoneyGrowthChart's projection: points for years 0, 5, ..., 30. */
  method MoneyGrowthChart(riskTolerance: real, monthlySurplus: real) returns (chartData: seq<ChartPoint>)
    ensures |chartData| == 7
    ensures forall i :: 0 <= i < 7 ==>
      chartData[i] == ChartPoint(YearLabel(5 * i), ChartValue(riskTolerance, monthlySurplus, i))
  {
    var annualReturn := ExpectedReturn(riskTolerance);
    var monthlyReturn := annualReturn / 12.0;
    var years := 30;
    chartData := [];
    var currentValue := 0.0;
    var year := 0;
    while year <= years
      invariant 0 <= year <= years + 5 && year == 5 * |chartData|
      invariant currentValue == Compound(0.0, monthlyReturn, monthlySurplus, if year == 0 then 0 else 12 * (year - 5))
      invariant forall i :: 0 <= i < |chartData| ==>
        chartData[i] == ChartPoint(YearLabel(5 * i), ChartValue(riskTolerance, monthlySurplus, i))
    {
      if year == 0 {
        chartData := chartData + [ChartPoint(YearLabel(0), 0)];
      } else {
        currentValue := GrowMonths(currentValue, monthlyReturn, monthlySurplus, 12 * (year - 5), 12 * 5);
        assert 12 * (year - 5) + 60 == 60 * |chartData|;
        chartData := chartData + [ChartPoint(YearLabel(year), Round(currentValue))];
      }
      year := year + 5;
    }
  }

  /** The projection starts at 0 and never falls when the surplus is not negative. */
  lemma ChartNondecreasing(risk: real, surplus: real, i: nat, j: nat)
    requires 0.0 <= surplus && i <= j
    ensures ChartValue(risk, surplus, 0) == 0
    ensures ChartValue(risk, surplus, i) <= ChartValue(risk, surplus, j)
  {
    var rate := ExpectedReturn(risk) / 12.0;
    CompoundGrows(0.0, rate, surplus, 60 * i, 60 * j);
    RoundMonotone(Compound(0.0, rate, surplus, 60 * i), Compound(0.0, rate, surplus, 60 * j));
  }

  // ---------- budget breakdown and emergency target ----------

  /** The six saved budget percentages; None is null. */
  datatype BudgetPrefs = BudgetPrefs(
    housing: Option<real>, food: Option<real>, transportation: Option<real>,
    utilities: Option<real>, entertainment: Option<real>, other: Option<real>)

  const NoBudgetPrefs := BudgetPrefs(None, None, None, None, None, None)

  /** The percentages used when nothing is saved. */
  const DefaultPercents: seq<real> := [30.0, 15.0, 15.0, 10.0, 10.0, 20.0]

  /** The saved percentage of category i, in the order of DefaultPercents. */
  function SavedPercent(b: BudgetPrefs, i: nat): Option<real>
    requires i < 6
  {
    [b.housing, b.food, b.transportation, b.utilities, b.entertainment, b.other][i]
  }

  /** `pref ?? default`, category by category. */
  function BudgetPercents(b: BudgetPrefs): (r: seq<real>)
    ensures |r| == 6
    ensures forall i :: 0 <= i < 6 && SavedPercent(b, i).Some? ==> r[i] == SavedPercent(b, i).value
    ensures forall i :: 0 <= i < 6 && SavedPercent(b, i).None? ==> r[i] == DefaultPercents[i]
    ensures b == NoBudgetPrefs ==> r == DefaultPercents
  {
    [Nullish(b.housing, 30.0), Nullish(b.food, 15.0), Nullish(b.transportation, 15.0),
     Nullish(b.utilities, 10.0), Nullish(b.entertainment, 10.0), Nullish(b.other, 20.0)]
  }

  /** Each category's share of the monthly expenses. */
  function BudgetAmounts(expenses: real, percents: seq<real>): (r: seq<real>)
    ensures |r| == |percents|
    ensures forall i :: 0 <= i < |r| ==> r[i] == expenses * (percents[i] / 100.0)
  {
    seq(|percents|, i requires 0 <= i < |percents| => expenses * (percents[i] / 100.0))
  }

  /** The amounts add up to the expenses times the total percentage. */
  lemma {:induction false} BudgetAmountsSum(expenses: real, percents: seq<real>)
    ensures Sum(BudgetAmounts(expenses, percents)) == expenses * Sum(percents) / 100.0
    decreases |percents|
  {
    if percents != [] {
      var a := BudgetAmounts(expenses, percents);
      var rest := percents[1..];
      BudgetAmountsTail(expenses, percents);
      BudgetAmountsSum(expenses, rest);
      var p, t := percents[0], Sum(rest);
      var head, tail := a[0], Sum(a[1..]);
      assert head == expenses * (p / 100.0) && tail == expenses * t / 100.0;
      assert Sum(a) == head + tail && Sum(percents) == p + t;
      SharesAdd(expenses, p, t);
    }
  }

  lemma BudgetAmountsTail(expenses: real, percents: seq<real>)
    requires percents != []
    ensures BudgetAmounts(expenses, percents)[1..] == BudgetAmounts(expenses, percents[1..])
  {
    var a, b := BudgetAmounts(expenses, percents), BudgetAmounts(expenses, percents[1..]);
    assert forall i :: 0 <= i < |b| ==> a[1..][i] == b[i];
  }

  lemma SharesAdd(expenses: real, p: real, t: real)
    ensures expenses * (p / 100.0) + expenses * t / 100.0 == expenses * (p + t) / 100.0
  {
  }

  /** The defaults add up to 100%, so the default breakdown splits the expenses exactly. */
  lemma DefaultBudgetSplitsExpenses(expenses: real)
    ensures Sum(DefaultPercents) == 100.0
    ensures Sum(BudgetAmounts(expenses, BudgetPercents(NoBudgetPrefs))) == expenses
  {
    BudgetAmountsSum(expenses, DefaultPercents);
  }

  /** What the page holds after loading: `pref || null`, so a saved 0 becomes null. */
  function LoadBudgetPref(saved: Option<real>): (r: Option<real>)
    ensures r.None? <==> !Truthy(saved)
    ensures r.Some? ==> r == saved
  {
    if Truthy(saved) then saved else None
  }

  function LoadBudgetPrefs(b: BudgetPrefs): BudgetPrefs {
    BudgetPrefs(LoadBudgetPref(b.housing), LoadBudgetPref(b.food), LoadBudgetPref(b.transportation),
                LoadBudgetPref(b.utilities), LoadBudgetPref(b.entertainment), LoadBudgetPref(b.other))
  }

  /** A saved 0% does not survive loading: the category shows its default. */
  lemma SavedZeroShowsDefault(b: BudgetPrefs)
    requires b.housing == Some(0.0)
    ensures BudgetPercents(LoadBudgetPrefs(b))[0] == 30.0
  {
  }

  datatype FinancialData = FinancialData(currentSavings: real, monthlyIncome: real, monthlyExpenses: real)

  /** The part of a preferences response the page reads. */
  datatype SavedPreferences = SavedPreferences(currentSavings: Option<real>, monthlyExpenses: Option<real>, budget: BudgetPrefs)

  datatype PageData = PageData(data: FinancialData, emergencyTarget: real, budget: BudgetPrefs)

  /**
   * fetchFinancialData once the response is in: `prefs` is None when the
   * response is not ok, and the budget state then stays as it was.
   */
  function LoadFinancialData(annualIncome: Option<real>, prefs: Option<SavedPreferences>, budget: BudgetPrefs): (r: PageData)
    ensures r.data.monthlyIncome == OrElse(annualIncome, 0.0) / 12.0
    ensures r.emergencyTarget == 6.0 * r.data.monthlyExpenses
    ensures prefs.Some? && Truthy(prefs.value.monthlyExpenses) ==> r.data.monthlyExpenses == prefs.value.monthlyExpenses.value
    ensures !(prefs.Some? && Truthy(prefs.value.monthlyExpenses)) ==> r.data.monthlyExpenses == 0.7 * r.data.monthlyIncome
    ensures prefs.None? ==> r.data.currentSavings == 0.0 && r.budget == budget
    ensures prefs.Some? && Truthy(prefs.value.currentSavings) ==> r.data.currentSavings == prefs.value.currentSavings.value
    ensures prefs.Some? && !Truthy(prefs.value.currentSavings) ==> r.data.currentSavings == 0.0
    ensures prefs.Some? ==> r.budget == LoadBudgetPrefs(prefs.value.budget)
  {
    var monthlyIncome := OrElse(annualIncome, 0.0) / 12.0;
    match prefs
    case Some(p) =>
      var expenses := OrElse(p.monthlyExpenses, monthlyIncome * 0.7);
      PageData(FinancialData(OrElse(p.currentSavings, 0.0), OrDefault(monthlyIncome, 0.0), expenses),
               expenses * 6.0, LoadBudgetPrefs(p.budget))
    case None =>
      var expenses := monthlyIncome * 0.7;
      PageData(FinancialData(0.0, OrDefault(monthlyIncome, 0.0), expenses), expenses * 6.0, budget)
  }

  /** monthlySurplus. */
  function MonthlySurplus(d: FinancialData): real {
    d.monthlyIncome - d.monthlyExpenses
  }

  /** Without saved expenses the surplus is 30% of the monthly income and the target 35% of the annual income. */
  lemma EstimatedFigures(annualIncome: real, prefs: Option<SavedPreferences>, budget: BudgetPrefs)
    requires prefs.None? || !Truthy(prefs.value.monthlyExpenses)
    ensures MonthlySurplus(LoadFinancialData(Some(annualIncome), prefs, budget).data) == 0.3 * (annualIncome / 12.0)
    ensures LoadFinancialData(Some(annualIncome), prefs, budget).emergencyTarget == 0.35 * annualIncome
  {
  }
}
