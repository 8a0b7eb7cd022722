/**
 * The settings page: the preference and profile records edited field by
 * field, the budget-percentage total and its message, and the projected
 * number of months to reach the emergency-fund target.
 */
module Settings {
  import opened Common
  import opened Parse
  import FinancialVisualization

  /** A form value: null, a number or a string. */
  datatype FieldValue = Null | Num(n: real) | Text(s: string)

  /** A record keyed by its field names, as the page's objects are. */
  type Record = map<string, FieldValue>

  function PreferenceFields(): set<string> {
    {"emergency_fund_target", "monthly_contribution", "emergency_goal",
     "budget_housing_percent", "budget_food_percent", "budget_transportation_percent",
     "budget_utilities_percent", "budget_entertainment_percent", "budget_other_percent"}
  }

  function ProfileFields(): set<string> {
    {"full_name", "email", "phone", "age", "occupation", "annual_income",
     "current_savings", "monthly_expenses", "financial_goal", "risk_tolerance"}
  }

  /** The six budget fields, in the order the total lists them. */
  function BudgetFields(): seq<string> {
    ["budget_housing_percent", "budget_food_percent", "budget_transportation_percent",
     "budget_utilities_percent", "budget_entertainment_percent", "budget_other_percent"]
  }

  /** `value === '' ? null : value`. */
  function Blank(value: FieldValue): (r: FieldValue)
    ensures value == Text("") ==> r == Null
    ensures value != Text("") ==> r == value
  {
    if value == Text("") then Null else value
  }

  /** `{...rec, [field]: value === '' ? null : value}`: only `field` changes. */
  function WithField(rec: Record, field: string, value: FieldValue): (r: Record)
    ensures r.Keys == rec.Keys + {field}
    ensures r[field] == Blank(value)
    ensures forall k :: k in rec && k != field ==> r[k] == rec[k]
  {
    rec[field := Blank(value)]
  }

  /** Setting a field twice keeps only the second value. */
  lemma WithFieldTwice(rec: Record, field: string, v1: FieldValue, v2: FieldValue)
    ensures WithField(WithField(rec, field, v1), field, v2) == WithField(rec, field, v2)
  {
  }

  /** `parseFloat(v) || null`: NaN and 0 both become null. */
  function NumberInput(v: string): (r: FieldValue)
    ensures r == Null <==> ParseFloat(v).None? || ParseFloat(v) == Some(0.0)
    ensures r != Null ==> r == Num(ParseFloat(v).value) && r.n != 0.0
  {
    match ParseFloat(v)
    case Some(x) => if x == 0.0 then Null else Num(x)
    case None => Null
  }

  /** `parseInt(v) || null`, the age input. */
  function IntegerInput(v: string): (r: FieldValue)
    ensures r == Null <==> ParseInt(v).None? || ParseInt(v) == Some(0)
    ensures r != Null ==> r == Num(ParseInt(v).value as real)
  {
    match ParseInt(v)
    case Some(x) => if x == 0 then Null else Num(x as real)
    case None => Null
  }

  /** `v || null`, the emergency-goal textarea. */
  function TextOrNull(v: string): (r: FieldValue)
    ensures r == Null <==> v == ""
    ensures v != "" ==> r == Text(v)
  {
    if v == "" then Null else Text(v)
  }

  /** `val || 0` for a stored field. */
  function NumberOrZero(v: FieldValue): real {
    if v.Num? then v.n else 0.0
  }

  function Field(rec: Record, k: string): FieldValue {
    if k in rec then rec[k] else Null
  }

  function SumFields(rec: Record, ks: seq<string>): real {
    if ks == [] then 0.0 else NumberOrZero(Field(rec, ks[0])) + SumFields(rec, ks[1..])
  }

  /** The six budget percentages summed, null counting as 0. */
  function BudgetTotal(preferences: Record): real {
    SumFields(preferences, BudgetFields())
  }

  /** The budget fields read as the visualization page's nullable percents. */
  function BudgetOf(preferences: Record): FinancialVisualization.BudgetPrefs {
    var p := (k: string) => if Field(preferences, k).Num? then Some(Field(preferences, k).n) else None;
    FinancialVisualization.BudgetPrefs(p("budget_housing_percent"), p("budget_food_percent"),
                                       p("budget_transportation_percent"), p("budget_utilities_percent"),
                                       p("budget_entertainment_percent"), p("budget_other_percent"))
  }

  /** With all six percentages set, the total is what the visualization page splits the expenses by. */
  lemma BudgetTotalMatchesVisualization(preferences: Record)
    requires forall i :: 0 <= i < 6 ==> Field(preferences, BudgetFields()[i]).Num?
    ensures BudgetTotal(preferences) == Sum(FinancialVisualization.BudgetPercents(BudgetOf(preferences)))
  {
    var ks := BudgetFields();
    assert Field(preferences, ks[0]).Num? && Field(preferences, ks[1]).Num? && Field(preferences, ks[2]).Num?;
    assert Field(preferences, ks[3]).Num? && Field(preferences, ks[4]).Num? && Field(preferences, ks[5]).Num?;
    var v := (k: string) => NumberOrZero(Field(preferences, k));
    assert ks[5..][1..] == [];
    assert ks[4..][1..] == ks[5..];
    assert ks[3..][1..] == ks[4..];
    assert ks[2..][1..] == ks[3..];
    assert ks[1..][1..] == ks[2..];
    assert ks[0..] == ks;
    assert SumFields(preferences, ks[5..]) == v(ks[5]);
    assert SumFields(preferences, ks[4..]) == v(ks[4]) + v(ks[5]);
    assert SumFields(preferences, ks[3..]) == v(ks[3]) + v(ks[4]) + v(ks[5]);
    assert SumFields(preferences, ks[2..]) == v(ks[2]) + v(ks[3]) + v(ks[4]) + v(ks[5]);
    assert SumFields(preferences, ks[1..]) == v(ks[1]) + v(ks[2]) + v(ks[3]) + v(ks[4]) + v(ks[5]);
    assert BudgetTotal(preferences) == v(ks[0]) + v(ks[1]) + v(ks[2]) + v(ks[3]) + v(ks[4]) + v(ks[5]);
    var b := BudgetOf(preferences);
    SumSix(Nullish(b.housing, 30.0), Nullish(b.food, 15.0), Nullish(b.transportation, 15.0),
           Nullish(b.utilities, 10.0), Nullish(b.entertainment, 10.0), Nullish(b.other, 20.0));
  }

  /** Editing a field that is not a budget percentage leaves the total as it was. */
  lemma BudgetTotalIgnoresOtherFields(preferences: Record, field: string, value: FieldValue)
    requires field !in BudgetFields()
    ensures BudgetTotal(WithField(preferences, field, value)) == BudgetTotal(preferences)
  {
    var r := WithField(preferences, field, value);
    forall k | k in BudgetFields()
      ensures Field(r, k) == Field(preferences, k)
    {
    }
    SumFieldsAgree(r, preferences, BudgetFields());
  }

  lemma {:induction false} SumFieldsAgree(a: Record, b: Record, ks: seq<string>)
    requires forall k :: k in ks ==> Field(a, k) == Field(b, k)
    ensures SumFields(a, ks) == SumFields(b, ks)
  {
    if ks != [] {
      assert ks[0] in ks;
      assert forall k :: k in ks[1..] ==> k in ks;
      SumFieldsAgree(a, b, ks[1..]);
    }
  }

  const ExceedsMessage := "Total exceeds 100%. Please adjust the percentages."
  const ShortfallMessage := "Total is less than 100%. You may want to distribute the remaining percentage."

  /** The note under the total: none at exactly 100, else which way it is off. */
  function BudgetMessage(total: real): (r: Option<string>)
    ensures r.None? <==> total == 100.0
    ensures total > 100.0 ==> r == Some(ExceedsMessage)
    ensures total < 100.0 ==> r == Some(ShortfallMessage)
  {
    if total == 100.0 then None
    else if total > 100.0 then Some(ExceedsMessage)
    else Some(ShortfallMessage)
  }

  /**
   * The projected timeline: ceil(target / contribution) months, shown only
   * when the target is truthy and the contribution is a positive number.
   */
  function MonthsToGoal(target: FieldValue, contribution: FieldValue): (r: Option<int>)
    ensures r.Some? <==> target.Num? && target.n != 0.0 && contribution.Num? && contribution.n > 0.0
    ensures r.Some? ==> (r.value - 1) as real * contribution.n < target.n <= r.value as real * contribution.n
  {
    if target.Num? && target.n != 0.0 && contribution.Num? && contribution.n > 0.0 then
      var m := Ceil(target.n / contribution.n);
      assert target.n / contribution.n <= m as real < target.n / contribution.n + 1.0;
      var q := target.n / contribution.n;
      assert q * contribution.n == target.n;
      MulLess(q, m as real, contribution.n);
      MulLess((m - 1) as real, q, contribution.n);
      Some(m)
    else None
  }

  /** Copy current_savings and monthly_expenses from the fetched preferences; a missing key reads as null. */
  function WithFoundation(profile: Record, data: Record): (r: Record)
    ensures r.Keys == profile.Keys + {"current_savings", "monthly_expenses"}
    ensures r["current_savings"] == Field(data, "current_savings")
    ensures r["monthly_expenses"] == Field(data, "monthly_expenses")
    ensures forall k :: k in profile && k != "current_savings" && k != "monthly_expenses" ==> r[k] == profile[k]
  {
    profile["current_savings" := Field(data, "current_savings")]["monthly_expenses" := Field(data, "monthly_expenses")]
  }

  /** The page state the handlers update. */
  class SettingsPage {
    var preferences: Record
    var profile: Record

    constructor()
      ensures preferences.Keys == PreferenceFields() && forall k :: k in preferences ==> preferences[k] == Null
      ensures profile.Keys == ProfileFields()
    {
      preferences := map k | k in PreferenceFields() :: Null;
      profile := map["full_name" := Text(""), "email" := Text(""), "phone" := Text(""), "age" := Null,
                     "occupation" := Text(""), "annual_income" := Null, "current_savings" := Null,
                     "monthly_expenses" := Null, "financial_goal" := Text(""), "risk_tolerance" := Text("")];
    }

    /** handleInputChange. */
    method HandleInputChange(field: string, value: FieldValue)
      modifies this
      ensures preferences == WithField(old(preferences), field, value)
      ensures profile == old(profile)
    {
      preferences := preferences[field := if value == Text("") then Null else value];
    }

    /** handleProfileInputChange. */
    method HandleProfileInputChange(field: string, value: FieldValue)
      modifies this
      ensures profile == WithField(old(profile), field, value)
      ensures preferences == old(preferences)
    {
      profile := profile[field := if value == Text("") then Null else value];
    }

    /** fetchPreferences after a successful response carrying `data`. */
    method FetchPreferences(data: Record)
      modifies this
      ensures preferences == data
      ensures profile == WithFoundation(old(profile), data)
    {
      preferences := data;
      profile := profile["current_savings" := Field(data, "current_savings")]["monthly_expenses" := Field(data, "monthly_expenses")];
    }
  }
}
