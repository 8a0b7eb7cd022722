/**
 * The dashboard's overview figures, estimated from the annual income given
 * at sign-up, and its risk-tolerance line. The page's normaliser and label
 * function are verbatim copies of the ones in the visualization page, so
 * the model uses those definitions.
 */
module Dashboard {
  import opened Common
  import opened FinancialVisualization

  datatype Overview = Overview(monthlyIncome: real, monthlyExpenses: real, monthlySurplus: real, emergencyFundTarget: real)

  /** The derived figures: 70% of the income is assumed to be spent. */
  function Figures(annualIncome: Option<real>): (r: Overview)
    ensures r.monthlyIncome == OrElse(annualIncome, 0.0) / 12.0
    ensures r.monthlyExpenses == 0.7 * r.monthlyIncome
    ensures r.monthlySurplus == 0.3 * r.monthlyIncome
    ensures r.emergencyFundTarget == 0.35 * OrElse(annualIncome, 0.0)
  {
    var annual := OrElse(annualIncome, 0.0);
    var monthlyIncome := if annual != 0.0 then annual / 12.0 else 0.0;
    var monthlyExpenses := monthlyIncome * 0.7;
    var monthlySurplus := monthlyIncome - monthlyExpenses;
    Overview(monthlyIncome, monthlyExpenses, monthlySurplus, monthlyExpenses * 6.0)
  }

  /** Without saved expenses the dashboard and the visualization page show the same target. */
  lemma TargetAgreesWithVisualization(annualIncome: real, budget: BudgetPrefs)
    ensures Figures(Some(annualIncome)).emergencyFundTarget
         == LoadFinancialData(Some(annualIncome), None, budget).emergencyTarget
  {
  }

  /** JavaScript truthiness of a risk_tolerance value. */
  predicate RiskIsSet(risk: RiskValue) {
    match risk
    case Missing => false
    case Num(x) => x != 0.0
    case Str(s) => s != ""
  }

  /** The risk line: a label and a score out of 10, present only for a truthy value. */
  function RiskLine(risk: RiskValue): (r: Option<(string, real)>)
    ensures r.Some? <==> RiskIsSet(risk)
    ensures r.Some? ==> 1.0 <= r.value.1 <= 10.0 && r.value.0 == RiskLabel(r.value.1)
    ensures r.Some? ==> r.value.1 == Normalize(risk)
  {
    if RiskIsSet(risk) then Some((RiskLabel(Normalize(risk)), Normalize(risk))) else None
  }
}
