/**
 * The stand-alone planner: the same form and recommendation figures as the
 * client application's planner (their code is identical, so the model uses
 * PlannerApp's definitions), without a profile to initialise from; the form
 * also shows a two-line summary.
 */
module StandaloneApp {
  import opened PlannerApp
  import FinancialVisualization

  /** The form's summary box: the monthly surplus and the savings shown as available. */
  datatype Summary = Summary(monthlySurplus: real, availableForInvestment: real)

  function FormSummary(d: FinancialData): (r: Summary)
    ensures r.monthlySurplus == FinancialVisualization.MonthlySurplus(d)
    ensures r.availableForInvestment == d.currentSavings
  {
    Summary(d.monthlyIncome - d.monthlyExpenses, d.currentSavings)
  }

  /**
   * The summary's "available" figure is the whole savings, while the
   * recommendation card keeps six months of expenses back: with any
   * expenses and positive savings the summary shows more.
   */
  lemma SummaryOverstatesAvailable(d: FinancialData)
    requires d.monthlyExpenses > 0.0
    ensures Recommend(d).availableForInvestment < FormSummary(d).availableForInvestment
            || d.currentSavings <= 0.0
  {
  }

  class App {
    var currentStep: int
    var financialData: FinancialData

    constructor()
      ensures currentStep == 0 && financialData == FinancialVisualization.FinancialData(0.0, 0.0, 0.0)
    {
      currentStep := 0;
      financialData := FinancialVisualization.FinancialData(0.0, 0.0, 0.0);
    }

    /** The form's setData with handleInputChange's new record. */
    method HandleInputChange(field: Field, value: string)
      modifies this
      ensures financialData == UpdateField(old(financialData), field, value)
      ensures currentStep == old(currentStep)
    {
      financialData := UpdateField(financialData, field, value);
    }

    method NextStep()
      modifies this
      ensures currentStep == 1 && financialData == old(financialData)
    {
      currentStep := 1;
    }

    method PrevStep()
      modifies this
      ensures currentStep == 0 && financialData == old(financialData)
    {
      currentStep := 0;
    }
  }
}
