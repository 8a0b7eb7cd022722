/**
 * The planner of the client application: a three-field form (current
 * savings, monthly income, monthly expenses) that can only be submitted
 * when every field is positive, the three recommendation figures derived
 * from it, the one-time initialisation from the user's profile and saved
 * preferences, the two-step navigation, and the route guards.
 */
module PlannerApp {
  import opened Common
  import opened Parse
  import FinancialVisualization

  type FinancialData = FinancialVisualization.FinancialData

  datatype Field = CurrentSavings | MonthlyIncome | MonthlyExpenses

  /** `parseFloat(value) || 0`: NaN and 0 both give 0. */
  function NumberOrZero(value: string): (r: real)
    ensures ParseFloat(value).Some? ==> r == ParseFloat(value).value
    ensures ParseFloat(value).None? ==> r == 0.0
  {
    match ParseFloat(value)
    case Some(x) => x
    case None => 0.0
  }

  function Get(d: FinancialData, field: Field): real {
    match field
    case CurrentSavings => d.currentSavings
    case MonthlyIncome => d.monthlyIncome
    case MonthlyExpenses => d.monthlyExpenses
  }

  /** handleInputChange: `{...data, [field]: parseFloat(value) || 0}`. */
  function UpdateField(d: FinancialData, field: Field, value: string): (r: FinancialData)
    ensures Get(r, field) == NumberOrZero(value)
    ensures forall f: Field :: f != field ==> Get(r, f) == Get(d, f)
  {
    match field
    case CurrentSavings => d.(currentSavings := NumberOrZero(value))
    case MonthlyIncome => d.(monthlyIncome := NumberOrZero(value))
    case MonthlyExpenses => d.(monthlyExpenses := NumberOrZero(value))
  }

  /** isFormValid: all three figures positive. */
  predicate IsFormValid(d: FinancialData) {
    d.currentSavings > 0.0 && d.monthlyIncome > 0.0 && d.monthlyExpenses > 0.0
  }

  /** A field that does not parse to a positive number leaves the form invalid, whatever the others hold. */
  lemma InvalidInputBlocksSubmit(d: FinancialData, field: Field, value: string)
    requires ParseFloat(value).None? || ParseFloat(value).value <= 0.0
    ensures !IsFormValid(UpdateField(d, field, value))
  {
  }

  /** Entering positive numbers in all three fields makes the form valid. */
  lemma PositiveInputsValidate(d: FinancialData, s: string, i: string, e: string)
    requires ParseFloat(s).Some? && ParseFloat(s).value > 0.0
    requires ParseFloat(i).Some? && ParseFloat(i).value > 0.0
    requires ParseFloat(e).Some? && ParseFloat(e).value > 0.0
    ensures IsFormValid(UpdateField(UpdateField(UpdateField(d, CurrentSavings, s), MonthlyIncome, i), MonthlyExpenses, e))
  {
    var d1 := UpdateField(d, CurrentSavings, s);
    var d2 := UpdateField(d1, MonthlyIncome, i);
    var d3 := UpdateField(d2, MonthlyExpenses, e);
    assert Get(d3, CurrentSavings) == Get(d2, CurrentSavings) == Get(d1, CurrentSavings);
    assert Get(d3, MonthlyIncome) == Get(d2, MonthlyIncome);
  }

  /** The three cards of the recommendations step. */
  datatype Figures = Figures(emergencyFund: real, availableForInvestment: real, monthlyInvestment: real)

  /**
   * Six months of expenses kept aside; the savings beyond that, and the
   * monthly surplus, both shown as at least 0.
   */
  function Recommend(d: FinancialData): (r: Figures)
    ensures r.emergencyFund == 6.0 * d.monthlyExpenses
    ensures r.availableForInvestment >= 0.0 && r.monthlyInvestment >= 0.0
    ensures d.currentSavings >= r.emergencyFund ==> r.availableForInvestment + r.emergencyFund == d.currentSavings
    ensures d.currentSavings < r.emergencyFund ==> r.availableForInvestment == 0.0
    ensures d.monthlyIncome >= d.monthlyExpenses ==> r.monthlyInvestment == FinancialVisualization.MonthlySurplus(d)
    ensures d.monthlyIncome < d.monthlyExpenses ==> r.monthlyInvestment == 0.0
  {
    var monthlySurplus := d.monthlyIncome - d.monthlyExpenses;
    var emergencyFund := d.monthlyExpenses * 6.0;
    var availableForInvestment := d.currentSavings - emergencyFund;
    Figures(emergencyFund, Max(0.0, availableForInvestment), Max(0.0, monthlySurplus))
  }

  /** A valid form: a positive emergency fund, and nothing recommended beyond the savings or the income. */
  lemma RecommendationsWithinMeans(d: FinancialData)
    requires IsFormValid(d)
    ensures Recommend(d).emergencyFund > 0.0
    ensures Recommend(d).availableForInvestment < d.currentSavings
    ensures Recommend(d).monthlyInvestment < d.monthlyIncome
  {
  }

  /**
   * The figures the effect loads: the monthly income from the annual one,
   * saved expenses or an estimate of 70% of the income, and saved savings
   * or 0. `prefs` is None when the request was not ok or threw.
   */
  function Initial(annualIncome: Option<real>, prefs: Option<FinancialVisualization.SavedPreferences>): (r: FinancialData)
    ensures r.monthlyIncome == OrElse(annualIncome, 0.0) / 12.0
    ensures prefs.Some? && Truthy(prefs.value.monthlyExpenses) ==> r.monthlyExpenses == prefs.value.monthlyExpenses.value
    ensures !(prefs.Some? && Truthy(prefs.value.monthlyExpenses)) ==> r.monthlyExpenses == 0.7 * r.monthlyIncome
    ensures prefs.Some? ==> r.currentSavings == OrElse(prefs.value.currentSavings, 0.0)
    ensures prefs.None? ==> r.currentSavings == 0.0
  {
    var monthlyIncome := OrElse(annualIncome, 0.0) / 12.0;
    match prefs
    case Some(p) =>
      FinancialVisualization.FinancialData(OrElse(p.currentSavings, 0.0), OrDefault(monthlyIncome, 0.0),
                                           OrElse(p.monthlyExpenses, monthlyIncome * 0.7))
    case None =>
      FinancialVisualization.FinancialData(0.0, OrDefault(monthlyIncome, 0.0), monthlyIncome * 0.7)
  }

  /** The planner starts from the same figures the visualization page loads from the same responses. */
  lemma InitialAgreesWithVisualization(annualIncome: Option<real>, prefs: Option<FinancialVisualization.SavedPreferences>,
                                       budget: FinancialVisualization.BudgetPrefs)
    ensures Initial(annualIncome, prefs) == FinancialVisualization.LoadFinancialData(annualIncome, prefs, budget).data
  {
  }

  /** The parts of the signed-in session the effect reads. */
  datatype Session = Session(user: bool, annualIncome: Option<real>, token: Option<string>)

  /** The page the planner shows. */
  datatype Step = FormStep | RecommendationsStep

  class Planner {
    var currentStep: int
    var financialData: FinancialData
    var isInitialized: bool
    /** The number of user-preferences requests sent. */
    var requests: nat

    constructor()
      ensures currentStep == 0 && financialData == FinancialVisualization.FinancialData(0.0, 0.0, 0.0)
      ensures !isInitialized && requests == 0
    {
      currentStep := 0;
      financialData := FinancialVisualization.FinancialData(0.0, 0.0, 0.0);
      isInitialized := false;
      requests := 0;
    }

    /** Whether the effect does anything: a user and a token, and not yet initialised. */
    predicate WillInitialize(s: Session)
      reads this
    {
      s.user && !isInitialized && s.token.Some? && s.token.value != ""
    }

    /**
     * The initialisation effect, run with the session and what the request
     * returned. It loads the figures at most once.
     */
    method FetchFinancialData(s: Session, prefs: Option<FinancialVisualization.SavedPreferences>)
      modifies this
      ensures old(WillInitialize(s)) ==>
        financialData == Initial(s.annualIncome, prefs) && isInitialized && requests == old(requests) + 1
      ensures !old(WillInitialize(s)) ==>
        financialData == old(financialData) && isInitialized == old(isInitialized) && requests == old(requests)
      ensures currentStep == old(currentStep)
    {
      if s.user && !isInitialized && s.token.Some? && s.token.value != "" {
        requests := requests + 1;
        var monthlyIncome := OrElse(s.annualIncome, 0.0) / 12.0;
        match prefs {
          case Some(p) =>
            financialData := FinancialVisualization.FinancialData(
              OrElse(p.currentSavings, 0.0), OrDefault(monthlyIncome, 0.0), OrElse(p.monthlyExpenses, monthlyIncome * 0.7));
          case None =>
            financialData := FinancialVisualization.FinancialData(0.0, OrDefault(monthlyIncome, 0.0), monthlyIncome * 0.7);
        }
        isInitialized := true;
      }
    }

    /** The form's input handler. */
    method HandleInputChange(field: Field, value: string)
      modifies this
      ensures financialData == UpdateField(old(financialData), field, value)
      ensures currentStep == old(currentStep) && isInitialized == old(isInitialized) && requests == old(requests)
    {
      financialData := UpdateField(financialData, field, value);
    }

    method NextStep()
      modifies this
      ensures currentStep == 1
      ensures financialData == old(financialData) && isInitialized == old(isInitialized) && requests == old(requests)
    {
      currentStep := 1;
    }

    method PrevStep()
      modifies this
      ensures currentStep == 0
      ensures financialData == old(financialData) && isInitialized == old(isInitialized) && requests == old(requests)
    {
      currentStep := 0;
    }

    /** Step 0 renders the form, any other step the recommendations. */
    function Shown(): (r: Step)
      reads this
      ensures r == FormStep <==> currentStep == 0
    {
      if currentStep == 0 then FormStep else RecommendationsStep
    }
  }

  /** A second run of the effect changes nothing and sends nothing. */
  method InitializeTwice(s: Session, first: Option<FinancialVisualization.SavedPreferences>,
                         second: Option<FinancialVisualization.SavedPreferences>)
    returns (data: FinancialData, requests: nat)
    requires s.user && s.token.Some? && s.token.value != ""
    ensures data == Initial(s.annualIncome, first) && requests == 1
  {
    var p := new Planner();
    p.FetchFinancialData(s, first);
    p.FetchFinancialData(s, second);
    data := p.financialData;
    requests := p.requests;
  }

  /** What a route guard renders. */
  datatype RouteView = Loading | Children | Redirect(to: string)

  /** The authentication state the guards read. */
  datatype Auth = Auth(isAuthenticated: bool, loading: bool)

  function ProtectedRoute(a: Auth): (r: RouteView)
    ensures r == Loading <==> a.loading
    ensures r == Children <==> !a.loading && a.isAuthenticated
    ensures r == Redirect("/login") <==> !a.loading && !a.isAuthenticated
  {
    if a.loading then Loading
    else if a.isAuthenticated then Children
    else Redirect("/login")
  }

  function PublicRoute(a: Auth): (r: RouteView)
    ensures r == Loading <==> a.loading
    ensures r == Children <==> !a.loading && !a.isAuthenticated
    ensures r == Redirect("/dashboard") <==> !a.loading && a.isAuthenticated
  {
    if a.loading then Loading
    else if a.isAuthenticated then Redirect("/dashboard")
    else Children
  }

  /** Once loading is over, exactly one of the two kinds of page renders its content. */
  lemma GuardsAreComplementary(a: Auth)
    requires !a.loading
    ensures ProtectedRoute(a) == Children <==> PublicRoute(a) != Children
  {
  }
}
